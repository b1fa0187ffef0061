/**
 * A rotor: a wiring table that turns one pair at a time, searched in either
 * direction, and the carry it reports to the next rotor from its notch.
 */
module Rotors {
  import opened Alphabet
  import opened Wiring

  /** The `direction` argument: "rtl", "ltr", or anything else (including None). */
  datatype Direction = Rtl | Ltr | Unrecognised

  /** What `find_key` computes from a table. */
  function FindKeyIn(t: Table, key: char, direction: Direction): Result<char> {
    match direction
    case Rtl => LookupEntry(t, key)
    case Ltr => LookupWired(t, key)
    case Unrecognised => KeyError
  }

  /** What `rotate_next_rotor` computes: no carry going left, else whether the head entry is the notch. */
  function CarryOut(t: Table, notchKey: string, direction: Direction): bool
    requires direction == Ltr || |t| > 0
  {
    if direction == Ltr then false else [t[0].entry] == notchKey
  }

  /** The outcome of `Rotor.encode`: the returned pair or KeyError, and the rotor list afterwards. */
  datatype Encoded = Encoded(result: Result<(char, bool)>, rotor: Table)

  /**
   * What `Rotor.encode` does to a table: look the key up first, rotate only
   * when the lookup succeeded and `rotate` is set, then read the carry from
   * the table as it is after the optional rotation.
   */
  function EncodeIn(t: Table, notchKey: string, key: char, direction: Direction, rotate: bool): (e: Encoded)
  {
    match FindKeyIn(t, key, direction)
    case KeyError => Encoded(KeyError, t)
    case Ok(next) =>
      var turned := if rotate then Rotated(t) else t;
      Encoded(Ok((next, CarryOut(turned, notchKey, direction))), turned)
  }

  /**
   * `encode` leaves the list alone when the lookup raises; otherwise it turns
   * the list exactly once when asked to, and the carry is read from the head
   * after that optional turn, whether or not the rotor turned.
   */
  lemma EncodeSteps(t: Table, notchKey: string, key: char, direction: Direction, rotate: bool)
    ensures var e := EncodeIn(t, notchKey, key, direction, rotate);
      (e.result.KeyError? <==> FindKeyIn(t, key, direction).KeyError?) &&
      (e.result.KeyError? ==> e.rotor == t) &&
      (e.result.Ok? ==> e.result.value.0 == FindKeyIn(t, key, direction).value) &&
      (e.result.Ok? && rotate ==> e.rotor == Rotated(t) && e.rotor[0] == t[|t| - 1]) &&
      (e.result.Ok? && !rotate ==> e.rotor == t) &&
      (e.result.Ok? && direction == Ltr ==> !e.result.value.1) &&
      (e.result.Ok? && direction != Ltr ==> (e.result.value.1 <==> [e.rotor[0].entry] == notchKey))
  {
  }

  class Rotor {
    var rotor: Table
    const notchKey: string

    /** `Rotor(alphas=..., notch_key=...)`: the alphabet zipped with the wiring string. */
    constructor (alphas: string, notchKey: string)
      ensures rotor == Zip(alphas) && this.notchKey == notchKey
    {
      rotor := Zip(alphas);
      this.notchKey := notchKey;
    }

    /** The search loop of `find_key`, returning at the first matching pair. */
    method FindKey(key: char, direction: Direction) returns (r: Result<char>)
      ensures r == FindKeyIn(rotor, key, direction)
    {
      var i := 0;
      while i < |rotor|
        invariant 0 <= i <= |rotor|
        invariant FindKeyIn(rotor[i..], key, direction) == FindKeyIn(rotor, key, direction)
      {
        var value := rotor[i];
        assert rotor[i..][1..] == rotor[i + 1..];
        if direction == Rtl && value.entry == key {
          return Ok(value.wired);
        }
        if direction == Ltr && value.wired == key {
          return Ok(value.entry);
        }
        i := i + 1;
      }
      return KeyError;
    }

    /** Moves the last pair to the front; the new head is the old tail. */
    method Rotate()
      requires |rotor| > 0
      modifies this
      ensures rotor == Rotated(old(rotor)) && rotor[0] == old(rotor[|rotor| - 1])
      ensures multiset(rotor) == multiset(old(rotor))
    {
      RotatedKeepsElements(rotor);
      rotor := [rotor[|rotor| - 1]] + rotor[..|rotor| - 1];
    }

    /** The carry to the next rotor: never going left, else whether the head entry is the notch. */
    method RotateNextRotor(direction: Direction) returns (carry: bool)
      requires direction == Ltr || |rotor| > 0
      ensures direction == Ltr ==> !carry
      ensures direction != Ltr ==> (carry <==> notchKey == [rotor[0].entry])
    {
      if direction == Ltr {
        return false;
      }
      return [rotor[0].entry] == notchKey;
    }

    /** Looks the key up, then rotates if asked, then reports the carry. */
    method Encode(key: char, direction: Direction, rotate: bool) returns (r: Result<(char, bool)>)
      modifies this
      ensures Encoded(r, rotor) == EncodeIn(old(rotor), notchKey, key, direction, rotate)
    {
      var next := FindKey(key, direction);
      if next.KeyError? {
        return KeyError;
      }
      if rotate {
        Rotate();
      }
      var carry := RotateNextRotor(direction);
      return Ok((next.value, carry));
    }
  }

  /** Over a bijective table, "rtl" then "ltr" gives the letter back, and so does "ltr" then "rtl". */
  lemma FindKeyRoundTrip(t: Table, x: char)
    requires IsBijection(t) && IsLetter(x)
    ensures FindKeyIn(t, x, Rtl).Ok? && FindKeyIn(t, FindKeyIn(t, x, Rtl).value, Ltr) == Ok(x)
    ensures FindKeyIn(t, x, Ltr).Ok? && FindKeyIn(t, FindKeyIn(t, x, Ltr).value, Rtl) == Ok(x)
  {
    LookupInverse(t, x);
    LookupInverseBack(t, x);
  }

  /** Over a bijective table the search raises KeyError exactly for a non-letter key or an unrecognised direction. */
  lemma FindKeyFails(t: Table, key: char, direction: Direction)
    requires IsBijection(t)
    ensures FindKeyIn(t, key, direction).KeyError? <==> direction == Unrecognised || !IsLetter(key)
    ensures FindKeyIn(t, key, direction).Ok? ==> IsLetter(FindKeyIn(t, key, direction).value)
  {
    if IsLetter(key) {
      LookupInverse(t, key);
      LookupInverseBack(t, key);
    } else {
      assert key !in Entries(t);
      assert key !in Wireds(t);
      LookupEntryMeaning(t, key);
      LookupWiredIsFlipped(t, key);
      assert Entries(Flipped(t)) == Wireds(t);
      LookupEntryMeaning(Flipped(t), key);
    }
  }

  /** No number of rotations changes what `find_key` returns. */
  lemma FindKeyIgnoresRotation(t: Table, n: nat, key: char, direction: Direction)
    requires IsBijection(t)
    ensures FindKeyIn(RotatedN(t, n), key, direction) == FindKeyIn(t, key, direction)
  {
    LookupsIgnoreRotations(t, n, key);
  }

  /**
   * On a bijective rotor the letter `encode` returns is also the letter the
   * rotated table would give: the lookup-before-rotation order cannot be seen
   * in the output, only in the carry.
   */
  lemma EncodeOutputIgnoresRotation(t: Table, notchKey: string, key: char, direction: Direction, rotate: bool)
    requires IsBijection(t)
    ensures var e := EncodeIn(t, notchKey, key, direction, rotate);
      IsBijection(e.rotor) &&
      (e.result.Ok? ==> FindKeyIn(e.rotor, key, direction) == Ok(e.result.value.0))
  {
    var e := EncodeIn(t, notchKey, key, direction, rotate);
    if e.result.Ok? && rotate {
      assert RotatedN(t, 1) == Rotated(t);
      FindKeyIgnoresRotation(t, 1, key, direction);
      RotationKeepsBijection(t);
    }
  }
}
