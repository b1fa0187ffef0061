/**
 * The machine: one key press sends the key through the plugboard, rotors
 * a, b, c from right to left (stepping them), reflector B, rotors c, b, a
 * from left to right, and the plugboard again.
 */
module Machines {
  import opened Alphabet
  import opened Wiring
  import opened Rotors
  import opened Reflectors
  import opened Plugboards

  const WiringI: string := "EKMFLGDQVZNTOWYHXUSPAIBRCJ"
  const WiringII: string := "AJDKSIRUXBLHWTMCQGZNPYFVOE"
  const WiringIII: string := "BDFHJLCPRTXVZNYEIWGAKMUSQO"
  const WiringIV: string := "ESOVPZJAYQUIRHXLNFTGKDCMWB"
  const WiringV: string := "VZBRGITYUPSDNHLXAWMJQOFECK"

  const NotchA: string := "R"
  const NotchB: string := "F"
  const NotchC: string := "W"
  const NotchD: string := "K"
  const NotchE: string := "A"

  /** The one reflector on the signal path. */
  const ReflectorB: Reflector := FromWiring(WiringB)

  /** The lists of the three rotors on the signal path: the whole state a key press reads and changes. */
  datatype RotorState = RotorState(a: Table, b: Table, c: Table)

  /** The outcome of a key press: the displayed letter or KeyError, and the rotor lists afterwards. */
  datatype Pressed = Pressed(result: Result<char>, state: RotorState)

  /**
   * `Machine.key_press` on rotor lists: each call in the order the source
   * makes it, and a KeyError ending the press with the lists as they are at
   * that point.
   */
  function Press(plugboard: Plugboard, s: RotorState, key: char): Pressed {
    var forward := Forward(s, plugboard.Encode(key));
    if forward.result.KeyError? then forward else
    var back := Back(forward.state, forward.result.value);
    if back.result.KeyError? then back else
    Pressed(Ok(plugboard.Encode(back.result.value)), back.state)
  }

  /**
   * enigma.py:131-133: rotors a, b, c from right to left; a always asked to
   * rotate, b and c asked to when the rotor before reports a carry. The
   * result is the letter that reaches the reflector.
   */
  function Forward(s: RotorState, key: char): Pressed {
    var fa := EncodeIn(s.a, NotchA, key, Rtl, true);
    if fa.result.KeyError? then Pressed(KeyError, RotorState(fa.rotor, s.b, s.c)) else
    var fb := EncodeIn(s.b, NotchB, fa.result.value.0, Rtl, fa.result.value.1);
    if fb.result.KeyError? then Pressed(KeyError, RotorState(fa.rotor, fb.rotor, s.c)) else
    var fc := EncodeIn(s.c, NotchC, fb.result.value.0, Rtl, fb.result.value.1);
    Pressed(if fc.result.KeyError? then KeyError else Ok(fc.result.value.0), RotorState(fa.rotor, fb.rotor, fc.rotor))
  }

  /** enigma.py:135-139: reflector B, then rotors c, b, a from left to right, none asked to rotate. */
  function Back(s: RotorState, key: char): Pressed {
    var reflected := ReflectorB.Encode(key);
    if reflected.KeyError? then Pressed(KeyError, s) else
    var bc := EncodeIn(s.c, NotchC, reflected.value, Ltr, false);
    if bc.result.KeyError? then Pressed(KeyError, RotorState(s.a, s.b, bc.rotor)) else
    var bb := EncodeIn(s.b, NotchB, bc.result.value.0, Ltr, false);
    if bb.result.KeyError? then Pressed(KeyError, RotorState(s.a, bb.rotor, bc.rotor)) else
    var ba := EncodeIn(s.a, NotchA, bb.result.value.0, Ltr, false);
    Pressed(if ba.result.KeyError? then KeyError else Ok(ba.result.value.0), RotorState(ba.rotor, bb.rotor, bc.rotor))
  }

  /** Every rotor list on the path is a bijection of the letters. */
  predicate WellFormed(s: RotorState) {
    IsBijection(s.a) && IsBijection(s.b) && IsBijection(s.c)
  }

  /**
   * The stepping rule, stated on its own: rotor a always turns; rotor b
   * turns when a's head entry is R after a has turned; rotor c turns when
   * b's head entry is F after b's optional turn.
   */
  function Stepped(s: RotorState): (r: RotorState)
    requires |s.a| > 0 && |s.b| > 0 && |s.c| > 0
    ensures |r.a| == |s.a| && |r.b| == |s.b| && |r.c| == |s.c|
  {
    var a := Rotated(s.a);
    var b := if [a[0].entry] == NotchA then Rotated(s.b) else s.b;
    var c := if [b[0].entry] == NotchB then Rotated(s.c) else s.c;
    RotorState(a, b, c)
  }

  /**
   * The substitution between the two plugboard passes, read entirely from
   * the lists as they were before the press: forward through a, b, c, the
   * reflector, back through c, b, a.
   */
  function Scramble(s: RotorState, u: char): Result<char> {
    match LookupEntry(s.a, u)
    case KeyError => KeyError
    case Ok(v1) =>
      match LookupEntry(s.b, v1)
      case KeyError => KeyError
      case Ok(v2) =>
        match LookupEntry(s.c, v2)
        case KeyError => KeyError
        case Ok(v3) =>
          match ReflectorB.Encode(v3)
          case KeyError => KeyError
          case Ok(w3) =>
            match LookupWired(s.c, w3)
            case KeyError => KeyError
            case Ok(w2) =>
              match LookupWired(s.b, w2)
              case KeyError => KeyError
              case Ok(w1) => LookupWired(s.a, w1)
  }

  /** The rotor lists a new machine starts from. */
  const Initial: RotorState := RotorState(Zip(WiringI), Zip(WiringII), Zip(WiringIII))

  /** The rotor lists after rotors a, b, c have turned na, nb, nc times. */
  function Turned(s: RotorState, na: nat, nb: nat, nc: nat): RotorState
    requires |s.a| > 0 && |s.b| > 0 && |s.c| > 0
  {
    RotorState(RotatedN(s.a, na), RotatedN(s.b, nb), RotatedN(s.c, nc))
  }

  /** The inverse of wiring I, a witness that it is a permutation. */
  const InverseI: string := "UWYGADFPVZBECKMTHXSLRINQOJ"

  lemma WiringILow()
    ensures |WiringI| == 26 && |InverseI| == 26
    ensures forall i :: 0 <= i < 13 ==> 65 <= WiringI[i] as int < 91 && InverseI[WiringI[i] as int - 65] as int == 65 + i
  {
  }

  lemma WiringIHigh()
    ensures |WiringI| == 26 && |InverseI| == 26
    ensures forall i :: 13 <= i < 26 ==> 65 <= WiringI[i] as int < 91 && InverseI[WiringI[i] as int - 65] as int == 65 + i
  {
  }

  lemma WiringIIsPermutation()
    ensures IsPermutation(WiringI)
  {
    WiringILow();
    WiringIHigh();
    PermutationByInverse(WiringI, InverseI);
  }

  /** The inverse of wiring II, a witness that it is a permutation. */
  const InverseII: string := "AJPCZWRLFBDKOTYUQGENHXMIVS"

  lemma WiringIILow()
    ensures |WiringII| == 26 && |InverseII| == 26
    ensures forall i :: 0 <= i < 13 ==> 65 <= WiringII[i] as int < 91 && InverseII[WiringII[i] as int - 65] as int == 65 + i
  {
  }

  lemma WiringIIHigh()
    ensures |WiringII| == 26 && |InverseII| == 26
    ensures forall i :: 13 <= i < 26 ==> 65 <= WiringII[i] as int < 91 && InverseII[WiringII[i] as int - 65] as int == 65 + i
  {
  }

  lemma WiringIIIsPermutation()
    ensures IsPermutation(WiringII)
  {
    WiringIILow();
    WiringIIHigh();
    PermutationByInverse(WiringII, InverseII);
  }

  /** The inverse of wiring III, a witness that it is a permutation. */
  const InverseIII: string := "TAGBPCSDQEUFVNZHYIXJWLRKOM"

  lemma WiringIIILow()
    ensures |WiringIII| == 26 && |InverseIII| == 26
    ensures forall i :: 0 <= i < 13 ==> 65 <= WiringIII[i] as int < 91 && InverseIII[WiringIII[i] as int - 65] as int == 65 + i
  {
  }

  lemma WiringIIIHigh()
    ensures |WiringIII| == 26 && |InverseIII| == 26
    ensures forall i :: 13 <= i < 26 ==> 65 <= WiringIII[i] as int < 91 && InverseIII[WiringIII[i] as int - 65] as int == 65 + i
  {
  }

  lemma WiringIIIIsPermutation()
    ensures IsPermutation(WiringIII)
  {
    WiringIIILow();
    WiringIIIHigh();
    PermutationByInverse(WiringIII, InverseIII);
  }

  lemma InitialIsWellFormed()
    ensures WellFormed(Initial)
  {
    WiringIIsPermutation();
    WiringIIIsPermutation();
    WiringIIIIsPermutation();
    ZipOfPermutation(WiringI);
    ZipOfPermutation(WiringII);
    ZipOfPermutation(WiringIII);
  }

  /** Turning the rotors any number of times keeps them well formed. */
  lemma TurnedIsWellFormed(s: RotorState, na: nat, nb: nat, nc: nat)
    requires WellFormed(s)
    ensures WellFormed(Turned(s, na, nb, nc))
  {
    RotationsKeepBijection(s.a, na);
    RotationsKeepBijection(s.b, nb);
    RotationsKeepBijection(s.c, nc);
  }

  /** The position after one more turn: 0 to 25, wrapping 25 to 0. */
  function NextPosition(n: nat): nat {
    if n == 25 then 0 else n + 1
  }

  /** One more turn of a 26-pair rotor at position n puts it at the next position. */
  lemma TurnAdvancesPosition(t: Table, n: nat)
    requires |t| == 26 && n < 26
    ensures Rotated(RotatedN(t, n)) == RotatedN(t, NextPosition(n))
  {
    if n == 25 {
      FullTurn(t);
    }
  }

  /** Stepping keeps every rotor list bijective. */
  lemma SteppedIsWellFormed(s: RotorState)
    requires WellFormed(s)
    ensures WellFormed(Stepped(s))
  {
    RotationKeepsBijection(s.a);
    RotationKeepsBijection(s.b);
    RotationKeepsBijection(s.c);
  }

  /** A rotor list that may have turned once gives the same answers as before. */
  lemma SameLookups(t: Table, turned: Table, key: char)
    requires IsBijection(t) && (turned == t || turned == Rotated(t))
    ensures LookupEntry(turned, key) == LookupEntry(t, key)
    ensures LookupWired(turned, key) == LookupWired(t, key)
  {
    if turned != t {
      LookupEntryIgnoresRotation(t, key);
      LookupWiredIgnoresRotation(t, key);
    }
  }

  /**
   * On well-formed rotors a key press fails exactly when the plugboard's
   * image of the key is not a letter, and then no rotor has moved; otherwise
   * the rotors step by the stepping rule and the output is the plugboard's
   * image of the scrambled letter.
   */
  lemma PressIsScramble(plugboard: Plugboard, s: RotorState, key: char)
    requires WellFormed(s)
    ensures !IsLetter(plugboard.Encode(key)) ==> Press(plugboard, s, key) == Pressed(KeyError, s)
    ensures IsLetter(plugboard.Encode(key)) ==>
      Scramble(s, plugboard.Encode(key)).Ok? &&
      Press(plugboard, s, key) == Pressed(Ok(plugboard.Encode(Scramble(s, plugboard.Encode(key)).value)), Stepped(s))
  {
    var k0 := plugboard.Encode(key);
    FindKeyFails(s.a, k0, Rtl);
    if IsLetter(k0) {
      var fa := EncodeIn(s.a, NotchA, k0, Rtl, true);
      var v1 := fa.result.value.0;
      assert fa.rotor == Rotated(s.a);
      FindKeyFails(s.b, v1, Rtl);
      var fb := EncodeIn(s.b, NotchB, v1, Rtl, fa.result.value.1);
      var v2 := fb.result.value.0;
      FindKeyFails(s.c, v2, Rtl);
      var fc := EncodeIn(s.c, NotchC, v2, Rtl, fb.result.value.1);
      var v3 := fc.result.value.0;
      assert RotorState(fa.rotor, fb.rotor, fc.rotor) == Stepped(s);
      WiringBIsReflector();
      EncodeIsInvolution(WiringB, v3);
      var w3 := ReflectorB.Encode(v3).value;
      SameLookups(s.c, fc.rotor, w3);
      LookupInverseBack(s.c, w3);
      var w2 := LookupWired(s.c, w3).value;
      SameLookups(s.b, fb.rotor, w2);
      LookupInverseBack(s.b, w2);
      var w1 := LookupWired(s.b, w2).value;
      SameLookups(s.a, fa.rotor, w1);
      LookupInverseBack(s.a, w1);
    }
  }

  /** The scramble is a fixed-point-free involution of the letters. */
  lemma ScrambleIsReciprocal(s: RotorState, u: char)
    requires WellFormed(s) && IsLetter(u)
    ensures Scramble(s, u).Ok? && IsLetter(Scramble(s, u).value)
    ensures Scramble(s, u).value != u && Scramble(s, Scramble(s, u).value) == Ok(u)
  {
    LookupInverse(s.a, u);
    var v1 := LookupEntry(s.a, u).value;
    LookupInverse(s.b, v1);
    var v2 := LookupEntry(s.b, v1).value;
    LookupInverse(s.c, v2);
    var v3 := LookupEntry(s.c, v2).value;
    WiringBIsReflector();
    EncodeIsInvolution(WiringB, v3);
    var w3 := ReflectorB.Encode(v3).value;
    LookupInverseBack(s.c, w3);
    var w2 := LookupWired(s.c, w3).value;
    LookupInverseBack(s.b, w2);
    var w1 := LookupWired(s.b, w2).value;
    LookupInverseBack(s.a, w1);
    var w0 := LookupWired(s.a, w1).value;
    assert Scramble(s, u) == Ok(w0);
    assert Scramble(s, w0) == Ok(u);
  }

  /** The scramble does not depend on how far any rotor has turned. */
  lemma ScrambleIgnoresRotations(s: RotorState, na: nat, nb: nat, nc: nat, u: char)
    requires WellFormed(s)
    ensures Scramble(Turned(s, na, nb, nc), u) == Scramble(s, u)
  {
    forall key: char
      ensures LookupEntry(RotatedN(s.a, na), key) == LookupEntry(s.a, key)
      ensures LookupWired(RotatedN(s.a, na), key) == LookupWired(s.a, key)
      ensures LookupEntry(RotatedN(s.b, nb), key) == LookupEntry(s.b, key)
      ensures LookupWired(RotatedN(s.b, nb), key) == LookupWired(s.b, key)
      ensures LookupEntry(RotatedN(s.c, nc), key) == LookupEntry(s.c, key)
      ensures LookupWired(RotatedN(s.c, nc), key) == LookupWired(s.c, key)
    {
      LookupsIgnoreRotations(s.a, na, key);
      LookupsIgnoreRotations(s.b, nb, key);
      LookupsIgnoreRotations(s.c, nc, key);
    }
  }

  /**
   * Self-reciprocity: from any well-formed rotor state, with disjoint plugboard
   * pairs, a key whose plugboard image is a letter yields a different key,
   * and pressing that key from the same state yields the first one back.
   */
  lemma PressIsSelfReciprocal(plugboard: Plugboard, s: RotorState, x: char)
    requires WellFormed(s) && Disjoint(plugboard.connections) && IsLetter(plugboard.Encode(x))
    ensures Press(plugboard, s, x).result.Ok?
    ensures var y := Press(plugboard, s, x).result.value;
      y != x && Press(plugboard, s, y).result == Ok(x)
  {
    var u := plugboard.Encode(x);
    PressIsScramble(plugboard, s, x);
    ScrambleIsReciprocal(s, u);
    var w := Scramble(s, u).value;
    var y := plugboard.Encode(w);
    SwapInvolution(plugboard.connections, w);
    SwapInvolution(plugboard.connections, x);
    PressIsScramble(plugboard, s, y);
  }

  /** With a plugboard of letters only, a key press raises KeyError exactly for a non-letter key, which moves no rotor. */
  lemma PressRejectsNonLetters(plugboard: Plugboard, s: RotorState, key: char)
    requires WellFormed(s) && LettersOnly(plugboard.connections)
    ensures Press(plugboard, s, key).result.KeyError? <==> !IsLetter(key)
    ensures !IsLetter(key) ==> Press(plugboard, s, key).state == s
  {
    SwapKeepsLetters(plugboard.connections, key);
    PressIsScramble(plugboard, s, key);
  }

  /**
   * Whatever positions two machines' rotors have turned to from the same
   * well-formed lists, a key press gives the same result on both: the cipher
   * is one fixed substitution.
   */
  lemma PressIgnoresPosition(plugboard: Plugboard, s: RotorState, na: nat, nb: nat, nc: nat, ma: nat, mb: nat, mc: nat, key: char)
    requires WellFormed(s)
    ensures Press(plugboard, Turned(s, na, nb, nc), key).result == Press(plugboard, Turned(s, ma, mb, mc), key).result
  {
    TurnedIsWellFormed(s, na, nb, nc);
    TurnedIsWellFormed(s, ma, mb, mc);
    PressIsScramble(plugboard, Turned(s, na, nb, nc), key);
    PressIsScramble(plugboard, Turned(s, ma, mb, mc), key);
    ScrambleIgnoresRotations(s, na, nb, nc, plugboard.Encode(key));
    ScrambleIgnoresRotations(s, ma, mb, mc, plugboard.Encode(key));
  }

  /** The state after n key presses that all succeed. */
  function SteppedN(s: RotorState, n: nat): (r: RotorState)
    requires |s.a| > 0 && |s.b| > 0 && |s.c| > 0
    ensures |r.a| == |s.a| && |r.b| == |s.b| && |r.c| == |s.c|
    decreases n
  {
    if n == 0 then s else SteppedN(Stepped(s), n - 1)
  }

  /** n + 1 presses are n presses followed by one more. */
  lemma {:induction false} SteppedNLast(s: RotorState, n: nat)
    requires |s.a| > 0 && |s.b| > 0 && |s.c| > 0
    ensures SteppedN(s, n + 1) == Stepped(SteppedN(s, n))
    decreases n
  {
    if n > 0 {
      SteppedNLast(Stepped(s), n - 1);
    }
  }

  /** Rotor a turns once per press, so after 26 presses it is back where it started. */
  lemma RotorAFullCycle(s: RotorState)
    requires |s.a| == 26 && |s.b| > 0 && |s.c| > 0
    ensures SteppedN(s, 26).a == s.a
  {
    RotorARotations(s, 26);
    FullTurn(s.a);
  }

  lemma {:induction false} RotorARotations(s: RotorState, n: nat)
    requires |s.a| > 0 && |s.b| > 0 && |s.c| > 0
    ensures SteppedN(s, n).a == RotatedN(s.a, n)
    decreases n
  {
    if n > 0 {
      RotorARotations(Stepped(s), n - 1);
      RotatedNShift(s.a, n - 1);
    }
  }

  /** Turning once and then n times is turning n + 1 times. */
  lemma {:induction false} RotatedNShift<T>(t: seq<T>, n: nat)
    requires |t| > 0
    ensures RotatedN(Rotated(t), n) == RotatedN(t, n + 1)
  {
    if n > 0 {
      RotatedNShift(t, n - 1);
    }
  }

  /**
   * Two machines built from the same lists and plugboard answer every key
   * alike, however far each has stepped: sharing or not sharing rotor
   * objects between machines cannot change a cipher text.
   */
  lemma MachinesAgree(m1: Machine, m2: Machine, key: char)
    requires m1.Valid() && m2.Valid() && m1.start == m2.start && m1.plugboard == m2.plugboard
    ensures Press(m1.plugboard, m1.State(), key).result == Press(m2.plugboard, m2.State(), key).result
  {
    PressIgnoresPosition(m1.plugboard, m1.start, m1.posA, m1.posB, m1.posC, m2.posA, m2.posB, m2.posC, key);
  }

  /**
   * What typing a message key by key does when every press answers as a
   * press from `s` would: the output letters in order, or KeyError as soon
   * as one key raises it.
   */
  function Encipher(plugboard: Plugboard, s: RotorState, message: string): Result<string>
    decreases |message|
  {
    if |message| == 0 then Ok([]) else
    match Encipher(plugboard, s, message[..|message| - 1])
    case KeyError => KeyError
    case Ok(prefix) =>
      match Press(plugboard, s, message[|message| - 1]).result
      case KeyError => KeyError
      case Ok(y) => Ok(prefix + [y])
  }

  /**
   * Typing the cipher text of a message of letters from the same start gives
   * the message back, and no letter of the cipher text equals the letter it
   * stands for.
   */
  lemma {:induction false} EncipherRoundTrip(plugboard: Plugboard, s: RotorState, message: string)
    requires WellFormed(s) && Disjoint(plugboard.connections) && LettersOnly(plugboard.connections)
    requires forall i :: 0 <= i < |message| ==> IsLetter(message[i])
    ensures Encipher(plugboard, s, message).Ok?
    ensures var cipher := Encipher(plugboard, s, message).value;
      |cipher| == |message| &&
      (forall i :: 0 <= i < |message| ==> cipher[i] != message[i]) &&
      Encipher(plugboard, s, cipher) == Ok(message)
    decreases |message|
  {
    if |message| > 0 {
      var front := message[..|message| - 1];
      var x := message[|message| - 1];
      EncipherRoundTrip(plugboard, s, front);
      SwapKeepsLetters(plugboard.connections, x);
      PressIsSelfReciprocal(plugboard, s, x);
      var prefix := Encipher(plugboard, s, front).value;
      var y := Press(plugboard, s, x).result.value;
      var cipher := prefix + [y];
      assert Encipher(plugboard, s, message) == Ok(cipher);
      assert cipher[..|cipher| - 1] == prefix;
      assert message == front + [x];
    }
  }

  /** A press from turned rotors answers as a press from the lists they started from. */
  lemma PressFromTurned(plugboard: Plugboard, s: RotorState, na: nat, nb: nat, nc: nat, key: char)
    requires WellFormed(s)
    ensures Press(plugboard, Turned(s, na, nb, nc), key).result == Press(plugboard, s, key).result
  {
    PressIgnoresPosition(plugboard, s, na, nb, nc, 0, 0, 0, key);
    assert Turned(s, 0, 0, 0) == s;
  }

  /** One more key: its press result is appended, or the whole prefix fails. */
  lemma EncipherStep(plugboard: Plugboard, s: RotorState, message: string, i: nat)
    requires i < |message|
    ensures var before := Encipher(plugboard, s, message[..i]);
      var press := Press(plugboard, s, message[i]).result;
      Encipher(plugboard, s, message[..i + 1]) ==
        if before.KeyError? || press.KeyError? then KeyError else Ok(before.value + [press.value])
  {
    assert message[..i + 1][..i] == message[..i];
  }

  /** Once a prefix fails, the whole message fails. */
  lemma {:induction false} EncipherKeepsFailing(plugboard: Plugboard, s: RotorState, message: string, j: nat)
    requires j <= |message| && Encipher(plugboard, s, message[..j]).KeyError?
    ensures Encipher(plugboard, s, message).KeyError?
    decreases |message| - j
  {
    if j == |message| {
      assert message[..j] == message;
    } else {
      EncipherStep(plugboard, s, message, j);
      EncipherKeepsFailing(plugboard, s, message, j + 1);
    }
  }

  class Machine {
    const plugboard: Plugboard
    const reflectorB: Reflector := ReflectorB
    const reflectorC: Reflector := FromWiring(WiringC)
    const rotorA: Rotor
    const rotorB: Rotor
    const rotorC: Rotor
    const rotorD: Rotor
    const rotorE: Rotor

    /** The lists the rotors on the path started from. */
    ghost const start: RotorState

    /** How many turns (mod 26) each rotor on the path has made since construction. */
    ghost var posA: nat
    ghost var posB: nat
    ghost var posC: nat

    ghost function State(): RotorState
      reads this, rotorA, rotorB, rotorC
    {
      RotorState(rotorA.rotor, rotorB.rotor, rotorC.rotor)
    }

    ghost predicate Valid()
      reads this, rotorA, rotorB, rotorC
    {
      rotorA != rotorB && rotorB != rotorC && rotorA != rotorC &&
      rotorD !in {rotorA, rotorB, rotorC} && rotorE !in {rotorA, rotorB, rotorC} &&
      rotorA.notchKey == NotchA && rotorB.notchKey == NotchB && rotorC.notchKey == NotchC &&
      WellFormed(start) && posA < 26 && posB < 26 && posC < 26 &&
      State() == Turned(start, posA, posB, posC)
    }

    /** A machine owning freshly built rotors and reflectors, every rotor at its starting position. */
    constructor (plugboard: Plugboard)
      ensures Valid() && this.plugboard == plugboard
      ensures start == Initial && State() == Initial
      ensures posA == 0 && posB == 0 && posC == 0
      ensures fresh(rotorA) && fresh(rotorB) && fresh(rotorC) && fresh(rotorD) && fresh(rotorE)
      ensures rotorD.rotor == Zip(WiringIV) && rotorD.notchKey == NotchD
      ensures rotorE.rotor == Zip(WiringV) && rotorE.notchKey == NotchE
    {
      this.plugboard := plugboard;
      rotorA := new Rotor(WiringI, NotchA);
      rotorB := new Rotor(WiringII, NotchB);
      rotorC := new Rotor(WiringIII, NotchC);
      rotorD := new Rotor(WiringIV, NotchD);
      rotorE := new Rotor(WiringV, NotchE);
      start := Initial;
      posA, posB, posC := 0, 0, 0;
      InitialIsWellFormed();
    }

    /**
     * `key_press`: the signal path with rotor stepping. The output goes to
     * the lightboard, whose display is the identity here.
     */
    method KeyPress(key: char) returns (r: Result<char>)
      requires Valid()
      modifies this, rotorA, rotorB, rotorC
      ensures Valid()
      ensures Pressed(r, State()) == Press(plugboard, old(State()), key)
      ensures r.KeyError? <==> !IsLetter(plugboard.Encode(key))
      ensures State() == if r.Ok? then Stepped(old(State())) else old(State())
      ensures unchanged(rotorD, rotorE)
    {
      TurnedIsWellFormed(start, posA, posB, posC);
      PressIsScramble(plugboard, State(), key);
      var k := plugboard.Encode(key);
      var reflected := RunForward(k);
      if reflected.KeyError? {
        return KeyError;
      }
      var back := RunBack(reflected.value);
      if back.KeyError? {
        return KeyError;
      }
      r := Ok(plugboard.Encode(back.value));
    }

    /**
     * The loop of the driver: each key of the message pressed in turn and
     * its output appended; a KeyError from any press ends the loop.
     */
    method TypeMessage(message: string) returns (r: Result<string>)
      requires Valid()
      modifies this, rotorA, rotorB, rotorC
      ensures Valid()
      ensures r == Encipher(plugboard, start, message)
      ensures r.Ok? ==> State() == SteppedN(old(State()), |message|)
    {
      ghost var before := State();
      TurnedIsWellFormed(start, posA, posB, posC);
      assert |before.a| == 26 && |before.b| == 26 && |before.c| == 26;
      var collection := "";
      var i := 0;
      while i < |message|
        invariant 0 <= i <= |message|
        invariant Valid()
        invariant Encipher(plugboard, start, message[..i]) == Ok(collection)
        invariant State() == SteppedN(before, i)
      {
        SteppedNLast(before, i);
        PressFromTurned(plugboard, start, posA, posB, posC, message[i]);
        var out := KeyPress(message[i]);
        EncipherStep(plugboard, start, message, i);
        if out.KeyError? {
          EncipherKeepsFailing(plugboard, start, message, i + 1);
          return KeyError;
        }
        collection := collection + [out.value];
        i := i + 1;
      }
      assert message[..i] == message;
      return Ok(collection);
    }

    /** enigma.py:131-133: rotors a, b, c from right to left, each stepping as the carry before it says. */
    method RunForward(key: char) returns (r: Result<char>)
      requires Valid()
      modifies this, rotorA, rotorB, rotorC
      ensures Valid()
      ensures Pressed(r, State()) == Forward(old(State()), key)
      ensures unchanged(rotorD, rotorE)
    {
      ghost var before := State();
      var ra := rotorA.Encode(key, Rtl, true);
      if ra.KeyError? {
        return KeyError;
      }
      TurnAdvancesPosition(start.a, posA);
      posA := NextPosition(posA);

      var rb := rotorB.Encode(ra.value.0, Rtl, ra.value.1);
      if rb.KeyError? {
        return KeyError;
      }
      if ra.value.1 {
        TurnAdvancesPosition(start.b, posB);
        posB := NextPosition(posB);
      }

      var rc := rotorC.Encode(rb.value.0, Rtl, rb.value.1);
      if rc.KeyError? {
        return KeyError;
      }
      if rb.value.1 {
        TurnAdvancesPosition(start.c, posC);
        posC := NextPosition(posC);
      }
      r := Ok(rc.value.0);
    }

    /** enigma.py:135-139: reflector B, then rotors c, b, a from left to right; no rotor turns. */
    method RunBack(key: char) returns (r: Result<char>)
      requires Valid()
      modifies rotorA, rotorB, rotorC
      ensures Valid() && State() == old(State())
      ensures Pressed(r, State()) == Back(old(State()), key)
      ensures unchanged(rotorD, rotorE)
    {
      var reflected := reflectorB.Encode(key);
      if reflected.KeyError? {
        return KeyError;
      }
      var bc := rotorC.Encode(reflected.value, Ltr, false);
      if bc.KeyError? {
        return KeyError;
      }
      var bb := rotorB.Encode(bc.value.0, Ltr, false);
      if bb.KeyError? {
        return KeyError;
      }
      var ba := rotorA.Encode(bb.value.0, Ltr, false);
      if ba.KeyError? {
        return KeyError;
      }
      r := Ok(ba.value.0);
    }
  }

  /**
   * The demo driver without its console output: a fresh machine types the
   * message, a second fresh machine with the same plugboard types the result.
   */
  method EncryptThenDecrypt(plugboard: Plugboard, message: string) returns (cipher: Result<string>, plain: Result<string>)
    ensures cipher == Encipher(plugboard, Initial, message)
    ensures cipher.Ok? ==> plain == Encipher(plugboard, Initial, cipher.value)
    ensures (Disjoint(plugboard.connections) && LettersOnly(plugboard.connections) &&
             forall i :: 0 <= i < |message| ==> IsLetter(message[i])) ==>
      cipher.Ok? && plain == Ok(message)
  {
    InitialIsWellFormed();
    if Disjoint(plugboard.connections) && LettersOnly(plugboard.connections) &&
       forall i :: 0 <= i < |message| ==> IsLetter(message[i]) {
      EncipherRoundTrip(plugboard, Initial, message);
    }
    var machine := new Machine(plugboard);
    cipher := machine.TypeMessage(message);
    if cipher.KeyError? {
      return cipher, KeyError;
    }
    machine := new Machine(plugboard);
    plain := machine.TypeMessage(cipher.value);
  }

  /** The driver's own message and plugboard come back unchanged. */
  lemma DemoRoundTrip()
    ensures var plugboard := Plugboard(DemoConnections);
      var cipher := Encipher(plugboard, Initial, Letters);
      cipher.Ok? && Encipher(plugboard, Initial, cipher.value) == Ok(Letters)
  {
    DemoPlugboard();
    InitialIsWellFormed();
    LettersInOrder();
    EncipherRoundTrip(Plugboard(DemoConnections), Initial, Letters);
  }
}
