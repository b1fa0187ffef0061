/**
 * The wiring table shared by rotors and reflectors (RotorBase): a list of
 * (entry, wired) contact pairs built by zipping the alphabet with a wiring
 * string, the two searches over it, and the rotation that moves the last
 * pair to the front.
 */
module Wiring {
  import opened Alphabet

  /** A lookup either finds a letter or raises Python's KeyError. */
  datatype Result<T> = Ok(value: T) | KeyError

  /** One pair of the table: the letter on the entry side and the letter it is wired to. */
  datatype Contact = Contact(entry: char, wired: char)

  type Table = seq<Contact>

  /** The table `list(zip(alphabet(), alphas))`; zip stops at the shorter of the two. */
  function Zip(alphas: string): (t: Table)
    ensures |t| == if |alphas| < 26 then |alphas| else 26
    ensures forall i :: 0 <= i < |t| ==> t[i] == Contact(Letters[i], alphas[i])
  {
    var n := if |alphas| < 26 then |alphas| else 26;
    seq(n, i requires 0 <= i < n => Contact(Letters[i], alphas[i]))
  }

  function Entries(t: Table): (s: seq<char>)
    ensures |s| == |t| && forall i :: 0 <= i < |t| ==> s[i] == t[i].entry
  {
    seq(|t|, i requires 0 <= i < |t| => t[i].entry)
  }

  function Wireds(t: Table): (s: seq<char>)
    ensures |s| == |t| && forall i :: 0 <= i < |t| ==> s[i] == t[i].wired
  {
    seq(|t|, i requires 0 <= i < |t| => t[i].wired)
  }

  /** Both sides of the table are the 26 letters, each exactly once. */
  predicate IsBijection(t: Table) {
    IsPermutation(Entries(t)) && IsPermutation(Wireds(t))
  }

  /** The same pairs with the two sides swapped. */
  function Flipped(t: Table): (f: Table)
    ensures |f| == |t| && forall i :: 0 <= i < |t| ==> f[i] == Contact(t[i].wired, t[i].entry)
  {
    seq(|t|, i requires 0 <= i < |t| => Contact(t[i].wired, t[i].entry))
  }

  /** Search from entry to wired: the wired letter of the first pair whose entry is `key`. */
  function LookupEntry(t: Table, key: char): (r: Result<char>)
    ensures r.Ok? ==> |t| > 0
    decreases |t|
  {
    if |t| == 0 then KeyError
    else if t[0].entry == key then Ok(t[0].wired)
    else LookupEntry(t[1..], key)
  }

  /** The entry-side search fails exactly when no pair has the key as entry, and what it finds is a pair of the table. */
  lemma {:induction false} LookupEntryMeaning(t: Table, key: char)
    ensures LookupEntry(t, key).KeyError? <==> key !in Entries(t)
    ensures LookupEntry(t, key).Ok? ==> Contact(key, LookupEntry(t, key).value) in t
    decreases |t|
  {
    if |t| > 0 {
      assert Entries(t) == [t[0].entry] + Entries(t[1..]);
      LookupEntryMeaning(t[1..], key);
    }
  }

  /** Search from wired to entry: the entry letter of the first pair whose wired letter is `key`. */
  function LookupWired(t: Table, key: char): (r: Result<char>)
    ensures r.Ok? ==> |t| > 0
    decreases |t|
  {
    if |t| == 0 then KeyError
    else if t[0].wired == key then Ok(t[0].entry)
    else LookupWired(t[1..], key)
  }

  /** The wired-side search is the entry-side search of the flipped table. */
  lemma {:induction false} LookupWiredIsFlipped(t: Table, key: char)
    ensures LookupWired(t, key) == LookupEntry(Flipped(t), key)
    decreases |t|
  {
    if |t| > 0 {
      assert Flipped(t)[1..] == Flipped(t[1..]);
      LookupWiredIsFlipped(t[1..], key);
    }
  }

  /** With distinct entries, the search finds the one pair that has the key. */
  lemma {:induction false} LookupEntryAt(t: Table, i: nat)
    requires Distinct(Entries(t)) && i < |t|
    ensures LookupEntry(t, t[i].entry) == Ok(t[i].wired)
    decreases i
  {
    if i > 0 {
      assert t[0].entry != t[i].entry by { assert Entries(t)[0] != Entries(t)[i]; }
      assert Entries(t[1..]) == Entries(t)[1..];
      LookupEntryAt(t[1..], i - 1);
    }
  }

  /** The entry-side search of a bijective table is total on letters and lands on a letter. */
  lemma LookupEntryTotal(t: Table, x: char)
    requires IsBijection(t) && IsLetter(x)
    ensures LookupEntry(t, x).Ok? && IsLetter(LookupEntry(t, x).value)
  {
    PermutationCoversAlphabet(Entries(t));
    var i :| 0 <= i < |t| && Entries(t)[i] == x;
    LookupEntryAt(t, i);
  }

  /** Forward then backward through a bijective table returns the letter. */
  lemma LookupInverse(t: Table, x: char)
    requires IsBijection(t) && IsLetter(x)
    ensures LookupEntry(t, x).Ok? && IsLetter(LookupEntry(t, x).value)
    ensures LookupWired(t, LookupEntry(t, x).value) == Ok(x)
  {
    LookupEntryTotal(t, x);
    LookupEntryMeaning(t, x);
    var y := LookupEntry(t, x).value;
    var i :| 0 <= i < |t| && t[i] == Contact(x, y);
    assert Entries(Flipped(t)) == Wireds(t);
    LookupEntryAt(Flipped(t), i);
    LookupWiredIsFlipped(t, y);
  }

  /** Backward then forward through a bijective table returns the letter. */
  lemma LookupInverseBack(t: Table, y: char)
    requires IsBijection(t) && IsLetter(y)
    ensures LookupWired(t, y).Ok? && IsLetter(LookupWired(t, y).value)
    ensures LookupEntry(t, LookupWired(t, y).value) == Ok(y)
  {
    var f := Flipped(t);
    assert Entries(f) == Wireds(t) && Wireds(f) == Entries(t);
    LookupEntryTotal(f, y);
    LookupWiredIsFlipped(t, y);
    LookupEntryMeaning(f, y);
    var x := LookupEntry(f, y).value;
    var i :| 0 <= i < |f| && f[i] == Contact(y, x);
    LookupEntryAt(t, i);
  }

  /** A table built from a 26-letter permutation string is bijective. */
  lemma ZipOfPermutation(alphas: string)
    requires IsPermutation(alphas)
    ensures IsBijection(Zip(alphas))
    ensures Entries(Zip(alphas)) == Letters && Wireds(Zip(alphas)) == alphas
  {
    LettersArePermutation();
  }

  /** Rotor.rotate: `insert(0, pop())`, the last pair moves to the front. */
  function Rotated<T>(s: seq<T>): (r: seq<T>)
    requires |s| > 0
  {
    [s[|s| - 1]] + s[..|s| - 1]
  }

  /** The table after `n` rotations. */
  function RotatedN<T>(s: seq<T>, n: nat): (r: seq<T>)
    requires |s| > 0
    ensures |r| == |s|
  {
    if n == 0 then s else Rotated(RotatedN(s, n - 1))
  }

  /** A rotation keeps the same elements, with the same multiplicities. */
  lemma RotatedKeepsElements<T>(s: seq<T>)
    requires |s| > 0
    ensures |Rotated(s)| == |s| && multiset(Rotated(s)) == multiset(s)
    ensures Rotated(s)[0] == s[|s| - 1]
  {
    assert s == s[..|s| - 1] + [s[|s| - 1]];
  }

  /** After `k` rotations the last `k` elements have moved, in order, to the front. */
  lemma {:induction false} RotatedNSplit<T>(s: seq<T>, k: nat)
    requires 0 < |s| && k <= |s|
    ensures RotatedN(s, k) == s[|s| - k..] + s[..|s| - k]
  {
    if k > 0 {
      RotatedNSplit(s, k - 1);
      var n := |s|;
      var prev := s[n - k + 1..] + s[..n - k + 1];
      assert prev[n - 1] == s[n - k];
      assert prev[..n - 1] == s[n - k + 1..] + s[..n - k];
      assert [s[n - k]] + s[n - k + 1..] == s[n - k..];
    }
  }

  /** A full turn, one rotation per element, restores the original list. */
  lemma FullTurn<T>(s: seq<T>)
    requires |s| > 0
    ensures RotatedN(s, |s|) == s
  {
    RotatedNSplit(s, |s|);
  }

  lemma RotatedDistinct<T>(s: seq<T>)
    requires |s| > 0 && Distinct(s)
    ensures Distinct(Rotated(s))
  {
    var r := Rotated(s);
    forall i, j | 0 <= i < j < |r|
      ensures r[i] != r[j]
    {
      if i == 0 {
        assert r[i] == s[|s| - 1] && r[j] == s[j - 1];
      } else {
        assert r[i] == s[i - 1] && r[j] == s[j - 1];
      }
    }
  }

  lemma RotatedPermutation(s: string)
    requires IsPermutation(s)
    ensures IsPermutation(Rotated(s))
  {
    RotatedDistinct(s);
    RotatedKeepsElements(s);
    forall i | 0 <= i < |Rotated(s)|
      ensures IsLetter(Rotated(s)[i])
    {
      assert Rotated(s)[i] in multiset(s);
    }
  }

  /** Rotating a bijective table leaves it bijective. */
  lemma RotationKeepsBijection(t: Table)
    requires IsBijection(t)
    ensures IsBijection(Rotated(t))
  {
    assert Entries(Rotated(t)) == Rotated(Entries(t));
    assert Wireds(Rotated(t)) == Rotated(Wireds(t));
    RotatedPermutation(Entries(t));
    RotatedPermutation(Wireds(t));
  }

  /** Any number of rotations of a bijective table leaves it bijective. */
  lemma {:induction false} RotationsKeepBijection(t: Table, n: nat)
    requires IsBijection(t)
    ensures IsBijection(RotatedN(t, n))
  {
    if n > 0 {
      RotationsKeepBijection(t, n - 1);
      RotationKeepsBijection(RotatedN(t, n - 1));
    }
  }

  /** Because whole pairs move together, the entry-side search does not see a rotation. */
  lemma LookupEntryIgnoresRotation(t: Table, key: char)
    requires |t| > 0 && Distinct(Entries(t))
    ensures LookupEntry(Rotated(t), key) == LookupEntry(t, key)
  {
    var r := Rotated(t);
    RotatedKeepsElements(t);
    assert Entries(r) == Rotated(Entries(t));
    RotatedDistinct(Entries(t));
    RotatedKeepsElements(Entries(t));
    if key in Entries(t) {
      var i :| 0 <= i < |t| && t[i].entry == key;
      var j := if i == |t| - 1 then 0 else i + 1;
      assert r[j] == t[i];
      LookupEntryAt(t, i);
      LookupEntryAt(r, j);
    } else {
      assert key !in multiset(Entries(r));
      LookupEntryMeaning(t, key);
      LookupEntryMeaning(r, key);
    }
  }

  /** Because whole pairs move together, the wired-side search does not see a rotation. */
  lemma LookupWiredIgnoresRotation(t: Table, key: char)
    requires |t| > 0 && Distinct(Wireds(t))
    ensures LookupWired(Rotated(t), key) == LookupWired(t, key)
  {
    var f := Flipped(t);
    assert Flipped(Rotated(t)) == Rotated(f);
    assert Entries(f) == Wireds(t);
    LookupWiredIsFlipped(t, key);
    LookupWiredIsFlipped(Rotated(t), key);
    LookupEntryIgnoresRotation(f, key);
  }

  /** Neither search sees any number of rotations of a bijective table. */
  lemma {:induction false} LookupsIgnoreRotations(t: Table, n: nat, key: char)
    requires IsBijection(t)
    ensures LookupEntry(RotatedN(t, n), key) == LookupEntry(t, key)
    ensures LookupWired(RotatedN(t, n), key) == LookupWired(t, key)
  {
    if n > 0 {
      LookupsIgnoreRotations(t, n - 1, key);
      RotationsKeepBijection(t, n - 1);
      LookupEntryIgnoresRotation(RotatedN(t, n - 1), key);
      LookupWiredIgnoresRotation(RotatedN(t, n - 1), key);
    }
  }
}
