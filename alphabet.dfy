/** The 26-letter alphabet A-Z that every rotor, reflector and plugboard works over. */
module Alphabet {

  /** The entry side of every wiring table: "ABC...Z" in order. */
  const Letters: string := "ABCDEFGHIJKLMNOPQRSTUVWXYZ"

  predicate IsLetter(c: char) {
    'A' <= c <= 'Z'
  }

  /** Zero-based position of a letter in the alphabet. */
  function Pos(c: char): (n: nat)
    requires IsLetter(c)
    ensures n < 26
  {
    c as int - 'A' as int
  }

  predicate Distinct<T(==)>(s: seq<T>) {
    forall i, j :: 0 <= i < j < |s| ==> s[i] != s[j]
  }

  /** A wiring string: 26 distinct upper-case letters. */
  predicate IsPermutation(s: string) {
    |s| == 26 && Distinct(s) && forall i :: 0 <= i < |s| ==> IsLetter(s[i])
  }

  lemma LettersInOrder()
    ensures |Letters| == 26
    ensures forall k :: 0 <= k < 26 ==> Letters[k] == (65 + k) as char
  {
  }

  /** Every letter sits in the alphabet at its own position. */
  lemma LetterAt(c: char)
    requires IsLetter(c)
    ensures |Letters| == 26 && Letters[Pos(c)] == c
  {
    LettersInOrder();
  }

  /**
   * A string of 26 letters is a wiring when some table `inv` sends each of
   * its letters back to the position it came from.
   */
  lemma PermutationByInverse(w: string, inv: string)
    requires |w| == 26 && |inv| == 26
    requires forall i :: 0 <= i < 26 ==> 65 <= w[i] as int < 91 && inv[w[i] as int - 65] as int == 65 + i
    ensures IsPermutation(w)
  {
    forall i, j | 0 <= i < j < |w|
      ensures w[i] != w[j]
    {
      assert inv[w[i] as int - 65] as int == 65 + i;
      assert inv[w[j] as int - 65] as int == 65 + j;
    }
  }

  lemma LettersArePermutation()
    ensures IsPermutation(Letters)
  {
    LettersInOrder();
  }

  lemma {:induction false} DistinctCard<T>(s: seq<T>)
    requires Distinct(s)
    ensures |set x | x in s| == |s|
  {
    if |s| > 0 {
      DistinctCard(s[1..]);
      assert (set x | x in s) == {s[0]} + (set x | x in s[1..]);
    }
  }

  /** Pigeonhole: 26 distinct letters are all of them. */
  lemma PermutationCoversAlphabet(s: string)
    requires IsPermutation(s)
    ensures forall c :: IsLetter(c) ==> c in s
  {
    var inS := set x | x in s;
    var all := set x | x in Letters;
    DistinctCard(s);
    LettersArePermutation();
    DistinctCard(Letters);
    forall x | x in inS
      ensures x in all
    {
      LetterAt(x);
    }
    assert |all - inS| == 0;
    forall c | IsLetter(c)
      ensures c in s
    {
      LetterAt(c);
      assert c in all;
    }
  }
}
