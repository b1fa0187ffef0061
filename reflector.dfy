/** The reflector: a fixed table searched from entry to wired, never rotated. */
module Reflectors {
  import opened Alphabet
  import opened Wiring

  /** Reflector B, the one the machine wires into the signal path. */
  const WiringB: string := "YRUHQSLDPXNGOKMIEBFZCWVJAT"

  /** Reflector C, built by the machine but never used. */
  const WiringC: string := "FVPJIAOYEDRZXWGCTKUQSBNMHL"

  datatype Reflector = Reflector(rotor: Table) {
    /** `Reflector.encode`: the wired letter of the first pair whose entry is the key, else KeyError. */
    function Encode(key: char): Result<char> {
      LookupEntry(rotor, key)
    }
  }

  /** `Reflector(alphas=...)`: the alphabet zipped with the wiring string. */
  function FromWiring(alphas: string): Reflector {
    Reflector(Zip(alphas))
  }

  /**
   * A reflector wiring: a permutation of the letters that sends the letter at
   * position i to a different letter whose own image is the letter at i.
   */
  predicate IsReflectorWiring(w: string) {
    IsPermutation(w) &&
    forall i :: 0 <= i < 26 ==> w[i] != Letters[i] && w[Pos(w[i])] == Letters[i]
  }

  /** The reflector condition read off character codes, as checked for the two concrete wirings. */
  lemma ReflectorWiringByCodes(w: string)
    requires |w| == 26
    requires forall i :: 0 <= i < 26 ==> 65 <= w[i] as int < 91 && w[i] as int != 65 + i
    requires forall i :: 0 <= i < 26 ==> 65 <= w[i] as int < 91 && w[w[i] as int - 65] as int == 65 + i
    ensures IsReflectorWiring(w)
  {
    LettersInOrder();
    forall i, j | 0 <= i < j < |w|
      ensures w[i] != w[j]
    {
      assert w[w[i] as int - 65] as int == 65 + i;
      assert w[w[j] as int - 65] as int == 65 + j;
    }
  }

  lemma WiringBIsReflector()
    ensures IsReflectorWiring(WiringB)
  {
    WiringBHasNoFixedPoint();
    WiringBIsSelfInverse();
    ReflectorWiringByCodes(WiringB);
  }

  lemma WiringBHasNoFixedPoint()
    ensures |WiringB| == 26
    ensures forall i :: 0 <= i < 26 ==> 65 <= WiringB[i] as int < 91 && WiringB[i] as int != 65 + i
  {
  }

  lemma WiringBIsSelfInverse()
    ensures |WiringB| == 26
    ensures forall i :: 0 <= i < 26 ==> 65 <= WiringB[i] as int < 91 && WiringB[WiringB[i] as int - 65] as int == 65 + i
  {
    WiringBSelfInverseLow();
    WiringBSelfInverseHigh();
  }

  lemma WiringBSelfInverseLow()
    ensures |WiringB| == 26
    ensures forall i :: 0 <= i < 13 ==> 65 <= WiringB[i] as int < 91 && WiringB[WiringB[i] as int - 65] as int == 65 + i
  {
  }

  lemma WiringBSelfInverseHigh()
    ensures |WiringB| == 26
    ensures forall i :: 13 <= i < 26 ==> 65 <= WiringB[i] as int < 91 && WiringB[WiringB[i] as int - 65] as int == 65 + i
  {
  }

  lemma WiringCIsReflector()
    ensures IsReflectorWiring(WiringC)
  {
    WiringCHasNoFixedPoint();
    WiringCIsSelfInverse();
    ReflectorWiringByCodes(WiringC);
  }

  lemma WiringCHasNoFixedPoint()
    ensures |WiringC| == 26
    ensures forall i :: 0 <= i < 26 ==> 65 <= WiringC[i] as int < 91 && WiringC[i] as int != 65 + i
  {
  }

  lemma WiringCIsSelfInverse()
    ensures |WiringC| == 26
    ensures forall i :: 0 <= i < 26 ==> 65 <= WiringC[i] as int < 91 && WiringC[WiringC[i] as int - 65] as int == 65 + i
  {
    WiringCSelfInverseLow();
    WiringCSelfInverseHigh();
  }

  lemma WiringCSelfInverseLow()
    ensures |WiringC| == 26
    ensures forall i :: 0 <= i < 13 ==> 65 <= WiringC[i] as int < 91 && WiringC[WiringC[i] as int - 65] as int == 65 + i
  {
  }

  lemma WiringCSelfInverseHigh()
    ensures |WiringC| == 26
    ensures forall i :: 13 <= i < 26 ==> 65 <= WiringC[i] as int < 91 && WiringC[WiringC[i] as int - 65] as int == 65 + i
  {
  }

  /** A reflector never answers a key that is not a letter, whatever its wiring. */
  lemma RejectsNonLetters(w: string, key: char)
    requires !IsLetter(key)
    ensures FromWiring(w).Encode(key) == KeyError
  {
    LettersInOrder();
    assert key !in Entries(Zip(w));
    LookupEntryMeaning(Zip(w), key);
  }

  /** On a reflector wiring, encoding is a fixed-point-free involution of the letters. */
  lemma EncodeIsInvolution(w: string, x: char)
    requires IsReflectorWiring(w) && IsLetter(x)
    ensures FromWiring(w).Encode(x).Ok?
    ensures var y := FromWiring(w).Encode(x).value;
      IsLetter(y) && y != x && FromWiring(w).Encode(y) == Ok(x)
  {
    var t := Zip(w);
    ZipOfPermutation(w);
    LetterAt(x);
    LookupEntryAt(t, Pos(x));
    var y := w[Pos(x)];
    LetterAt(y);
    LookupEntryAt(t, Pos(y));
  }

  /** Reflectors B and C: `encode(encode(x)) == x` and `encode(x) != x` for every letter, KeyError otherwise. */
  lemma ReflectorsBAndC(x: char)
    ensures IsLetter(x) ==>
      FromWiring(WiringB).Encode(x).Ok? && FromWiring(WiringB).Encode(x).value != x &&
      FromWiring(WiringB).Encode(FromWiring(WiringB).Encode(x).value) == Ok(x)
    ensures IsLetter(x) ==>
      FromWiring(WiringC).Encode(x).Ok? && FromWiring(WiringC).Encode(x).value != x &&
      FromWiring(WiringC).Encode(FromWiring(WiringC).Encode(x).value) == Ok(x)
    ensures !IsLetter(x) ==> FromWiring(WiringB).Encode(x) == KeyError && FromWiring(WiringC).Encode(x) == KeyError
  {
    if IsLetter(x) {
      WiringBIsReflector();
      WiringCIsReflector();
      EncodeIsInvolution(WiringB, x);
      EncodeIsInvolution(WiringC, x);
    } else {
      RejectsNonLetters(WiringB, x);
      RejectsNonLetters(WiringC, x);
    }
  }
}
