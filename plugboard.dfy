/** The plugboard: a list of letter pairs, each swapped for the other; everything else passes through. */
module Plugboards {
  import opened Alphabet

  /** Every letter mentioned by a list of connections. */
  function Chars(connections: seq<(char, char)>): set<char>
    decreases |connections|
  {
    if |connections| == 0 then {}
    else {connections[0].0, connections[0].1} + Chars(connections[1..])
  }

  /** No letter appears twice across the connections, not even within one pair. */
  predicate Disjoint(connections: seq<(char, char)>)
    decreases |connections|
  {
    |connections| == 0 ||
    (connections[0].0 != connections[0].1 &&
     connections[0].0 !in Chars(connections[1..]) &&
     connections[0].1 !in Chars(connections[1..]) &&
     Disjoint(connections[1..]))
  }

  /** Every connection joins two letters. */
  predicate LettersOnly(connections: seq<(char, char)>) {
    forall c :: c in Chars(connections) ==> IsLetter(c)
  }

  /** The search of `Plugboard.encode`: the partner from the first pair that holds the key, else the key. */
  function Swap(connections: seq<(char, char)>, key: char): (r: char)
    ensures key !in Chars(connections) ==> r == key
    ensures r == key || r in Chars(connections)
    decreases |connections|
  {
    if |connections| == 0 then key
    else if connections[0].0 == key then connections[0].1
    else if connections[0].1 == key then connections[0].0
    else Swap(connections[1..], key)
  }

  datatype Plugboard = Plugboard(connections: seq<(char, char)>) {
    function Encode(key: char): char {
      Swap(connections, key)
    }
  }

  /** With disjoint pairs, each letter of a pair is sent to the other. */
  lemma {:induction false} SwapPartner(connections: seq<(char, char)>, i: nat)
    requires Disjoint(connections) && i < |connections|
    ensures Swap(connections, connections[i].0) == connections[i].1
    ensures Swap(connections, connections[i].1) == connections[i].0
  {
    if i > 0 {
      var rest := connections[1..];
      assert connections[i] == rest[i - 1];
      PairInChars(rest, i - 1);
      SwapPartner(rest, i - 1);
    }
  }

  lemma {:induction false} PairInChars(connections: seq<(char, char)>, i: nat)
    requires i < |connections|
    ensures connections[i].0 in Chars(connections) && connections[i].1 in Chars(connections)
  {
    if i > 0 {
      PairInChars(connections[1..], i - 1);
    }
  }

  /** With disjoint pairs, encoding twice gives the key back. */
  lemma {:induction false} SwapInvolution(connections: seq<(char, char)>, key: char)
    requires Disjoint(connections)
    ensures Swap(connections, Swap(connections, key)) == key
    decreases |connections|
  {
    if |connections| > 0 {
      var rest := connections[1..];
      if connections[0].0 != key && connections[0].1 != key {
        SwapInvolution(rest, key);
      }
    }
  }

  /** A plugboard whose pairs are letters maps letters to letters and leaves every other key alone. */
  lemma SwapKeepsLetters(connections: seq<(char, char)>, key: char)
    requires LettersOnly(connections)
    ensures IsLetter(Swap(connections, key)) <==> IsLetter(key)
  {
  }

  /** The connections set up by the demo driver. */
  const DemoConnections: seq<(char, char)> := [('A', 'F'), ('D', 'J'), ('O', 'X'), ('H', 'Z')]

  lemma DemoPlugboard()
    ensures Disjoint(DemoConnections) && LettersOnly(DemoConnections)
    ensures Plugboard(DemoConnections).Encode('A') == 'F' && Plugboard(DemoConnections).Encode('F') == 'A'
    ensures Plugboard(DemoConnections).Encode('B') == 'B'
  {
  }
}
