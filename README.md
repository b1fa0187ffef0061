# A rotor cipher machine, modelled and proved in Dafny

This project models `enigma.py`, a small simulation of a three-rotor cipher
machine. A key press goes through the plugboard, then rotors a, b and c
("rtl", entry side to wired side), then reflector B. It comes back through
rotors c, b and a ("ltr", wired side to entry side) and through the plugboard
again. On the way in each rotor is looked up and then turns: rotor a always,
rotors b and c when the rotor to their right reports a carry from its notch.

The modules follow the classes of the source:

- `Alphabet` holds the 26 letters and what it means for a string to be a wiring (a permutation of them).
- `Wiring` holds the `RotorBase` list of `(entry, wired)` pairs.
  - `Zip` builds the list from a wiring string.
  - `LookupEntry` and `LookupWired` are the two searches.
  - `Rotated` is `insert(0, pop())`.
  - The lemmas cover rotation and lookups.
- `Rotors` holds the `Rotor` class.
  - Its `rotor` field is a sequence that `Rotate` and `Encode` reassign.
  - `FindKey` is written as the source's search loop.
  - `FindKeyIn`, `CarryOut` and `EncodeIn` are the pure specifications of these methods.
- `Reflectors` holds the reflector (a lookup in a fixed table) and the two reflector wirings B and C.
- `Plugboards` holds the plugboard pair swap.
- `Machines` holds the `Machine` class. `KeyPress` steps the rotor objects in place. It is proved against `Press`, a function on the three rotor lists. The lemmas state the stepping rule, self-reciprocity and independence from rotor position.

A `KeyError` raised by the source is the `KeyError` case of `Result`. A
direction other than `"rtl"` or `"ltr"` (including the default `None`) is
`Unrecognised`.

How the code behaves, rather than what a textbook machine does:

- `Rotor.encode` looks the key up **before** it rotates.
- `rotate` moves whole `(entry, wired)` pairs.
- So the substitution a rotor computes never depends on its position. `key_press` is the same map (plugboard, rotors forward, reflector, rotors back, plugboard) in every rotor state. Rotation only changes which pair sits at the head, and the head is where the carry is read.
- A textbook machine steps a rotor before the signal passes through it. This code looks the key up first (enigma.py:65-68). `EncodeOutputIgnoresRotation` and `PressIgnoresPosition` show that the order cannot be seen in the output.
- The carry of rotor b is read from its head whether or not b turned (enigma.py:70, 78). So while b rests with F at its head, rotor c turns on every press: 26 consecutive presses.

## Model

| member | source | states |
|---|---|---|
| Alphabet.LettersArePermutation | enigma.py:46-49 | the generated alphabet is 26 distinct letters A..Z |
| Alphabet.PermutationCoversAlphabet | enigma.py:43-44 | a wiring of 26 distinct letters contains every letter |
| Wiring.Zip | enigma.py:43-44 | the list pairs the i-th letter of the alphabet with the i-th letter of the wiring, and is as long as the shorter of the two |
| Wiring.ZipOfPermutation | enigma.py:43-44 | a list built from a wiring string is a bijection on both sides |
| Wiring.LookupEntry | enigma.py:56-59 | the "rtl" search; its meaning is proved in `LookupEntryMeaning`, `LookupEntryAt` and `LookupInverse` |
| Wiring.LookupWired | enigma.py:60-62 | the "ltr" search; proved to be the "rtl" search on reversed pairs in `LookupWiredIsFlipped` |
| Wiring.Rotated | enigma.py:72-73 | `insert(0, pop())` keeps the length; `RotatedKeepsElements` proves the pairs are kept and the old tail is the new head |
| Wiring.LookupEntryMeaning | enigma.py:56-62 | the entry-side search fails exactly when no pair has the key as entry; on success the pair (key, result) is in the list |
| Wiring.LookupWiredIsFlipped | enigma.py:60-61 | the wired-side search is the entry-side search on the list with each pair reversed |
| Wiring.LookupEntryAt | enigma.py:56-62 | with distinct entries, the search for the i-th entry returns the i-th wired letter |
| Wiring.LookupInverse | enigma.py:56-62 | on a bijection, a letter looked up from the entry side and the answer looked up from the wired side give the letter back |
| Wiring.LookupInverseBack | enigma.py:56-62 | on a bijection, wired side then entry side gives the letter back |
| Wiring.RotatedKeepsElements | enigma.py:72-73 | a rotation keeps the multiset of pairs, and the new head is the old tail |
| Wiring.FullTurn | enigma.py:72-73 | 26 rotations of a 26-pair list restore it (n rotations of an n-pair list in general) |
| Wiring.RotationsKeepBijection | enigma.py:72-73 | any number of rotations keeps a bijective list bijective |
| Wiring.LookupEntryIgnoresRotation | enigma.py:72-73 | a rotation leaves the entry-side search unchanged |
| Wiring.LookupWiredIgnoresRotation | enigma.py:72-73 | a rotation leaves the wired-side search unchanged |
| Wiring.LookupsIgnoreRotations | enigma.py:72-73 | any number of rotations of a bijective list leaves both searches unchanged |
| Rotors.Rotor.constructor | enigma.py:43-44 | a new rotor's list is the alphabet zipped with its wiring, and it keeps its notch letter |
| Rotors.Rotor.FindKey | enigma.py:56-62 | the search loop returns what the first matching pair gives in the chosen direction, else KeyError |
| Rotors.FindKeyRoundTrip | enigma.py:56-62 | over a bijective list, "rtl" and "ltr" are mutual inverses on the letters |
| Rotors.FindKeyFails | enigma.py:56-62 | over a bijective list, KeyError exactly for a non-letter key or an unrecognised direction; success yields a letter |
| Rotors.FindKeyIgnoresRotation | enigma.py:72-73 | no number of rotations changes what `find_key` returns |
| Rotors.Rotor.Rotate | enigma.py:72-73 | the list becomes the old tail followed by the rest, with the same multiset of pairs |
| Rotors.Rotor.RotateNextRotor | enigma.py:75-78 | no carry for "ltr"; otherwise carry exactly when the head entry equals the notch letter |
| Rotors.Rotor.Encode | enigma.py:64-70 | lookup on the list before rotation, rotation only after a successful lookup and only if asked, carry read afterwards |
| Rotors.EncodeIn | enigma.py:64-70 | what `encode` does to a list; its order of lookup, turn and carry is proved in `EncodeSteps` |
| Rotors.EncodeSteps | enigma.py:64-70 | on KeyError the list is unchanged; otherwise it turned exactly once iff `rotate`, and the carry is the head check after the optional turn (always false for "ltr") |
| Rotors.EncodeOutputIgnoresRotation | enigma.py:64-70 | the letter returned equals what the list after the call would give, and the list stays bijective |
| Reflectors.WiringBIsReflector | enigma.py:116 | wiring B is a permutation with no fixed point that is its own inverse |
| Reflectors.WiringCIsReflector | enigma.py:117 | wiring C is a permutation with no fixed point that is its own inverse |
| Reflectors.Reflector.Encode | enigma.py:86-90 | the entry-side search of the reflector; proved an involution without fixed points in `EncodeIsInvolution` and `ReflectorsBAndC` |
| Reflectors.EncodeIsInvolution | enigma.py:86-90 | on a reflector wiring, encode sends each letter to a different letter whose encoding is the first letter |
| Reflectors.RejectsNonLetters | enigma.py:86-90 | a non-letter raises KeyError, whatever the wiring |
| Reflectors.ReflectorsBAndC | enigma.py:116-117 | for B and C: encode(encode(x)) == x and encode(x) != x on letters, KeyError on everything else |
| Plugboards.Swap | enigma.py:97-103 | a key in no pair comes back unchanged; any other result is a letter of some pair |
| Plugboards.Plugboard.Encode | enigma.py:97-103 | `Swap` on the board's pairs; partner, pass-through and involution proved in `SwapPartner`, `Swap` and `SwapInvolution` |
| Plugboards.SwapPartner | enigma.py:97-103 | with disjoint pairs, each letter of a pair is sent to the other |
| Plugboards.SwapInvolution | enigma.py:97-103 | with disjoint pairs, encoding twice gives the key back |
| Plugboards.SwapKeepsLetters | enigma.py:97-103 | with pairs of letters, the result is a letter exactly when the key is |
| Plugboards.DemoPlugboard | enigma.py:149 | the demo pairs are disjoint letters, A goes to F, F to A, and B passes through |
| Machines.WiringIIsPermutation | enigma.py:118 | rotor a's wiring is a permutation of the letters |
| Machines.WiringIIIsPermutation | enigma.py:119 | rotor b's wiring is a permutation of the letters |
| Machines.WiringIIIIsPermutation | enigma.py:120 | rotor c's wiring is a permutation of the letters |
| Machines.InitialIsWellFormed | enigma.py:118-120 | the three starting lists are bijections |
| Machines.Stepped | enigma.py:131-133 | the stepping rule keeps every list's length |
| Machines.SteppedIsWellFormed | enigma.py:131-133 | stepping keeps every list bijective |
| Machines.TurnedIsWellFormed | enigma.py:131-133 | rotors turned any number of times stay bijective |
| Machines.Press | enigma.py:128-143 | `key_press` on rotor lists; proved equal to plugboard, `Scramble`, plugboard with the rotors stepped by `Stepped` in `PressIsScramble` |
| Machines.Forward | enigma.py:131-133 | the forward pass with carry-driven turns; its stepping is `Stepped` by `PressIsScramble` |
| Machines.Back | enigma.py:135-139 | the return pass through reflector B; it turns no rotor, by `PressIsScramble` |
| Machines.PressIsScramble | enigma.py:128-143 | on bijective lists a press fails exactly when the plugboard's image of the key is not a letter, and then no rotor has moved; otherwise the rotors step by the stepping rule and the output is the plugboard image of the scrambled letter |
| Machines.ScrambleIsReciprocal | enigma.py:131-139 | forward through the rotors, reflector, back: a fixed-point-free involution of the letters |
| Machines.ScrambleIgnoresRotations | enigma.py:131-139 | the scramble does not depend on how far any rotor has turned |
| Machines.PressIsSelfReciprocal | enigma.py:128-143 | from any bijective state, with disjoint pairs, x gives some y != x and pressing y from the same state gives x |
| Machines.PressRejectsNonLetters | enigma.py:129-131 | with a letters-only plugboard a press raises KeyError exactly for a non-letter key, and then no rotor moves |
| Machines.PressIgnoresPosition | enigma.py:128-143 | a press gives the same result whatever positions the rotors have turned to |
| Machines.PressFromTurned | enigma.py:128-143 | a press from turned rotors answers as a press from their starting lists |
| Machines.MachinesAgree | enigma.py:116-123 | two machines built from the same lists and plugboard answer every key alike, however far each has stepped |
| Machines.RotorAFullCycle | enigma.py:131 | after 26 successful presses rotor a is back at its starting list |
| Machines.RotorARotations | enigma.py:131 | after n successful presses rotor a has turned exactly n times |
| Machines.Machine.constructor | enigma.py:116-122 | a new machine holds five distinct rotors on wirings I..V with notches R, F, W, K, A, starting from the zipped lists |
| Machines.Machine.KeyPress | enigma.py:128-143 | the result and new rotor lists are those of `Press`; KeyError exactly when the plugboard's image is not a letter; a successful press steps by the stepping rule and a failed one moves nothing; rotors d and e untouched |
| Machines.Machine.RunForward | enigma.py:131-133 | rotors a, b, c searched "rtl", each turned when asked, the carry of one deciding the next |
| Machines.Machine.RunBack | enigma.py:135-139 | reflector B, then rotors c, b, a searched "ltr"; no rotor turns |
| Machines.EncipherStep | enigma.py:156-157 | typing one more key appends its output, or the message fails |
| Machines.EncipherKeepsFailing | enigma.py:156-157 | once a prefix raises KeyError, the whole message does |
| Machines.EncipherRoundTrip | enigma.py:153-166 | a message of letters enciphers to one of the same length with no letter left in place, and enciphering that from the same start gives the message back |
| Machines.SteppedNLast | enigma.py:155-157 | n + 1 presses are n presses followed by one more |
| Machines.Machine.TypeMessage | enigma.py:155-157 | the loop's collected output is `Encipher` of the message from the machine's starting lists, and after a message of n keys that all succeed the rotor lists are those of n steps by the stepping rule |
| Machines.EncryptThenDecrypt | enigma.py:146-166 | two fresh machines with the same disjoint, letters-only plugboard: the second turns the first's cipher text back into the message |
| Machines.DemoRoundTrip | enigma.py:149-166 | with the demo plugboard, the alphabet typed twice comes back |

## Left out

- `Lightboard.display` prints the key and returns it. The print is console output; `KeyPress` returns the key as it is.
- `main`: the instances of `Keyboard` and the two `print` calls, which are commented out, are not modelled. Each of its two loops is `Machine.TypeMessage`, and `EncryptThenDecrypt` is `main` itself.
- `Keyboard` is an empty placeholder class.
- Rotors and reflectors in the source are class attributes, so every `Machine` instance shares them. Here each machine builds and owns its own rotors. `MachinesAgree` and `PressIgnoresPosition` state why this cannot change a cipher text: a press answers the same from every rotor position.
- The `dataclass` machinery and the `alphabet` generator are replaced by the constant `Letters`.
- Ring settings, double stepping and a position-dependent substitution are not in the code, so they are not in the model.
- Keys are single characters. A Python key that is a longer string matches no pair, so it behaves like a non-letter (KeyError at rotor a).
- `Rotors.Rotor.Rotate`: requires a non-empty list. `pop()` on an empty list raises IndexError, which is not modelled.
- `Rotors.Rotor.RotateNextRotor`: requires a non-empty list unless the direction is "ltr". `rotor[0]` on an empty list raises IndexError, which is not modelled.
- `Machines.Machine.KeyPress`: requires the invariant a constructed machine keeps. A machine whose rotor lists were replaced from outside is not modelled.
- `Machines.RotorAFullCycle`: states the full cycle of rotor a only. Rotors b and c have period 676, which the model does not state.
- `Machines.EncipherRoundTrip` requires letters-only plugboard pairs. A pair that joins a non-letter can turn a letter into a KeyError, and the round trip then says nothing.
- Reflector C and rotors d and e are built but never used by a key press. `KeyPress` leaves rotors d and e unchanged, and reflector C is a constant field.
