/**
 * The nanoid-like identifier generator: `size` characters, each drawn
 * uniformly from 62 letters and digits.
 */
module Common {
  const Digits: string := "0123456789"
  const UpperCase: string := "ABCDEFGHIJKLMNOPQRSTUVWXYZ"
  const LowerCase: string := "abcdefghijklmnopqrstuvwxyz"

  /** "0123456789ABCDEFGHIJKLMNOPQRSTUVWXYZabcdefghijklmnopqrstuvwxyz". */
  const Alphabet: string := Digits + UpperCase + LowerCase

  const DefaultSize: nat := 21

  /** The index `floor(random() * 62)` can take: `random()` lies in [0, 1). */
  type AlphabetIndex = i: nat | i < 62

  /** The identifier made by the draws `draw(0), ..., draw(size - 1)`. */
  function NanoId(draw: nat -> AlphabetIndex, size: nat): string {
    seq(size, i requires 0 <= i => Alphabet[draw(i)])
  }

  /** `generateNanoId`: the random source is the sequence of draws. */
  method GenerateNanoId(draw: nat -> AlphabetIndex, size: nat := DefaultSize) returns (id: string)
    ensures id == NanoId(draw, size)
    ensures |id| == size
    ensures forall i :: 0 <= i < size ==> id[i] == Alphabet[draw(i)]
  {
    id := "";
    for i := 0 to size
      invariant id == NanoId(draw, i)
    {
      id := id + [Alphabet[draw(i)]];
    }
  }

  /** The character code at index `i` of the alphabet. */
  function Code(i: nat): int {
    if i < 10 then '0' as int + i
    else if i < 36 then 'A' as int + (i - 10)
    else 'a' as int + (i - 36)
  }

  /** The alphabet is the ten digits, then the upper-case, then the lower-case
      letters, each run in code order. */
  lemma AlphabetCodes()
    ensures |Alphabet| == 62
    ensures forall i :: 0 <= i < 62 ==> Alphabet[i] as int == Code(i)
  {
    assert forall i :: 0 <= i < 10 ==> Digits[i] as int == '0' as int + i;
    assert forall i :: 0 <= i < 26 ==> UpperCase[i] as int == 'A' as int + i;
    assert forall i :: 0 <= i < 26 ==> LowerCase[i] as int == 'a' as int + i;
  }

  /** The 62 characters of the alphabet are distinct. */
  lemma AlphabetDistinct()
    ensures forall i, j :: 0 <= i < j < 62 ==> Alphabet[i] != Alphabet[j]
  {
    AlphabetCodes();
  }

  /** Every identifier has the requested length and only alphabet characters,
      and it determines the draws that produced it. */
  lemma NanoIdShape(draw: nat -> AlphabetIndex, other: nat -> AlphabetIndex, size: nat)
    ensures |NanoId(draw, size)| == size
    ensures forall c :: c in NanoId(draw, size) ==> c in Alphabet
    ensures NanoId(draw, size) == NanoId(other, size) <==> forall i :: 0 <= i < size ==> draw(i) == other(i)
  {
    AlphabetDistinct();
    if NanoId(draw, size) == NanoId(other, size) {
      forall i | 0 <= i < size ensures draw(i) == other(i) {
        assert Alphabet[draw(i)] == NanoId(draw, size)[i] == NanoId(other, size)[i] == Alphabet[other(i)];
      }
    }
    forall c | c in NanoId(draw, size) ensures c in Alphabet {
      var i :| 0 <= i < size && NanoId(draw, size)[i] == c;
      assert c == Alphabet[draw(i)];
    }
  }
}
