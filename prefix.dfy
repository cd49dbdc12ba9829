/**
 * The prefix generator of cli/prefix.go. The entropy source (`crypto/rand`) is
 * an input: the bytes it delivered, or its failure.
 */
module Prefix {

  newtype byte = x: int | 0 <= x < 256

  const PrefixLen: nat := 5

  /** `[]byte("bcdfghjkmnpqrstvwxyz")`, the ASCII codes of 20 consonants. */
  const Lexicon: seq<byte> := [
    0x62, 0x63, 0x64, 0x66, 0x67, 0x68, 0x6A, 0x6B, 0x6D, 0x6E,
    0x70, 0x71, 0x72, 0x73, 0x74, 0x76, 0x77, 0x78, 0x79, 0x7A]

  const NumLexemes: nat := |Lexicon|

  /** The lexicon as text. */
  const LexiconText: string := "bcdfghjkmnpqrstvwxyz"

  /** `string(bs)`: one character per byte. */
  function ToText(bs: seq<byte>): (s: string)
    ensures |s| == |bs|
    ensures forall i | 0 <= i < |bs| :: s[i] as int == bs[i] as int
  {
    seq(|bs|, i requires 0 <= i < |bs| => bs[i] as int as char)
  }

  lemma LexiconSpellsConsonants()
    ensures NumLexemes == 20
    ensures ToText(Lexicon) == LexiconText
  {
  }

  /** The 20 lexemes are pairwise distinct. */
  lemma LexiconDistinct()
    ensures forall i, j | 0 <= i < j < NumLexemes :: Lexicon[i] != Lexicon[j]
  {
  }

  /** `_lexicon[int(b) % _numLexemes]`; the index is in [0, 20). */
  function Lexeme(b: byte): (l: byte)
    ensures 0 <= b as int % NumLexemes < NumLexemes
    ensures l in Lexicon
  {
    Lexicon[b as int % NumLexemes]
  }

  /** The specification of the loop: every byte replaced by its lexeme. */
  ghost function Lexemes(bs: seq<byte>): (ls: seq<byte>)
  {
    seq(|bs|, i requires 0 <= i < |bs| => Lexeme(bs[i]))
  }

  /** The loop of `GenPrefix`, which overwrites the random bytes in place. */
  method ToLexemes(buf: array<byte>)
    requires buf.Length == PrefixLen
    modifies buf
    ensures buf[..] == Lexemes(old(buf[..]))
  {
    for i := 0 to PrefixLen
      invariant forall k | 0 <= k < i :: buf[k] == Lexeme(old(buf[k]))
      invariant forall k | i <= k < buf.Length :: buf[k] == old(buf[k])
    {
      var randByte := buf[i];
      buf[i] := Lexeme(randByte);
    }
  }

  datatype Entropy = EntropyFailed | Random(bytes: seq<byte>)

  /** A failed entropy read panics: no prefix is ever returned in its place. */
  datatype PrefixResult = Panicked | Generated(prefix: string)

  /** The prefix a given draw of random bytes yields. */
  ghost function PrefixOf(random: seq<byte>): string
  {
    ToText(Lexemes(random))
  }

  ghost predicate IsPrefix(s: string)
  {
    |s| == PrefixLen && forall i | 0 <= i < |s| :: s[i] in LexiconText
  }

  /** `GenPrefix`: `crypto/rand.Read` fills all `_prefixLen` bytes unless it fails. */
  method GenPrefix(entropy: Entropy) returns (r: PrefixResult)
    requires entropy.Random? ==> |entropy.bytes| == PrefixLen
    ensures entropy.EntropyFailed? <==> r.Panicked?
    ensures entropy.Random? ==> r == Generated(PrefixOf(entropy.bytes))
    ensures r.Generated? ==> IsPrefix(r.prefix)
  {
    if entropy.EntropyFailed? {
      return Panicked;
    }
    var randomBytes := new byte[PrefixLen](i requires 0 <= i < PrefixLen => entropy.bytes[i]);
    assert randomBytes[..] == entropy.bytes;
    ToLexemes(randomBytes);
    r := Generated(ToText(randomBytes[..]));
    PrefixWellFormed(entropy.bytes);
  }

  /** Every prefix is 5 characters of the lexicon, character i being `lexicon[random[i] % 20]`. */
  lemma PrefixWellFormed(random: seq<byte>)
    requires |random| == PrefixLen
    ensures IsPrefix(PrefixOf(random))
    ensures forall i | 0 <= i < PrefixLen :: PrefixOf(random)[i] == LexiconText[random[i] as int % 20]
  {
  }

  /** Two draws give the same prefix exactly when they agree modulo 20, byte by byte. */
  lemma PrefixDeterminedByResidues(a: seq<byte>, b: seq<byte>)
    requires |a| == |b| == PrefixLen
    ensures PrefixOf(a) == PrefixOf(b) <==> forall i | 0 <= i < PrefixLen :: a[i] as int % 20 == b[i] as int % 20
  {
    LexiconDistinct();
    if PrefixOf(a) == PrefixOf(b) {
      forall i | 0 <= i < PrefixLen
        ensures a[i] as int % 20 == b[i] as int % 20
      {
        assert PrefixOf(a)[i] == PrefixOf(b)[i];
        assert Lexicon[a[i] as int % 20] == Lexicon[b[i] as int % 20];
      }
    }
  }

  /** Every 5-letter word over the lexicon is produced by some draw. */
  lemma EveryPrefixReachable(s: string)
    requires IsPrefix(s)
    ensures exists random: seq<byte> | |random| == PrefixLen :: PrefixOf(random) == s
  {
    var random := seq(PrefixLen, i requires 0 <= i < PrefixLen => IndexIn(LexiconText, s[i]) as byte);
    PrefixWellFormed(random);
    var p := PrefixOf(random);
    forall i | 0 <= i < PrefixLen
      ensures p[i] == s[i]
    {
      var k := IndexIn(LexiconText, s[i]);
      assert random[i] as int == k < 20;
      SmallResidue(k);
    }
    assert p == s;
  }

  /** The residue step of EveryPrefixReachable, kept apart from that lemma's large context. */
  lemma SmallResidue(k: nat)
    requires k < 20
    ensures k % 20 == k
  {
  }

  /** The position of a character of t. */
  function IndexIn(t: string, c: char): (k: nat)
    requires c in t
    ensures k < |t| && t[k] == c
  {
    if t[0] == c then 0 else 1 + IndexIn(t[1..], c)
  }
}
