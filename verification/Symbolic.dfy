/**
 Text whose symbols are characters or whole digests. A digest is a free
 constructor over the text it was computed from, so hashing is injective and a
 digest is never equal to text typed out character by character.
 */
module Symbolic {
  import opened Delimited

  datatype Sym = Ch(c: char) | Digest(preimage: seq<Sym>)

  type Str = seq<Sym>

  const BAR: Sym := Ch('|')

  function Sha(s: Str): Str {
    [Digest(s)]
  }

  function Lift(s: string): (r: Str)
    ensures |r| == |s|
    ensures forall i :: 0 <= i < |s| ==> r[i] == Ch(s[i])
  {
    seq(|s|, i requires 0 <= i < |s| => Ch(s[i]))
  }

  /** A parsed PEM; `NullKey` is what an unparsable one yields. */
  datatype PublicKey = NullKey | PublicKey(id: nat)

  /** Ed25519 signatures, taken as unforgeable: the only one that verifies is the one over that very blob. */
  datatype Signature = NoSignature | Signed(key: nat, blob: Str) | Junk(bytes: nat)

  predicate SignatureVerifies(key: PublicKey, blob: Str, sig: Signature) {
    key.PublicKey? && sig == Signed(key.id, blob)
  }

  const TWO_64: int := 0x1_0000_0000_0000_0000

  type U64 = x: int | 0 <= x < TWO_64

  ghost predicate BarFree(s: string) {
    Free('|', s)
  }

  lemma LiftFree(s: string)
    ensures BarFree(s) <==> Free(BAR, Lift(s))
  {
    forall i | 0 <= i < |s| ensures Lift(s)[i] == BAR <==> s[i] == '|' {}
    if Free(BAR, Lift(s)) {
      forall i | 0 <= i < |s| ensures s[i] != '|' { assert Lift(s)[i] != BAR; }
    }
  }

  lemma LiftInjective(s: string, t: string)
    requires Lift(s) == Lift(t)
    ensures s == t
  {
    assert |s| == |t|;
    forall i | 0 <= i < |s| ensures s[i] == t[i] {
      assert Ch(s[i]) == Lift(s)[i] == Lift(t)[i] == Ch(t[i]);
    }
  }

  /** Cut a free first field off, as text. */
  lemma CutText(a: string, b: Str, a': string, b': Str)
    requires BarFree(a) && BarFree(a') && Lift(a) + [BAR] + b == Lift(a') + [BAR] + b'
    ensures a == a' && b == b'
  {
    LiftFree(a);
    LiftFree(a');
    CutFirst(BAR, Lift(a), b, Lift(a'), b');
    LiftInjective(a, a');
  }

  /** Free text, then three bar-free fields: the last bars are the separators. */
  lemma CutThree(e: Str, x: Str, y: Str, z: Str, e': Str, x': Str, y': Str, z': Str)
    requires Free(BAR, x) && Free(BAR, y) && Free(BAR, z) && Free(BAR, x') && Free(BAR, y') && Free(BAR, z')
    requires e + [BAR] + (x + [BAR] + (y + [BAR] + z)) == e' + [BAR] + (x' + [BAR] + (y' + [BAR] + z'))
    ensures e == e' && x == x' && y == y' && z == z'
  {
    var exy, exy' := e + [BAR] + x + [BAR] + y, e' + [BAR] + x' + [BAR] + y';
    assert e + [BAR] + (x + [BAR] + (y + [BAR] + z)) == exy + [BAR] + z;
    assert e' + [BAR] + (x' + [BAR] + (y' + [BAR] + z')) == exy' + [BAR] + z';
    CutLast(BAR, exy, z, exy', z');
    var ex, ex' := e + [BAR] + x, e' + [BAR] + x';
    assert exy == ex + [BAR] + y && exy' == ex' + [BAR] + y';
    CutLast(BAR, ex, y, ex', y');
    CutLast(BAR, e, x, e', x');
  }

  // ---------------------------------------------------------------- two texts joined by a bar

  function Joined(a: string, b: string): string { a + "|" + b }

  predicate StartsWith(s: string, start: string) {
    |start| <= |s| && s[..|start|] == start
  }

  /** One text begins with the other and a bar. */
  predicate Overlaps(a: string, a': string) {
    StartsWith(a, a' + "|") || StartsWith(a', a + "|")
  }

  /** Two ways to cut one text are the same exactly if the first parts do not overlap. */
  lemma JoinedSameIff(a: string, b: string, a': string, b': string)
    requires Joined(a, b) == Joined(a', b')
    ensures a == a' && b == b' <==> !Overlaps(a, a')
  {
    var text, text' := Joined(a, b), Joined(a', b');
    assert text[..|a| + 1] == a + "|" && text'[..|a'| + 1] == a' + "|";
    assert b == text[|a| + 1..] && b' == text'[|a'| + 1..];
    if |a'| < |a| {
      assert a[..|a'| + 1] == text[..|a'| + 1];
    } else if |a| < |a'| {
      assert a'[..|a| + 1] == text'[..|a| + 1];
    } else {
      assert a == text[..|a|] == text'[..|a'|] == a';
    }
  }

  /** Two different texts can begin one joined text exactly if they overlap. */
  lemma JoinedCollidesIff(a: string, a': string)
    requires a != a'
    ensures (exists b, b' :: Joined(a, b) == Joined(a', b')) <==> Overlaps(a, a')
  {
    forall b, b' | Joined(a, b) == Joined(a', b') ensures Overlaps(a, a') {
      JoinedSameIff(a, b, a', b');
    }
    if StartsWith(a, a' + "|") {
      assert Joined(a, "") == Joined(a', a[|a' + "|"|..] + "|");
    } else if StartsWith(a', a + "|") {
      assert Joined(a, a'[|a + "|"|..] + "|") == Joined(a', "");
    }
  }

  lemma StartHasBar(s: string, other: string)
    requires StartsWith(s, other + "|")
    ensures !BarFree(s)
  {
    var start := other + "|";
    assert s[|other|] == s[..|start|][|other|] == start[|other|] == '|';
  }

  lemma LiftJoin(a: string, b: string)
    ensures Lift(Joined(a, b)) == Lift(a) + [BAR] + Lift(b)
  {
  }

  lemma JoinedText(a: string, b: string, rest: Str)
    ensures Lift(a) + [BAR] + (Lift(b) + [BAR] + rest) == Lift(Joined(a, b)) + [BAR] + rest
  {
    LiftJoin(a, b);
    assert Lift(a) + [BAR] + (Lift(b) + [BAR] + rest) == (Lift(a) + [BAR] + Lift(b)) + [BAR] + rest;
  }
}
