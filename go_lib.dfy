/** Option type shared by every module of the model (Go's nil-or-value). */
module Optional {
  datatype Option<+T> = None | Some(value: T)
}

/**
 * The pieces of Go's standard library the core relies on: the `strings`
 * functions HasPrefix, TrimPrefix, Contains and TrimSpace, the byte length
 * `len(s)` of a UTF-8 string, and the built-in `copy`.
 *
 * A Go string is modelled by the sequence of runes it decodes to, so `len`
 * is the UTF-8 length of that sequence (Utf8Len).
 */
module GoLib {

  /** strings.HasPrefix */
  predicate HasPrefix(s: string, prefix: string) {
    |prefix| <= |s| && s[..|prefix|] == prefix
  }

  /** strings.TrimPrefix: drop one leading occurrence of `prefix`, if any. */
  function TrimPrefix(s: string, prefix: string): (r: string)
    ensures HasPrefix(s, prefix) ==> s == prefix + r
    ensures !HasPrefix(s, prefix) ==> r == s
  {
    if HasPrefix(s, prefix) then s[|prefix|..] else s
  }

  /** strings.Contains: does `sub` occur in `s` at some position? */
  predicate Contains(s: string, sub: string)
    decreases |s|
  {
    HasPrefix(s, sub) || (|s| > 0 && Contains(s[1..], sub))
  }

  /** The reference definition of an occurrence of `sub` at position `i` of `s`. */
  ghost predicate OccursAt(s: string, sub: string, i: int) {
    0 <= i && i + |sub| <= |s| && s[i..i + |sub|] == sub
  }

  lemma {:induction false} ContainsIffOccurs(s: string, sub: string)
    ensures Contains(s, sub) <==> exists i :: OccursAt(s, sub, i)
    decreases |s|
  {
    if HasPrefix(s, sub) {
      assert OccursAt(s, sub, 0);
    } else if |s| == 0 {
      assert forall i :: !OccursAt(s, sub, i);
    } else {
      ContainsIffOccurs(s[1..], sub);
      forall i | OccursAt(s[1..], sub, i) ensures OccursAt(s, sub, i + 1) {
        assert s[i + 1..i + 1 + |sub|] == s[1..][i..i + |sub|];
      }
      forall i | OccursAt(s, sub, i) ensures OccursAt(s[1..], sub, i - 1) {
        assert i != 0;
        assert s[1..][i - 1..i - 1 + |sub|] == s[i..i + |sub|];
      }
    }
  }

  /** unicode.IsSpace: the Latin-1 spaces and the other White_Space runes. */
  predicate IsSpace(c: char) {
    var n := c as int;
    n == 0x09 || n == 0x0A || n == 0x0B || n == 0x0C || n == 0x0D || n == 0x20
    || n == 0x85 || n == 0xA0 || n == 0x1680 || (0x2000 <= n <= 0x200A)
    || n == 0x2028 || n == 0x2029 || n == 0x202F || n == 0x205F || n == 0x3000
  }

  predicate AllSpace(s: string) {
    forall i :: 0 <= i < |s| ==> IsSpace(s[i])
  }

  /** strings.TrimLeft with unicode.IsSpace: drop leading white space. */
  function TrimLeftSpace(s: string): (r: string)
    ensures |r| <= |s|
  {
    if |s| > 0 && IsSpace(s[0]) then TrimLeftSpace(s[1..]) else s
  }

  /** strings.TrimRight with unicode.IsSpace: drop trailing white space. */
  function TrimRightSpace(s: string): (r: string)
    ensures |r| <= |s|
  {
    if |s| > 0 && IsSpace(s[|s| - 1]) then TrimRightSpace(s[..|s| - 1]) else s
  }

  /** TrimLeftSpace removes a white-space prefix and stops at the first other rune. */
  lemma {:induction false} TrimLeftSpaceShape(s: string)
    ensures TrimLeftSpace(s) == s[|s| - |TrimLeftSpace(s)|..]
    ensures AllSpace(s[..|s| - |TrimLeftSpace(s)|])
    ensures TrimLeftSpace(s) == [] || !IsSpace(TrimLeftSpace(s)[0])
    decreases |s|
  {
    if |s| > 0 && IsSpace(s[0]) {
      var r := TrimLeftSpace(s[1..]);
      TrimLeftSpaceShape(s[1..]);
      assert s[..|s| - |r|] == [s[0]] + s[1..][..|s| - 1 - |r|];
    }
  }

  /** TrimRightSpace removes a white-space suffix and stops at the last other rune. */
  lemma {:induction false} TrimRightSpaceShape(s: string)
    ensures TrimRightSpace(s) == s[..|TrimRightSpace(s)|]
    ensures AllSpace(s[|TrimRightSpace(s)|..])
    ensures TrimRightSpace(s) == [] || !IsSpace(TrimRightSpace(s)[|TrimRightSpace(s)| - 1])
    decreases |s|
  {
    if |s| > 0 && IsSpace(s[|s| - 1]) {
      var r := TrimRightSpace(s[..|s| - 1]);
      TrimRightSpaceShape(s[..|s| - 1]);
      assert s[|r|..] == s[..|s| - 1][|r|..] + [s[|s| - 1]];
    }
  }

  /** strings.TrimSpace: drop leading and trailing white space. */
  function TrimSpace(s: string): (r: string)
  {
    TrimRightSpace(TrimLeftSpace(s))
  }

  /** TrimSpace keeps a contiguous middle part and removes only white space around it. */
  lemma TrimSpaceShape(s: string)
    ensures exists lo, hi ::
      (0 <= lo <= hi <= |s| && TrimSpace(s) == s[lo..hi] && AllSpace(s[..lo]) && AllSpace(s[hi..]))
    ensures TrimSpace(s) == [] || (!IsSpace(TrimSpace(s)[0]) && !IsSpace(TrimSpace(s)[|TrimSpace(s)| - 1]))
  {
    var l := TrimLeftSpace(s);
    var r := TrimRightSpace(l);
    TrimLeftSpaceShape(s);
    TrimRightSpaceShape(l);
    var lo := |s| - |l|;
    var hi := lo + |r|;
    assert l == s[lo..];
    assert r == l[..|r|];
    assert s[lo..hi] == r;
    assert s[hi..] == l[|r|..];
    assert AllSpace(s[..lo]) && AllSpace(s[hi..]);
    if r != [] {
      assert r[0] == l[0];
    }
  }

  lemma {:induction false} TrimLeftOfSpacePrefix(p: string, s: string)
    requires AllSpace(p)
    ensures TrimLeftSpace(p + s) == TrimLeftSpace(s)
    decreases |p|
  {
    if |p| > 0 {
      assert (p + s)[1..] == p[1..] + s;
      TrimLeftOfSpacePrefix(p[1..], s);
    } else {
      assert p + s == s;
    }
  }

  lemma {:induction false} TrimRightOfSpaceSuffix(s: string, q: string)
    requires AllSpace(q)
    ensures TrimRightSpace(s + q) == TrimRightSpace(s)
    decreases |q|
  {
    if |q| > 0 {
      assert (s + q)[..|s + q| - 1] == s + q[..|q| - 1];
      TrimRightOfSpaceSuffix(s, q[..|q| - 1]);
    } else {
      assert s + q == s;
    }
  }

  lemma {:induction false} TrimLeftAppend(s: string, q: string)
    requires TrimLeftSpace(s) != []
    ensures TrimLeftSpace(s + q) == TrimLeftSpace(s) + q
    decreases |s|
  {
    if |s| > 0 && IsSpace(s[0]) {
      assert (s + q)[1..] == s[1..] + q;
      TrimLeftAppend(s[1..], q);
    }
  }

  lemma {:induction false} TrimLeftAllSpace(s: string)
    requires AllSpace(s)
    ensures TrimLeftSpace(s) == []
    decreases |s|
  {
    if |s| > 0 {
      TrimLeftAllSpace(s[1..]);
    }
  }

  /** White space around a string never changes what TrimSpace returns. */
  lemma TrimSpaceIgnoresSurroundingSpace(p: string, s: string, q: string)
    requires AllSpace(p) && AllSpace(q)
    ensures TrimSpace(p + s + q) == TrimSpace(s)
  {
    TrimLeftOfSpacePrefix(p, s + q);
    assert p + s + q == p + (s + q);
    if TrimLeftSpace(s) == [] {
      TrimLeftSpaceShape(s);
      var lo := |s| - |TrimLeftSpace(s)|;
      assert s == s[..lo];
      assert AllSpace(s + q);
      TrimLeftAllSpace(s + q);
    } else {
      TrimLeftAppend(s, q);
      TrimRightOfSpaceSuffix(TrimLeftSpace(s), q);
    }
  }

  /** Number of bytes UTF-8 uses for one rune. */
  function RuneLen(c: char): (n: nat)
    ensures 1 <= n <= 4
    ensures n == 1 <==> (c as int) < 0x80
  {
    var v := c as int;
    if v < 0x80 then 1 else if v < 0x800 then 2 else if v < 0x10000 then 3 else 4
  }

  /** Go's len(s): the byte length of the UTF-8 encoding of the runes of s. */
  function Utf8Len(s: string): (n: nat)
    ensures |s| <= n <= 4 * |s|
  {
    if s == [] then 0 else Utf8Len(s[..|s| - 1]) + RuneLen(s[|s| - 1])
  }

  lemma {:induction false} Utf8LenAscii(s: string)
    requires forall i :: 0 <= i < |s| ==> (s[i] as int) < 0x80
    ensures Utf8Len(s) == |s|
  {
    if s != [] {
      Utf8LenAscii(s[..|s| - 1]);
    }
  }

  /** unicode.ToLower restricted to ASCII capitals; every other rune is left as is. */
  function AsciiLower(c: char): (r: char)
    ensures 'A' <= c <= 'Z' ==> r as int == c as int + 32
    ensures !('A' <= c <= 'Z') ==> r == c
  {
    if 'A' <= c <= 'Z' then (c as int + 32) as char else c
  }

  /**
   * strings.ToLower(s) == word, for a word made of lower-case ASCII letters
   * other than 'i' and 'k'. Go's simple case mapping sends only the matching
   * ASCII capital to each such letter (the two non-ASCII runes that lower-case
   * to ASCII, U+0130 and U+212A, give 'i' and 'k'), so rune-wise ASCII
   * lower-casing decides the comparison.
   */
  predicate LowerEquals(s: string, word: string) {
    |s| == |word| && forall i :: 0 <= i < |s| ==> AsciiLower(s[i]) == word[i]
  }

  function Min(a: int, b: int): int { if a <= b then a else b }

  /**
   * Go's built-in copy(dst, src): overwrite the first min(len(dst), len(src))
   * elements of dst; the slice keeps its length.
   */
  function Copy<T>(dst: seq<T>, src: seq<T>): (r: seq<T>)
    ensures |r| == |dst|
    ensures forall i :: 0 <= i < |r| ==> r[i] == (if i < |src| then src[i] else dst[i])
  {
    var n := Min(|dst|, |src|);
    src[..n] + dst[n..]
  }

  /** copy into a nil (zero-length) destination copies nothing. */
  lemma CopyIntoNil<T>(src: seq<T>)
    ensures Copy([], src) == []
  {
  }
}
