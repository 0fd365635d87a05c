/** The Python `str` and list operations the handler relies on, over
    Unicode scalar values (a Dafny `char`); a Python `str` may also hold
    lone surrogates, which are outside the model. */
module PyStr {

  /** Python's `str.isspace` for a single code point: the characters
      whose bidirectional class is WS, B or S, or whose category is Zs. */
  predicate IsSpace(c: char) {
    var n := c as int;
    (0x09 <= n <= 0x0D) || (0x1C <= n <= 0x20) || n == 0x85 || n == 0xA0
    || n == 0x1680 || (0x2000 <= n <= 0x200A) || n == 0x2028 || n == 0x2029
    || n == 0x202F || n == 0x205F || n == 0x3000
  }

  predicate AllSpace(s: string) {
    forall i :: 0 <= i < |s| ==> IsSpace(s[i])
  }

  predicate IsSuffix<T(==)>(r: seq<T>, s: seq<T>) {
    |r| <= |s| && r == s[|s| - |r|..]
  }

  function Min(a: int, b: int): int {
    if a <= b then a else b
  }

  // ---------------------------------------------------------------------
  // strip

  /** `s.lstrip()`: drops the leading whitespace and nothing else. */
  function TrimStart(s: string): (r: string)
    ensures IsSuffix(r, s)
    ensures AllSpace(s[..|s| - |r|])
    ensures |r| > 0 ==> !IsSpace(r[0])
    decreases |s|
  {
    if |s| > 0 && IsSpace(s[0]) then
      var r := TrimStart(s[1..]);
      assert s[..|s| - |r|] == [s[0]] + s[1..][..|s| - 1 - |r|];
      r
    else
      s
  }

  /** `s.rstrip()`: drops the trailing whitespace and nothing else. */
  function TrimEnd(s: string): (r: string)
    ensures |r| <= |s| && r == s[..|r|]
    ensures AllSpace(s[|r|..])
    ensures |r| > 0 ==> !IsSpace(r[|r| - 1])
    decreases |s|
  {
    if |s| > 0 && IsSpace(s[|s| - 1]) then
      var r := TrimEnd(s[..|s| - 1]);
      assert s[|r|..] == s[..|s| - 1][|r|..] + [s[|s| - 1]];
      r
    else
      s
  }

  /** `r` sits at offset `i` of `s` with only whitespace around it. */
  predicate Framed(s: string, i: int, r: string) {
    0 <= i <= |s| - |r| && s[i..i + |r|] == r && AllSpace(s[..i]) && AllSpace(s[i + |r|..])
  }

  /** `s.strip()`. */
  function Strip(s: string): (r: string)
    ensures |r| <= |s|
    ensures |r| > 0 ==> !IsSpace(r[0]) && !IsSpace(r[|r| - 1])
  {
    TrimEnd(TrimStart(s))
  }

  /** What `strip` returns is what is left of `s` once whitespace is cut
      from both ends: it sits inside `s` with only whitespace around it. */
  lemma StripFramed(s: string)
    ensures exists i :: Framed(s, i, Strip(s))
  {
    var t := TrimStart(s);
    var r := TrimEnd(t);
    var i := |s| - |t|;
    assert s[i..i + |r|] == r;
    assert s[i + |r|..] == t[|r|..];
    assert AllSpace(s[..i]) && AllSpace(s[i + |r|..]);
    assert Strip(s) == r;
    assert Framed(s, i, Strip(s));
  }

  /** Stripping twice is stripping once. */
  lemma StripIdempotent(s: string)
    ensures Strip(Strip(s)) == Strip(s)
  {
    var r := Strip(s);
    assert TrimStart(r) == r;
    assert TrimEnd(r) == r;
  }

  /** `strip` leaves a string alone exactly when its ends are not whitespace. */
  lemma StripFixedIff(s: string)
    ensures Strip(s) == s <==> (|s| == 0 || (!IsSpace(s[0]) && !IsSpace(s[|s| - 1])))
  {
    if |s| > 0 && !IsSpace(s[0]) && !IsSpace(s[|s| - 1]) {
      assert TrimStart(s) == s;
      assert TrimEnd(s) == s;
    }
  }

  // ---------------------------------------------------------------------
  // `in` and `replace`

  /** Python's `pat in s`: `pat` starts `s`, or occurs in its tail. */
  predicate Contains(s: string, pat: string)
    decreases |s|
  {
    |pat| <= |s| && (s[..|pat|] == pat || Contains(s[1..], pat))
  }

  predicate OccursAt(s: string, pat: string, i: int) {
    0 <= i && i + |pat| <= |s| && s[i..i + |pat|] == pat
  }

  /** `Contains` holds exactly when `pat` occurs at some offset of `s`. */
  lemma {:induction false} ContainsIffOccurs(s: string, pat: string)
    ensures Contains(s, pat) <==> exists i :: OccursAt(s, pat, i)
    decreases |s|
  {
    if |pat| <= |s| {
      if s[..|pat|] == pat {
        assert OccursAt(s, pat, 0);
      } else {
        ContainsIffOccurs(s[1..], pat);
        if Contains(s[1..], pat) {
          var i :| OccursAt(s[1..], pat, i);
          assert s[1..][i..i + |pat|] == s[i + 1..i + 1 + |pat|];
          assert OccursAt(s, pat, i + 1);
        }
        forall i | OccursAt(s, pat, i)
          ensures Contains(s, pat)
        {
          assert i != 0;
          assert s[1..][i - 1..i - 1 + |pat|] == s[i..i + |pat|];
          assert OccursAt(s[1..], pat, i - 1);
        }
      }
    }
  }

  /** Python's `s.replace(pat, '')` for a non-empty `pat`: a left-to-right
      scan that drops each non-overlapping occurrence of `pat`. */
  function RemoveAll(s: string, pat: string): (r: string)
    requires |pat| > 0
    ensures |r| <= |s|
    decreases |s|
  {
    if |s| < |pat| then s
    else if s[..|pat|] == pat then RemoveAll(s[|pat|..], pat)
    else [s[0]] + RemoveAll(s[1..], pat)
  }

  /** `replace` changes the string exactly when the pattern occurs in it;
      when it does, the string gets strictly shorter. */
  lemma {:induction false} RemoveAllFixedIff(s: string, pat: string)
    requires |pat| > 0
    ensures RemoveAll(s, pat) == s <==> !Contains(s, pat)
    ensures Contains(s, pat) ==> |RemoveAll(s, pat)| < |s|
    decreases |s|
  {
    if |s| >= |pat| && s[..|pat|] != pat {
      RemoveAllFixedIff(s[1..], pat);
      assert s == [s[0]] + s[1..];
    }
  }

  /** At an occurrence, `replace` drops it and goes on after it. */
  lemma RemoveAllAtMatch(s: string, pat: string)
    requires |pat| > 0 && OccursAt(s, pat, 0)
    ensures RemoveAll(s, pat) == RemoveAll(s[|pat|..], pat)
  {
  }

  /** Elsewhere, `replace` keeps the first character and goes on after it. */
  lemma RemoveAllAtMiss(s: string, pat: string)
    requires |pat| > 0 && |s| >= |pat| && !OccursAt(s, pat, 0)
    ensures RemoveAll(s, pat) == [s[0]] + RemoveAll(s[1..], pat)
  {
  }

  /** An occurrence in a suffix is an occurrence in the whole string. */
  lemma OccursAtSuffix(s: string, pat: string, k: int, j: int)
    requires 0 <= k <= |s| && 0 <= j
    ensures OccursAt(s[k..], pat, j) <==> OccursAt(s, pat, k + j)
  {
    if j + |pat| <= |s| - k {
      assert s[k..][j..j + |pat|] == s[k + j..k + j + |pat|];
    }
  }

  /** A character that starts no occurrence moves from the scanned part
      into the kept prefix. */
  lemma KeepOne(s: string, pat: string, k: int)
    requires |pat| > 0 && 0 <= k && k + |pat| <= |s| && !OccursAt(s, pat, k)
    ensures s[..k] + RemoveAll(s[k..], pat) == s[..k + 1] + RemoveAll(s[k + 1..], pat)
  {
    OccursAtSuffix(s, pat, k, 0);
    RemoveAllAtMiss(s[k..], pat);
    assert s[k..][1..] == s[k + 1..];
    ShiftOne(s, k, RemoveAll(s[k + 1..], pat));
  }

  /** Moving one character from the front of the rest to the end of the prefix. */
  lemma ShiftOne(s: string, k: int, rest: string)
    requires 0 <= k < |s|
    ensures s[..k] + ([s[k]] + rest) == s[..k + 1] + rest
  {
    assert s[..k] + [s[k]] == s[..k + 1];
  }

  /** An occurrence at the scan position is dropped. */
  lemma DropAt(s: string, pat: string, i: int)
    requires |pat| > 0 && OccursAt(s, pat, i)
    ensures RemoveAll(s[i..], pat) == RemoveAll(s[i + |pat|..], pat)
  {
    OccursAtSuffix(s, pat, i, 0);
    RemoveAllAtMatch(s[i..], pat);
    assert s[i..][|pat|..] == s[i + |pat|..];
  }

  /**
   * `str.replace(pat, '')` finds the first occurrence, keeps everything
   * before it, drops it, and treats the rest after it the same way.
   */
  lemma RemoveAllFirstOccurrence(s: string, pat: string, i: int)
    requires |pat| > 0
    requires OccursAt(s, pat, i)
    requires forall j :: 0 <= j < i ==> !OccursAt(s, pat, j)
    ensures RemoveAll(s, pat) == s[..i] + RemoveAll(s[i + |pat|..], pat)
  {
    var k := 0;
    assert s[..0] + RemoveAll(s[0..], pat) == RemoveAll(s, pat) by {
      assert s[0..] == s;
    }
    while k < i
      invariant 0 <= k <= i
      invariant RemoveAll(s, pat) == s[..k] + RemoveAll(s[k..], pat)
    {
      KeepOne(s, pat, k);
      k := k + 1;
    }
    DropAt(s, pat, i);
  }

  // ---------------------------------------------------------------------
  // list reversal, `join` and negative slices

  /** Python's `xs[::-1]`. */
  function Reverse<T>(xs: seq<T>): (r: seq<T>)
    ensures |r| == |xs|
    ensures forall i :: 0 <= i < |xs| ==> r[i] == xs[|xs| - 1 - i]
    decreases |xs|
  {
    if |xs| == 0 then [] else [xs[|xs| - 1]] + Reverse(xs[..|xs| - 1])
  }

  /** Reversing twice gives the list back. */
  lemma ReverseInvolutive<T>(xs: seq<T>)
    ensures Reverse(Reverse(xs)) == xs
  {
  }

  /** Python's `sep.join(xs)`. */
  function Join(xs: seq<string>, sep: string): (r: string)
    decreases |xs|
  {
    if |xs| == 0 then ""
    else if |xs| == 1 then xs[0]
    else Join(xs[..|xs| - 1], sep) + sep + xs[|xs| - 1]
  }

  /** Joining two non-empty lists is joining each and putting one
      separator between them. */
  lemma {:induction false} JoinAppend(xs: seq<string>, ys: seq<string>, sep: string)
    requires |xs| > 0 && |ys| > 0
    ensures Join(xs + ys, sep) == Join(xs, sep) + sep + Join(ys, sep)
    decreases |ys|
  {
    var zs := xs + ys;
    if |ys| == 1 {
      assert zs[..|zs| - 1] == xs;
    } else {
      var ys' := ys[..|ys| - 1];
      assert zs[..|zs| - 1] == xs + ys';
      JoinAppend(xs, ys', sep);
    }
  }

  /** The last item of a non-empty list ends its join. */
  lemma JoinEndsWithLast(xs: seq<string>, sep: string)
    requires |xs| > 0
    ensures IsSuffix(xs[|xs| - 1], Join(xs, sep))
  {
  }

  /** Two suffixes of one sequence: the shorter is a suffix of the longer. */
  lemma SuffixOfSuffix<T>(a: seq<T>, b: seq<T>, s: seq<T>)
    requires IsSuffix(a, s) && IsSuffix(b, s) && |a| <= |b|
    ensures IsSuffix(a, b)
  {
    assert b[|b| - |a|..] == s[|s| - |a|..];
  }

  /** Python's `s[-k:]` for `k >= 0`: the last `k` elements, or all of `s`
      when `k` exceeds its length. Note that `s[-0:]` is `s[0:]`, so a
      zero `k` keeps everything. */
  function TakeLast<T(==)>(s: seq<T>, k: nat): (r: seq<T>)
    ensures IsSuffix(r, s)
    ensures k > 0 ==> |r| == Min(k, |s|)
    ensures k == 0 ==> r == s
  {
    if k == 0 || k >= |s| then s else s[|s| - k..]
  }
}
