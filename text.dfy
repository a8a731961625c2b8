/**
 * The string operations of Go's `strings` package that the slash-command
 * router relies on, over `string` (= seq<char>): Trim with the cutset " ",
 * HasPrefix, HasSuffix, Index, Count and Replace with an empty replacement
 * and no limit.
 */
module Text {

  /** Every character of `s` is a space. */
  predicate AllSpaces(s: string) {
    forall i | 0 <= i < |s| :: s[i] == ' '
  }

  /** `s` neither starts nor ends with a space. */
  predicate NoEdgeSpaces(s: string) {
    s == [] || (s[0] != ' ' && s[|s| - 1] != ' ')
  }

  /** strings.HasPrefix */
  predicate HasPrefix(s: string, prefix: string) {
    |prefix| <= |s| && s[..|prefix|] == prefix
  }

  /** strings.HasSuffix */
  predicate HasSuffix(s: string, suffix: string) {
    |suffix| <= |s| && s[|s| - |suffix|..] == suffix
  }

  /** HasPrefix holds exactly when `s` is `prefix` followed by something. */
  lemma HasPrefixSplits(s: string, prefix: string)
    ensures HasPrefix(s, prefix) <==> exists tail :: s == prefix + tail
  {
    if HasPrefix(s, prefix) {
      assert s == prefix + s[|prefix|..];
    }
    if exists tail :: s == prefix + tail {
      var tail :| s == prefix + tail;
      assert s[..|prefix|] == prefix;
    }
  }

  /** HasSuffix holds exactly when `s` is something followed by `suffix`. */
  lemma HasSuffixSplits(s: string, suffix: string)
    ensures HasSuffix(s, suffix) <==> exists head :: s == head + suffix
  {
    if HasSuffix(s, suffix) {
      assert s == s[..|s| - |suffix|] + suffix;
    }
    if exists head :: s == head + suffix {
      var head :| s == head + suffix;
      assert s[|s| - |suffix|..] == suffix;
    }
  }

  /** Drops the leading spaces: the result is the suffix of `s` that starts at its first non-space. */
  function TrimLeft(s: string): (r: string)
    ensures |r| <= |s| && r == s[|s| - |r|..]
    ensures AllSpaces(s[..|s| - |r|])
    ensures r == [] || r[0] != ' '
    decreases |s|
  {
    if |s| > 0 && s[0] == ' ' then TrimLeft(s[1..]) else s
  }

  /** Drops the trailing spaces: the result is the prefix of `s` that ends at its last non-space. */
  function TrimRight(s: string): (r: string)
    ensures |r| <= |s| && r == s[..|r|]
    ensures AllSpaces(s[|r|..])
    ensures r == [] || r[|r| - 1] != ' '
    decreases |s|
  {
    if |s| > 0 && s[|s| - 1] == ' ' then TrimRight(s[..|s| - 1]) else s
  }

  /** strings.Trim(s, " "): leading spaces are cut first, then trailing ones. */
  function Trim(s: string): (r: string)
    ensures |r| <= |s|
    ensures NoEdgeSpaces(r)
  {
    TrimRight(TrimLeft(s))
  }

  lemma {:induction false} TrimLeftSkipsSpaces(a: string, c: string)
    requires AllSpaces(a)
    ensures TrimLeft(a + c) == TrimLeft(c)
    decreases |a|
  {
    if a != [] {
      var s := a + c;
      assert s[0] == a[0] == ' ';
      assert TrimLeft(s) == TrimLeft(s[1..]);
      assert s[1..] == a[1..] + c;
      assert AllSpaces(a[1..]) by {
        forall i | 0 <= i < |a| - 1 ensures a[1..][i] == ' ' {
          assert a[1..][i] == a[i + 1];
        }
      }
      TrimLeftSkipsSpaces(a[1..], c);
    } else {
      assert a + c == c;
    }
  }

  lemma {:induction false} TrimRightSkipsSpaces(c: string, b: string)
    requires AllSpaces(b)
    ensures TrimRight(c + b) == TrimRight(c)
    decreases |b|
  {
    if b != [] {
      var s := c + b;
      assert s[|s| - 1] == b[|b| - 1] == ' ';
      assert TrimRight(s) == TrimRight(s[..|s| - 1]);
      assert s[..|s| - 1] == c + b[..|b| - 1];
      assert AllSpaces(b[..|b| - 1]) by {
        forall i | 0 <= i < |b| - 1 ensures b[i] == ' ' {
        }
      }
      TrimRightSkipsSpaces(c, b[..|b| - 1]);
    } else {
      assert c + b == c;
    }
  }

  /**
   * Trim has one answer: whatever run of spaces surrounds a core that has
   * no edge spaces, trimming gives back exactly that core.
   */
  lemma TrimCore(a: string, core: string, b: string)
    requires AllSpaces(a) && AllSpaces(b) && NoEdgeSpaces(core)
    ensures Trim(a + core + b) == core
  {
    assert a + core + b == a + (core + b);
    TrimLeftSkipsSpaces(a, core + b);
    if core == [] {
      assert core + b == b + [];
      TrimLeftSkipsSpaces(b, []);
    } else {
      assert TrimLeft(core + b) == core + b;
    }
    assert TrimLeft(a + core + b) == TrimLeft(core + b);
    TrimRightSkipsSpaces(core, b);
  }

  /** Trimming twice is trimming once. */
  lemma TrimIdempotent(s: string)
    ensures Trim(Trim(s)) == Trim(s)
  {
    assert [] + Trim(s) + [] == Trim(s);
    TrimCore([], Trim(s), []);
  }

  /** Trim leaves a string alone exactly when it has no edge spaces. */
  lemma TrimFixedPoint(s: string)
    ensures Trim(s) == s <==> NoEdgeSpaces(s)
  {
    if NoEdgeSpaces(s) {
      assert [] + s + [] == s;
      TrimCore([], s, []);
    }
  }

  /** `pat` occurs in `s` at position `i`. */
  predicate MatchAt(s: string, pat: string, i: int) {
    0 <= i && i + |pat| <= |s| && s[i..i + |pat|] == pat
  }

  /** Dropping the first character moves every later occurrence one place to the left. */
  lemma MatchShift(s: string, pat: string)
    requires |s| > 0
    ensures forall j | 1 <= j :: MatchAt(s, pat, j) <==> MatchAt(s[1..], pat, j - 1)
  {
    forall j | 1 <= j
      ensures MatchAt(s, pat, j) <==> MatchAt(s[1..], pat, j - 1)
    {
      if j + |pat| <= |s| {
        assert s[1..][j - 1..j - 1 + |pat|] == s[j..j + |pat|];
      }
    }
  }

  /** strings.Index: the first position where `pat` occurs in `s`, or -1. */
  function Index(s: string, pat: string): (i: int)
    ensures -1 <= i <= |s|
    ensures i >= 0 ==> MatchAt(s, pat, i)
    ensures forall j | 0 <= j && (i < 0 || j < i) :: !MatchAt(s, pat, j)
    decreases |s|
  {
    if |s| < |pat| then -1
    else if s[..|pat|] == pat then 0
    else
      MatchShift(s, pat);
      var k := Index(s[1..], pat);
      if k < 0 then -1 else k + 1
  }

  /**
   * strings.Replace(s, pat, "", -1): every non-overlapping occurrence of
   * `pat`, found left to right by Index, is cut out in one pass.
   */
  function Remove(s: string, pat: string): (r: string)
    requires pat != []
    ensures |r| <= |s|
    ensures r == s <==> Index(s, pat) < 0
    decreases |s|
  {
    var i := Index(s, pat);
    if i < 0 then s else s[..i] + Remove(s[i + |pat|..], pat)
  }

  /** strings.Count: the number of non-overlapping occurrences of `pat`. */
  function Count(s: string, pat: string): nat
    requires pat != []
    decreases |s|
  {
    var i := Index(s, pat);
    if i < 0 then 0 else 1 + Count(s[i + |pat|..], pat)
  }

  /** Each occurrence Replace cuts out takes exactly |pat| characters with it. */
  lemma {:induction false} RemoveLength(s: string, pat: string)
    requires pat != []
    ensures |Remove(s, pat)| == |s| - |pat| * Count(s, pat)
    decreases |s|
  {
    var i := Index(s, pat);
    if i >= 0 {
      var rest := s[i + |pat|..];
      assert Remove(s, pat) == s[..i] + Remove(rest, pat);
      assert Count(s, pat) == Count(rest, pat) + 1;
      RemoveLength(rest, pat);
      MulSucc(|pat|, Count(rest, pat));
    }
  }

  lemma MulSucc(a: nat, n: nat)
    ensures a * (n + 1) == a * n + a
  {
  }

  /**
   * A reference definition of the same removal that scans one character at
   * a time: at each position a match is skipped whole, anything else is kept.
   */
  function RemoveScan(s: string, pat: string): string
    requires pat != []
    decreases |s|
  {
    if |s| < |pat| then s
    else if s[..|pat|] == pat then RemoveScan(s[|pat|..], pat)
    else [s[0]] + RemoveScan(s[1..], pat)
  }

  /** With no occurrence in the first k positions, none is in the first k - 1 of the tail. */
  lemma NoMatchInTail(s: string, pat: string, k: nat)
    requires 0 < k <= |s|
    requires forall j | 0 <= j < k :: !MatchAt(s, pat, j)
    ensures forall j | 0 <= j < k - 1 :: !MatchAt(s[1..], pat, j)
  {
    MatchShift(s, pat);
    forall j | 0 <= j < k - 1 ensures !MatchAt(s[1..], pat, j) {
      assert !MatchAt(s, pat, j + 1);
    }
  }

  lemma {:induction false} RemoveScanKeepsUnmatched(s: string, pat: string, k: nat)
    requires pat != [] && k <= |s|
    requires forall j | 0 <= j < k :: !MatchAt(s, pat, j)
    ensures RemoveScan(s, pat) == s[..k] + RemoveScan(s[k..], pat)
    decreases k
  {
    if k > 0 {
      if |s| < |pat| {
        assert RemoveScan(s[k..], pat) == s[k..];
        assert s[..k] + s[k..] == s;
      } else {
        assert !MatchAt(s, pat, 0);
        assert RemoveScan(s, pat) == [s[0]] + RemoveScan(s[1..], pat);
        NoMatchInTail(s, pat, k);
        RemoveScanKeepsUnmatched(s[1..], pat, k - 1);
        assert s[1..][..k - 1] == s[1..k];
        assert s[1..][k - 1..] == s[k..];
        assert [s[0]] + s[1..k] == s[..k];
      }
    }
  }

  /** Replace with an empty replacement agrees with the character scan on every input. */
  lemma {:induction false} RemoveMatchesScan(s: string, pat: string)
    requires pat != []
    ensures Remove(s, pat) == RemoveScan(s, pat)
    decreases |s|
  {
    var i := Index(s, pat);
    if i < 0 {
      RemoveScanKeepsUnmatched(s, pat, |s|);
      assert s[..|s|] == s && s[|s|..] == [];
    } else {
      RemoveScanKeepsUnmatched(s, pat, i);
      var rest := s[i..];
      assert rest[..|pat|] == pat;
      assert rest[|pat|..] == s[i + |pat|..];
      RemoveMatchesScan(s[i + |pat|..], pat);
    }
  }

  /** Where `pat` does not occur, Replace changes nothing. */
  lemma RemoveWithoutMatch(s: string, pat: string)
    requires pat != []
    requires forall j :: !MatchAt(s, pat, j)
    ensures Remove(s, pat) == s
  {
  }
}
