/** Python's `str.replace(old, new)`, used to derive the filter endpoint. */
module Urls {

  /** `pat` occurs in `s` starting at index `i`. */
  predicate MatchAt(s: string, pat: string, i: nat)
  {
    i + |pat| <= |s| && s[i..i + |pat|] == pat
  }

  /** `pat` does not occur anywhere in `s`. */
  ghost predicate Free(s: string, pat: string)
  {
    forall i: nat :: !MatchAt(s, pat, i)
  }

  /** Replaces every non-overlapping occurrence of `pat`, scanning left to
      right. Replacing the pattern by itself changes nothing, and a replacement
      no shorter than the pattern never shortens the text. */
  function ReplaceAll(s: string, pat: string, repl: string): (r: string)
    requires |pat| > 0
    ensures |s| < |pat| ==> r == s
    ensures repl == pat ==> r == s
    ensures |repl| >= |pat| ==> |r| >= |s|
    ensures |repl| == |pat| ==> |r| == |s|
    decreases |s|
  {
    if |s| < |pat| then s
    else if s[..|pat|] == pat then
      assert s[..|pat|] + s[|pat|..] == s;
      repl + ReplaceAll(s[|pat|..], pat, repl)
    else
      assert [s[0]] + s[1..] == s;
      [s[0]] + ReplaceAll(s[1..], pat, repl)
  }

  /** Without an occurrence nothing is replaced. */
  lemma {:induction false} ReplaceAllFree(s: string, pat: string, repl: string)
    requires |pat| > 0
    requires Free(s, pat)
    ensures ReplaceAll(s, pat, repl) == s
    decreases |s|
  {
    if |s| >= |pat| {
      assert !MatchAt(s, pat, 0);
      forall i: nat ensures MatchAt(s[1..], pat, i) == MatchAt(s, pat, i + 1) {
        ShiftMatch(s, pat, i);
      }
      ReplaceAllFree(s[1..], pat, repl);
      assert [s[0]] + s[1..] == s;
    }
  }

  /** A match cannot start inside `a` and run on into `b`. */
  lemma NoStraddle(a: string, b: string, pat: string)
    requires 0 < |a| < |pat| <= |a + b|
    requires |b| > 0 && b[0] !in pat[1..]
    ensures (a + b)[..|pat|] != pat
  {
    assert pat[|a|] == pat[1..][|a| - 1];
    assert (a + b)[..|pat|][|a|] == b[0] != pat[|a|];
  }

  /** Replacement distributes over a concatenation whose second part starts
      with a character that cannot continue a partial match. */
  lemma {:induction false} ReplaceAllAppend(a: string, b: string, pat: string, repl: string)
    requires |pat| > 0
    requires |b| > 0 && b[0] !in pat[1..]
    ensures ReplaceAll(a + b, pat, repl) == ReplaceAll(a, pat, repl) + ReplaceAll(b, pat, repl)
    decreases |a|, 1
  {
    if a == [] {
      assert a + b == b;
    } else if |a + b| >= |pat| {
      if |a| >= |pat| && a[..|pat|] == pat {
        AppendAfterMatch(a, b, pat, repl);
      } else {
        AppendAfterMiss(a, b, pat, repl);
      }
    }
  }

  /** The case of `ReplaceAllAppend` where `a` starts with the pattern. */
  lemma {:induction false} AppendAfterMatch(a: string, b: string, pat: string, repl: string)
    requires 0 < |pat| <= |a| && a[..|pat|] == pat
    requires |b| > 0 && b[0] !in pat[1..]
    ensures ReplaceAll(a + b, pat, repl) == ReplaceAll(a, pat, repl) + ReplaceAll(b, pat, repl)
    decreases |a|, 0
  {
    var ab := a + b;
    assert ab[..|pat|] == a[..|pat|];
    assert ab[|pat|..] == a[|pat|..] + b;
    ReplaceAllAppend(a[|pat|..], b, pat, repl);
  }

  /** The case of `ReplaceAllAppend` where `a` does not start with the pattern,
      so the first character of `a` is kept. */
  lemma {:induction false} AppendAfterMiss(a: string, b: string, pat: string, repl: string)
    requires 0 < |pat| <= |a + b| && |a| > 0
    requires !(|a| >= |pat| && a[..|pat|] == pat)
    requires |b| > 0 && b[0] !in pat[1..]
    ensures ReplaceAll(a + b, pat, repl) == ReplaceAll(a, pat, repl) + ReplaceAll(b, pat, repl)
    decreases |a|, 0
  {
    var ra, rb := ReplaceAll(a[1..], pat, repl), ReplaceAll(b, pat, repl);
    MissKept(a, b, pat, repl);
    ReplaceAllAppend(a[1..], b, pat, repl);
    HeadKept(a, pat, repl);
    ConsAppend(a[0], ra, rb);
  }

  /** Concatenation regroups around a leading character. */
  lemma ConsAppend(c: char, x: string, y: string)
    ensures [c] + (x + y) == [c] + x + y
  {
  }

  /** The first character of `a` is kept when `a + b` is scanned. */
  lemma MissKept(a: string, b: string, pat: string, repl: string)
    requires 0 < |pat| <= |a + b| && |a| > 0
    requires !(|a| >= |pat| && a[..|pat|] == pat)
    requires |b| > 0 && b[0] !in pat[1..]
    ensures ReplaceAll(a + b, pat, repl) == [a[0]] + ReplaceAll(a[1..] + b, pat, repl)
  {
    var ab := a + b;
    MissJoined(a, b, pat);
    HeadKept(ab, pat, repl);
    assert ab[1..] == a[1..] + b;
  }

  /** If `a` does not start with the pattern, neither does `a + b`. */
  lemma MissJoined(a: string, b: string, pat: string)
    requires 0 < |pat| <= |a + b| && |a| > 0
    requires !(|a| >= |pat| && a[..|pat|] == pat)
    requires |b| > 0 && b[0] !in pat[1..]
    ensures (a + b)[..|pat|] != pat && (a + b)[0] == a[0]
  {
    if |a| < |pat| {
      NoStraddle(a, b, pat);
    } else {
      assert (a + b)[..|pat|] == a[..|pat|];
    }
  }

  /** The leftmost occurrence is the first one replaced: text before it is
      copied unchanged, and scanning resumes after it. */
  lemma {:induction false} ReplaceLeftmost(s: string, pat: string, repl: string, i: nat)
    requires |pat| > 0 && MatchAt(s, pat, i)
    requires forall j: nat :: j < i ==> !MatchAt(s, pat, j)
    ensures ReplaceAll(s, pat, repl) == s[..i] + repl + ReplaceAll(s[i + |pat|..], pat, repl)
    decreases i
  {
    if i == 0 {
      assert s[..|pat|] == pat;
      assert s[i + |pat|..] == s[|pat|..];
      assert s[..i] + repl == repl;
    } else {
      var t := s[1..];
      var rest := ReplaceAll(s[i + |pat|..], pat, repl);
      assert !MatchAt(s, pat, 0);
      HeadKept(s, pat, repl);
      forall j: nat | j < i - 1 ensures !MatchAt(t, pat, j) {
        assert !MatchAt(s, pat, j + 1);
        ShiftMatch(s, pat, j);
      }
      ShiftMatch(s, pat, i - 1);
      ReplaceLeftmost(t, pat, repl, i - 1);
      assert i - 1 + |pat| == i + |pat| - 1;
      assert t[i - 1 + |pat|..] == s[i + |pat|..];
      Regroup(s, i, repl, rest);
    }
  }

  /** An occurrence in the tail is one in the text, one place further on. */
  lemma ShiftMatch(s: string, pat: string, j: nat)
    requires |s| > 0
    ensures MatchAt(s[1..], pat, j) == MatchAt(s, pat, j + 1)
  {
    if j + |pat| <= |s| - 1 {
      assert s[1..][j..j + |pat|] == s[j + 1..j + 1 + |pat|];
    }
  }

  /** Moving the first character of `s` back in front of the rest of a
      prefix of `s`. */
  lemma Regroup(s: string, i: nat, x: string, y: string)
    requires 0 < i <= |s|
    ensures [s[0]] + (s[1..][..i - 1] + x + y) == s[..i] + x + y
  {
    assert [s[0]] + s[1..][..i - 1] == s[..i];
  }

  /** A non-empty text that does not start with the pattern keeps its first
      character, whether or not it is shorter than the pattern. */
  lemma HeadKept(a: string, pat: string, repl: string)
    requires |pat| > 0 && |a| > 0
    requires !(|a| >= |pat| && a[..|pat|] == pat)
    ensures ReplaceAll(a, pat, repl) == [a[0]] + ReplaceAll(a[1..], pat, repl)
  {
    if |a| < |pat| {
      assert [a[0]] + a[1..] == a;
    }
  }

  /** The pattern alone is replaced once. */
  lemma ReplaceWhole(pat: string, repl: string)
    requires |pat| > 0
    ensures ReplaceAll(pat, pat, repl) == repl
  {
    assert pat[..|pat|] == pat;
    assert pat[|pat|..] == "";
  }

  /** `"/" + name` holds no `"/allow"` when `name` has no slash and does not
      begin with `"allow"`. */
  lemma SlashNameFree(name: string)
    requires '/' !in name
    requires !(|name| >= 5 && name[..5] == "allow")
    ensures Free("/" + name, "/allow")
  {
    var s := "/" + name;
    forall i: nat ensures !MatchAt(s, "/allow", i) {
      if i + 6 <= |s| {
        if i == 0 {
          assert s[i..i + 6][1..] == name[..5];
          assert "/allow"[1..] == "allow";
          assert s[i..i + 6] != "/allow";
        } else {
          assert s[i..i + 6][0] == name[i - 1];
          assert name[i - 1] in name;
          assert s[i..i + 6] != "/allow";
        }
      }
    }
  }

  /** A trailing occurrence after occurrence-free text is the only one replaced. */
  lemma ReplaceTrailing(prefix: string, sn: string, pat: string, repl: string)
    requires |pat| > 0 && pat[0] !in pat[1..]
    requires |sn| > 0 && sn[0] !in pat[1..]
    requires Free(prefix, pat) && Free(sn, pat)
    ensures ReplaceAll(prefix + (sn + pat), pat, repl) == prefix + (sn + repl)
  {
    ReplaceAllAppend(prefix, sn + pat, pat, repl);
    ReplaceAllFree(prefix, pat, repl);
    ReplaceAllAppend(sn, pat, pat, repl);
    ReplaceAllFree(sn, pat, repl);
    ReplaceWhole(pat, repl);
  }

  /** The allow endpoint of a resource path becomes its filter endpoint. */
  lemma FilterUrl(prefix: string, name: string)
    requires Free(prefix, "/allow")
    requires '/' !in name
    requires !(|name| >= 5 && name[..5] == "allow")
    ensures ReplaceAll(prefix + ("/" + name + "/allow"), "/allow", "/filter") ==
      prefix + ("/" + name + "/filter")
  {
    var pat := "/allow";
    assert pat[1..] == "allow";
    SlashNameFree(name);
    ReplaceTrailing(prefix, "/" + name, pat, "/filter");
  }
}
