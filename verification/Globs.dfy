/** Ownership globs over path segments: a loop that recurses at every `**`. */
module Globs {

  type Segment = string

  const ANY: Segment := "**"

  /** `fits` holds the pattern and path segments that the file-name matcher accepts. */
  type Fits = set<(Segment, Segment)>

  // --- reference -----------------------------------------------------------

  /** The whole run of segments matches, with `**` standing for any run. */
  ghost predicate Matches(fits: Fits, pattern: seq<Segment>, run: seq<Segment>)
    decreases |pattern|
  {
    if |pattern| == 0 then run == []
    else if pattern[0] == ANY then exists k :: 0 <= k <= |run| && Matches(fits, pattern[1..], run[k..])
    else run != [] && (pattern[0], run[0]) in fits && Matches(fits, pattern[1..], run[1..])
  }

  ghost predicate Leads(fits: Fits, pattern: seq<Segment>, path: seq<Segment>, n: int) {
    0 <= n <= |path| && Matches(fits, pattern, path[..n])
  }

  /** A path is selected when some leading run of its segments matches: a file, or anything below a directory. */
  ghost predicate Selects(fits: Fits, pattern: seq<Segment>, path: seq<Segment>) {
    exists n :: Leads(fits, pattern, path, n)
  }

  // --- how selection unfolds -----------------------------------------------

  lemma {:induction false} EmptySelects(fits: Fits, path: seq<Segment>)
    ensures Selects(fits, [], path)
  {
    assert Leads(fits, [], path, 0);
  }

  lemma {:induction false} SegmentSelects(fits: Fits, pattern: seq<Segment>, path: seq<Segment>)
    requires pattern != [] && pattern[0] != ANY
    ensures Selects(fits, pattern, path) <==>
            path != [] && (pattern[0], path[0]) in fits && Selects(fits, pattern[1..], path[1..])
  {
    forall n | Leads(fits, pattern, path, n)
      ensures path != [] && (pattern[0], path[0]) in fits && Leads(fits, pattern[1..], path[1..], n - 1)
    {
      assert path[..n][1..] == path[1..][..n - 1];
    }
    if path != [] && (pattern[0], path[0]) in fits {
      forall n | Leads(fits, pattern[1..], path[1..], n)
        ensures Leads(fits, pattern, path, n + 1)
      {
        assert path[..n + 1][1..] == path[1..][..n];
      }
    }
  }

  lemma {:induction false} AnySelects(fits: Fits, pattern: seq<Segment>, path: seq<Segment>)
    requires pattern != [] && pattern[0] == ANY
    ensures Selects(fits, pattern, path) <==> exists k :: 0 <= k <= |path| && Selects(fits, pattern[1..], path[k..])
  {
    forall n | Leads(fits, pattern, path, n)
      ensures exists k :: 0 <= k <= |path| && Selects(fits, pattern[1..], path[k..])
    {
      var k :| 0 <= k <= n && Matches(fits, pattern[1..], path[..n][k..]);
      assert path[..n][k..] == path[k..][..n - k];
      assert Leads(fits, pattern[1..], path[k..], n - k);
    }
    forall k | 0 <= k <= |path| && Selects(fits, pattern[1..], path[k..])
      ensures Selects(fits, pattern, path)
    {
      var m :| Leads(fits, pattern[1..], path[k..], m);
      assert path[..k + m][k..] == path[k..][..m];
      assert Leads(fits, pattern, path, k + m);
    }
  }

  // --- the matcher ---------------------------------------------------------

  method Walk(fits: Fits, pattern: seq<Segment>, from: nat, path: seq<Segment>, start: nat) returns (selected: bool)
    requires from <= |pattern| && start <= |path|
    ensures selected <==> Selects(fits, pattern[from..], path[start..])
    decreases |pattern| - from
  {
    var i, j := from, start;
    while i < |pattern|
      invariant from <= i <= |pattern| && start <= j <= |path|
      invariant Selects(fits, pattern[from..], path[start..]) <==> Selects(fits, pattern[i..], path[j..])
      decreases |pattern| - i
    {
      var segment := pattern[i];
      assert pattern[i..][1..] == pattern[i + 1..];
      if segment == ANY {
        AnySelects(fits, pattern[i..], path[j..]);
        if i + 1 == |pattern| {
          EmptySelects(fits, path[j..][0..]);
          assert pattern[i..][1..] == [];
          return true;
        }
        for candidate := j to |path| + 1
          invariant forall k :: j <= k < candidate ==> !Selects(fits, pattern[i + 1..], path[k..])
        {
          var below := Walk(fits, pattern, i + 1, path, candidate);
          assert path[j..][candidate - j..] == path[candidate..];
          if below {
            return true;
          }
        }
        forall k | 0 <= k <= |path[j..]|
          ensures !Selects(fits, pattern[i..][1..], path[j..][k..])
        {
          assert path[j..][k..] == path[j + k..];
        }
        return false;
      }
      SegmentSelects(fits, pattern[i..], path[j..]);
      if j >= |path| || (segment, path[j]) !in fits {
        return false;
      }
      assert path[j..][1..] == path[j + 1..];
      i, j := i + 1, j + 1;
    }
    EmptySelects(fits, path[j..]);
    assert pattern[i..] == [];
    return true;
  }

  /** An empty pattern or path never matches. */
  ghost predicate Matched(fits: Fits, pattern: seq<Segment>, path: seq<Segment>) {
    pattern != [] && path != [] && Selects(fits, pattern, path)
  }

  method Match(fits: Fits, pattern: seq<Segment>, path: seq<Segment>) returns (matched: bool)
    ensures matched <==> Matched(fits, pattern, path)
  {
    if pattern == [] || path == [] {
      return false;
    }
    assert pattern[0..] == pattern && path[0..] == path;
    matched := Walk(fits, pattern, 0, path, 0);
  }

  /** The first pattern that selects the path, if any does. */
  method FirstMatch(fits: Fits, patterns: seq<seq<Segment>>, path: seq<Segment>) returns (found: int)
    ensures -1 <= found < |patterns|
    ensures found >= 0 ==> Matched(fits, patterns[found], path) && forall i ::
              0 <= i < found ==> !Matched(fits, patterns[i], path)
    ensures found == -1 ==> forall i :: 0 <= i < |patterns| ==> !Matched(fits, patterns[i], path)
  {
    for i := 0 to |patterns|
      invariant forall k :: 0 <= k < i ==> !Matched(fits, patterns[k], path)
    {
      var hit := Match(fits, patterns[i], path);
      if hit {
        return i;
      }
    }
    return -1;
  }

  // --- laws ----------------------------------------------------------------

  /** What matches a path matches everything below it. */
  lemma {:induction false} MatchSurvivesExtension(fits: Fits, pattern: seq<Segment>, path: seq<Segment>,
                                                  more: seq<Segment>)
    requires Matched(fits, pattern, path)
    ensures Matched(fits, pattern, path + more)
  {
    var n :| Leads(fits, pattern, path, n);
    assert (path + more)[..n] == path[..n];
    assert Leads(fits, pattern, path + more, n);
  }

  lemma {:induction false} TrailingRun(fits: Fits, pattern: seq<Segment>, run: seq<Segment>)
    ensures Matches(fits, pattern + [ANY], run) <==> exists k :: Leads(fits, pattern, run, k)
    decreases |pattern|
  {
    if pattern == [] {
      assert pattern + [ANY] == [ANY] && [ANY][1..] == [];
      assert run[|run|..] == [] && Matches(fits, [], run[|run|..]);
      assert Leads(fits, pattern, run, 0);
    } else {
      assert (pattern + [ANY])[1..] == pattern[1..] + [ANY];
      if pattern[0] == ANY {
        AnySelects(fits, pattern, run);
        forall k | 0 <= k <= |run|
          ensures Matches(fits, pattern[1..] + [ANY], run[k..]) <==> Selects(fits, pattern[1..], run[k..])
        {
          TrailingRun(fits, pattern[1..], run[k..]);
        }
      } else {
        SegmentSelects(fits, pattern, run);
        if run != [] {
          TrailingRun(fits, pattern[1..], run[1..]);
        }
      }
    }
  }

  /** Selection already covers everything below a hit, so a final `**` adds nothing to a pattern. */
  lemma {:induction false} TrailingAnyRedundant(fits: Fits, pattern: seq<Segment>, path: seq<Segment>)
    requires pattern != []
    ensures Matched(fits, pattern + [ANY], path) <==> Matched(fits, pattern, path)
  {
    forall n | Leads(fits, pattern + [ANY], path, n)
      ensures Selects(fits, pattern, path)
    {
      TrailingRun(fits, pattern, path[..n]);
      var k :| Leads(fits, pattern, path[..n], k);
      assert path[..n][..k] == path[..k];
      assert Leads(fits, pattern, path, k);
    }
    forall n | Leads(fits, pattern, path, n)
      ensures Selects(fits, pattern + [ANY], path)
    {
      assert path[..n][..n] == path[..n];
      assert Leads(fits, pattern, path[..n], n);
      TrailingRun(fits, pattern, path[..n]);
      assert Leads(fits, pattern + [ANY], path, n);
    }
  }

  /** After nothing at all, a final `**` is not redundant: alone it matches every path. */
  lemma {:induction false} LoneAnyMatches(fits: Fits, path: seq<Segment>)
    requires path != []
    ensures Matched(fits, [ANY], path) && !Matched(fits, [], path)
  {
    AnySelects(fits, [ANY], path);
    assert [ANY][1..] == [];
    EmptySelects(fits, path[0..]);
  }
}
