/**
 * The difference between two diagnostics (diagnostic-orchestrator.service.ts, getPostureDiff):
 * findings by fingerprint and open ports by number.
 */
module PostureDiff {
  import opened Base
  import F = Findings

  /** A finding as a diagnostic's summary keeps it. */
  datatype Summary = Summary(fingerprint: F.Fingerprint, title: string, status: F.Status)

  datatype Diff = Diff(added: seq<Summary>, persistent: seq<Summary>, remediated: seq<Summary>)

  function Fingerprints(findings: seq<Summary>): set<F.Fingerprint> {
    set i | 0 <= i < |findings| :: findings[i].fingerprint
  }

  /** The findings whose fingerprint is, or is not, among `known`, in their order. */
  function Split(findings: seq<Summary>, known: set<F.Fingerprint>, present: bool): seq<Summary> {
    if findings == [] then []
    else var f := findings[|findings| - 1];
         Split(findings[..|findings| - 1], known, present) + if (f.fingerprint in known) == present then [f] else []
  }

  function Marked(findings: seq<Summary>): seq<Summary> {
    seq(|findings|, i requires 0 <= i < |findings| => findings[i].(status := F.Resolved))
  }

  function DiffOf(from: seq<Summary>, to: seq<Summary>): Diff {
    Diff(Split(to, Fingerprints(from), false), Split(to, Fingerprints(from), true),
        Marked(Split(from, Fingerprints(to), false)))
  }

  /** The loops over both lists. */
  method FindingsDiff(from: seq<Summary>, to: seq<Summary>) returns (d: Diff)
    ensures d == DiffOf(from, to)
  {
    var known, current := Fingerprints(from), Fingerprints(to);
    var added, persistent, remediated: seq<Summary> := [], [], [];
    for i := 0 to |to|
      invariant added == Split(to[..i], known, false) && persistent == Split(to[..i], known, true)
    {
      assert to[..i + 1][..i] == to[..i];
      if to[i].fingerprint !in known {
        added := added + [to[i]];
      } else {
        persistent := persistent + [to[i]];
      }
    }
    for i := 0 to |from|
      invariant remediated == Marked(Split(from[..i], current, false))
    {
      assert from[..i + 1][..i] == from[..i];
      if from[i].fingerprint !in current {
        remediated := remediated + [from[i].(status := F.Resolved)];
      }
    }
    assert to[..|to|] == to && from[..|from|] == from;
    d := Diff(added, persistent, remediated);
  }

  /** A diagnostic lists each fingerprint once. */
  predicate Distinct(findings: seq<Summary>) {
    forall i, j :: 0 <= i < j < |findings| ==> findings[i].fingerprint != findings[j].fingerprint
  }

  lemma PrintsOfPrefix(findings: seq<Summary>)
    requires findings != []
    ensures Fingerprints(findings) == Fingerprints(findings[..|findings| - 1]) + {findings[|findings| - 1].fingerprint}
    ensures Distinct(findings) ==> findings[|findings| - 1].fingerprint !in Fingerprints(findings[..|findings| - 1])
  {
    var n := |findings| - 1;
    assert forall i :: 0 <= i < n ==> findings[..n][i] == findings[i];
  }

  lemma {:induction false} SplitPrints(findings: seq<Summary>, known: set<F.Fingerprint>, present: bool)
    ensures Fingerprints(Split(findings, known, present)) ==
      if present then Fingerprints(findings) * known else Fingerprints(findings) - known
    ensures Distinct(findings) ==> Distinct(Split(findings, known, present))
  {
    if findings != [] {
      var rest, f := findings[..|findings| - 1], findings[|findings| - 1];
      SplitPrints(rest, known, present);
      PrintsOfPrefix(findings);
      var kept := Split(findings, known, present);
      if (f.fingerprint in known) == present {
        assert kept[..|kept| - 1] == Split(rest, known, present);
        PrintsOfPrefix(kept);
        AppendDistinct(Split(rest, known, present), f);
      } else {
        assert kept == Split(rest, known, present);
      }
    }
  }

  lemma AppendDistinct(findings: seq<Summary>, f: Summary)
    ensures Distinct(findings) && f.fingerprint !in Fingerprints(findings) ==> Distinct(findings + [f])
  {
  }

  lemma {:induction false} DistinctSize(findings: seq<Summary>)
    requires Distinct(findings)
    ensures |findings| == |Fingerprints(findings)|
  {
    if findings != [] {
      PrintsOfPrefix(findings);
      DistinctSize(findings[..|findings| - 1]);
    }
  }

  lemma MarkedPrints(findings: seq<Summary>)
    ensures Fingerprints(Marked(findings)) == Fingerprints(findings) && |Marked(findings)| == |findings|
  {
    forall k | k in Fingerprints(findings) ensures k in Fingerprints(Marked(findings)) {
      var i :| 0 <= i < |findings| && findings[i].fingerprint == k;
      assert Marked(findings)[i].fingerprint == k;
    }
  }

  /** What each list holds, by fingerprint. */
  lemma WhatTheDiffHolds(from: seq<Summary>, to: seq<Summary>)
    ensures var d := DiffOf(from, to); var a, b := Fingerprints(from), Fingerprints(to);
      && Fingerprints(d.added) == b - a && Fingerprints(d.persistent) == b * a && Fingerprints(d.remediated) == a - b
  {
    SplitPrints(to, Fingerprints(from), false);
    SplitPrints(to, Fingerprints(from), true);
    SplitPrints(from, Fingerprints(to), false);
    MarkedPrints(Split(from, Fingerprints(to), false));
  }

  lemma {:induction false} SplitTakes(findings: seq<Summary>, known: set<F.Fingerprint>, present: bool, f: Summary)
    ensures f in Split(findings, known, present) <==> f in findings && (f.fingerprint in known) == present
  {
    if findings != [] {
      var rest, last := findings[..|findings| - 1], findings[|findings| - 1];
      SplitTakes(rest, known, present, f);
      SplitNext(findings, known, present);
      assert findings == rest + [last];
    }
  }

  /** New and persistent findings are listed as they are now, remediated ones as they were, marked RESOLVED. */
  lemma AsTheyAre(from: seq<Summary>, to: seq<Summary>, f: Summary)
    ensures var d := DiffOf(from, to);
      && (f in d.added <==> f in to && f.fingerprint !in Fingerprints(from))
      && (f in d.persistent <==> f in to && f.fingerprint in Fingerprints(from))
      && (f in d.remediated <==> exists g ::
            g in from && g.fingerprint !in Fingerprints(to) && f == Summary(g.fingerprint, g.title, F.Resolved))
  {
    SplitTakes(to, Fingerprints(from), false, f);
    SplitTakes(to, Fingerprints(from), true, f);
    var gone := Split(from, Fingerprints(to), false);
    forall g ensures g in gone <==> g in from && g.fingerprint !in Fingerprints(to) {
      SplitTakes(from, Fingerprints(to), false, g);
    }
    if f in Marked(gone) {
      var i :| 0 <= i < |gone| && Marked(gone)[i] == f;
      assert gone[i] in gone && f == Summary(gone[i].fingerprint, gone[i].title, F.Resolved);
    }
    if g :| g in gone && f == Summary(g.fingerprint, g.title, F.Resolved) {
      var i :| 0 <= i < |gone| && gone[i] == g;
      assert Marked(gone)[i] == f;
    }
  }

  lemma SplitNext(findings: seq<Summary>, known: set<F.Fingerprint>, present: bool)
    requires findings != []
    ensures var rest, f := Split(findings[..|findings| - 1], known, present), findings[|findings| - 1];
      Split(findings, known, present) == if (f.fingerprint in known) == present then rest + [f] else rest
  {
    var rest := Split(findings[..|findings| - 1], known, present);
    assert rest + [] == rest;
  }

  lemma {:induction false} SplitSizes(findings: seq<Summary>, known: set<F.Fingerprint>)
    ensures |findings| == |Split(findings, known, true)| + |Split(findings, known, false)|
  {
    if findings != [] {
      SplitNext(findings, known, true);
      SplitNext(findings, known, false);
      SplitSizes(findings[..|findings| - 1], known);
    }
  }

  lemma CountNext(findings: seq<Summary>, f: Summary)
    requires findings != []
    ensures multiset(findings)[f] == multiset(findings[..|findings| - 1])[f]
        + if findings[|findings| - 1] == f then 1 else 0
  {
    assert findings == findings[..|findings| - 1] + [findings[|findings| - 1]];
  }

  lemma {:induction false} SplitHolds(findings: seq<Summary>, known: set<F.Fingerprint>, present: bool, f: Summary)
    ensures multiset(Split(findings, known, present))[f]
        == if (f.fingerprint in known) == present then multiset(findings)[f] else 0
  {
    if findings != [] {
      var kept := Split(findings, known, present);
      SplitNext(findings, known, present);
      CountNext(findings, f);
      SplitHolds(findings[..|findings| - 1], known, present, f);
      if (findings[|findings| - 1].fingerprint in known) == present {
        CountNext(kept, f);
        assert kept[..|kept| - 1] == Split(findings[..|findings| - 1], known, present);
      }
    }
  }

  lemma SplitIsPartition(findings: seq<Summary>, known: set<F.Fingerprint>)
    ensures multiset(findings) == multiset(Split(findings, known, true)) + multiset(Split(findings, known, false))
  {
    forall f ensures multiset(findings)[f]
        == (multiset(Split(findings, known, true)) + multiset(Split(findings, known, false)))[f] {
      SplitHolds(findings, known, true, f);
      SplitHolds(findings, known, false, f);
    }
  }

  /**
   * Nothing is lost or counted twice: the current findings are the new and the persistent ones, and
   * current less new equals previous less remediated.
   */
  lemma DiffConserves(from: seq<Summary>, to: seq<Summary>)
    requires Distinct(from) && Distinct(to)
    ensures var d := DiffOf(from, to);
      && multiset(to) == multiset(d.persistent) + multiset(d.added)
      && |to| == |d.added| + |d.persistent| && |from| == |d.remediated| + |d.persistent|
  {
    var a, b := Fingerprints(from), Fingerprints(to);
    SplitSizes(to, a);
    SplitIsPartition(to, a);
    SplitSizes(from, b);
    SplitPrints(to, a, true);
    SplitPrints(from, b, true);
    DistinctSize(Split(to, a, true));
    DistinctSize(Split(from, b, true));
    assert a * b == b * a;
  }

  /** Comparing the other way round swaps new and remediated. */
  lemma DiffIsSymmetric(from: seq<Summary>, to: seq<Summary>)
    ensures DiffOf(to, from).remediated == Marked(DiffOf(from, to).added)
    ensures DiffOf(from, to).remediated == Marked(DiffOf(to, from).added)
    ensures Fingerprints(DiffOf(from, to).persistent) == Fingerprints(DiffOf(to, from).persistent)
  {
    WhatTheDiffHolds(from, to);
    WhatTheDiffHolds(to, from);
  }

  /** The fingerprints after replaying the diffs between successive diagnostics. */
  function Replayed(history: seq<seq<Summary>>): set<F.Fingerprint>
    requires history != []
  {
    var n := |history|;
    if n == 1 then Fingerprints(history[0])
    else var d := DiffOf(history[n - 2], history[n - 1]);
         Replayed(history[..n - 1]) - Fingerprints(d.remediated) + Fingerprints(d.added)
  }

  /** Replaying a series of diffs on the first diagnostic gives the last one. */
  lemma {:induction false} ReplayGivesTheLast(history: seq<seq<Summary>>)
    requires history != []
    ensures Replayed(history) == Fingerprints(history[|history| - 1])
  {
    var n := |history|;
    if n > 1 {
      ReplayGivesTheLast(history[..n - 1]);
      WhatTheDiffHolds(history[n - 2], history[n - 1]);
    }
  }

  // ---------------------------------------------------------------- what the diff says about a scan

  /** The list is the asset's active findings, as a finished diagnostic stores them. */
  ghost predicate IsSnapshot(findings: seq<Summary>, asset: nat, t: F.Table) {
    && Distinct(findings)
    && forall fp :: fp in Fingerprints(findings) <==> F.Key(asset, fp) in F.ActiveKeys(asset, t)
  }

  /**
   * Between two diagnostics with one scan result in between, the diff shows as new exactly what the
   * scan created or reopened, and as remediated exactly what it resolved.
   */
  lemma DiffOfOneSync(from: seq<Summary>, to: seq<Summary>, inp: F.SyncInput, cat: F.Catalog, t: F.Table,
      now: int, fp: F.Fingerprint)
    requires F.AllKnown(cat, inp.drafts)
    requires IsSnapshot(from, inp.asset, t) && IsSnapshot(to, inp.asset, F.Reconciled(inp, cat, t, now))
    ensures var d, k := DiffOf(from, to), F.Key(inp.asset, fp);
      && (fp in Fingerprints(d.added) <==>
           k in F.CreatedKeys(inp.asset, inp.drafts, t) + F.ReopenedKeys(inp.asset, inp.drafts, t))
      && (fp in Fingerprints(d.remediated) <==> k in F.GoneKeys(inp, t))
  {
    WhatTheDiffHolds(from, to);
    F.ActiveKeysAfter(inp, cat, t, now);
    var k := F.Key(inp.asset, fp);
    assert fp in Fingerprints(from) <==> k in F.ActiveKeys(inp.asset, t);
    assert fp in Fingerprints(to) <==> k in F.ActiveKeys(inp.asset, F.Reconciled(inp, cat, t, now));
  }

  // ---------------------------------------------------------------- ports

  function Filtered(ports: seq<int>, other: set<int>): seq<int> {
    if ports == [] then []
    else Filtered(ports[..|ports| - 1], other) + if ports[|ports| - 1] in other then [] else [ports[|ports| - 1]]
  }

  lemma {:induction false} FilteredHolds(ports: seq<int>, other: set<int>, p: int)
    ensures p in Filtered(ports, other) <==> p in ports && p !in other
  {
    if ports != [] { FilteredHolds(ports[..|ports| - 1], other, p); }
  }

  function SetOf(ports: seq<int>): set<int> {
    set p | p in ports
  }

  /** A port counts as new exactly when it is open now and was not, and as closed the other way round. */
  lemma PortsDiff(from: seq<int>, to: seq<int>, p: int)
    ensures p in Filtered(to, SetOf(from)) <==> p in to && p !in from
    ensures p in Filtered(from, SetOf(to)) <==> p in from && p !in to
  {
    FilteredHolds(to, SetOf(from), p);
    FilteredHolds(from, SetOf(to), p);
  }
}
