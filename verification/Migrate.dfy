/** The migration runner: pending versions in order, one transaction each, over crashes and restarts. */
module Migrate {
  import opened Wrappers
  import opened Sums

  /** An entry of the migrations directory; version is None when the name has no numeric prefix. */
  datatype Entry = Entry(name: string, up: bool, version: Option<int>)

  /** An .up.sql file. */
  datatype File = File(version: int, name: string)

  /** schema_migrations, and the scripts whose transactions committed, in order. */
  datatype Schema = Schema(versions: set<int>, scripts: seq<File>)

  /** How one migration's transaction ends: it commits, it leaves nothing, or it commits and the answer never arrives. */
  datatype Outcome = Committed | Undone | AnswerLost

  const EMPTY := Schema({}, [])

  /** COALESCE(MAX(version), 0). */
  ghost predicate IsCurrent(versions: set<int>, current: int) {
    if versions == {} then current == 0 else current in versions && forall v :: v in versions ==> v <= current
  }

  predicate Parses(entries: seq<Entry>) {
    forall i :: 0 <= i < |entries| ==> entries[i].up ==> entries[i].version.Some?
  }

  /** f is one of the .up.sql files. */
  predicate IsFile(entries: seq<Entry>, f: File) {
    Entry(f.name, true, Some(f.version)) in entries
  }

  predicate Sorted(plan: seq<File>) {
    forall i, j :: 0 <= i < j < |plan| ==> plan[i].version <= plan[j].version
  }

  predicate StrictlySorted(plan: seq<File>) {
    forall i, j :: 0 <= i < j < |plan| ==> plan[i].version < plan[j].version
  }

  /** plan is the files above current, sorted by version. */
  ghost predicate IsPlan(entries: seq<Entry>, current: int, plan: seq<File>) {
    Sorted(plan) && forall f :: f in plan <==> IsFile(entries, f) && f.version > current
  }

  /** The schema after the first n migrations of a plan. */
  function After(s: Schema, plan: seq<File>, n: nat): Schema
    requires n <= |plan|
  {
    Schema(s.versions + set k | 0 <= k < n :: plan[k].version, s.scripts + plan[..n])
  }

  /** One run of the runner, cut short or not: it commits a prefix of a plan, all of it when it succeeds. */
  ghost predicate RanPlan(entries: seq<Entry>, s: Schema, s': Schema, ok: bool, current: int, plan: seq<File>, n: nat) {
    && IsCurrent(s.versions, current) && IsPlan(entries, current, plan)
    && n <= |plan| && StrictlySorted(plan[..n]) && s' == After(s, plan, n)
    && (ok ==> n == |plan|)
  }

  ghost predicate Ran(entries: seq<Entry>, s: Schema, s': Schema, ok: bool) {
    (s' == s && !ok) || exists current, plan, n :: RanPlan(entries, s, s', ok, current, plan, n)
  }

  class Database {
    var versions: set<int>
    var scripts: seq<File>

    constructor ()
      ensures View() == EMPTY
    {
      versions, scripts := {}, [];
    }

    ghost function View(): Schema
      reads this
    {
      Schema(versions, scripts)
    }

    method CurrentVersion() returns (current: int)
      ensures IsCurrent(versions, current)
    {
      if versions == {} {
        return 0;
      }
      current := Choose(versions);
      var rest := versions - {current};
      while rest != {}
        invariant rest <= versions && current in versions
        invariant forall v :: v in versions && v !in rest ==> v <= current
        decreases rest
      {
        var v := Choose(rest);
        if v > current {
          current := v;
        }
        rest := rest - {v};
      }
    }

    /** Begin, run the script, insert the version, commit. The primary key refuses a version already there. */
    method Apply(f: File, outcome: Outcome) returns (ok: bool)
      modifies this
      ensures ok <==> f.version !in old(versions) && outcome.Committed?
      ensures View() ==
        if f.version !in old(versions) && !outcome.Undone? then Schema(old(versions) + {f.version}, old(scripts) + [f]) else old(View())
    {
      if f.version in versions || outcome.Undone? {
        return false;
      }
      versions, scripts := versions + {f.version}, scripts + [f];
      ok := outcome.Committed?;
    }

    /**
     A run. start says that the tracking table, the lock and the first query worked. A file whose version does not parse
     stops the run before anything is applied; the first migration that fails stops it with the earlier ones committed.
     */
    method Migrate(entries: seq<Entry>, start: bool, outcomes: int -> Outcome) returns (ok: bool, ghost plan: seq<File>)
      modifies this
      ensures Ran(entries, old(View()), View(), ok)
      ensures !start || !Parses(entries) ==> !ok && View() == old(View())
      ensures start && Parses(entries) ==> exists current :: IsCurrent(old(versions), current) && IsPlan(entries, current, plan)
      ensures start && Parses(entries) ==>
        (ok <==> (forall k :: 0 <= k < |plan| ==> outcomes(k).Committed?) && StrictlySorted(plan))
    {
      ok, plan := false, [];
      if !start {
        return;
      }
      var current := CurrentVersion();
      var parsed, pending := Collect(entries, current);
      if !parsed {
        return;
      }
      plan := pending;
      ghost var before := View();
      ghost var n;
      ok, n := ApplyPending(pending, outcomes, before);
      assert plan[..|plan|] == plan;
      assert RanPlan(entries, before, View(), ok, current, plan, n);
    }

    /** The loop: it commits the migrations one by one and stops at the first that fails. */
    method ApplyPending(plan: seq<File>, outcomes: int -> Outcome, ghost before: Schema) returns (ok: bool, ghost n: nat)
      requires Sorted(plan) && View() == before && forall f, v :: f in plan && v in before.versions ==> v < f.version
      modifies this
      ensures n <= |plan| && StrictlySorted(plan[..n]) && View() == After(before, plan, n) && (ok ==> n == |plan|)
      ensures ok <==> (forall k :: 0 <= k < |plan| ==> outcomes(k).Committed?) && StrictlySorted(plan)
    {
      n := 0;
      for k := 0 to |plan|
        invariant n == k && StrictlySorted(plan[..k]) && View() == After(before, plan, k)
        invariant forall i :: 0 <= i < k ==> outcomes(i).Committed?
      {
        OneMore(before, plan, k);
        var done := Apply(plan[k], outcomes(k));
        if !done {
          n := if View() == After(before, plan, k) then k else k + 1;
          assert outcomes(k).Committed? ==> !StrictlySorted(plan);
          return false, n;
        }
        n := k + 1;
      }
      assert plan[..|plan|] == plan;
      ok := true;
    }
  }

  /** The next version is refused exactly when it repeats the one before it. */
  lemma OneMore(s: Schema, plan: seq<File>, k: nat)
    requires k < |plan| && Sorted(plan) && StrictlySorted(plan[..k])
    requires forall f, v :: f in plan && v in s.versions ==> v < f.version
    ensures plan[k].version in After(s, plan, k).versions <==> k > 0 && plan[k - 1].version == plan[k].version
    ensures plan[k].version !in After(s, plan, k).versions ==> StrictlySorted(plan[..k + 1])
    ensures After(s, plan, k + 1).versions == After(s, plan, k).versions + {plan[k].version}
    ensures After(s, plan, k + 1).scripts == After(s, plan, k).scripts + [plan[k]]
  {
    assert plan[k] in plan;
    assert plan[..k + 1] == plan[..k] + [plan[k]];
    assert forall i :: 0 <= i < k ==> plan[..k][i] == plan[i];
    assert k > 0 ==> forall i :: 0 <= i < k ==> plan[i].version <= plan[k - 1].version;
  }

  /** Reads the directory: the pending files, sorted, unless a name does not parse. */
  method Collect(entries: seq<Entry>, current: int) returns (parsed: bool, pending: seq<File>)
    ensures parsed <==> Parses(entries)
    ensures parsed ==> IsPlan(entries, current, pending)
  {
    pending := [];
    for i := 0 to |entries|
      invariant Parses(entries[..i]) && IsPlan(entries[..i], current, pending)
    {
      assert entries[..i + 1] == entries[..i] + [entries[i]];
      if entries[i].up {
        if entries[i].version.None? {
          return false, pending;
        }
        if entries[i].version.value > current {
          var f := File(entries[i].version.value, entries[i].name);
          ghost var before := pending;
          pending := InsertSorted(pending, f);
          assert forall g :: g in pending <==> g in before || g == f;
        }
      }
      assert forall g :: IsFile(entries[..i + 1], g) <==> IsFile(entries[..i], g) || entries[i] == Entry(g.name, true, Some(g.version));
    }
    assert entries[..|entries|] == entries;
    parsed := true;
  }

  method InsertSorted(plan: seq<File>, f: File) returns (plan': seq<File>)
    requires Sorted(plan)
    ensures Sorted(plan') && multiset(plan') == multiset(plan) + multiset{f}
    ensures forall g :: g in plan' <==> g in plan || g == f
  {
    var i := 0;
    while i < |plan| && plan[i].version <= f.version
      invariant 0 <= i <= |plan|
      invariant forall k :: 0 <= k < i ==> plan[k].version <= f.version
    {
      i := i + 1;
    }
    plan' := plan[..i] + [f] + plan[i..];
    assert plan == plan[..i] + plan[i..];
    forall g ensures g in plan' <==> g in plan || g == f {
      assert g in plan <==> g in plan[..i] || g in plan[i..];
    }
  }

  // ---------------------------------------------------------------- runs over crashes

  /** The version rows are those of the scripts that ran, which are files, in increasing order. */
  ghost predicate Recorded(entries: seq<Entry>, s: Schema) {
    && StrictlySorted(s.scripts) && (forall f :: f in s.scripts ==> IsFile(entries, f) && f.version > 0)
    && (forall v :: v in s.versions <==> HasVersion(s.scripts, v))
  }

  predicate HasVersion(scripts: seq<File>, v: int) {
    exists f :: f in scripts && f.version == v
  }

  /** Every file with a positive version up to top is in. */
  ghost predicate InUpTo(entries: seq<Entry>, versions: set<int>, top: int) {
    forall f :: IsFile(entries, f) && 0 < f.version <= top ==> f.version in versions
  }

  /** What every run keeps: the applied versions are exactly the files' positive versions up to the recorded maximum. */
  ghost predicate Inv(entries: seq<Entry>, s: Schema) {
    Recorded(entries, s) && forall top :: IsCurrent(s.versions, top) ==> InUpTo(entries, s.versions, top)
  }

  /** Every positive version is in. */
  ghost predicate Complete(entries: seq<Entry>, s: Schema) {
    forall f :: IsFile(entries, f) && f.version > 0 ==> f.version in s.versions
  }

  ghost predicate Distinct(entries: seq<Entry>) {
    forall f, g :: IsFile(entries, f) && IsFile(entries, g) && f.version == g.version && f.version > 0 ==> f == g
  }

  lemma PlanKeepsOrder(entries: seq<Entry>, s: Schema, s': Schema, ok: bool, current: int, plan: seq<File>, n: nat)
    requires Recorded(entries, s) && RanPlan(entries, s, s', ok, current, plan, n)
    ensures StrictlySorted(s'.scripts) && forall f :: f in s'.scripts ==> IsFile(entries, f) && f.version > 0
  {
    CurrentIsMax(entries, s, current);
    forall i, j | 0 <= i < j < |s'.scripts| ensures s'.scripts[i].version < s'.scripts[j].version {
      if i < |s.scripts| <= j {
        assert s.scripts[i] in s.scripts && plan[j - |s.scripts|] in plan;
      } else if |s.scripts| <= i {
        assert plan[..n][i - |s.scripts|].version < plan[..n][j - |s.scripts|].version;
      }
    }
    forall f | f in s'.scripts ensures IsFile(entries, f) && f.version > 0 {
      assert f in s.scripts || f in plan;
    }
  }

  lemma PlanKeepsRows(s: Schema, plan: seq<File>, n: nat)
    requires n <= |plan| && forall v :: v in s.versions <==> HasVersion(s.scripts, v)
    ensures var s' := After(s, plan, n); forall v :: v in s'.versions <==> HasVersion(s'.scripts, v)
  {
    var s' := After(s, plan, n);
    forall v ensures v in s'.versions <==> HasVersion(s'.scripts, v) {
      if v in s'.versions && v !in s.versions {
        var k :| 0 <= k < n && plan[k].version == v;
        assert plan[..n][k] in s'.scripts;
      }
      if HasVersion(s'.scripts, v) && !HasVersion(s.scripts, v) {
        var f :| f in s'.scripts && f.version == v;
        assert f in plan[..n];
        var k :| 0 <= k < n && plan[..n][k] == f;
      }
    }
  }

  lemma PlanFillsUp(entries: seq<Entry>, s: Schema, plan: seq<File>, n: nat, current: int, top: int)
    requires n <= |plan| && IsCurrent(s.versions, current) && InUpTo(entries, s.versions, current) && IsPlan(entries, current, plan)
    requires IsCurrent(After(s, plan, n).versions, top)
    ensures InUpTo(entries, After(s, plan, n).versions, top)
    ensures n == |plan| ==> Complete(entries, After(s, plan, n))
  {
    var s' := After(s, plan, n);
    assert top in s.versions ==> top <= current;
    forall f | IsFile(entries, f) && f.version > 0 && (f.version <= top || n == |plan|) ensures f.version in s'.versions {
      if f.version > current {
        assert f in plan;
        var k :| 0 <= k < |plan| && plan[k] == f;
        assert k < n ==> f.version in s'.versions;
        if k >= n && top !in s.versions {
          var i :| 0 <= i < n && plan[i].version == top;
          assert plan[i].version <= plan[k].version;
        }
      }
    }
  }

  lemma PlanKeepsInv(entries: seq<Entry>, s: Schema, s': Schema, ok: bool, current: int, plan: seq<File>, n: nat)
    requires Inv(entries, s) && RanPlan(entries, s, s', ok, current, plan, n)
    ensures Inv(entries, s')
    ensures ok ==> Complete(entries, s')
  {
    PlanKeepsOrder(entries, s, s', ok, current, plan, n);
    PlanKeepsRows(s, plan, n);
    HasCurrent(s'.versions);
    forall top | IsCurrent(s'.versions, top) ensures InUpTo(entries, s'.versions, top) && (ok ==> Complete(entries, s')) {
      PlanFillsUp(entries, s, plan, n, current, top);
    }
  }

  lemma CurrentIsMax(entries: seq<Entry>, s: Schema, current: int)
    requires Recorded(entries, s) && IsCurrent(s.versions, current)
    ensures current >= 0 && forall f :: f in s.scripts ==> f.version <= current
  {
    forall f | f in s.scripts ensures f.version <= current {
      assert HasVersion(s.scripts, f.version);
    }
  }

  lemma HasCurrent(versions: set<int>)
    ensures exists current :: IsCurrent(versions, current)
    decreases versions
  {
    if versions == {} {
      assert IsCurrent(versions, 0);
    } else {
      var v := Pick(versions);
      HasCurrent(versions - {v});
      var m :| IsCurrent(versions - {v}, m);
      assert forall x :: x in versions ==> x == v || x in versions - {v};
      assert IsCurrent(versions, if versions - {v} == {} || v > m then v else m);
    }
  }

  lemma RunKeepsInv(entries: seq<Entry>, s: Schema, s': Schema, ok: bool)
    requires Inv(entries, s) && Ran(entries, s, s', ok)
    ensures Inv(entries, s')
    ensures ok ==> Complete(entries, s')
  {
    if s' != s || ok {
      var current, plan, n :| RanPlan(entries, s, s', ok, current, plan, n);
      PlanKeepsInv(entries, s, s', ok, current, plan, n);
    }
  }

  /** A history of runs from an empty database: each succeeded, failed, or was cut short by a crash. */
  ghost predicate History(entries: seq<Entry>, run: seq<Schema>, oks: seq<bool>) {
    && |run| == |oks| + 1 && run[0] == EMPTY
    && forall i :: 0 <= i < |oks| ==> Ran(entries, run[i], run[i + 1], oks[i])
  }

  /** In every state of every history the applied set is the files' positive versions up to the recorded maximum. */
  lemma {:induction false} AppliedUpToMaximum(entries: seq<Entry>, run: seq<Schema>, oks: seq<bool>, i: nat)
    requires History(entries, run, oks) && i < |run|
    ensures Inv(entries, run[i])
    ensures i > 0 && oks[i - 1] ==> Complete(entries, run[i])
    decreases i
  {
    if i > 0 {
      AppliedUpToMaximum(entries, run, oks, i - 1);
      assert Ran(entries, run[i - 1], run[i - 1 + 1], oks[i - 1]);
      RunKeepsInv(entries, run[i - 1], run[i], oks[i - 1]);
    }
  }

  /** Complete schemas with distinct versions are equal: the same scripts ran in the same order. */
  lemma CompleteIsUnique(entries: seq<Entry>, s: Schema, t: Schema)
    requires Distinct(entries) && Recorded(entries, s) && Recorded(entries, t) && Complete(entries, s) && Complete(entries, t)
    ensures s == t
  {
    forall v ensures v in s.versions <==> v in t.versions {
      if v in s.versions {
        var f :| f in s.scripts && f.version == v;
      }
      if v in t.versions {
        var f :| f in t.scripts && f.version == v;
      }
    }
    assert s.versions == t.versions;
    var p := seq(|s.scripts|, i requires 0 <= i < |s.scripts| => s.scripts[i].version);
    var q := seq(|t.scripts|, i requires 0 <= i < |t.scripts| => t.scripts[i].version);
    VersionsOf(entries, s, p);
    VersionsOf(entries, t, q);
    IncreasingUnique(p, q);
    forall i | 0 <= i < |s.scripts| ensures s.scripts[i] == t.scripts[i] {
      assert p[i] == q[i];
      assert s.scripts[i] in s.scripts && t.scripts[i] in t.scripts;
    }
  }

  lemma VersionsOf(entries: seq<Entry>, s: Schema, p: seq<int>)
    requires Recorded(entries, s) && |p| == |s.scripts| && forall i :: 0 <= i < |p| ==> p[i] == s.scripts[i].version
    ensures Increasing(p) && Elements(p) == s.versions
  {
    forall v ensures v in Elements(p) <==> v in s.versions {
      if v in s.versions {
        var f :| f in s.scripts && f.version == v;
        var i :| 0 <= i < |p| && s.scripts[i] == f;
        assert p[i] == v;
      }
      if v in p {
        var i :| 0 <= i < |p| && p[i] == v;
        assert s.scripts[i] in s.scripts;
      }
    }
  }

  /**
   Crash-resume: with distinct versions, any history of failed, crashed and restarted runs that ends in a success leaves
   the schema of a single uninterrupted run, and one more successful run changes nothing.
   */
  lemma CrashedRunsResume(entries: seq<Entry>, run: seq<Schema>, oks: seq<bool>, once: Schema, again: Schema)
    requires Distinct(entries) && History(entries, run, oks) && oks != [] && oks[|oks| - 1]
    requires Ran(entries, EMPTY, once, true) && Ran(entries, run[|oks|], again, true)
    ensures run[|oks|] == once && again == run[|oks|]
  {
    AppliedUpToMaximum(entries, run, oks, |oks|);
    SuccessesAgree(entries, run[|oks|], once, again);
  }

  lemma SuccessesAgree(entries: seq<Entry>, last: Schema, once: Schema, again: Schema)
    requires Distinct(entries) && Inv(entries, last) && Complete(entries, last)
    requires Ran(entries, EMPTY, once, true) && Ran(entries, last, again, true)
    ensures last == once && again == last
  {
    EmptyIsInv(entries);
    SuccessIsUnique(entries, EMPTY, once, last);
    SuccessIsUnique(entries, last, again, last);
  }

  lemma EmptyIsInv(entries: seq<Entry>)
    ensures Inv(entries, EMPTY)
  {
  }

  lemma SuccessIsUnique(entries: seq<Entry>, s: Schema, s': Schema, t: Schema)
    requires Distinct(entries) && Inv(entries, s) && Ran(entries, s, s', true) && Inv(entries, t) && Complete(entries, t)
    ensures s' == t
  {
    RunKeepsInv(entries, s, s', true);
    CompleteIsUnique(entries, s', t);
  }

  /** A successful run, from any schema under any set of files, leaves run the files that had run and those above its current version. */
  lemma SuccessRunsTheNewer(entries: seq<Entry>, s: Schema, s': Schema, current: int, f: File)
    requires Ran(entries, s, s', true) && IsCurrent(s.versions, current) && IsFile(entries, f)
    ensures f in s'.scripts <==> f in s.scripts || f.version > current
  {
    var c, plan, n :| RanPlan(entries, s, s', true, c, plan, n);
    assert c == current && plan[..n] == plan;
    assert f in plan <==> f.version > current;
  }

  /** After a success every file has run if and only if all versions are positive and distinct. */
  lemma EveryFileRanIff(entries: seq<Entry>, run: seq<Schema>, oks: seq<bool>)
    requires History(entries, run, oks) && oks != [] && oks[|oks| - 1]
    ensures (forall f :: IsFile(entries, f) ==> f in run[|oks|].scripts)
      <==> Distinct(entries) && forall f :: IsFile(entries, f) ==> f.version > 0
  {
    AppliedUpToMaximum(entries, run, oks, |oks|);
    if forall f :: IsFile(entries, f) ==> f in run[|oks|].scripts {
      FilesInAreDistinct(entries, run[|oks|]);
    }
    if Distinct(entries) && forall f :: IsFile(entries, f) ==> f.version > 0 {
      DistinctFilesAreIn(entries, run[|oks|]);
    }
  }

  lemma FilesInAreDistinct(entries: seq<Entry>, s: Schema)
    requires StrictlySorted(s.scripts) && forall f :: IsFile(entries, f) ==> f in s.scripts
    ensures Distinct(entries)
  {
    forall f, g | IsFile(entries, f) && IsFile(entries, g) && f.version == g.version && f.version > 0 ensures f == g {
      var i :| 0 <= i < |s.scripts| && s.scripts[i] == f;
      var j :| 0 <= j < |s.scripts| && s.scripts[j] == g;
      assert i == j;
    }
  }

  lemma DistinctFilesAreIn(entries: seq<Entry>, s: Schema)
    requires Recorded(entries, s) && Complete(entries, s) && Distinct(entries) && forall f :: IsFile(entries, f) ==> f.version > 0
    ensures forall f :: IsFile(entries, f) ==> f in s.scripts
  {
    forall f | IsFile(entries, f) ensures f in s.scripts {
      var g :| g in s.scripts && g.version == f.version;
    }
  }

  /** Two files of one version: the first run fails with one of them applied, the next succeeds and never runs the other. */
  lemma RepeatedVersionIsSkipped()
    ensures var entries := [Entry("001_a.up.sql", true, Some(1)), Entry("1_b.up.sql", true, Some(1))];
      exists run: seq<Schema> :: History(entries, run, [false, true]) && run[2].scripts == [File(1, "001_a.up.sql")]
  {
    var a, b := File(1, "001_a.up.sql"), File(1, "1_b.up.sql");
    var entries := [Entry(a.name, true, Some(1)), Entry(b.name, true, Some(1))];
    var half := Schema({1}, [a]);
    assert IsFile(entries, a) && IsFile(entries, b);
    assert IsPlan(entries, 0, [a, b]);
    assert half == After(EMPTY, [a, b], 1);
    assert RanPlan(entries, EMPTY, half, false, 0, [a, b], 1);
    assert IsCurrent({1}, 1) && IsPlan(entries, 1, []);
    assert half == After(half, [], 0);
    assert RanPlan(entries, half, half, true, 1, [], 0);
    var run := [EMPTY, half, half];
    assert History(entries, run, [false, true]) && run[2].scripts == [a];
  }

  /** Files of version 0 and below: the versions are distinct, the run reports success, and they have not run. */
  lemma NonPositiveVersionIsSkipped()
    ensures var entries := [Entry("-1_x.up.sql", true, Some(-1)), Entry("000_a.up.sql", true, Some(0)), Entry("001_b.up.sql", true, Some(1))];
      exists run: seq<Schema> :: History(entries, run, [true]) && run[1].scripts == [File(1, "001_b.up.sql")]
  {
    var b := File(1, "001_b.up.sql");
    var entries := [Entry("-1_x.up.sql", true, Some(-1)), Entry("000_a.up.sql", true, Some(0)), Entry(b.name, true, Some(1))];
    var done := Schema({1}, [b]);
    assert IsFile(entries, b);
    assert IsPlan(entries, 0, [b]);
    assert done == After(EMPTY, [b], 1);
    assert RanPlan(entries, EMPTY, done, true, 0, [b], 1);
    var run := [EMPTY, done];
    assert History(entries, run, [true]) && run[1].scripts == [b];
  }
}
