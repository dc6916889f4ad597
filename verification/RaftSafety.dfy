/** What the scripts guarantee in every run, whatever fails and whatever order pods are replaced in:
    pod -0's rows survive, and the cluster splits at one kind of step only. */
module RaftSafety {
  import opened Options
  import opened RaftMachine

  lemma BaseKept(s: State, e: Event)
    requires Base(s) && Enabled(s, e)
    ensures Base(Apply(s, e)) && |Apply(s, e).pods| == |s.pods|
  {
    if e.Step? { StepKeepsBase(s, e.i, e.ok); } else { OthersKeepBase(s, e); }
  }

  lemma StepKeepsBase(s: State, i: nat, ok: bool)
    requires Base(s) && Enabled(s, Step(i, ok))
    ensures Base(Apply(s, Step(i, ok)))
  {
    var t := Apply(s, Step(i, ok));
    StepKeepsPod(s, i, ok);
    forall j | 0 <= j < |t.pods| ensures PodOk(t, j, t.pods[j]) {
      assert PodOk(s, j, s.pods[j]);
    }
  }

  lemma StepKeepsPod(s: State, i: nat, ok: bool)
    requires Base(s) && Enabled(s, Step(i, ok))
    ensures var t := Apply(s, Step(i, ok));
      |t.pods| == |s.pods| && PodOk(t, i, t.pods[i]) && s.nextCid <= t.nextCid
      && (forall j | 0 <= j < |s.pods| && j != i :: t.pods[j] == s.pods[j])
      && (t.pods[0].phase.Serving? ==> t.listen == Some(t.pods[0].scheme))
  {
    assert PodOk(s, i, s.pods[i]);
    if s.pods[i].phase.Hook? { HookStepOk(s, i, ok); } else { SetupStepOk(s, i, ok); }
  }

  lemma HookStepOk(s: State, i: nat, ok: bool)
    requires Slot(s, i) && PodOk(s, i, s.pods[i]) && s.pods[i].phase.Hook?
    ensures LineFacts(i, HookStep(i, s.pods[i], ok))
  {
  }

  lemma SetupStepOk(s: State, i: nat, ok: bool)
    requires Slot(s, i) && PodOk(s, i, s.pods[i]) && s.pods[i].phase.Setup?
    ensures LineFacts(i, SetupStep(i, s.pods[i], ok, s.nextCid))
  {
  }

  lemma OthersKeepBase(s: State, e: Event)
    requires Base(s) && Enabled(s, e) && !e.Step?
    ensures Base(Apply(s, e)) && |Apply(s, e).pods| == |s.pods|
  {
    var t := Apply(s, e);
    forall i | 0 <= i < |t.pods| ensures PodOk(t, i, t.pods[i]) {
      assert PodOk(s, i, s.pods[i]) && PodOk(s, 0, s.pods[0]);
    }
  }

  lemma {:induction false} BaseKeptByRuns(s: State, evs: seq<Event>)
    requires Base(s) && Runs(s, evs)
    ensures Base(Exec(s, evs))
    decreases |evs|
  {
    if evs != [] {
      BaseKept(s, evs[0]);
      BaseKeptByRuns(Apply(s, evs[0]), evs[1..]);
    }
  }

  /* ---------- pod -0's data survives ---------- */

  /** The rows a file holds; a missing, empty or joining file holds none. */
  function Rows(f: DbFile): Option<Data> {
    match f
    case Standalone(d) => Some(d)
    case Clustered(_, _, d) => Some(d)
    case _ => None
  }

  function Committed(evs: seq<Event>): Data {
    if evs == [] then []
    else (if evs[0].Commit? then [evs[0].row] else []) + Committed(evs[1..])
  }

  lemma DataKept(s: State, e: Event)
    requires Base(s) && Enabled(s, e) && Rows(s.pods[0].file).Some?
    ensures Rows(Apply(s, e).pods[0].file)
         == Some(Rows(s.pods[0].file).value + if e.Commit? then [e.row] else [])
  {
    assert PodOk(s, 0, s.pods[0]);
    assert forall d: Data :: d + [] == d;
  }

  /** Stopping setup.sh at any line and running it again, hooks, crashes, kills and scheme changes
      in any order: pod -0's file holds the rows it held and the rows committed since, and nothing
      else, whether or not a conversion succeeded. */
  lemma {:induction false} DataSurvives(s: State, evs: seq<Event>)
    requires Base(s) && Runs(s, evs) && Rows(s.pods[0].file).Some?
    ensures Rows(Exec(s, evs).pods[0].file) == Some(Rows(s.pods[0].file).value + Committed(evs))
    decreases |evs|
  {
    var d := Rows(s.pods[0].file).value;
    if evs == [] {
      assert d + [] == d;
    } else {
      BaseKept(s, evs[0]);
      DataKept(s, evs[0]);
      DataSurvives(Apply(s, evs[0]), evs[1..]);
      var first := if evs[0].Commit? then [evs[0].row] else [];
      assert (d + first) + Committed(evs[1..]) == d + (first + Committed(evs[1..]));
    }
  }

  /** From empty volumes: once pod -0 has made its database, every later state holds what it held and
      what was committed since. */
  lemma DataSurvivesFromStart(s: State, evs: seq<Event>, more: seq<Event>)
    requires Fresh(s) && Runs(s, evs) && Runs(Exec(s, evs), more)
    requires Rows(Exec(s, evs).pods[0].file).Some?
    ensures Rows(Exec(Exec(s, evs), more).pods[0].file)
         == Some(Rows(Exec(s, evs).pods[0].file).value + Committed(more))
  {
    BaseKeptByRuns(s, evs);
    DataSurvives(Exec(s, evs), more);
  }

  /* ---------- where the cluster can split ---------- */

  /** Every higher pod that is a cluster member has pod -0's cluster id and scheme. */
  ghost predicate Unity(s: State) {
    && 0 < |s.pods|
    && forall i | 0 < i < |s.pods| :: s.pods[i].file.Clustered? ==> SameCluster(s.pods[0].file, s.pods[i].file)
  }

  predicate SameCluster(f: DbFile, g: DbFile) {
    f.Clustered? && g.Clustered? && f.cid == g.cid && f.scheme == g.scheme
  }

  ghost predicate HigherMember(s: State) {
    exists i :: 0 < i < |s.pods| && s.pods[i].file.Clustered?
  }

  /** The `mv` that puts the standalone copy in the place of pod -0's cluster file, while a higher
      pod still holds a file of that cluster. */
  ghost predicate Splits(s: State, e: Event)
    requires Slot(s, 0)
  {
    e.Step? && e.i == 0 && s.pods[0].phase == Setup(Move) && HigherMember(s)
  }

  /** Exactly one line can split the cluster, and it does so exactly when a higher pod is still a
      member: every other step of every script, failure, crash or controller action keeps unity. */
  lemma UnityKeptIff(s: State, e: Event)
    requires Base(s) && Unity(s) && Enabled(s, e)
    ensures Unity(Apply(s, e)) <==> !Splits(s, e)
  {
    var t := Apply(s, e);
    assert PodOk(s, 0, s.pods[0]);
    if Splits(s, e) {
      var i :| 0 < i < |s.pods| && s.pods[i].file.Clustered?;
      assert t.pods[i].file.Clustered? && !t.pods[0].file.Clustered?;
    } else {
      forall i | 0 < i < |t.pods| && t.pods[i].file.Clustered?
        ensures SameCluster(t.pods[0].file, t.pods[i].file)
      {
        assert PodOk(s, i, s.pods[i]);
        if s.pods[i].file.Clustered? {
          assert HigherMember(s);
          assert SameCluster(s.pods[0].file, s.pods[i].file);
        }
      }
    }
  }

  ghost predicate AlwaysUnited(s: State, evs: seq<Event>)
    requires Slot(s, 0) && Runs(s, evs)
    decreases |evs|
  {
    Unity(s) && (evs != [] ==> AlwaysUnited(Apply(s, evs[0]), evs[1..]))
  }

  ghost predicate NeverSplits(s: State, evs: seq<Event>)
    requires Slot(s, 0) && Runs(s, evs)
    decreases |evs|
  {
    evs != [] ==> !Splits(s, evs[0]) && NeverSplits(Apply(s, evs[0]), evs[1..])
  }

  /** A run is free of split brain exactly when no `mv` of it met a higher member. */
  lemma {:induction false} UnitedIffNeverSplits(s: State, evs: seq<Event>)
    requires Base(s) && Unity(s) && Runs(s, evs)
    ensures AlwaysUnited(s, evs) <==> NeverSplits(s, evs)
    decreases |evs|
  {
    if evs != [] {
      BaseKept(s, evs[0]);
      UnityKeptIff(s, evs[0]);
      if !Splits(s, evs[0]) {
        UnitedIffNeverSplits(Apply(s, evs[0]), evs[1..]);
      }
    }
  }
}
