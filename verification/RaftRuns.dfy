/** Building runs: whole scripts as runs of their lines. */
module RaftRuns {
  import opened Options
  import opened RaftMachine
  import opened RaftSafety
  import opened RaftRules
  import opened RaftDiscipline

  ghost predicate RunsTo(r: Rule, s: State, evs: seq<Event>, t: State)
    requires Slot(s, 0)
  {
    Follows(r, s, evs) && Runs(s, evs) && Exec(s, evs) == t
  }

  predicate OfItself(e: Event) { e.Create? || e.Roll? || e.Step? || e.Join? || e.Commit? }

  ghost predicate AllOfItself(evs: seq<Event>) {
    forall k | 0 <= k < |evs| :: OfItself(evs[k])
  }

  /** Some run that follows the rule goes from s to t. */
  ghost predicate Reaches(r: Rule, s: State, t: State)
    requires Slot(s, 0)
  {
    exists evs :: RunsTo(r, s, evs, t)
  }

  /** Some run in the StatefulSet's order leads from s to t by what happens of itself: script lines,
      the rolling update, pods created again, joins.  In it no pod is scaled down, killed or restarted
      by a crash, and the spec does not change. */
  ghost predicate Leads(s: State, t: State)
    requires Slot(s, 0)
  {
    exists evs :: RunsTo(Order, s, evs, t) && AllOfItself(evs)
  }

  lemma RunsToSelf(r: Rule, s: State)
    requires Slot(s, 0)
    ensures RunsTo(r, s, [], s)
  {
  }

  lemma RunsToByOne(r: Rule, s: State, e: Event)
    requires Slot(s, 0) && Enabled(s, e) && Obeys(r, s, e)
    ensures RunsTo(r, s, [e], Apply(s, e))
  {
    assert [e][1..] == [];
    RunsToSelf(r, Apply(s, e));
  }

  lemma {:induction false} ConcatRuns(r: Rule, s: State, a: seq<Event>, t: State, b: seq<Event>, u: State)
    requires Slot(s, 0) && RunsTo(r, s, a, t) && |t.pods| == |s.pods| && RunsTo(r, t, b, u)
    ensures RunsTo(r, s, a + b, u)
    decreases |a|
  {
    if a == [] {
      assert a + b == b;
    } else {
      ConcatRuns(r, Apply(s, a[0]), a[1..], t, b, u);
      assert (a + b)[1..] == a[1..] + b;
      assert (a + b)[0] == a[0];
    }
  }

  lemma LeadsSelf(s: State)
    requires Slot(s, 0)
    ensures Leads(s, s)
  {
    RunsToSelf(Order, s);
    assert AllOfItself([]);
  }

  lemma LeadsByOne(s: State, e: Event)
    requires Slot(s, 0) && Enabled(s, e) && Allowed(s, e) && OfItself(e)
    ensures Leads(s, Apply(s, e))
  {
    RunsToByOne(Order, s, e);
    assert AllOfItself([e]);
  }

  lemma LeadsOn(s: State, t: State, u: State)
    requires Slot(s, 0) && Leads(s, t) && |t.pods| == |s.pods| && Leads(t, u)
    ensures Leads(s, u)
  {
    var a :| RunsTo(Order, s, a, t) && AllOfItself(a);
    var b :| RunsTo(Order, t, b, u) && AllOfItself(b);
    ConcatRuns(Order, s, a, t, b, u);
    assert AllOfItself(a + b);
  }

  lemma LeadsOneMore(s: State, t: State, e: Event)
    requires Slot(s, 0) && Leads(s, t) && |t.pods| == |s.pods|
    requires Enabled(t, e) && Allowed(t, e) && OfItself(e)
    ensures Leads(s, Apply(t, e))
  {
    LeadsByOne(t, e);
    LeadsOn(s, t, Apply(t, e));
  }

  lemma LeadsKeepsInv(s: State, t: State)
    requires Inv(s) && Leads(s, t)
    ensures Inv(t) && |t.pods| == |s.pods|
  {
    var evs :| RunsTo(Order, s, evs, t);
    InvKeptByRuns(s, evs);
  }

  lemma LeadsReaches(s: State, t: State)
    requires Slot(s, 0) && Leads(s, t)
    ensures Reaches(Order, s, t)
  {
    var evs :| RunsTo(Order, s, evs, t) && AllOfItself(evs);
  }

  lemma ReachesByOne(r: Rule, s: State, e: Event)
    requires Slot(s, 0) && Enabled(s, e) && Obeys(r, s, e)
    ensures Reaches(r, s, Apply(s, e))
  {
    RunsToByOne(r, s, e);
  }

  lemma ReachesOn(r: Rule, s: State, t: State, u: State)
    requires Slot(s, 0) && Reaches(r, s, t) && |t.pods| == |s.pods| && Reaches(r, t, u)
    ensures Reaches(r, s, u)
  {
    var a :| RunsTo(r, s, a, t);
    var b :| RunsTo(r, t, b, u);
    ConcatRuns(r, s, a, t, b, u);
  }

  lemma ReachesOneMore(r: Rule, s: State, t: State, e: Event)
    requires Slot(s, 0) && Reaches(r, s, t) && |t.pods| == |s.pods| && Enabled(t, e) && Obeys(r, t, e)
    ensures Reaches(r, s, Apply(t, e))
  {
    ReachesByOne(r, t, e);
    ReachesOn(r, s, t, Apply(t, e));
  }

  /* ---------- setup.sh as one run ---------- */

  function Rank(l: Line): nat {
    match l
    case TestEmpty => 9 case RemoveEmpty => 8 case TestProtocol => 7 case RemoveScratch => 6
    case Convert => 5 case FinishConvert => 4 case Move => 3 case Launch => 2 case Fill => 1
    case SetConnection => 0
  }

  /** Every line either ends the script or goes on to a later one, whatever its command answers. */
  lemma SetupAdvances(i: nat, p: Pod, ok: bool, cid: nat)
    requires p.phase.Setup? && LineFacts(i, p)
    requires if i == 0 then !p.file.Joining? else !p.file.Standalone?
    ensures var q := SetupStep(i, p, ok, cid);
      && LineFacts(i, q) && q.scheme == p.scheme
      && (if i == 0 then !q.file.Joining? else !q.file.Standalone?)
      && (q.phase == Serving || (q.phase.Setup? && Rank(q.phase.line) < Rank(p.phase.line)))
  {
  }

  /** setup.sh from a line to its end, with commands that answer as `ok` says. */
  function SetupRun(i: nat, p: Pod, ok: bool, cid: nat): Pod
    requires p.phase.Setup? ==> LineFacts(i, p) && if i == 0 then !p.file.Joining? else !p.file.Standalone?
    decreases if p.phase.Setup? then Rank(p.phase.line) + 1 else 0
  {
    if !p.phase.Setup? then p
    else
      SetupAdvances(i, p, ok, cid);
      SetupRun(i, SetupStep(i, p, ok, cid), ok, cid)
  }

  lemma {:induction false} SetupEnds(i: nat, p: Pod, ok: bool, cid: nat)
    requires p.phase.Setup? && LineFacts(i, p)
    requires if i == 0 then !p.file.Joining? else !p.file.Standalone?
    ensures SetupRun(i, p, ok, cid).phase == Serving && SetupRun(i, p, ok, cid).scheme == p.scheme
    decreases Rank(p.phase.line)
  {
    SetupAdvances(i, p, ok, cid);
    var q := SetupStep(i, p, ok, cid);
    if q.phase.Setup? { SetupEnds(i, q, ok, cid); }
  }

  /** The file after setup.sh: pod -0 keeps a cluster of its own scheme, re-creates one of the other
      scheme from its rows when the conversion works, and bootstraps one otherwise; every other pod
      joins unless it has a cluster file. */
  function SetupResult(i: nat, scheme: Scheme, f: DbFile, ok: bool, cid: nat): DbFile {
    match f
    case Clustered(_, was, d) =>
      if i == 0 && ok && was != scheme then Clustered(cid, scheme, d) else f
    case Standalone(d) => if i == 0 then Clustered(cid, scheme, d) else Joining(scheme)
    case Joining(_) => f
    case _ => if i == 0 then Clustered(cid, scheme, []) else Joining(scheme)
  }

  /** Run from its first line, whatever a crashed earlier run left in the scratch file, the script
      reaches its end with the file that SetupResult names. */
  lemma SetupMeaning(i: nat, p: Pod, ok: bool, cid: nat)
    requires p.phase == Setup(TestEmpty)
    requires if i == 0 then !p.file.Joining? else !p.file.Standalone?
    ensures SetupRun(i, p, ok, cid).phase == Serving
    ensures SetupRun(i, p, ok, cid).scheme == p.scheme
    ensures SetupRun(i, p, ok, cid).file == SetupResult(i, p.scheme, p.file, ok, cid)
  {
    var a := SetupStep(i, p, ok, cid);
    var b := if a.phase == Setup(RemoveEmpty) then SetupStep(i, a, ok, cid) else a;
    SetupAdvances(i, p, ok, cid);
    SetupAdvances(i, a, ok, cid);
    SetupFromProtocol(i, b, ok, cid);
    assert SetupRun(i, p, ok, cid) == SetupRun(i, a, ok, cid) == SetupRun(i, b, ok, cid);
  }

  lemma SetupFromProtocol(i: nat, p: Pod, ok: bool, cid: nat)
    requires p.phase == Setup(TestProtocol) && LineFacts(i, p)
    requires if i == 0 then !p.file.Joining? else !p.file.Standalone?
    ensures SetupRun(i, p, ok, cid).phase == Serving
    ensures SetupRun(i, p, ok, cid).scheme == p.scheme
    ensures SetupRun(i, p, ok, cid).file == SetupResult(i, p.scheme, p.file, ok, cid)
  {
    SetupAdvances(i, p, ok, cid);
    var q := SetupStep(i, p, ok, cid);
    if q.phase == Setup(RemoveScratch) {
      var r := SetupStep(i, q, ok, cid);
      var t := SetupStep(i, r, ok, cid);
      var u := SetupStep(i, t, ok, cid);
      SetupAdvances(i, q, ok, cid);
      SetupAdvances(i, r, ok, cid);
      SetupAdvances(i, t, ok, cid);
      SetupAdvances(i, u, ok, cid);
      var v := SetupStep(i, u, ok, cid);
      assert SetupRun(i, u, ok, cid) == SetupRun(i, v, ok, cid);
      assert SetupRun(i, q, ok, cid) == SetupRun(i, r, ok, cid);
      assert SetupRun(i, r, ok, cid) == SetupRun(i, t, ok, cid);
      assert SetupRun(i, t, ok, cid) == SetupRun(i, u, ok, cid);
      SetupFromLaunch(i, v, ok, cid);
    } else {
      SetupFromLaunch(i, q, ok, cid);
    }
  }

  lemma SetupFromLaunch(i: nat, p: Pod, ok: bool, cid: nat)
    requires p.phase == Setup(Launch) && LineFacts(i, p)
    requires if i == 0 then !p.file.Joining? else !p.file.Standalone?
    ensures SetupRun(i, p, ok, cid).phase == Serving
    ensures SetupRun(i, p, ok, cid).scheme == p.scheme
    ensures SetupRun(i, p, ok, cid).file
         == if p.file.OfCluster() then p.file
            else if i != 0 then Joining(p.scheme)
            else Clustered(cid, p.scheme, if p.file.Standalone? then p.file.data else [])
  {
    SetupAdvances(i, p, ok, cid);
    var q := SetupStep(i, p, ok, cid);
    assert SetupRun(i, p, ok, cid) == SetupRun(i, q, ok, cid);
    if q.phase.Setup? {
      SetupAdvances(i, q, ok, cid);
      var r := SetupStep(i, q, ok, cid);
      assert SetupRun(i, q, ok, cid) == SetupRun(i, r, ok, cid);
      if r.phase.Setup? {
        SetupAdvances(i, r, ok, cid);
        assert SetupRun(i, r, ok, cid) == SetupStep(i, r, ok, cid);
      }
    }
  }

  lemma LastLineIgnoresCid(i: nat, p: Pod, ok: bool, c: nat, d: nat)
    requires p.phase == Setup(SetConnection) && LineFacts(i, p)
    ensures SetupRun(i, p, ok, c) == p.(phase := Serving) == SetupRun(i, p, ok, d)
  {
    SetupAdvances(i, p, ok, c);
    SetupAdvances(i, p, ok, d);
  }

  /** Conversions work, or no higher pod minds that they fail. */
  ghost predicate MayFail(s: State, i: nat, ok: bool)
    requires Slot(s, 0)
  {
    ok || i != 0 || HigherAt(s, s.pods[0].scheme)
  }

  lemma OneLine(s: State, i: nat, ok: bool)
    requires Base(s) && Slot(s, i) && s.pods[i].phase.Setup?
    ensures Leads(s, Apply(s, Step(i, ok))) && (MayFail(s, i, ok) ==> Reaches(Guards, s, Apply(s, Step(i, ok))))
    ensures Base(Apply(s, Step(i, ok))) && MayFail(s, i, ok) == MayFail(Apply(s, Step(i, ok)), i, ok)
  {
    LineOnly(s, i, ok);
    LeadsByOne(s, Step(i, ok));
    BaseKept(s, Step(i, ok));
    var u := Apply(s, Step(i, ok));
    if i == 0 {
      assert forall j | 0 < j < |s.pods| :: u.pods[j] == s.pods[j];
      assert HigherAt(s, s.pods[0].scheme) <==> HigherAt(u, s.pods[0].scheme);
    }
    if MayFail(s, i, ok) { ReachesByOne(Guards, s, Step(i, ok)); }
  }

  /** What a line of pod i changes. */
  lemma LineOnly(s: State, i: nat, ok: bool)
    requires Base(s) && Slot(s, i) && s.pods[i].phase.Setup?
    ensures var t := Apply(s, Step(i, ok));
      t.pods == s.pods[i := SetupStep(i, s.pods[i], ok, s.nextCid)] && t.pods[i].scheme == s.pods[i].scheme
      && t.current == s.current && t.target == s.target
    ensures var t := Apply(s, Step(i, ok));
      t.listen == if i == 0 && s.pods[0].phase.line.SetConnection? then Some(s.pods[0].scheme)
                  else if i == 0 && s.pods[0].phase.line.Fill? then None else s.listen
    ensures Apply(s, Step(i, ok)).nextCid != s.nextCid ==>
      i == 0 && (s.pods[0].phase.line.Launch? || s.pods[0].phase.line.Fill?)
  {
  }

  /** Once a new cluster is made only the last line is left. */
  lemma SameResult(s: State, i: nat, ok: bool)
    requires Base(s) && Slot(s, i) && s.pods[i].phase.Setup? && PodOk(s, i, s.pods[i])
    requires Apply(s, Step(i, ok)).pods[i].phase.Setup?
    ensures var u := Apply(s, Step(i, ok));
      SetupRun(i, s.pods[i], ok, s.nextCid) == SetupRun(i, u.pods[i], ok, u.nextCid)
  {
    var u := Apply(s, Step(i, ok));
    LineOnly(s, i, ok);
    SetupAdvances(i, s.pods[i], ok, s.nextCid);
    if u.nextCid != s.nextCid { LastLineIgnoresCid(i, u.pods[i], ok, s.nextCid, u.nextCid); }
  }

  /** The lines of one pod's setup.sh, taken in a row, are a run in order, and a guarded one. */
  lemma {:induction false} SetupLeads(s: State, i: nat, ok: bool) returns (t: State)
    requires Base(s) && Slot(s, i) && s.pods[i].phase.Setup?
    requires PodOk(s, i, s.pods[i])
    ensures Leads(s, t) && Base(t) && (MayFail(s, i, ok) ==> Reaches(Guards, s, t))
    ensures t.pods == s.pods[i := SetupRun(i, s.pods[i], ok, s.nextCid)]
    ensures t.current == s.current && t.target == s.target
    ensures t.listen == if i == 0 then Some(s.pods[0].scheme) else s.listen
    decreases if s.pods[i].phase.Setup? then Rank(s.pods[i].phase.line) else 0
  {
    SetupAdvances(i, s.pods[i], ok, s.nextCid);
    OneLine(s, i, ok);
    LineOnly(s, i, ok);
    var u := Apply(s, Step(i, ok));
    if u.pods[i].phase.Setup? {
      assert PodOk(u, i, u.pods[i]);
      SameResult(s, i, ok);
      t := SetupLeads(u, i, ok);
      LeadsOn(s, u, t);
      if MayFail(s, i, ok) { ReachesOn(Guards, s, u, t); }
    } else {
      t := u;
    }
  }

  /** From its first line, setup.sh leads pod i to Serving with the file of SetupResult. */
  lemma SetupServes(s: State, i: nat, ok: bool) returns (t: State)
    requires Base(s) && Slot(s, i) && s.pods[i].phase == Setup(TestEmpty)
    ensures Leads(s, t) && Base(t) && |t.pods| == |s.pods| && (MayFail(s, i, ok) ==> Reaches(Guards, s, t))
    ensures t.pods[i].phase == Serving && t.pods[i].scheme == s.pods[i].scheme
    ensures t.pods[i].file == SetupResult(i, s.pods[i].scheme, s.pods[i].file, ok, s.nextCid)
    ensures OnlyPod(s, t, i)
    ensures t.listen == if i == 0 then Some(s.pods[0].scheme) else s.listen
  {
    assert PodOk(s, i, s.pods[i]);
    t := SetupLeads(s, i, ok);
    SetupMeaning(i, s.pods[i], ok, s.nextCid);
  }

  /** t differs from s in slot i (and what pod -0 keeps for the cluster) only. */
  predicate OnlyPod(s: State, t: State, i: nat) {
    && |t.pods| == |s.pods| && t.current == s.current && t.target == s.target
    && forall j | 0 <= j < |s.pods| && j != i :: t.pods[j] == s.pods[j]
  }

  /** cleanup.sh, with a `cluster/leave` that is accepted, to its end: a higher pod's file is gone,
      pod -0's is kept. */
  lemma {:induction false} HookLeads(s: State, i: nat) returns (t: State)
    requires Base(s) && Slot(s, i) && s.pods[i].phase.Hook?
    ensures Leads(s, t) && Base(t) && OnlyPod(s, t, i) && t.listen == s.listen
    ensures t.pods[i] == s.pods[i].(phase := Gone, file := if i == 0 then s.pods[i].file else Absent)
    decreases if s.pods[i].phase.Hook? then HookRank(s.pods[i].phase.hook) else 0
  {
    assert PodOk(s, i, s.pods[i]);
    var e := Step(i, true);
    BaseKept(s, e);
    LeadsByOne(s, e);
    t := Apply(s, e);
    if t.pods[i].phase.Hook? {
      var u := t;
      t := HookLeads(u, i);
      LeadsOn(s, u, t);
    }
  }

  function HookRank(h: HookLine): nat {
    match h
    case AskLeave => 3
    case AwaitLeft => 2
    case RemoveDb => 1
    case StopServer => 0
  }
}
