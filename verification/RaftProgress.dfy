/** A rolling flip comes to its end, whatever order things happen in. */
module RaftProgress {
  import opened Options
  import opened RaftMachine
  import opened RaftSafety
  import opened RaftRules
  import opened RaftDiscipline
  import opened RaftRuns
  import opened RaftRoll

  /* ---------- the equivalence over runs, and a flip that is stuck ---------- */

  /** In every state that a run in the StatefulSet's order reaches from empty volumes, the flip can
      complete exactly when pod -0 is not past a failed conversion. */
  lemma FlipCompletesInRuns(s: State, evs: seq<Event>)
    requires Fresh(s) && Follows(Order, s, evs)
    ensures Runs(s, evs)
    ensures (exists t :: Leads(Exec(s, evs), t) && FlipDone(Exec(s, evs), t)) <==> !Unconverted(Exec(s, evs))
  {
    FreshInv(s);
    InvKeptByRuns(s, evs);
    FlipCompletesIff(Exec(s, evs));
  }

  const EMPTY := State([Pod(Tcp, Gone, Absent, NoScratch)], Tcp, Tcp, None, 0)

  /** pod -0 bootstraps at tcp. */
  lemma Bootstrapped() returns (t: State)
    ensures Fresh(EMPTY) && Reaches(Order, EMPTY, t) && Inv(t) && |t.pods| == 1
    ensures t.pods[0].phase == Serving && t.pods[0].scheme == Tcp && t.pods[0].file == Clustered(0, Tcp, [])
    ensures t.current == Tcp && t.target == Tcp
  {
    FreshInv(EMPTY);
    var e := Create(0, Tcp);
    LeadsByOne(EMPTY, e);
    var c := Apply(EMPTY, e);
    LeadsKeepsInv(EMPTY, c);
    t := SetupServes(c, 0, true);
    LeadsOn(EMPTY, c, t);
    LeadsKeepsInv(EMPTY, t);
    LeadsReaches(EMPTY, t);
  }

  /** The spec is flipped and pod -0 replaced, in order. */
  lemma ReplacedAtSsl(s: State) returns (t: State)
    requires Inv(s) && |s.pods| == 1 && s.current == Tcp && s.target == Tcp
    requires s.pods[0].phase == Serving && s.pods[0].scheme == Tcp && s.pods[0].file == Clustered(0, Tcp, [])
    ensures Reaches(Order, s, t) && |t.pods| == 1 && Base(t) && t.target == Ssl
    ensures t.pods[0].phase == Setup(TestEmpty) && t.pods[0].scheme == Ssl && t.pods[0].file == Clustered(0, Tcp, [])
  {
    assert Settled(s);
    ReachesByOne(Order, s, Flip(Ssl));
    var f := Apply(s, Flip(Ssl));
    ReachesOneMore(Order, s, f, Terminate(0));
    var h := Apply(f, Terminate(0));
    ReachesOneMore(Order, s, h, Step(0, true));
    var z := Apply(h, Step(0, true));
    ReachesOneMore(Order, s, z, Create(0, Ssl));
    t := Apply(z, Create(0, Ssl));
    BaseKept(s, Flip(Ssl));
    BaseKept(f, Terminate(0));
    BaseKept(h, Step(0, true));
    BaseKept(z, Create(0, Ssl));
  }

  /** Such a state is reached from empty volumes in the StatefulSet's order: one pod, one flip and a
      conversion that fails, and the flip is stuck. */
  lemma FlipGetsStuck() returns (t: State)
    ensures Fresh(EMPTY) && Reaches(Order, EMPTY, t) && Inv(t) && Unconverted(t)
    ensures forall u :: !(Leads(t, u) && FlipDone(t, u))
  {
    var s := Bootstrapped();
    var c := ReplacedAtSsl(s);
    ReachesOn(Order, EMPTY, s, c);
    t := SetupServes(c, 0, false);
    LeadsReaches(c, t);
    ReachesOn(Order, EMPTY, c, t);
    var evs :| RunsTo(Order, EMPTY, evs, t);
    InvKeptByRuns(EMPTY, evs);
    FlipCompletesIff(t);
  }

  /* ---------- every run of successful events ends the flip ---------- */

  /** Of the n pods of the StatefulSet those that are gone come back, at the update revision (pod -0,
      while a higher pod is not updated, at the current one); the rolling update goes on; the commands
      of the scripts succeed; joins are accepted. */
  ghost predicate Forward(s: State, e: Event, n: nat)
    requires Slot(s, 0) && Enabled(s, e)
  {
    Allowed(s, e)
    && match e
       case Create(i, x) => i < n && x == if i == 0 && !HigherAt(s, s.target) then s.current else s.target
       case Roll(_) => true
       case Step(_, ok) => ok
       case Join(_) => true
       case _ => false
  }

  ghost predicate ForwardRun(s: State, evs: seq<Event>, n: nat)
    requires Slot(s, 0)
    decreases |evs|
  {
    evs != [] ==> Enabled(s, evs[0]) && Forward(s, evs[0], n) && ForwardRun(Apply(s, evs[0]), evs[1..], n)
  }

  /** How far a pod of the update revision is from serving as a member. */
  function Ahead(p: Pod): nat {
    match p.phase
    case Setup(line) => 4 + Rank(line)
    case Serving => if p.file.Clustered? then 0 else 1
    case Gone => 20
    case Hook(h) => 21 + HookRank(h)
  }

  ghost function PodRank(s: State, i: nat): nat
    requires Slot(s, i)
  {
    var p := s.pods[i];
    if p.phase.Gone? || p.phase.Hook? then Ahead(p) + if i == 0 && !HigherAt(s, s.target) then 30 else 0
    else Ahead(p) + if p.scheme != s.target then 30 else 0
  }

  ghost function Sum(s: State, k: nat): nat
    requires k <= |s.pods|
  {
    if k == 0 then 0 else Sum(s, k - 1) + PodRank(s, k - 1)
  }

  /** What is left to do. */
  ghost function Measure(s: State): nat { Sum(s, |s.pods|) }

  lemma {:induction false} SumFalls(s: State, t: State, i: nat, k: nat)
    requires |t.pods| == |s.pods| && k <= |s.pods| && Slot(s, i)
    requires forall j | 0 <= j < |s.pods| :: PodRank(t, j) <= PodRank(s, j)
    requires PodRank(t, i) < PodRank(s, i)
    ensures Sum(t, k) <= Sum(s, k) && (i < k ==> Sum(t, k) < Sum(s, k))
  {
    if k > 0 { SumFalls(s, t, i, k - 1); }
  }

  /** An event that changes pod i only, and updates no higher pod back. */
  lemma OnePodFalls(s: State, t: State, i: nat)
    requires 0 < |t.pods| == |s.pods| && Slot(s, i) && t.target == s.target
    requires forall j | 0 <= j < |s.pods| && j != i :: t.pods[j] == s.pods[j]
    requires HigherAt(s, s.target) ==> HigherAt(t, s.target)
    requires PodRank(t, i) < PodRank(s, i)
    ensures Measure(t) < Measure(s)
  {
    SumFalls(s, t, i, |s.pods|);
  }

  lemma StepFalls(s: State, i: nat)
    requires Inv(s) && Enabled(s, Step(i, true))
    ensures Measure(Apply(s, Step(i, true))) < Measure(s)
  {
    var t := Apply(s, Step(i, true));
    assert PodOk(s, i, s.pods[i]);
    if s.pods[i].phase.Setup? { SetupAdvances(i, s.pods[i], true, s.nextCid); }
    StepKeepsPod(s, i, true);
    StepKeepsHigher(s, i);
    OnePodFalls(s, t, i);
  }

  lemma StepKeepsHigher(s: State, i: nat)
    requires Base(s) && Enabled(s, Step(i, true))
    ensures HigherAt(s, s.target) ==> HigherAt(Apply(s, Step(i, true)), s.target)
    ensures Apply(s, Step(i, true)).target == s.target && Apply(s, Step(i, true)).pods[i].scheme == s.pods[i].scheme
  {
    var t := Apply(s, Step(i, true));
    assert forall j | 0 <= j < |s.pods| :: t.pods[j].scheme == s.pods[j].scheme && (s.pods[j].phase.Gone? ==> t.pods[j].phase.Gone?);
  }

  lemma CreateFalls(s: State, i: nat, x: Scheme, n: nat)
    requires Inv(s) && Enabled(s, Create(i, x)) && Forward(s, Create(i, x), n)
    ensures Measure(Apply(s, Create(i, x))) < Measure(s)
  {
    var t := Apply(s, Create(i, x));
    assert HigherAt(s, s.target) ==> HigherAt(t, s.target);
    OnePodFalls(s, t, i);
  }

  lemma RollFalls(s: State, i: nat)
    requires Inv(s) && Enabled(s, Roll(i)) && Allowed(s, Roll(i))
    ensures Measure(Apply(s, Roll(i))) < Measure(s)
  {
    var t := Apply(s, Roll(i));
    assert HigherAt(s, s.target) ==> HigherAt(t, s.target);
    if i == 0 { assert HigherAt(s, s.target); }
    OnePodFalls(s, t, i);
  }

  lemma JoinFalls(s: State, i: nat)
    requires Inv(s) && Enabled(s, Join(i))
    ensures Measure(Apply(s, Join(i))) < Measure(s)
  {
    var t := Apply(s, Join(i));
    assert PodOk(s, i, s.pods[i]);
    assert HigherAt(s, s.target) ==> HigherAt(t, s.target);
    OnePodFalls(s, t, i);
  }

  /** Every such event leaves less to do. */
  lemma ForwardFalls(s: State, e: Event, n: nat)
    requires Inv(s) && Enabled(s, e) && Forward(s, e, n)
    ensures Measure(Apply(s, e)) < Measure(s)
  {
    match e {
      case Create(i, x) => CreateFalls(s, i, x, n);
      case Roll(i) => RollFalls(s, i);
      case Step(i, ok) => StepFalls(s, i);
      case Join(i) => JoinFalls(s, i);
    }
  }

  /** And none of them makes a conversion fail. */
  lemma ForwardConverts(s: State, e: Event, n: nat)
    requires Inv(s) && Enabled(s, e) && Forward(s, e, n) && !Unconverted(s)
    ensures !Unconverted(Apply(s, e))
  {
    assert PodOk(s, 0, s.pods[0]);
  }

  /** The n pods of the StatefulSet, and all others that run, are ready members of one cluster of the
      update revision's scheme. */
  ghost predicate AllUpdated(s: State, n: nat) {
    0 < n <= |s.pods|
    && forall i | 0 <= i < |s.pods| :: if s.pods[i].phase.Gone? then n <= i else UpdatedMember(s, s, i)
  }

  ghost predicate GoesOn(s: State, e: Event, n: nat)
    requires Slot(s, 0)
  {
    Enabled(s, e) && Forward(s, e, n)
  }

  ghost predicate AllAtRest(s: State) {
    forall i | 0 <= i < |s.pods| :: s.pods[i].phase.Gone? || s.pods[i].phase.Serving?
  }

  /** A waiting joiner that pod -0's cluster would take. */
  predicate Joinable(s: State, i: nat)
    requires Slot(s, 0) && Slot(s, i)
  {
    && 0 < i && s.pods[i].phase.Serving? && s.pods[i].file.Joining?
    && s.pods[0].file.Clustered? && s.pods[i].file.scheme == s.pods[0].file.scheme
  }

  /** The highest pod that is not updated, at or below k. */
  function Outdated(s: State, k: nat): (i: int)
    requires k < |s.pods|
    ensures -1 <= i <= k
    ensures i >= 0 ==> !s.pods[i].phase.Gone? && s.pods[i].scheme != s.target
    ensures forall j | i < j <= k :: s.pods[j].phase.Gone? || s.pods[j].scheme == s.target
  {
    if !s.pods[k].phase.Gone? && s.pods[k].scheme != s.target then k
    else if k == 0 then -1
    else Outdated(s, k - 1)
  }

  lemma ZeroAtRest(s: State)
    requires Inv(s) && !Unconverted(s) && s.pods[0].phase.Serving?
    ensures ZeroServes(s)
  {
    assert PodOk(s, 0, s.pods[0]);
  }

  /** With pods at rest and nobody to take in, those of the update revision are ready. */
  lemma UpdatedAreReady(s: State, i: nat)
    requires Inv(s) && ZeroServes(s) && Slot(s, i) && s.pods[i].phase.Serving? && s.pods[i].scheme == s.target
    requires !Joinable(s, i)
    ensures Ready(s, i)
  {
    assert PodOk(s, i, s.pods[i]);
  }

  lemma RestIsUpdated(s: State, n: nat)
    requires Inv(s) && ZeroServes(s) && AllAtRest(s) && 0 < n <= |s.pods|
    requires forall i | 0 <= i < |s.pods| :: s.pods[i].phase.Gone? ==> n <= i
    requires forall i | 0 <= i < |s.pods| :: s.pods[i].phase.Gone? || (s.pods[i].scheme == s.target && !Joinable(s, i))
    ensures AllUpdated(s, n)
  {
    forall i | 0 <= i < |s.pods| && !s.pods[i].phase.Gone? ensures UpdatedMember(s, s, i) {
      assert PodOk(s, i, s.pods[i]);
      UpdatedAreReady(s, i);
    }
  }

  /** As long as the flip is not over something can go on. */
  lemma SomethingGoesOn(s: State, n: nat) returns (e: Event)
    requires Inv(s) && !Unconverted(s) && 0 < n <= |s.pods| && !AllUpdated(s, n)
    ensures GoesOn(s, e, n)
  {
    if !AllAtRest(s) {
      var i :| 0 <= i < |s.pods| && !(s.pods[i].phase.Gone? || s.pods[i].phase.Serving?);
      e := Step(i, true);
    } else if s.pods[0].phase.Gone? {
      e := Create(0, if HigherAt(s, s.target) then s.target else s.current);
    } else if i: nat :| i < |s.pods| && s.pods[i].phase.Gone? && i < n {
      e := Create(i, s.target);
    } else {
      ZeroAtRest(s);
      e := RollOrJoin(s, n);
    }
  }

  lemma RollOrJoin(s: State, n: nat) returns (e: Event)
    requires Inv(s) && ZeroServes(s) && AllAtRest(s) && 0 < n <= |s.pods| && !AllUpdated(s, n)
    requires forall i | 0 <= i < |s.pods| :: s.pods[i].phase.Gone? ==> n <= i
    ensures GoesOn(s, e, n)
  {
    if i: nat :| i < |s.pods| && Joinable(s, i) {
      e := Join(i);
    } else {
      var i := Outdated(s, |s.pods| - 1);
      if i < 0 {
        RestIsUpdated(s, n);
      }
      forall j | i < j < |s.pods| ensures s.pods[j].phase.Gone? || (s.pods[j].scheme == s.target && Ready(s, j)) {
        if !s.pods[j].phase.Gone? { UpdatedAreReady(s, j); }
      }
      e := Roll(i);
    }
  }

  /** A rolling flip never gets stuck: from every state of a run in order that is not past a failed
      conversion, every run of successful events, whatever their order, is at most Measure long, and
      one that cannot go on has all pods updated.  So it ends, and it ends well. */
  lemma {:induction false} FlipAlwaysCompletes(s: State, evs: seq<Event>, n: nat)
    requires Inv(s) && !Unconverted(s) && 0 < n <= |s.pods| && ForwardRun(s, evs, n)
    ensures Runs(s, evs) && |evs| + Measure(Exec(s, evs)) <= Measure(s)
    ensures AllUpdated(Exec(s, evs), n) || exists e :: GoesOn(Exec(s, evs), e, n)
    decreases |evs|
  {
    if evs == [] {
      if !AllUpdated(s, n) { var e := SomethingGoesOn(s, n); }
    } else {
      var t := Apply(s, evs[0]);
      InvKept(s, evs[0]);
      ForwardFalls(s, evs[0], n);
      ForwardConverts(s, evs[0], n);
      FlipAlwaysCompletes(t, evs[1..], n);
    }
  }
}
