/** No split brain, under the guards alone. */
module RaftGuards {
  import opened RaftMachine
  import opened RaftSafety
  import opened RaftRules

  /** A higher pod's cluster file was made by the revision the pod runs, and goes with the pod. */
  ghost predicate OwnScheme(s: State) {
    forall i | 0 < i < |s.pods| && s.pods[i].file.OfCluster() ::
      !s.pods[i].phase.Gone? && s.pods[i].file.scheme == s.pods[i].scheme
  }

  /** While pod -0 runs over a cluster of another scheme no higher pod is a member of it, and once the
      conversion has failed none can become one. */
  ghost predicate Alone(s: State)
    requires Slot(s, 0)
  {
    OffScheme(s) ==> !HigherMember(s) && (Converting(s) || HigherAt(s, s.pods[0].scheme))
  }

  ghost predicate GuardInv(s: State) { Base(s) && Unity(s) && OwnScheme(s) && Alone(s) }

  lemma FreshGuardInv(s: State)
    requires Fresh(s)
    ensures GuardInv(s)
  {
  }

  lemma NoSplitStep(s: State, e: Event)
    requires GuardInv(s) && Enabled(s, e)
    ensures !Splits(s, e)
  {
    if s.pods[0].phase == Setup(Move) { assert PodOk(s, 0, s.pods[0]); }
  }

  lemma OwnSchemeKept(s: State, e: Event)
    requires Base(s) && OwnScheme(s) && Unity(s) && Enabled(s, e) && Guarded(s, e)
    ensures OwnScheme(Apply(s, e))
  {
    var t := Apply(s, e);
    forall i | 0 < i < |t.pods| && t.pods[i].file.OfCluster()
      ensures !t.pods[i].phase.Gone? && t.pods[i].file.scheme == t.pods[i].scheme
    {
      assert PodOk(s, i, s.pods[i]);
    }
  }

  /** Higher pods all of one scheme, above a cluster of the other, are no members. */
  lemma OtherSchemeNoMember(s: State, x: Scheme)
    requires Unity(s) && OwnScheme(s) && HigherAt(s, x)
    requires s.pods[0].file.Clustered? && s.pods[0].file.scheme != x
    ensures !HigherMember(s)
  {
    forall i | 0 < i < |s.pods| ensures !s.pods[i].file.Clustered? {
      assert s.pods[i].file.Clustered? ==> SameCluster(s.pods[0].file, s.pods[i].file);
    }
  }

  /** What becomes of pod -0 by its own steps. */
  lemma ZeroStepKeepsAlone(s: State, ok: bool)
    requires GuardInv(s) && Enabled(s, Step(0, ok)) && Guarded(s, Step(0, ok))
    ensures Alone(Apply(s, Step(0, ok)))
  {
    var t := Apply(s, Step(0, ok));
    assert PodOk(s, 0, s.pods[0]);
    assert forall i | 0 < i < |s.pods| :: t.pods[i] == s.pods[i];
    if OffScheme(t) {
      assert OffScheme(s);
      assert HigherMember(t) ==> HigherMember(s);
      assert !Converting(t) ==> HigherAt(s, s.pods[0].scheme);
    }
  }

  lemma HigherStepKeepsAlone(s: State, i: nat, ok: bool)
    requires GuardInv(s) && 0 < i && Enabled(s, Step(i, ok))
    ensures Alone(Apply(s, Step(i, ok)))
  {
    var t := Apply(s, Step(i, ok));
    assert PodOk(s, i, s.pods[i]);
    assert t.pods[0] == s.pods[0];
    if OffScheme(t) {
      forall j | 0 < j < |t.pods| ensures !t.pods[j].file.Clustered? {
        assert !s.pods[j].file.Clustered?;
      }
    }
  }

  lemma CreateKeepsAlone(s: State, i: nat, x: Scheme)
    requires GuardInv(s) && Enabled(s, Create(i, x)) && Guarded(s, Create(i, x))
    ensures Alone(Apply(s, Create(i, x)))
  {
    var t := Apply(s, Create(i, x));
    assert forall j | 0 <= j < |s.pods| :: t.pods[j].file == s.pods[j].file;
    if OffScheme(t) {
      assert HigherMember(t) ==> HigherMember(s);
      if i == 0 { OtherSchemeNoMember(s, x); }
    }
  }

  /** The joining server's scheme is pod -0's revision's, not the cluster's. */
  lemma JoinKeepsAlone(s: State, i: nat)
    requires GuardInv(s) && Enabled(s, Join(i))
    ensures !OffScheme(s) && Alone(Apply(s, Join(i)))
  {
    assert PodOk(s, 0, s.pods[0]);
  }

  lemma AloneKept(s: State, e: Event)
    requires GuardInv(s) && Enabled(s, e) && Guarded(s, e)
    ensures Alone(Apply(s, e))
  {
    match e {
      case Step(i, ok) => if i == 0 { ZeroStepKeepsAlone(s, ok); } else { HigherStepKeepsAlone(s, i, ok); }
      case Create(i, x) => CreateKeepsAlone(s, i, x);
      case Join(i) => JoinKeepsAlone(s, i);
      case Crash(i) => CrashKeepsAlone(s, i);
      case Flip(_) => assert Apply(s, e).pods == s.pods;
      case Commit(_) => CommitKeepsAlone(s, e);
      case _ => MoveKeepsAlone(s, e);
    }
  }

  lemma CrashKeepsAlone(s: State, i: nat)
    requires GuardInv(s) && Enabled(s, Crash(i))
    ensures Alone(Apply(s, Crash(i)))
  {
    var t := Apply(s, Crash(i));
    assert forall j | 0 <= j < |s.pods| :: t.pods[j].file == s.pods[j].file && t.pods[j].scheme == s.pods[j].scheme;
    if OffScheme(t) { assert HigherMember(t) ==> HigherMember(s); }
  }

  lemma CommitKeepsAlone(s: State, e: Event)
    requires GuardInv(s) && Enabled(s, e) && e.Commit?
    ensures Alone(Apply(s, e))
  {
    var t := Apply(s, e);
    assert forall j | 0 < j < |s.pods| :: t.pods[j] == s.pods[j];
    if OffScheme(t) { assert HigherMember(t) ==> HigherMember(s); }
  }

  lemma MoveKeepsAlone(s: State, e: Event)
    requires GuardInv(s) && Enabled(s, e) && (e.Terminate? || e.Roll? || e.Kill?)
    ensures Alone(Apply(s, e))
  {
    var t := Apply(s, e);
    assert forall j | 0 <= j < |s.pods| :: t.pods[j].file == s.pods[j].file && t.pods[j].scheme == s.pods[j].scheme;
    if OffScheme(t) { assert HigherMember(t) ==> HigherMember(s); }
  }

  lemma GuardInvKept(s: State, e: Event)
    requires GuardInv(s) && Enabled(s, e) && Guarded(s, e)
    ensures GuardInv(Apply(s, e)) && |Apply(s, e).pods| == |s.pods|
  {
    BaseKept(s, e);
    NoSplitStep(s, e);
    UnityKeptIff(s, e);
    OwnSchemeKept(s, e);
    AloneKept(s, e);
  }

  lemma {:induction false} GuardInvKeptByRuns(s: State, evs: seq<Event>)
    requires GuardInv(s) && Follows(Guards, s, evs)
    ensures Runs(s, evs) && GuardInv(Exec(s, evs))
    decreases |evs|
  {
    if evs != [] {
      GuardInvKept(s, evs[0]);
      GuardInvKeptByRuns(Apply(s, evs[0]), evs[1..]);
    }
  }

  /** No split brain: from empty volumes, with scale-ups, graceful scale-downs (also to zero), crashes,
      flips and rolls at any time and in any order, conversions that fail as far as the guards admit
      it, and no other promise than the guards, a higher pod that is a member has pod -0's cluster id, pod -0's scheme and its own
      revision's scheme. */
  lemma NoSplitBrain(s: State, evs: seq<Event>, i: nat)
    requires Fresh(s) && Follows(Guards, s, evs)
    requires 0 < i < |s.pods|
    ensures Runs(s, evs)
    ensures var t := Exec(s, evs);
      t.pods[i].file.Clustered? ==>
        SameCluster(t.pods[0].file, t.pods[i].file) && t.pods[i].scheme == t.pods[0].file.scheme
  {
    FreshGuardInv(s);
    GuardInvKeptByRuns(s, evs);
  }

  /** What the probe means: a ready pod is a member, or a higher joiner whose template is tcp or that
      found pod -0 serving tcp.  So with target ssl, once pod -0 stops serving tcp, ready implies
      member; with target tcp the probe cannot tell. */
  lemma ReadyImpliesMember(s: State, i: nat)
    requires GuardInv(s) && Slot(s, i) && Ready(s, i)
    requires s.pods[i].scheme == Ssl && !ServesTcp(s)
    ensures SameCluster(s.pods[0].file, s.pods[i].file)
    ensures 0 < i ==> s.pods[0].file.scheme == Ssl
  {
    assert PodOk(s, i, s.pods[i]);
    if i != 0 { assert SameCluster(s.pods[0].file, s.pods[i].file); }
  }

  /** So it is in every guarded run. */
  lemma ReadyImpliesMemberInRuns(s: State, evs: seq<Event>, i: nat)
    requires Fresh(s) && Follows(Guards, s, evs) && Slot(s, i)
    ensures Runs(s, evs)
    ensures var t := Exec(s, evs);
      Ready(t, i) && t.pods[i].scheme == Ssl && !ServesTcp(t) ==> SameCluster(t.pods[0].file, t.pods[i].file)
  {
    FreshGuardInv(s);
    GuardInvKeptByRuns(s, evs);
    var t := Exec(s, evs);
    if Ready(t, i) && t.pods[i].scheme == Ssl && !ServesTcp(t) { ReadyImpliesMember(t, i); }
  }

  /* ---------- without failed conversions ---------- */

  /** No conversion fails, leaves are accepted, and pod -0 is created at the scheme of its database or
      of all higher pods; higher pods come at any scheme. */
  ghost predicate Faultless(s: State, e: Event)
    requires Slot(s, 0) && Enabled(s, e)
  {
    match e
    case Create(i, x) => i == 0 ==> FileAt(s, x) || HigherAt(s, x)
    case Step(i, ok) => ok || (s.pods[i].phase != Hook(AskLeave) && !AtConversion(s, i))
    case Kill(i) => i == 0 || !s.pods[i].file.OfCluster()
    case _ => true
  }

  ghost predicate FaultlessRun(s: State, evs: seq<Event>)
    requires Slot(s, 0)
    decreases |evs|
  {
    evs != [] ==> Enabled(s, evs[0]) && Faultless(s, evs[0]) && FaultlessRun(Apply(s, evs[0]), evs[1..])
  }

  lemma FaultlessStep(s: State, e: Event)
    requires Base(s) && (OffScheme(s) ==> Converting(s)) && Enabled(s, e) && Faultless(s, e)
    ensures Guarded(s, e) && (OffScheme(Apply(s, e)) ==> Converting(Apply(s, e)))
  {
    assert PodOk(s, 0, s.pods[0]);
  }

  /** When no conversion fails the rest of the guards is met of itself: flips, rolls and creations of
      higher pods at any scheme, at any time, never split the cluster. */
  lemma {:induction false} FaultlessIsGuarded(s: State, evs: seq<Event>)
    requires Base(s) && (OffScheme(s) ==> Converting(s)) && FaultlessRun(s, evs)
    ensures Follows(Guards, s, evs)
    decreases |evs|
  {
    if evs != [] {
      BaseKept(s, evs[0]);
      FaultlessStep(s, evs[0]);
      FaultlessIsGuarded(Apply(s, evs[0]), evs[1..]);
    }
  }
}
