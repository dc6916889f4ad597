/** Runs in the StatefulSet's order: what they keep, and that they meet the guards. */
module RaftDiscipline {
  import opened RaftMachine
  import opened RaftRules
  import opened RaftGuards

  /** While a higher pod is not updated, neither pod -0 nor its database is. */
  ghost predicate ZeroIsLast(s: State)
    requires Slot(s, 0)
  {
    HigherAt(s, s.target)
    || ((s.pods[0].phase.Gone? || s.pods[0].scheme != s.target)
        && (s.pods[0].file.Clustered? ==> s.pods[0].file.scheme != s.target))
  }

  /** pod -0's database waits for a conversion only towards the update revision. */
  predicate ConvertsForward(s: State)
    requires Slot(s, 0)
  {
    OffScheme(s) ==> s.pods[0].scheme == s.target
  }

  ghost predicate KnownRevisions(s: State) {
    forall i | 0 <= i < |s.pods| ::
      s.pods[i].phase.Gone? || s.pods[i].scheme == s.current || s.pods[i].scheme == s.target
  }

  ghost predicate Inv(s: State) {
    GuardInv(s) && ZeroIsLast(s) && ConvertsForward(s) && KnownRevisions(s)
  }

  lemma FreshInv(s: State)
    requires Fresh(s)
    ensures Inv(s)
  {
    FreshGuardInv(s);
  }

  /** The order of a StatefulSet meets every guard.  How pods are rolled has no part in it: what
      counts is the revision at which they are created. */
  lemma OrderIsGuarded(s: State, e: Event)
    requires Inv(s) && Enabled(s, e) && Allowed(s, e)
    ensures Guarded(s, e)
  {
    assert PodOk(s, 0, s.pods[0]);
  }

  /* ---------- the order is kept ---------- */

  /** Pods and revisions stay as they are, except that some pods may be gone. */
  predicate Quiet(e: Event) { !e.Flip? && !e.Create? && !(e.Step? && e.i == 0) }

  predicate SameRevision(p: Pod, q: Pod) { q.scheme == p.scheme && (p.phase.Gone? ==> q.phase.Gone?) }

  lemma QuietKeepsRevisions(s: State, e: Event)
    requires Base(s) && Enabled(s, e) && Quiet(e)
    ensures var t := Apply(s, e);
      |t.pods| == |s.pods| && t.current == s.current && t.target == s.target
      && (s.pods[0].phase.Gone? ==> t.pods[0].phase.Gone?)
      && (s.pods[0].file.Clustered? <==> t.pods[0].file.Clustered?)
      && (s.pods[0].file.Clustered? ==> t.pods[0].file.scheme == s.pods[0].file.scheme)
    ensures forall i | 0 <= i < |s.pods| :: SameRevision(s.pods[i], Apply(s, e).pods[i])
  {
  }

  lemma ZeroStepMeans(s: State, ok: bool)
    requires Base(s) && Enabled(s, Step(0, ok))
    ensures var t := Apply(s, Step(0, ok));
      |t.pods| == |s.pods| && t.current == s.current && t.target == s.target
      && (forall i | 0 < i < |s.pods| :: t.pods[i] == s.pods[i])
      && t.pods[0].scheme == s.pods[0].scheme
      && (t.pods[0].file.Clustered? && t.pods[0].file.scheme != s.pods[0].scheme ==>
        s.pods[0].file.Clustered? && t.pods[0].file.scheme == s.pods[0].file.scheme)
  {
    assert PodOk(s, 0, s.pods[0]);
  }

  lemma QuietKeepsOrder(s: State, e: Event)
    requires Inv(s) && Enabled(s, e) && Quiet(e)
    ensures ZeroIsLast(Apply(s, e)) && ConvertsForward(Apply(s, e)) && KnownRevisions(Apply(s, e))
  {
    QuietKeepsRevisions(s, e);
  }

  lemma ZeroStepKeepsOrder(s: State, ok: bool)
    requires Inv(s) && Enabled(s, Step(0, ok))
    ensures ZeroIsLast(Apply(s, Step(0, ok))) && ConvertsForward(Apply(s, Step(0, ok)))
    ensures KnownRevisions(Apply(s, Step(0, ok)))
  {
    ZeroStepMeans(s, ok);
  }

  lemma CreateKeepsOrder(s: State, i: nat, x: Scheme)
    requires Inv(s) && Enabled(s, Create(i, x)) && Allowed(s, Create(i, x))
    ensures ZeroIsLast(Apply(s, Create(i, x))) && ConvertsForward(Apply(s, Create(i, x)))
    ensures KnownRevisions(Apply(s, Create(i, x)))
  {
    if i == 0 { CreateZeroKeepsLast(s, x); } else { CreateHigherKeepsLast(s, i, x); }
  }

  lemma CreateZeroKeepsLast(s: State, x: Scheme)
    requires Inv(s) && Enabled(s, Create(0, x)) && Allowed(s, Create(0, x))
    ensures ZeroIsLast(Apply(s, Create(0, x))) && ConvertsForward(Apply(s, Create(0, x)))
  {
    assert HigherAt(s, s.target) ==> HigherAt(Apply(s, Create(0, x)), s.target);
  }

  lemma CreateHigherKeepsLast(s: State, i: nat, x: Scheme)
    requires Inv(s) && 0 < i && Enabled(s, Create(i, x)) && Allowed(s, Create(i, x))
    ensures ZeroIsLast(Apply(s, Create(i, x))) && ConvertsForward(Apply(s, Create(i, x)))
  {
    if x == s.target { assert HigherAt(s, s.target) ==> HigherAt(Apply(s, Create(i, x)), s.target); }
  }

  lemma FlipKeepsOrder(s: State, x: Scheme)
    requires Inv(s) && Settled(s)
    ensures ZeroIsLast(Apply(s, Flip(x))) && ConvertsForward(Apply(s, Flip(x))) && KnownRevisions(Apply(s, Flip(x)))
  {
    var t := Apply(s, Flip(x));
    if !HigherAt(t, x) {
      var i :| 0 < i < |t.pods| && !(t.pods[i].phase.Gone? || t.pods[i].scheme == x);
      assert s.pods[i].scheme == s.target && FileAt(s, s.target);
    }
  }

  lemma OrderKept(s: State, e: Event)
    requires Inv(s) && Enabled(s, e) && Allowed(s, e)
    ensures ZeroIsLast(Apply(s, e)) && ConvertsForward(Apply(s, e)) && KnownRevisions(Apply(s, e))
  {
    if e.Flip? { FlipKeepsOrder(s, e.to); }
    else if e.Create? { CreateKeepsOrder(s, e.i, e.scheme); }
    else if e.Step? && e.i == 0 { ZeroStepKeepsOrder(s, e.ok); }
    else { QuietKeepsOrder(s, e); }
  }

  lemma InvKept(s: State, e: Event)
    requires Inv(s) && Enabled(s, e) && Allowed(s, e)
    ensures Inv(Apply(s, e)) && |Apply(s, e).pods| == |s.pods|
  {
    OrderIsGuarded(s, e);
    GuardInvKept(s, e);
    OrderKept(s, e);
  }

  lemma {:induction false} InvKeptByRuns(s: State, evs: seq<Event>)
    requires Inv(s) && Follows(Order, s, evs)
    ensures Runs(s, evs) && Inv(Exec(s, evs))
    decreases |evs|
  {
    if evs != [] {
      InvKept(s, evs[0]);
      InvKeptByRuns(Apply(s, evs[0]), evs[1..]);
    }
  }

  /** So NoSplitBrain is about every run in the StatefulSet's order. */
  lemma {:induction false} OrderedRunsAreGuarded(s: State, evs: seq<Event>)
    requires Inv(s) && Follows(Order, s, evs)
    ensures Follows(Guards, s, evs)
    decreases |evs|
  {
    if evs != [] {
      OrderIsGuarded(s, evs[0]);
      InvKept(s, evs[0]);
      OrderedRunsAreGuarded(Apply(s, evs[0]), evs[1..]);
    }
  }
}
