/** A rolling TLS flip never gets stuck. */
module RaftRoll {
  import opened Options
  import opened RaftMachine
  import opened RaftSafety
  import opened RaftRules
  import opened RaftDiscipline
  import opened RaftRuns

  /** pod -0 serves a cluster of its own revision's scheme and its database port is configured. */
  predicate ZeroServes(s: State) {
    && 0 < |s.pods| && s.pods[0].phase == Serving
    && s.pods[0].file.Clustered? && s.pods[0].file.scheme == s.pods[0].scheme
    && s.listen == Some(s.pods[0].scheme)
  }

  /** setup.sh went past a conversion that failed: pod -0 starts or serves the cluster of the other
      scheme, and nothing in the scripts tries again. */
  predicate Unconverted(s: State)
    requires Slot(s, 0)
  {
    var p := s.pods[0];
    && p.file.Clustered? && p.file.scheme != p.scheme
    && (p.phase == Serving || p.phase == Setup(Launch) || p.phase == Setup(SetConnection))
  }

  /** From any of its lines, with commands that work, setup.sh brings pod -0's database to the
      scheme of the pod, unless it is past the conversion already. */
  lemma {:induction false} SetupConverts(p: Pod, cid: nat)
    requires p.phase.Setup? && LineFacts(0, p) && !p.file.Joining?
    requires p.phase == Setup(Launch) || p.phase == Setup(SetConnection) ==>
      (p.file.Clustered? ==> p.file.scheme == p.scheme)
    ensures var q := SetupRun(0, p, true, cid);
      q.phase == Serving && q.scheme == p.scheme && q.file.Clustered? && q.file.scheme == p.scheme
    decreases Rank(p.phase.line)
  {
    SetupAdvances(0, p, true, cid);
    var q := SetupStep(0, p, true, cid);
    if q.phase.Setup? { SetupConverts(q, cid); }
  }

  /** pod -0 can be brought to serving a cluster of its own scheme. */
  lemma BringZeroUp(s: State) returns (t: State)
    requires Inv(s) && !Unconverted(s)
    ensures Leads(s, t) && Inv(t) && OnlyPod(s, t, 0) && ZeroServes(t)
  {
    var a := s;
    LeadsSelf(s);
    assert PodOk(s, 0, s.pods[0]);
    if s.pods[0].phase.Hook? {
      a := HookLeads(s, 0);
      LeadsKeepsInv(s, a);
    }
    if a.pods[0].phase.Gone? {
      a := CreateZero(s, a);
    }
    t := a;
    if a.pods[0].phase.Setup? {
      assert PodOk(a, 0, a.pods[0]);
      SetupConverts(a.pods[0], a.nextCid);
      t := SetupLeads(a, 0, true);
      LeadsOn(s, a, t);
      LeadsKeepsInv(s, t);
    }
  }

  /** The controller creates pod -0: at the update revision if it is the last, else as it was. */
  lemma CreateZero(s: State, a: State) returns (b: State)
    requires Inv(s) && Leads(s, a) && Inv(a) && OnlyPod(s, a, 0) && a.pods[0].phase.Gone?
    ensures Leads(s, b) && Inv(b) && OnlyPod(s, b, 0) && b.listen == a.listen
    ensures b.pods[0] == a.pods[0].(phase := Setup(TestEmpty),
      scheme := if HigherAt(a, a.target) then a.target else a.current)
  {
    var e := Create(0, if HigherAt(a, a.target) then a.target else a.current);
    LeadsOneMore(s, a, e);
    b := Apply(a, e);
    LeadsKeepsInv(s, b);
  }

  /** Slot i holds no pod, or one of the update revision that passes its readiness probe. */
  predicate Updated(s: State, i: nat)
    requires Slot(s, 0) && Slot(s, i)
  {
    s.pods[i].phase.Gone? || (s.pods[i].scheme == s.target && Ready(s, i))
  }

  ghost predicate UpdatedAbove(s: State, i: nat)
    requires Slot(s, 0)
  {
    forall j | i < j < |s.pods| :: Updated(s, j)
  }

  lemma RollAllowed(s: State, i: nat)
    requires Slot(s, 0) && Slot(s, i) && s.pods[i].Up() && s.pods[i].scheme != s.target && UpdatedAbove(s, i)
    ensures Enabled(s, Roll(i)) && Allowed(s, Roll(i))
  {
    forall j | i < j < |s.pods| ensures s.pods[j].phase.Gone? || (s.pods[j].scheme == s.target && Ready(s, j)) {
      assert Updated(s, j);
    }
  }

  lemma UpdatedAboveFramed(s: State, t: State, i: nat)
    requires Slot(s, 0) && 0 < i && Slot(s, i) && OnlyPod(s, t, i) && t.listen == s.listen && UpdatedAbove(s, i)
    ensures UpdatedAbove(t, i)
  {
    forall j | i < j < |t.pods| ensures Updated(t, j) {
      assert Updated(s, j) && t.pods[j] == s.pods[j] && t.pods[0] == s.pods[0];
    }
  }

  /** A starting pod gets to serving. */
  lemma FinishSetup(s: State, i: nat) returns (t: State)
    requires Inv(s) && 0 < i && Slot(s, i) && (s.pods[i].phase.Setup? || s.pods[i].phase.Serving?)
    ensures Leads(s, t) && Inv(t) && OnlyPod(s, t, i) && t.listen == s.listen
    ensures t.pods[i].phase == Serving && t.pods[i].scheme == s.pods[i].scheme && t.pods[i].file.OfCluster()
  {
    t := s;
    LeadsSelf(s);
    assert PodOk(s, i, s.pods[i]);
    if s.pods[i].phase.Setup? {
      SetupEnds(i, s.pods[i], true, s.nextCid);
      t := SetupLeads(s, i, true);
      LeadsKeepsInv(s, t);
    }
    assert PodOk(t, i, t.pods[i]);
  }

  /** A serving pod of the update revision is ready as a member, or as a joiner that is accepted
      because pod -0 still has the other scheme, or joins. */
  lemma GetReady(s: State, i: nat) returns (t: State)
    requires Inv(s) && ZeroServes(s) && 0 < i && Slot(s, i)
    requires s.pods[i].phase == Serving && s.pods[i].scheme == s.target && s.pods[i].file.OfCluster()
    ensures Leads(s, t) && Inv(t) && OnlyPod(s, t, i) && t.listen == s.listen
    ensures !t.pods[i].phase.Gone? && Updated(t, i)
  {
    t := s;
    LeadsSelf(s);
    if s.pods[i].file.Joining? && !Mismatch(s, s.pods[i].scheme) {
      LeadsByOne(s, Join(i));
      t := Apply(s, Join(i));
      LeadsKeepsInv(s, t);
    }
  }

  /** The rolling update takes pod i: it can stop it, start it at the update revision and find it
      ready, with every higher pod ready throughout. */
  lemma UpdatePod(s: State, i: nat) returns (t: State)
    requires Inv(s) && ZeroServes(s) && 0 < i && Slot(s, i)
    requires !s.pods[i].phase.Gone? && UpdatedAbove(s, i)
    ensures Leads(s, t) && Inv(t) && OnlyPod(s, t, i) && t.listen == s.listen
    ensures !t.pods[i].phase.Gone? && Updated(t, i) && UpdatedAbove(t, i)
  {
    var a := s;
    LeadsSelf(s);
    if s.pods[i].phase.Hook? || s.pods[i].scheme != s.target { a := Replace(s, i); }
    var b := FinishSetup(a, i);
    LeadsOn(s, a, b);
    t := GetReady(b, i);
    LeadsOn(s, b, t);
    UpdatedAboveFramed(s, t, i);
  }

  /** The old pod's hook and the creation of the new one. */
  lemma Replace(s: State, i: nat) returns (a: State)
    requires Inv(s) && 0 < i && Slot(s, i) && UpdatedAbove(s, i)
    requires s.pods[i].phase.Hook? || (!s.pods[i].phase.Gone? && s.pods[i].scheme != s.target)
    ensures Leads(s, a) && Inv(a) && OnlyPod(s, a, i) && a.listen == s.listen
    ensures a.pods[i].phase == Setup(TestEmpty) && a.pods[i].scheme == s.target
  {
    var b := s;
    LeadsSelf(s);
    if !s.pods[i].phase.Hook? {
      var c := FinishSetup(s, i);
      UpdatedAboveFramed(s, c, i);
      RollAllowed(c, i);
      LeadsOneMore(s, c, Roll(i));
      b := Apply(c, Roll(i));
      LeadsKeepsInv(s, b);
    }
    var d := HookLeads(b, i);
    LeadsOn(s, b, d);
    LeadsOneMore(s, d, Create(i, d.target));
    a := Apply(d, Create(i, d.target));
    LeadsKeepsInv(s, a);
  }

  /** Down the ordinals: the pods k-1, ..., 1 are updated one after the other. */
  lemma {:induction false} UpdateBelow(s: State, k: nat) returns (t: State)
    requires Inv(s) && ZeroServes(s) && 0 < k <= |s.pods| && UpdatedAbove(s, k - 1)
    ensures Leads(s, t) && Inv(t) && ZeroServes(t) && t.pods[0] == s.pods[0]
    ensures t.current == s.current && t.target == s.target && |t.pods| == |s.pods|
    ensures UpdatedAbove(t, 0)
    ensures forall j | 0 < j < |s.pods| :: t.pods[j].phase.Gone? <==> s.pods[j].phase.Gone?
    decreases k
  {
    if k == 1 {
      t := s;
      LeadsSelf(s);
    } else {
      var i := k - 1;
      var u := s;
      LeadsSelf(s);
      if !s.pods[i].phase.Gone? { u := UpdatePod(s, i); }
      assert UpdatedAbove(u, i - 1) by {
        forall j | i - 1 < j < |u.pods| ensures Updated(u, j) { }
      }
      t := UpdateBelow(u, i);
      LeadsOn(s, u, t);
    }
  }

  /** pod -0 is last; its conversion re-creates the cluster at the update revision's scheme. */
  lemma UpdateZero(s: State) returns (t: State)
    requires Inv(s) && ZeroServes(s) && UpdatedAbove(s, 0)
    ensures Leads(s, t) && Inv(t) && ZeroServes(t) && OnlyPod(s, t, 0) && t.pods[0].scheme == s.target
  {
    if s.pods[0].scheme == s.target {
      t := s;
      LeadsSelf(s);
    } else {
      RollAllowed(s, 0);
      LeadsByOne(s, Roll(0));
      var a := Apply(s, Roll(0));
      LeadsKeepsInv(s, a);
      var b := HookLeads(a, 0);
      LeadsOn(s, a, b);
      LeadsKeepsInv(s, b);
      assert HigherAt(b, b.target) by {
        forall i | 0 < i < |b.pods| ensures b.pods[i].phase.Gone? || b.pods[i].scheme == b.target {
          assert Updated(s, i);
        }
      }
      var c := CreateZero(s, b);
      assert PodOk(c, 0, c.pods[0]);
      SetupConverts(c.pods[0], c.nextCid);
      t := SetupLeads(c, 0, true);
      LeadsOn(s, c, t);
      LeadsKeepsInv(s, t);
    }
  }

  predicate Member(s: State, i: nat)
    requires Slot(s, i)
  {
    s.pods[i].phase.Gone? || (s.pods[i].Up() && s.pods[i].file.Clustered?)
  }

  /** The waiting joiners are accepted by the re-created cluster. */
  lemma {:induction false} JoinBelow(s: State, k: nat) returns (t: State)
    requires Inv(s) && ZeroServes(s) && s.pods[0].scheme == s.target && 0 < k <= |s.pods|
    requires forall i | 0 < i < |s.pods| ::
      s.pods[i].phase.Gone? || (s.pods[i].Up() && s.pods[i].scheme == s.target && s.pods[i].file.OfCluster())
    requires forall i | k <= i < |s.pods| :: Member(s, i)
    ensures Leads(s, t) && Inv(t) && t.pods[0] == s.pods[0] && t.target == s.target && |t.pods| == |s.pods|
    ensures forall i | 0 < i < |s.pods| ::
      Member(t, i) && t.pods[i].scheme == s.pods[i].scheme && t.pods[i].phase == s.pods[i].phase
    decreases k
  {
    if k == 1 {
      t := s;
      LeadsSelf(s);
    } else {
      var i := k - 1;
      var u := s;
      LeadsSelf(s);
      if !s.pods[i].phase.Gone? && s.pods[i].file.Joining? {
        LeadsByOne(s, Join(i));
        u := Apply(s, Join(i));
        LeadsKeepsInv(s, u);
      }
      forall j | i <= j < |u.pods| ensures Member(u, j) {
        assert j > i ==> Member(s, j);
      }
      t := JoinBelow(u, i);
      LeadsOn(s, u, t);
    }
  }

  /** The pods of s (and pod -0) run in t, all of s's update revision, ready, and members of one
      cluster of that revision's scheme. */
  ghost predicate FlipDone(s: State, t: State) {
    && 0 < |s.pods| && |t.pods| == |s.pods|
    && (forall i | 0 < i < |s.pods| :: t.pods[i].phase.Gone? <==> s.pods[i].phase.Gone?)
    && forall i | 0 <= i < |s.pods| && (i == 0 || !s.pods[i].phase.Gone?) :: UpdatedMember(s, t, i)
  }

  predicate UpdatedMember(s: State, t: State, i: nat)
    requires Slot(t, 0) && Slot(t, i)
  {
    && t.pods[i].scheme == s.target && Ready(t, i)
    && SameCluster(t.pods[0].file, t.pods[i].file) && t.pods[i].file.scheme == s.target
  }

  lemma FlipCanComplete(s: State) returns (t: State)
    requires Inv(s) && !Unconverted(s)
    ensures Leads(s, t) && FlipDone(s, t)
  {
    var a := BringZeroUp(s);
    var b := UpdateBelow(a, |a.pods|);
    LeadsOn(s, a, b);
    var c := UpdateZero(b);
    LeadsOn(s, b, c);
    forall i | 0 < i < |c.pods|
      ensures c.pods[i].phase.Gone? || (c.pods[i].Up() && c.pods[i].scheme == c.target && c.pods[i].file.OfCluster())
    {
      assert Updated(b, i);
    }
    t := JoinBelow(c, |c.pods|);
    LeadsOn(s, c, t);
    forall i | 0 <= i < |s.pods| && (i == 0 || !s.pods[i].phase.Gone?) ensures UpdatedMember(s, t, i) {
      if i != 0 { assert Updated(b, i) && Member(t, i); }
    }
  }

  lemma {:induction false} UnconvertedStays(s: State, evs: seq<Event>)
    requires Inv(s) && Unconverted(s) && Follows(Order, s, evs)
    requires AllOfItself(evs)
    ensures Runs(s, evs) && Inv(Exec(s, evs)) && Unconverted(Exec(s, evs))
    decreases |evs|
  {
    if evs != [] {
      assert OfItself(evs[0]);
      assert PodOk(s, 0, s.pods[0]);
      InvKept(s, evs[0]);
      UnconvertedStays(Apply(s, evs[0]), evs[1..]);
    }
  }

  /** A rolling flip never gets stuck, unless a conversion failed.  From every state that meets the
      invariant, so from every one that a run in order reaches, for any number of pods, in either direction, and with pods at any line of any
      script, rolling deletions that wait for readiness can lead to the same pods being updated
      members of one cluster, exactly when pod -0 is not past a failed conversion; if it is, nothing
      short of a restart of pod -0 or another flip gets it further. */
  lemma FlipCompletesIff(s: State)
    requires Inv(s)
    ensures (exists t :: Leads(s, t) && FlipDone(s, t)) <==> !Unconverted(s)
  {
    if Unconverted(s) {
      forall t | Leads(s, t) ensures !FlipDone(s, t) {
        var evs :| RunsTo(Order, s, evs, t) && AllOfItself(evs);
        UnconvertedStays(s, evs);
        assert FlipDone(s, t) ==> UpdatedMember(s, t, 0);
      }
    } else {
      var t := FlipCanComplete(s);
    }
  }
}
