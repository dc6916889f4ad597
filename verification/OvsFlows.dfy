/** The flow backup over runs: what is saved is what is restored, once. */
module OvsFlows {
  import opened OvsMachine

  /** No SIGKILL strikes between the evaluation of a saved script and its removal; what ends there by
      a failing command runs the EXIT trap. */
  predicate Covered(s: State, e: Event) {
    e.KillVswitchd? && s.host.script.Some? ==> s.v != VAt(DropScript) && s.v != VAt(TrapRmScript)
  }

  ghost predicate CoveredRun(s: State, evs: seq<Event>)
    requires Runs(s, evs)
    decreases |evs|
  {
    evs != [] ==> Covered(s, evs[0]) && CoveredRun(Apply(s, evs[0]), evs[1..])
  }

  predicate Distinct(xs: seq<nat>) { forall i, j | 0 <= i < j < |xs| :: xs[i] != xs[j] }

  predicate Below(xs: seq<nat>, n: nat) { forall i | 0 <= i < |xs| :: xs[i] < n }

  /** The backup holds what is owed. */
  predicate Kept(s: State) {
    s.past.owed.Some? ==> s.host.script.Some? && s.host.script.value.flows == s.past.owed.value
  }

  /** vswitchd holds what is owed. */
  predicate Installed(s: State) { s.past.owed.Some? ==> s.host.installed == s.past.owed.value }

  /** What the position of vswitchd's script says about the backup. */
  predicate LineFacts(s: State) {
    match s.v
    case VUp => s.host.script.None? && !s.host.dir && !s.host.flag && s.past.owed.None?
    case VDown => Kept(s)
    case VAt(l) =>
      match l {
        case RmScript => s.past.owed.None?
        case RmDir => s.past.owed.None? && s.host.script.None?
        case ListBridges => s.past.owed.None? && s.host.script.None? && !s.host.dir
        case MkDir => s.past.owed.None? && s.host.script.None? && !s.host.dir
        case OpenScript => s.past.owed.None? && s.host.script.None? && s.host.dir
        case SaveFlows => s.past.owed.None? && s.host.script.Some? && s.host.dir
        case Touch => Kept(s) && s.past.owed.Some?
        case StopVswitchd => Kept(s) && s.past.owed.Some?
        case WaitForDb => Kept(s)
        case EncapIp => Kept(s)
        case SetFlag => Kept(s)
        case StartVswitchd => Kept(s) && s.host.flag
        case TestScript => Kept(s) && s.host.flag
        case Eval => Kept(s) && s.host.flag && s.host.script.Some?
        case TrapRmScript => s.past.owed.None? && s.host.flag
        case TrapRmDir => s.past.owed.None? && s.host.flag && s.host.script.None?
        case DropScript => Installed(s) && s.host.flag
        case DropDir => Installed(s) && s.host.flag && s.host.script.None?
        case ClearFlag => Installed(s) && s.host.flag && s.host.script.None? && !s.host.dir
      }
  }

  /** A script that was evaluated is about to be removed. */
  predicate BackupFresh(s: State) {
    s.host.script.Some? ==>
      && s.host.script.value.id < s.past.nextId
      && (s.host.script.value.id in s.past.evaluated ==> s.v == VAt(DropScript) || s.v == VAt(TrapRmScript))
  }

  predicate LogInv(s: State) {
    Distinct(s.past.evaluated) && Below(s.past.evaluated, s.past.nextId) && BackupFresh(s)
  }

  predicate LineInv(s: State) {
    LineFacts(s) && (s.terminating ==> s.v.VDown? || Stopping(s.v))
  }

  predicate FlowInv(s: State) { LogInv(s) && LineInv(s) }

  lemma FreshFlowInv(s: State)
    requires Fresh(s)
    ensures FlowInv(s)
  {
  }

  lemma StopLineFactsKept(s: State, ok: bool)
    requires LineInv(s) && Stopping(s.v)
    ensures LineFacts(VStep(s, ok))
  {
  }

  lemma StartLineFactsKept(s: State, ok: bool)
    requires LineInv(s) && Starting(s.v)
    ensures LineFacts(VStep(s, ok))
  {
  }

  lemma TerminatingKept(s: State, ok: bool)
    requires LineInv(s) && s.v.VAt? && VStep(s, ok).terminating
    ensures VStep(s, ok).v.VDown? || Stopping(VStep(s, ok).v)
  {
  }

  lemma LineKeepsLineInv(s: State, ok: bool)
    requires LineInv(s) && s.v.VAt?
    ensures LineInv(VStep(s, ok))
  {
    if Stopping(s.v) { StopLineFactsKept(s, ok); } else { StartLineFactsKept(s, ok); }
    if VStep(s, ok).terminating { TerminatingKept(s, ok); }
  }

  /** A move of vswitchd's container that is not a line of its script leaves the backup as it is. */
  lemma MoveKeepsLineInv(s: State, v: VPhase, o: OPhase, terminating: bool, saved: bool)
    requires LineInv(s)
    requires
      || (v == s.v && terminating == s.terminating)
      || (v == VAt(RmScript) && s.v.VUp?)
      || (v == VDown && s.terminating)
      || (v == VAt(WaitForDb) && s.v.VDown? && !terminating)
    ensures LineInv(State(s.host, v, o, terminating, s.past.(saved := saved)))
  {
    assert LineFacts(State(s.host, v, o, terminating, s.past.(saved := saved)));
  }

  lemma KillKeepsLineInv(s: State)
    requires LineInv(s) && Enabled(s, KillVswitchd)
    ensures LineInv(Apply(s, KillVswitchd))
  {
  }

  lemma DbKeepsLineInv(s: State)
    requires LineInv(s) && s.o.OAt?
    ensures LineInv(OStep(s))
  {
    var t := OStep(s);
    assert t == State(s.host.(semaphore := t.host.semaphore), s.v, t.o, s.terminating, s.past);
    assert LineFacts(t);
  }

  lemma ChangeKeepsLineInv(s: State, f: Flows)
    requires LineInv(s) && VswitchdRuns(s.v) && !s.host.flag
    ensures LineInv(s.(host := s.host.(installed := f)))
  {
  }

  /** Every event keeps what the backup, the flag and the flows owe each other. */
  lemma LineInvKept(s: State, e: Event)
    requires LineInv(s) && Enabled(s, e)
    ensures LineInv(Apply(s, e))
  {
    var t := Apply(s, e);
    match e {
      case V(ok) => LineKeepsLineInv(s, ok);
      case O => DbKeepsLineInv(s);
      case Change(f) => ChangeKeepsLineInv(s, f);
      case KillVswitchd => KillKeepsLineInv(s);
      case _ => MoveKeepsLineInv(s, t.v, t.o, t.terminating, t.past.saved);
    }
  }

  lemma LogKept(s: State, ok: bool)
    requires FlowInv(s) && s.v.VAt?
    ensures LogInv(VStep(s, ok))
  {
    var t := VStep(s, ok);
    if s.v == VAt(Eval) {
      var id := s.host.script.value.id;
      assert id !in s.past.evaluated;
      assert t.past.evaluated == s.past.evaluated + [id];
    } else {
      assert t.past.evaluated == s.past.evaluated;
    }
  }

  lemma OthersKeepLog(s: State, e: Event)
    requires FlowInv(s) && Enabled(s, e) && !e.V? && Covered(s, e)
    ensures LogInv(Apply(s, e))
  {
  }

  lemma FlowInvKept(s: State, e: Event)
    requires FlowInv(s) && Enabled(s, e) && Covered(s, e)
    ensures FlowInv(Apply(s, e))
  {
    LineInvKept(s, e);
    if e.V? { LogKept(s, e.ok); } else { OthersKeepLog(s, e); }
  }

  lemma {:induction false} LineInvKeptByRuns(s: State, evs: seq<Event>)
    requires LineInv(s) && Runs(s, evs)
    ensures LineInv(Exec(s, evs))
    decreases |evs|
  {
    if evs != [] {
      LineInvKept(s, evs[0]);
      LineInvKeptByRuns(Apply(s, evs[0]), evs[1..]);
    }
  }

  lemma {:induction false} FlowInvKeptByRuns(s: State, evs: seq<Event>)
    requires FlowInv(s) && Runs(s, evs) && CoveredRun(s, evs)
    ensures FlowInv(Exec(s, evs))
    decreases |evs|
  {
    if evs != [] {
      FlowInvKept(s, evs[0]);
      FlowInvKeptByRuns(Apply(s, evs[0]), evs[1..]);
    }
  }

  /** No stale restore.  Over every run of the pod, whatever commands fail and whatever containers are
      restarted, stopped alone or killed at any line: a script is evaluated only while
      flow-restore-wait is set; once vswitchd is up the flag is gone and so is every backup; and mkdir
      in the stop hook cannot fail.  When besides no SIGKILL strikes between an evaluation and the
      removal of its script, no saved script is evaluated twice. */
  lemma NoStaleRestore(s: State, evs: seq<Event>)
    requires Fresh(s) && Runs(s, evs)
    ensures var t := Exec(s, evs);
      && (t.v == VAt(Eval) ==> t.host.flag && t.host.script.Some?)
      && (t.v.VUp? ==> !t.host.flag && t.host.script.None? && !t.host.dir)
      && (t.v == VAt(MkDir) ==> !t.host.dir)
    ensures var t := Exec(s, evs);
      CoveredRun(s, evs) ==>
        Distinct(t.past.evaluated) && (t.v == VAt(Eval) ==> t.host.script.value.id !in t.past.evaluated)
  {
    FreshFlowInv(s);
    LineInvKeptByRuns(s, evs);
    if CoveredRun(s, evs) { FlowInvKeptByRuns(s, evs); }
  }

  /* ---------- the round trip ---------- */

  /** No evaluation fails, vswitchd's container is not killed once it has evaluated, and its script
      does not get past removing the flag. */
  predicate KeepsDebt(s: State, e: Event) {
    match e
    case V(ok) => s.v != VAt(ClearFlag) && (s.v == VAt(Eval) ==> ok)
    case KillVswitchd => KeepsBackup(s.v)
    case _ => true
  }

  ghost predicate DebtKeeping(s: State, evs: seq<Event>)
    requires Runs(s, evs)
    decreases |evs|
  {
    evs != [] ==> KeepsDebt(s, evs[0]) && DebtKeeping(Apply(s, evs[0]), evs[1..])
  }

  lemma DebtKept(s: State, e: Event)
    requires LineInv(s) && Enabled(s, e) && KeepsDebt(s, e) && s.past.owed.Some?
    ensures Apply(s, e).past.owed == s.past.owed
  {
  }

  lemma {:induction false} DebtKeptByRuns(s: State, evs: seq<Event>)
    requires LineInv(s) && Runs(s, evs) && DebtKeeping(s, evs) && s.past.owed.Some?
    ensures LineInv(Exec(s, evs)) && Exec(s, evs).past.owed == s.past.owed
    decreases |evs|
  {
    if evs != [] {
      LineInvKept(s, evs[0]);
      DebtKept(s, evs[0]);
      DebtKeptByRuns(Apply(s, evs[0]), evs[1..]);
    }
  }

  /** Flow round trip.  Take the moment the stop hook saves the flows.  However the rest of the two
      hooks and the start scripts interleave, whatever ovn-controller does to the dying vswitchd,
      whatever start commands fail and are repeated before the restore, and however often the pod, or
      vswitchd before it evaluates, is killed and started: when flow-restore-wait is removed, the
      installed flows are those that were installed when they were saved. */
  lemma FlowRoundTrip(s: State, evs: seq<Event>)
    requires LineInv(s) && s.v == VAt(SaveFlows) && Enabled(s, V(true))
    requires Runs(Apply(s, V(true)), evs) && DebtKeeping(Apply(s, V(true)), evs)
    requires var t := Exec(Apply(s, V(true)), evs); t.v == VAt(ClearFlag) && Enabled(t, V(true))
    ensures var u := Apply(Exec(Apply(s, V(true)), evs), V(true));
      u.host.installed == s.host.installed && u.v.VUp? && !u.host.flag && u.host.script.None?
  {
    LineInvKept(s, V(true));
    DebtKeptByRuns(Apply(s, V(true)), evs);
  }

  /** SIGKILL between the evaluation and the removal is what the traps cannot cover: the same script
      is evaluated again. */
  lemma KillEvaluatesTwice(s: State)
    requires FlowInv(s) && s.v == VAt(Eval) && DbRuns(s) && !s.terminating
    ensures Runs(s, [V(true), KillVswitchd] + VLines(6))
    ensures !Distinct(Exec(s, [V(true), KillVswitchd] + VLines(6)).past.evaluated)
  {
    KilledAfterEval(s);
    var b := Exec(s, [V(true), KillVswitchd]);
    StartEvaluates(b);
    RunOn(s, [V(true), KillVswitchd], VLines(6));
    var n, id := |s.past.evaluated|, s.host.script.value.id;
    assert Exec(b, VLines(6)).past.evaluated[n] == id == Exec(b, VLines(6)).past.evaluated[n + 1];
  }

  lemma KilledAfterEval(s: State)
    requires FlowInv(s) && s.v == VAt(Eval) && DbRuns(s) && !s.terminating
    ensures s.host.script.Some? && Runs(s, [V(true), KillVswitchd])
    ensures var b := Exec(s, [V(true), KillVswitchd]);
      b.v == VAt(WaitForDb) && DbRuns(b) && b.host.script == s.host.script
      && b.past.evaluated == s.past.evaluated + [s.host.script.value.id]
  {
    var evs := [V(true), KillVswitchd];
    assert evs[1..] == [KillVswitchd] && evs[1..][1..] == [];
    assert Runs(Apply(s, V(true)), evs[1..]);
  }

  lemma StartEvaluates(s: State)
    requires s.v == VAt(WaitForDb) && DbRuns(s) && s.host.script.Some?
    ensures Runs(s, VLines(6)) && Exec(s, VLines(6)).past.evaluated == s.past.evaluated + [s.host.script.value.id]
  {
    StartReachesEval(s);
    var t := Exec(s, VLines(5));
    OneMore(t, 1);
    RunOn(s, VLines(5), VLines(1));
    assert VLines(5) + VLines(1) == VLines(6);
  }

  lemma StartReachesEval(s: State)
    requires s.v == VAt(WaitForDb) && DbRuns(s) && s.host.script.Some?
    ensures Runs(s, VLines(5))
    ensures var t := Exec(s, VLines(5)); t.v == VAt(Eval) && t.host.script == s.host.script && t.past == s.past
  {
    var s1 := VStep(s, true);
    var s2 := VStep(s1, true);
    var s3 := VStep(s2, true);
    var s4 := VStep(s3, true);
    OneMore(s4, 1);
    OneMore(s3, 2);
    OneMore(s2, 3);
    OneMore(s1, 4);
    OneMore(s, 5);
  }
}
