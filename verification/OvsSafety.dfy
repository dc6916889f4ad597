/** What the OVS scripts guarantee over runs. */
module OvsSafety {
  import opened Options
  import opened OvsMachine

  /* ---------- ovsdb-server stops after the flows are saved ---------- */

  /** No vswitchd container is stopped on its own. */
  predicate PodLevel(e: Event) { !e.RestartVswitchd? }

  predicate AllPodLevel(evs: seq<Event>) { forall k | 0 <= k < |evs| :: PodLevel(evs[k]) }

  /** The hook of vswitchd has finished saving. */
  predicate SaveDone(v: VPhase) { v.VAt? && (v.line.Touch? || v.line.StopVswitchd?) }

  predicate PastWait(o: OPhase) { o == OAt(Consume) || o == OAt(StopOvsdb) }

  /** The semaphore is up only between the end of this termination's save and its consumption. */
  predicate SemaphoreInv(s: State) {
    && (s.host.semaphore ==> (s.terminating && s.past.saved) || s.o == OAt(ClearSemaphore))
    && (PastWait(s.o) ==> s.terminating && s.past.saved)
    && (Stopping(s.v) ==> s.terminating && (s.past.saved <==> SaveDone(s.v)) && (!s.past.saved ==> s.o == OAt(WaitSemaphore)))
    && (s.v == VAt(StopVswitchd) ==> s.host.semaphore || PastWait(s.o) || s.o.ODown?)
    && (s.terminating ==> (s.v.VDown? || Stopping(s.v)) && (s.o.ODown? || s.o == OAt(WaitSemaphore) || PastWait(s.o)))
  }

  lemma SemaphoreInvKept(s: State, e: Event)
    requires SemaphoreInv(s) && Enabled(s, e) && PodLevel(e)
    ensures SemaphoreInv(Apply(s, e))
  {
    match e {
      case V(ok) => if Stopping(s.v) { StopLineKeeps(s, ok); } else { StartLineKeeps(s, ok); }
      case O =>
      case Change(_) =>
      case Terminate => assert Apply(s, e).v == VAt(RmScript) && !SaveDone(VAt(RmScript));
      case Expire =>
      case StartPod =>
      case RestartOvsdb =>
      case HookOvsdb =>
      case GiveUpOvsdb =>
      case KillVswitchd =>
    }
  }

  lemma StartLineKeeps(s: State, ok: bool)
    requires SemaphoreInv(s) && Starting(s.v)
    ensures SemaphoreInv(VStep(s, ok))
  {
    assert !s.terminating && !PastWait(s.o);
    StartLineStays(s, ok);
  }

  lemma StartLineStays(s: State, ok: bool)
    requires Starting(s.v)
    ensures var t := VStep(s, ok);
      && !Stopping(t.v) && !t.v.VDown?
      && t.host.semaphore == s.host.semaphore && t.terminating == s.terminating && t.past.saved == s.past.saved && t.o == s.o
  {
    match s.v.line {
      case WaitForDb => case EncapIp => case SetFlag => case StartVswitchd => case TestScript =>
      case Eval => case TrapRmScript => case TrapRmDir => case DropScript => case DropDir => case ClearFlag =>
    }
  }

  lemma StopLineKeeps(s: State, ok: bool)
    requires SemaphoreInv(s) && Stopping(s.v)
    ensures SemaphoreInv(VStep(s, ok))
  {
    match s.v.line case _ =>
  }

  lemma {:induction false} SemaphoreInvKeptByRuns(s: State, evs: seq<Event>)
    requires SemaphoreInv(s) && Runs(s, evs) && AllPodLevel(evs)
    ensures SemaphoreInv(Exec(s, evs))
    decreases |evs|
  {
    if evs != [] {
      assert PodLevel(evs[0]);
      SemaphoreInvKept(s, evs[0]);
      assert AllPodLevel(evs[1..]) by { assert forall k | 0 <= k < |evs| - 1 :: evs[1..][k] == evs[k + 1]; }
      SemaphoreInvKeptByRuns(Apply(s, evs[0]), evs[1..]);
    }
  }

  /** Over every run of starts, crashes, failing commands, expired grace periods and pod-level
      terminations, under every interleaving of the scripts: ovsdb-server is stopped by its hook only
      when this termination's save-flows has finished, and while the save is pending the database it
      needs is up. */
  lemma DbStopsAfterSave(s: State, evs: seq<Event>)
    requires Fresh(s) && !s.terminating && Runs(s, evs) && AllPodLevel(evs)
    ensures var t := Exec(s, evs);
      && (t.o == OAt(StopOvsdb) ==> t.terminating && t.past.saved)
      && (Stopping(t.v) && !t.past.saved ==> DbRuns(t))
  {
    SemaphoreInvKeptByRuns(s, evs);
  }

  /** The lines of the two hooks, and the flows changing meanwhile. */
  predicate HookEvents(evs: seq<Event>) {
    forall k | 0 <= k < |evs| :: evs[k].V? || evs[k].O? || evs[k].Change?
  }

  ghost predicate SavedBeforeStop(s: State, evs: seq<Event>)
    requires Runs(s, evs)
    decreases |evs|
  {
    && (s.o == OAt(StopOvsdb) ==> s.past.saved)
    && (evs != [] ==> SavedBeforeStop(Apply(s, evs[0]), evs[1..]))
  }

  lemma {:induction false} SavedFromInv(s: State, evs: seq<Event>)
    requires SemaphoreInv(s) && Runs(s, evs) && HookEvents(evs)
    ensures SavedBeforeStop(s, evs)
    decreases |evs|
  {
    if evs != [] {
      SemaphoreInvKept(s, evs[0]);
      assert HookEvents(evs[1..]) by { assert forall k | 0 <= k < |evs| - 1 :: evs[1..][k] == evs[k + 1]; }
      SavedFromInv(Apply(s, evs[0]), evs[1..]);
    }
  }

  /** Exactly when a termination is safe, whatever state the node is in: every interleaving of the two
      hooks stops ovsdb-server after the save if and only if no semaphore was left behind. */
  lemma TerminationSafeIff(s: State)
    requires Enabled(s, Terminate)
    ensures (forall evs | Runs(Apply(s, Terminate), evs) && HookEvents(evs) ::
               SavedBeforeStop(Apply(s, Terminate), evs))
       <==> !s.host.semaphore
  {
    var t := Apply(s, Terminate);
    if s.host.semaphore {
      var evs := [O, O];
      var a := Apply(t, O);
      var b := Apply(a, O);
      assert evs[1..] == [O] && [O][1..] == [];
      assert Runs(b, []) && Runs(a, [O]) && Runs(t, evs);
      assert HookEvents(evs);
      assert b.o == OAt(StopOvsdb) && !b.past.saved;
      assert !SavedBeforeStop(b, []);
      assert !SavedBeforeStop(a, [O]);
      assert !SavedBeforeStop(t, evs);
    } else {
      forall evs | Runs(t, evs) && HookEvents(evs) ensures SavedBeforeStop(t, evs) {
        SavedFromInv(t, evs);
      }
    }
  }

  /** Stopping the vswitchd container alone is what leaves a semaphore behind. */
  lemma LoneVswitchdStopLeavesSemaphore(s: State) returns (t: State)
    requires !s.terminating && s.v.VUp? && s.o.OUp?
    ensures t == StopHook(Apply(s, RestartVswitchd))
    ensures t.host.semaphore && t.o.OUp? && t.v == VAt(WaitForDb)
  {
    t := StopHook(Apply(s, RestartVswitchd));
  }

  /* ---------- whole hooks as runs of their lines ---------- */

  /** stop-vswitchd.sh from its first line, with commands that succeed. */
  function StopHook(s: State): State {
    State(Host(true, Some(Script(s.past.nextId, s.host.installed)), true, s.host.flag, {}),
          VOver(s), s.o, s.terminating,
          Past(Some(s.host.installed), true, s.past.evaluated, s.past.nextId + 1))
  }

  lemma StopHookIsRun(s: State)
    requires s.v == VAt(RmScript) && DbRuns(s)
    ensures Runs(s, VLines(8)) && Exec(s, VLines(8)) == StopHook(s)
  {
    FirstHalf(s);
    SecondHalf(Exec(s, VLines(4)));
    RunOn(s, VLines(4), VLines(4));
    VLinesAdd(4, 4);
  }

  /** Two lines whose commands succeed. */
  lemma TwoLines(s: State)
    requires Enabled(s, V(true)) && Enabled(VStep(s, true), V(true))
    ensures Runs(s, VLines(2)) && Exec(s, VLines(2)) == VStep(VStep(s, true), true)
  {
    OneMore(VStep(s, true), 1);
    OneMore(s, 2);
  }

  lemma FirstHalf(s: State)
    requires s.v == VAt(RmScript) && DbRuns(s)
    ensures Runs(s, VLines(4)) && Exec(s, VLines(4)) == s.(host := s.host.(script := None, dir := true), v := VAt(OpenScript))
  {
    TwoLines(s);
    var t := VStep(VStep(s, true), true);
    assert t == s.(host := s.host.(script := None, dir := false), v := VAt(ListBridges));
    TwoLines(t);
    RunOn(s, VLines(2), VLines(2));
    VLinesAdd(2, 2);
  }

  lemma SecondHalf(s: State)
    requires s.v == VAt(OpenScript) && DbRuns(s)
    ensures Runs(s, VLines(4)) && Exec(s, VLines(4))
      == State(Host(true, Some(Script(s.past.nextId, s.host.installed)), s.host.dir, s.host.flag, {}),
               VOver(s), s.o, s.terminating,
               Past(Some(s.host.installed), true, s.past.evaluated, s.past.nextId + 1))
  {
    TwoLines(s);
    var t := VStep(VStep(s, true), true);
    assert t.host == Host(s.host.semaphore, Some(Script(s.past.nextId, s.host.installed)), s.host.dir, s.host.flag, s.host.installed);
    TwoLines(t);
    RunOn(s, VLines(2), VLines(2));
    VLinesAdd(2, 2);
  }
}
