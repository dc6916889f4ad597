/** A graceful stop of the OVS pod always gets to its end. */
module OvsProgress {
  import opened OvsMachine
  import opened OvsSafety
  import opened OvsFlows

  function LinesLeft(l: VLine): nat {
    match l
    case RmScript => 8
    case RmDir => 7
    case ListBridges => 6
    case MkDir => 5
    case OpenScript => 4
    case SaveFlows => 3
    case Touch => 2
    case StopVswitchd => 1
    case _ => 0
  }

  /** From every point of every interleaving, vswitchd's hook can run to its end with commands that
      succeed: the database it needs is up until it has saved. */
  lemma {:induction false} VHookCompletes(s: State, n: nat)
    requires SemaphoreInv(s) && LineInv(s) && Stopping(s.v) && n == LinesLeft(s.v.line)
    ensures Runs(s, VLines(n))
    ensures var t := Exec(s, VLines(n));
      SemaphoreInv(t) && t.terminating && t.v.VDown? && t.past.saved && t.past.owed.Some? && t.o == s.o
      && (t.host.semaphore || PastWait(t.o) || t.o.ODown?)
    decreases n
  {
    var u := VStep(s, true);
    SemaphoreInvKept(s, V(true));
    LineInvKept(s, V(true));
    if n > 1 {
      VHookCompletes(u, n - 1);
    } else {
      assert VLines(0) == [];
    }
    OneMore(s, n);
  }

  /** Then ovsdb-server's hook can. */
  lemma OHookCompletes(s: State) returns (evs: seq<Event>)
    requires s.terminating && (s.o == OAt(WaitSemaphore) || PastWait(s.o) || s.o.ODown?)
    requires s.o == OAt(WaitSemaphore) ==> s.host.semaphore
    ensures Runs(s, evs) && Exec(s, evs).o.ODown? && Exec(s, evs).v == s.v && Exec(s, evs).past == s.past
    ensures HookEvents(evs)
    decreases if s.o.ODown? then 0 else if s.o == OAt(StopOvsdb) then 1 else if s.o == OAt(Consume) then 2 else 3
  {
    if s.o.ODown? {
      evs := [];
    } else {
      var rest := OHookCompletes(OStep(s));
      evs := [O] + rest;
      assert evs[1..] == rest;
    }
  }

  /** While vswitchd's hook is at work both can run to their ends, from every point of every
      interleaving: with the save done, and its flows owed to the next start. */
  lemma GracefulStopCompletes(s: State) returns (evs: seq<Event>)
    requires SemaphoreInv(s) && LineInv(s) && Stopping(s.v)
    ensures BothEnd(s, evs) && Exec(s, evs).past.saved && Exec(s, evs).past.owed.Some?
  {
    var n := LinesLeft(s.v.line);
    VHookCompletes(s, n);
    var rest := OHookCompletes(Exec(s, VLines(n)));
    RunOn(s, VLines(n), rest);
    evs := VLines(n) + rest;
    VLinesAreHookEvents(n);
  }

  /** Lines of the two hooks that end both. */
  ghost predicate BothEnd(s: State, evs: seq<Event>) {
    Runs(s, evs) && HookEvents(evs) && Exec(s, evs).v.VDown? && Exec(s, evs).o.ODown?
  }

  /** vswitchd's hook is over without a semaphore, and ovsdb-server's waits for one. */
  predicate Hanging(s: State) { s.v.VDown? && !s.host.semaphore && s.o == OAt(WaitSemaphore) }

  lemma {:induction false} HangingStays(s: State, evs: seq<Event>)
    requires Hanging(s) && Runs(s, evs) && HookEvents(evs)
    ensures Hanging(Exec(s, evs))
    decreases |evs|
  {
    if evs != [] {
      assert evs[0] == O && Apply(s, O) == s;
      assert HookEvents(evs[1..]) by { assert forall k | 0 <= k < |evs| - 1 :: evs[1..][k] == evs[k + 1]; }
      HangingStays(s, evs[1..]);
    }
  }

  /** Of a terminating pod both hooks can end exactly when vswitchd's is still at work, or has raised
      the semaphore, or ovsdb-server's has passed it: only a hook of vswitchd that ended early leaves
      the other to wait for the end of the grace period. */
  lemma GracefulStopCompletesIff(s: State)
    requires SemaphoreInv(s) && LineInv(s) && s.terminating
    ensures (exists evs :: BothEnd(s, evs)) <==> Stopping(s.v) || s.host.semaphore || s.o != OAt(WaitSemaphore)
  {
    if Hanging(s) {
      forall evs | BothEnd(s, evs) ensures false { HangingStays(s, evs); }
    } else if Stopping(s.v) {
      var evs := GracefulStopCompletes(s);
    } else {
      var evs := OHookCompletes(s);
      assert BothEnd(s, evs);
    }
  }

  /** A command of stop-vswitchd.sh that fails before the semaphore is raised does that, under set -e. */
  lemma FailedSaveHangs(s: State)
    requires SemaphoreInv(s) && LineInv(s) && s.terminating && (s.v == VAt(ListBridges) || s.v == VAt(SaveFlows))
    ensures Enabled(s, V(false)) && forall evs :: !BothEnd(Apply(s, V(false)), evs)
  {
    SemaphoreInvKept(s, V(false));
    LineInvKept(s, V(false));
    assert Hanging(Apply(s, V(false)));
    GracefulStopCompletesIff(Apply(s, V(false)));
  }

  lemma {:induction false} VLinesAreHookEvents(n: nat)
    ensures HookEvents(VLines(n))
  {
    if n > 0 { VLinesAreHookEvents(n - 1); }
  }
}
