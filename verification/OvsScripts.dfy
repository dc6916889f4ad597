/** The four OVS scripts as each container runs them, on the files they share, tied to the runs of
    the line machine. */
module OvsScripts {
  import opened Options
  import opened OvsMachine
  import opened OvsSafety

  /** A machine state with these shared files, at a line of vswitchd's script. */
  function At(h: Host, l: VLine, id: nat): State {
    State(h, VAt(l), OUp, false, Past(None, false, [], id))
  }

  /** start-vswitchd.sh from its first line, with commands that succeed. */
  function StartResult(h: Host): Host {
    Host(h.semaphore, None, false, false, if h.script.Some? then h.script.value.flows else {})
  }

  lemma StartIsRun(h: Host, id: nat)
    ensures var n := if h.script.Some? then 9 else 8;
      var s := At(h, WaitForDb, id);
      Runs(s, VLines(n)) && Exec(s, VLines(n)).v.VUp? && Exec(s, VLines(n)).host == StartResult(h)
  {
    var s, n := At(h, WaitForDb, id), if h.script.Some? then 5 else 4;
    ReachTest(h, id);
    FromTest(h.(flag := true, installed := {}), id);
    RunOn(s, VLines(4), VLines(n));
    VLinesAdd(4, n);
  }

  lemma FromTest(h: Host, id: nat)
    requires h.installed == {}
    ensures var n := if h.script.Some? then 5 else 4;
      var s := At(h, TestScript, id);
      Runs(s, VLines(n)) && Exec(s, VLines(n)).v.VUp? && Exec(s, VLines(n)).host == StartResult(h)
  {
    var s := At(h, TestScript, id);
    var b := VStep(s, true);
    if h.script.Some? {
      EvalAndEnd(b);
      OneMore(s, 5);
    } else {
      EndOfStart(b);
      OneMore(s, 4);
    }
  }

  lemma EvalAndEnd(s: State)
    requires s.v == VAt(Eval) && DbRuns(s) && s.host.script.Some? && s.host.installed == {}
    ensures Runs(s, VLines(4)) && Exec(s, VLines(4)).v.VUp?
    ensures Exec(s, VLines(4)).host == Host(s.host.semaphore, None, false, false, s.host.script.value.flows)
  {
    EndOfStart(VStep(s, true));
    OneMore(s, 4);
  }

  lemma ReachTest(h: Host, id: nat)
    ensures Runs(At(h, WaitForDb, id), VLines(4))
    ensures Exec(At(h, WaitForDb, id), VLines(4)) == At(h.(flag := true, installed := {}), TestScript, id)
  {
    var s := At(h, WaitForDb, id);
    var s1 := VStep(s, true);
    var s2 := VStep(s1, true);
    var s3 := VStep(s2, true);
    OneMore(s3, 1);
    OneMore(s2, 2);
    OneMore(s1, 3);
    OneMore(s, 4);
  }

  lemma EndOfStart(s: State)
    requires s.v == VAt(DropScript) && DbRuns(s)
    ensures Runs(s, VLines(3)) && Exec(s, VLines(3)).v.VUp?
    ensures Exec(s, VLines(3)).host == Host(s.host.semaphore, None, false, false, s.host.installed)
  {
    var s1 := VStep(s, true);
    var s2 := VStep(s1, true);
    OneMore(s2, 1);
    OneMore(s1, 2);
    OneMore(s, 3);
  }

  class OvsNode {
    var semaphore: bool
    var script: Option<Script>
    var dir: bool
    var flag: bool
    var installed: Flows
    var dbUp: bool
    var vswitchdUp: bool

    function Files(): Host
      reads this
    {
      Host(semaphore, script, dir, flag, installed)
    }

    constructor ()
      ensures Files() == Host(false, None, false, false, {}) && !dbUp && !vswitchdUp
    {
      semaphore, script, dir, flag, installed := false, None, false, false, {};
      dbUp, vswitchdUp := false, false;
    }

    method CleanupFlowsBackup()
      modifies `script, `dir
      ensures script == None && !dir
    {
      script := None;
      dir := false;
    }

    method CleanupSemaphore()
      modifies `semaphore
      ensures !semaphore
    {
      semaphore := false;
    }

    /** stop-vswitchd.sh; id numbers this save.  When its commands succeed its effect is that of the
        machine's run; when one fails the semaphore is not raised and the old backup is gone. */
    method StopVswitchd(lists: bool, saves: bool, id: nat) returns (ok: bool)
      requires vswitchdUp
      requires lists || saves ==> dbUp
      modifies this
      ensures ok <==> lists && saves
      ensures ok ==> Files() == StopHook(At(old(Files()), RmScript, id)).host
      ensures !ok ==> Files() == Host(old(semaphore), if lists then Some(Script(id, {})) else None, lists, old(flag), old(installed))
      ensures dbUp == old(dbUp) && !vswitchdUp
    {
      CleanupFlowsBackup();
      if !lists { vswitchdUp := false; return false; }
      dir := true;
      script := Some(Script(id, {}));
      if !saves { vswitchdUp := false; return false; }
      script := Some(Script(id, installed));
      semaphore := true;
      installed, vswitchdUp := {}, false;
      ok := true;
    }

    /** The busy-wait of stop-ovsdb-server.sh over what it sees of the semaphore at each poll, then
        the stop; the hook is cut off when the polls run out. */
    method StopOvsdb(polls: seq<bool>) returns (stopped: bool)
      requires dbUp
      modifies `semaphore, `dbUp
      ensures stopped <==> true in polls
      ensures stopped ==> !semaphore && !dbUp
      ensures !stopped ==> semaphore == old(semaphore) && dbUp
    {
      var i := 0;
      while i < |polls| && !polls[i]
        invariant i <= |polls|
        invariant true !in polls[..i]
      {
        i := i + 1;
      }
      assert polls == polls[..i] + polls[i..];
      if i == |polls| { return false; }
      CleanupSemaphore();
      dbUp := false;
      stopped := true;
    }

    method StartOvsdb()
      modifies `semaphore, `dbUp
      ensures !semaphore && dbUp
    {
      CleanupSemaphore();
      dbUp := true;
    }

    /** start-vswitchd.sh: `evaluates` says whether the saved script's commands succeed.  A successful
        start has the effect of the machine's run; a failed evaluation leaves the flag set and no
        backup behind. */
    method StartVswitchd(evaluates: bool) returns (ok: bool)
      requires dbUp
      modifies this
      ensures ok <==> evaluates || old(script).None?
      ensures ok ==> Files() == StartResult(old(Files())) && vswitchdUp
      ensures !ok ==> Files() == Host(old(semaphore), None, false, true, {}) && !vswitchdUp
      ensures dbUp && semaphore == old(semaphore)
    {
      flag := true;
      installed, vswitchdUp := {}, true;
      if script.Some? {
        if !evaluates {
          CleanupFlowsBackup();   // the EXIT trap
          vswitchdUp := false;
          return false;
        }
        installed := script.value.flows;
      }
      CleanupFlowsBackup();
      flag := false;
      ok := true;
    }

    /** A graceful restart of the pod, hooks in the order the semaphore enforces: the flows are back,
        and nothing of the backup, the flag or the semaphore stays behind. */
    method RestartPod(id: nat)
      requires vswitchdUp && dbUp && !semaphore
      modifies this
      ensures installed == old(installed) && vswitchdUp && dbUp
      ensures script == None && !dir && !flag && !semaphore
    {
      var saved := StopVswitchd(true, true, id);
      var stopped := StopOvsdb([semaphore]);
      StartOvsdb();
      var started := StartVswitchd(true);
    }
  }
}
