/** The two containers of an OVS pod, ovsdb-server and ovs-vswitchd, whose start scripts and preStop
    hooks run side by side and share files on a host path that outlives the pod.  A step is one line
    of one script. */
module OvsMachine {
  import opened Options

  /** The OpenFlow flows installed in a running vswitchd. */
  type Flows = set<nat>

  /** flows-script: `id` numbers the saves, `flows` are what evaluating it installs. */
  datatype Script = Script(id: nat, flows: Flows)

  /** ovs-vswitchd: stop-vswitchd.sh and start-vswitchd.sh by line. */
  datatype VLine =
    // stop
    | RmScript | RmDir | ListBridges | MkDir | OpenScript | SaveFlows | Touch | StopVswitchd
    // start
    | WaitForDb | EncapIp | SetFlag | StartVswitchd | TestScript | Eval | TrapRmScript | TrapRmDir
    | DropScript | DropDir | ClearFlag

  datatype VPhase = VDown | VUp | VAt(line: VLine)

  /** ovsdb-server: stop-ovsdb-server.sh and start-ovsdb-server.sh by line. */
  datatype OLine = WaitSemaphore | Consume | StopOvsdb | ClearSemaphore | StartOvsdb

  datatype OPhase = ODown | OUp | OAt(line: OLine)

  /** What the scripts change: the semaphore file, the backup (flows-script and saved-flows) on the
      host path, flow-restore-wait in the database, and the flows in the running vswitchd. */
  datatype Host = Host(semaphore: bool, script: Option<Script>, dir: bool, flag: bool, installed: Flows)

  /** History: the flows that the last completed save owes to the next start, whether this
      termination's save is done, the ids of the evaluated scripts in order, the next save's id. */
  datatype Past = Past(owed: Option<Flows>, saved: bool, evaluated: seq<nat>, nextId: nat)

  /** `terminating` says that the pod, not one container, is being stopped. */
  datatype State = State(host: Host, v: VPhase, o: OPhase, terminating: bool, past: Past)

  datatype Event =
    | V(ok: bool)                 // the next line of vswitchd's script; ok: its command succeeds
    | O                           // the next line of ovsdb-server's script
    | Change(flows: Flows)        // ovn-controller changes the flows
    | Terminate                   // the pod is deleted: both hooks start
    | Expire                      // the grace period ends: both containers are killed
    | StartPod
    | RestartOvsdb                // ovsdb-server crashed; its container starts again
    | HookOvsdb                   // the ovsdb-server container alone is stopped, with its hook ...
    | GiveUpOvsdb                 // ... which is killed while it waits
    | RestartVswitchd             // the vswitchd container alone is stopped, with its hook
    | KillVswitchd                // SIGKILL to the vswitchd container at any line, no trap

  predicate DbRuns(s: State) {
    s.o.OUp? || (s.o.OAt? && (s.o.line.WaitSemaphore? || s.o.line.Consume? || s.o.line.StopOvsdb?))
  }

  predicate StopLine(l: VLine) {
    match l
    case RmScript => true case RmDir => true case ListBridges => true case MkDir => true
    case OpenScript => true case SaveFlows => true case Touch => true case StopVswitchd => true
    case _ => false
  }

  /** stop-vswitchd.sh is at one of its lines. */
  predicate Stopping(v: VPhase) { v.VAt? && StopLine(v.line) }

  predicate Starting(v: VPhase) { v.VAt? && !StopLine(v.line) }

  /** The flows are saved, and start-vswitchd.sh has not evaluated the script yet. */
  predicate KeepsBackup(v: VPhase) {
    v.VAt? && match v.line {
      case Touch => true case StopVswitchd => true
      case WaitForDb => true case EncapIp => true case SetFlag => true case StartVswitchd => true
      case TestScript => true case Eval => true
      case _ => false
    }
  }

  predicate VswitchdRuns(v: VPhase) {
    v.VUp? || (v.VAt? && match v.line {
      case WaitForDb => false case EncapIp => false case SetFlag => false case StartVswitchd => false
      case _ => true
    })
  }

  /** Where a container ends up when its script is over: in a terminating pod it is gone, otherwise
      it starts again. */
  function VOver(s: State): VPhase {
    if s.terminating then VDown else VAt(WaitForDb)
  }

  /** Commands that talk to the database can only succeed while it runs. */
  predicate NeedsDb(l: VLine) { l.ListBridges? || l.SaveFlows? || l.SetFlag? || l.ClearFlag? }

  predicate Enabled(s: State, e: Event) {
    match e
    case V(ok) => s.v.VAt? && (ok && NeedsDb(s.v.line) ==> DbRuns(s))
    case O => s.o.OAt?
    case Change(_) => VswitchdRuns(s.v) && !s.host.flag
    case Terminate => s.v.VUp? && s.o.OUp? && !s.terminating
    case Expire => s.terminating
    case StartPod => s.v.VDown? && s.o.ODown?
    case RestartOvsdb => s.o.OUp? && !s.terminating
    case HookOvsdb => s.o.OUp? && !s.terminating
    case GiveUpOvsdb => s.o == OAt(WaitSemaphore) && !s.terminating
    case RestartVswitchd => s.v.VUp? && !s.terminating
    case KillVswitchd => !s.v.VDown? && !s.terminating
  }

  /** Where vswitchd's scripts go after a line whose command answered ok. */
  function VNext(s: State, ok: bool): VPhase
    requires s.v.VAt?
  {
    match s.v.line
    // stop-vswitchd.sh, under set -e: a failing command ends the hook and the container
    case RmScript => VAt(RmDir)
    case RmDir => VAt(ListBridges)
    case ListBridges => if ok then VAt(MkDir) else VOver(s)
    case MkDir => if s.host.dir then VOver(s) else VAt(OpenScript)
    case OpenScript => VAt(SaveFlows)
    case SaveFlows => if ok then VAt(Touch) else VOver(s)
    case Touch => VAt(StopVswitchd)
    case StopVswitchd => VOver(s)
    // start-vswitchd.sh: wait, then set -e
    case WaitForDb => VAt(if ok && DbRuns(s) then EncapIp else WaitForDb)
    case EncapIp => VAt(if ok then SetFlag else WaitForDb)
    case SetFlag => VAt(if ok then StartVswitchd else WaitForDb)
    case StartVswitchd => VAt(if ok then TestScript else WaitForDb)
    case TestScript => VAt(if s.host.script.Some? then Eval else DropScript)
    case Eval => VAt(if ok then DropScript else TrapRmScript)
    case TrapRmScript => VAt(TrapRmDir)
    case TrapRmDir => VAt(WaitForDb)
    case DropScript => VAt(DropDir)
    case DropDir => VAt(ClearFlag)
    case ClearFlag => if ok then VUp else VAt(WaitForDb)
  }

  /** What a line does to the host. */
  function VHost(s: State, ok: bool): Host
    requires s.v.VAt?
  {
    var h := s.host;
    match s.v.line
    case RmScript => h.(script := None)
    case RmDir => h.(dir := false)
    case MkDir => h.(dir := true)
    case OpenScript => h.(script := Some(Script(s.past.nextId, {})))   // the redirection makes the file
    case SaveFlows => if ok && h.script.Some? then h.(script := Some(Script(h.script.value.id, h.installed))) else h
    case Touch => h.(semaphore := true)
    case StopVswitchd => h.(installed := {})
    case SetFlag => if ok then h.(flag := true) else h
    case StartVswitchd => if ok then h.(installed := {}) else h
    case Eval => if ok && h.script.Some? then h.(installed := h.script.value.flows) else h
    case TrapRmScript => h.(script := None)
    case TrapRmDir => h.(dir := false)
    case DropScript => h.(script := None)
    case DropDir => h.(dir := false)
    case ClearFlag => if ok then h.(flag := false) else h
    case _ => h
  }

  /** What history records of a line. */
  function VPast(s: State, ok: bool): Past
    requires s.v.VAt?
  {
    var p := s.past;
    match s.v.line
    case OpenScript => p.(nextId := p.nextId + 1)
    case SaveFlows => if ok then p.(owed := Some(s.host.installed), saved := true) else p
    case Eval =>
      if s.host.script.None? then p
      else Past(if ok then p.owed else None, p.saved, p.evaluated + [s.host.script.value.id], p.nextId)
    case ClearFlag => p.(owed := None)   // delivered, or lost with the container
    case _ => p
  }

  /** One line of stop-vswitchd.sh or start-vswitchd.sh. */
  function VStep(s: State, ok: bool): State
    requires s.v.VAt?
  {
    State(VHost(s, ok), VNext(s, ok), s.o, s.terminating, VPast(s, ok))
  }

  /** One line of stop-ovsdb-server.sh or start-ovsdb-server.sh. */
  function OStep(s: State): State
    requires s.o.OAt?
  {
    match s.o.line
    case WaitSemaphore => if s.host.semaphore then s.(o := OAt(Consume)) else s
    case Consume => s.(host := s.host.(semaphore := false), o := OAt(StopOvsdb))
    case StopOvsdb => s.(o := if s.terminating then ODown else OAt(ClearSemaphore))
    case ClearSemaphore => s.(host := s.host.(semaphore := false), o := OAt(StartOvsdb))
    case StartOvsdb => s.(o := OUp)
  }

  function Apply(s: State, e: Event): State
    requires Enabled(s, e)
  {
    match e
    case V(ok) => VStep(s, ok)
    case O => OStep(s)
    case Change(f) => s.(host := s.host.(installed := f))
    case Terminate =>
      State(s.host, VAt(RmScript), OAt(WaitSemaphore), true, s.past.(saved := false))
    case Expire => s.(v := VDown, o := ODown)
    case StartPod => s.(terminating := false, v := VAt(WaitForDb), o := OAt(ClearSemaphore))
    case RestartOvsdb => s.(o := OAt(ClearSemaphore))
    case HookOvsdb => s.(o := OAt(WaitSemaphore))
    case GiveUpOvsdb => s.(o := OAt(ClearSemaphore))
    case RestartVswitchd => s.(v := VAt(RmScript), past := s.past.(saved := false))
    case KillVswitchd =>
      // what was restored is lost with the container
      s.(v := VAt(WaitForDb), past := s.past.(owed := if KeepsBackup(s.v) then s.past.owed else None))
  }

  ghost predicate Runs(s: State, evs: seq<Event>)
    decreases |evs|
  {
    evs != [] ==> Enabled(s, evs[0]) && Runs(Apply(s, evs[0]), evs[1..])
  }

  ghost function Exec(s: State, evs: seq<Event>): State
    requires Runs(s, evs)
    decreases |evs|
  {
    if evs == [] then s else Exec(Apply(s, evs[0]), evs[1..])
  }

  lemma {:induction false} RunOn(s: State, a: seq<Event>, b: seq<Event>)
    requires Runs(s, a) && Runs(Exec(s, a), b)
    ensures Runs(s, a + b) && Exec(s, a + b) == Exec(Exec(s, a), b)
    decreases |a|
  {
    if a == [] {
      assert a + b == b;
    } else {
      assert (a + b)[0] == a[0] && (a + b)[1..] == a[1..] + b;
      RunOn(Apply(s, a[0]), a[1..], b);
    }
  }

  /** n lines of vswitchd's script whose commands succeed. */
  function VLines(n: nat): seq<Event> { if n == 0 then [] else [V(true)] + VLines(n - 1) }

  lemma {:induction false} VLinesAdd(m: nat, n: nat)
    ensures VLines(m) + VLines(n) == VLines(m + n)
  {
    if m > 0 { VLinesAdd(m - 1, n); }
  }

  lemma OneMore(s: State, n: nat)
    requires 0 < n && Enabled(s, V(true)) && Runs(VStep(s, true), VLines(n - 1))
    ensures Runs(s, VLines(n)) && Exec(s, VLines(n)) == Exec(VStep(s, true), VLines(n - 1))
  {
    assert VLines(n)[1..] == VLines(n - 1);
  }

  /** A node before its first OVS pod. */
  predicate Fresh(s: State) {
    && s.host == Host(false, None, false, false, {})
    && s.v.VDown? && s.o.ODown?
    && s.past.owed.None? && !s.past.saved && s.past.evaluated == []
  }
}
