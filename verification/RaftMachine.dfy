/** The life of the pods of one RAFT database, one step per script line.

    The scripts of `templates/ovndbcluster/bin` run in every pod: `setup.sh` starts the server,
    `cleanup.sh` is the preStop hook.  A step is one line of a script, one decision of the
    StatefulSet controller, a crash between two lines, or one effect of the running server. */
module RaftMachine {
  import opened Options

  /** The RAFT transport: the pod template's TLS flag chooses it. */
  datatype Scheme = Tcp | Ssl

  /** The rows a database holds, in the order they were committed. */
  type Data = seq<nat>

  /** `/etc/ovn/ovn{nb,sb}_db.db` on the pod's persistent volume. */
  datatype DbFile =
    | Absent
    | Empty
    | Standalone(data: Data)
    | Joining(scheme: Scheme)
    | Clustered(cid: nat, scheme: Scheme, data: Data)
  {
    predicate OfCluster() { Joining? || Clustered? }
  }

  /** `ovn{nb,sb}_db_standalone.db`, the target of cluster-to-standalone. */
  datatype Scratch = NoScratch | Torn | Whole(data: Data)

  /** The lines of setup.sh that touch the database, in order.  `Fill` is the second half of
      ovn-ctl's creation of a new file, so that a crash can leave the file empty. */
  datatype Line =
    | TestEmpty | RemoveEmpty
    | TestProtocol | RemoveScratch | Convert | FinishConvert | Move
    | Launch | Fill | SetConnection

  /** The lines of cleanup.sh. */
  datatype HookLine = AskLeave | AwaitLeft | RemoveDb | StopServer

  datatype Phase = Gone | Setup(line: Line) | Serving | Hook(hook: HookLine)

  /** A pod slot: `scheme` is the TLS flag of the template revision the pod was created from; the
      file and the scratch file are on the volume and outlive the pod. */
  datatype Pod = Pod(scheme: Scheme, phase: Phase, file: DbFile, scratch: Scratch)
  {
    /** The process runs and no hook has been started. */
    predicate Up() { phase == Serving || phase == Setup(SetConnection) }
    predicate ServerRuns() { Up() || phase.Hook? }
  }

  /** `pods[i]` is the slot of ordinal i.  `target` is the scheme of the StatefulSet's update
      revision and `current` that of the revision before it.  `listen` is the connection row kept in
      pod -0's database. */
  datatype State = State(
    pods: seq<Pod>, current: Scheme, target: Scheme, listen: Option<Scheme>, nextCid: nat)

  datatype Event =
    | Flip(to: Scheme)                 // the TLS section of the spec changes
    | Create(i: nat, scheme: Scheme)   // the StatefulSet controller creates a pod
    | Terminate(i: nat)                // scale-down or eviction: the preStop hook starts
    | Roll(i: nat)                     // the rolling update deletes a pod: the preStop hook starts
    | Step(i: nat, ok: bool)           // the next line; ok is the answer of the command on it
    | Crash(i: nat)                    // the container dies and is started again in the same pod
    | Kill(i: nat)                     // the pod is gone without (the rest of) its hook
    | Join(i: nat)                     // the cluster behind pod -0 accepts a joining server
    | Commit(row: nat)                 // a transaction reaches pod -0's database

  /* ---------- one line of setup.sh ---------- */

  function AfterLaunch(i: nat): Phase {
    if i == 0 then Setup(SetConnection) else Serving
  }

  /** One line of setup.sh in pod i; cid is the identifier a newly made cluster would get. */
  function SetupStep(i: nat, p: Pod, ok: bool, cid: nat): Pod
    requires p.phase.Setup?
  {
    match p.phase.line
    case TestEmpty =>
      p.(phase := Setup(if p.file.Absent? || p.file.Empty? then RemoveEmpty else TestProtocol))
    case RemoveEmpty => p.(file := Absent, phase := Setup(TestProtocol))
    case TestProtocol =>
      // -e, db-is-clustered and db-local-address must all answer, and the address must differ
      p.(phase := Setup(if i == 0 && ok && p.file.OfCluster() && p.file.scheme != p.scheme
                        then RemoveScratch else Launch))
    case RemoveScratch => p.(scratch := NoScratch, phase := Setup(Convert))
    case Convert =>
      // the tool refuses to overwrite a file
      if p.scratch.NoScratch? then p.(scratch := Torn, phase := Setup(FinishConvert))
      else p.(phase := Setup(Launch))
    case FinishConvert =>
      if ok && p.file.Clustered? then p.(scratch := Whole(p.file.data), phase := Setup(Move))
      else p.(phase := Setup(Launch))
    case Move =>
      if p.scratch.Whole?
      then p.(file := Standalone(p.scratch.data), scratch := NoScratch, phase := Setup(Launch))
      else p.(phase := Setup(Launch))
    case Launch =>
      match p.file {
        case Absent => p.(file := Empty, phase := Setup(Fill))
        case Empty => p   // the server does not start on an empty file
        case Standalone(d) =>
          p.(file := if i == 0 then Clustered(cid, p.scheme, d) else Joining(p.scheme), phase := AfterLaunch(i))
        case _ => p.(phase := AfterLaunch(i))
      }
    case Fill =>
      p.(file := if i == 0 then Clustered(cid, p.scheme, []) else Joining(p.scheme), phase := AfterLaunch(i))
    case SetConnection => p.(phase := Serving)
  }

  /** One line of cleanup.sh in pod i. */
  function HookStep(i: nat, p: Pod, ok: bool): Pod
    requires p.phase.Hook?
  {
    match p.phase.hook
    case AskLeave => p.(phase := if ok then Hook(AwaitLeft) else Gone)   // set -e ends the hook
    case AwaitLeft => p.(phase := Hook(if ok then RemoveDb else AwaitLeft))   // ok: STATUS is empty
    case RemoveDb => p.(file := Absent, phase := Hook(StopServer))
    case StopServer => p.(phase := Gone)
  }

  function HookStart(i: nat): Phase {
    Hook(if i == 0 then StopServer else AskLeave)
  }

  /* ---------- the whole machine ---------- */

  predicate Slot(s: State, i: nat) { i < |s.pods| }

  function With(s: State, i: nat, p: Pod): State
    requires Slot(s, i)
  {
    s.(pods := s.pods[i := p])
  }

  predicate Enabled(s: State, e: Event)
    requires Slot(s, 0)
  {
    match e
    case Flip(_) => true
    case Create(i, _) => Slot(s, i) && s.pods[i].phase.Gone?
    case Terminate(i) => Slot(s, i) && s.pods[i].Up()
    case Roll(i) => Slot(s, i) && s.pods[i].Up()
    case Step(i, _) => Slot(s, i) && (s.pods[i].phase.Setup? || s.pods[i].phase.Hook?)
    case Crash(i) => Slot(s, i) && (s.pods[i].phase.Setup? || s.pods[i].phase.Serving?)
    case Kill(i) => Slot(s, i) && !s.pods[i].phase.Gone?
    case Join(i) =>
      && 0 < i && Slot(s, i) && s.pods[i].Up() && s.pods[i].file.Joining?
      && s.pods[0].ServerRuns() && s.pods[0].file.Clustered?
      && s.pods[0].file.scheme == s.pods[i].file.scheme
    case Commit(_) => s.pods[0].ServerRuns() && s.pods[0].file.Clustered?
  }

  /** The rolling update is over: every pod that there is has the update revision.  The controller
      then takes it for the current one. */
  predicate RolledOut(s: State) {
    forall i | 0 <= i < |s.pods| :: s.pods[i].phase.Gone? || s.pods[i].scheme == s.target
  }

  function Apply(s: State, e: Event): State
    requires Slot(s, 0) && Enabled(s, e)
  {
    match e
    case Flip(x) => if RolledOut(s) then s.(current := s.target, target := x) else s.(target := x)
    case Create(i, x) => With(s, i, s.pods[i].(scheme := x, phase := Setup(TestEmpty)))
    case Terminate(i) => With(s, i, s.pods[i].(phase := HookStart(i)))
    case Roll(i) => With(s, i, s.pods[i].(phase := HookStart(i)))
    case Step(i, ok) => ApplyStep(s, i, ok)
    case Crash(i) => With(s, i, s.pods[i].(phase := Setup(TestEmpty)))
    case Kill(i) => With(s, i, s.pods[i].(phase := Gone))
    case Join(i) => With(s, i, s.pods[i].(file := s.pods[0].file))
    case Commit(row) =>
      With(s, 0, s.pods[0].(file := s.pods[0].file.(data := s.pods[0].file.data + [row])))
  }

  function ApplyStep(s: State, i: nat, ok: bool): State
    requires Slot(s, i) && (s.pods[i].phase.Setup? || s.pods[i].phase.Hook?)
  {
    var p := s.pods[i];
    if p.phase.Hook? then With(s, i, HookStep(i, p, ok))
    else
      var t := With(s, i, SetupStep(i, p, ok, s.nextCid));
      if i != 0 then t
      else if p.phase == Setup(SetConnection) then t.(listen := Some(p.scheme))
      else if p.phase == Setup(Fill) then t.(listen := None, nextCid := s.nextCid + 1)
      else if p.phase == Setup(Launch) && p.file.Standalone? then t.(nextCid := s.nextCid + 1)
      else t
  }

  /** The state after a run. */
  ghost predicate Runs(s: State, evs: seq<Event>)
    requires Slot(s, 0)
    decreases |evs|
  {
    evs == [] || (Enabled(s, evs[0]) && Runs(Apply(s, evs[0]), evs[1..]))
  }

  ghost function Exec(s: State, evs: seq<Event>): (t: State)
    requires Slot(s, 0) && Runs(s, evs)
    ensures |t.pods| == |s.pods|
    decreases |evs|
  {
    if evs == [] then s else Exec(Apply(s, evs[0]), evs[1..])
  }

  /** Before the first pod: every volume is empty. */
  predicate Fresh(s: State) {
    && 0 < |s.pods| && s.listen.None?
    && forall i | 0 <= i < |s.pods| :: s.pods[i].phase.Gone? && s.pods[i].file.Absent? && s.pods[i].scratch.NoScratch?
  }

  /* ---------- what every step keeps, whatever fails ---------- */

  /** What the script position says about the files of one pod. */
  predicate LineFacts(i: nat, p: Pod) {
    match p.phase
    case Setup(RemoveEmpty) => p.file.Absent? || p.file.Empty?
    case Setup(TestProtocol) => !p.file.Empty?
    case Setup(RemoveScratch) => i == 0 && p.file.OfCluster() && p.file.scheme != p.scheme
    case Setup(Convert) => i == 0 && p.scratch.NoScratch? && p.file.OfCluster() && p.file.scheme != p.scheme
    case Setup(FinishConvert) => i == 0 && p.scratch.Torn? && p.file.OfCluster() && p.file.scheme != p.scheme
    case Setup(Move) => i == 0 && p.file.Clustered? && p.file.scheme != p.scheme && p.scratch == Whole(p.file.data)
    case Setup(Launch) => !p.file.Empty?
    case Setup(Fill) => p.file.Empty?
    case Setup(SetConnection) => i == 0 && p.file.Clustered?
    case Setup(TestEmpty) => true
    case Gone => true
    case Serving => p.file.OfCluster()
    case Hook(h) =>
      && (h.StopServer? || 0 < i)
      && (if i == 0 then p.file.Clustered? else if h.StopServer? then p.file.Absent? else p.file.OfCluster())
  }

  predicate PodOk(s: State, i: nat, p: Pod) {
    && LineFacts(i, p)
    && (if i == 0 then !p.file.Joining? else !p.file.Standalone?)
    && (p.file.Clustered? ==> p.file.cid < s.nextCid)
  }

  predicate Base(s: State) {
    && 0 < |s.pods|
    && (s.pods[0].phase.Serving? ==> s.listen == Some(s.pods[0].scheme))
    && forall i | 0 <= i < |s.pods| :: PodOk(s, i, s.pods[i])
  }
}
