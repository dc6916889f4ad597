/** One pass of the OVNDBCluster reconciler: where it stops, what it publishes, when it is ready. */
module DbClusterPass {
  import opened Addresses

  datatype Status = True | False | Unknown

  datatype Cond =
    | Input | ExposeService | ServiceConfig | NetworkAttachments | Deployment
    | ServiceAccount | Role | RoleBinding | TlsInput | Pdb | ExternalConfig | Topology

  datatype Spec = Spec(
    db: DbType,
    networkAttachment: bool,
    overrideService: bool,
    caBundle: bool,
    tls: bool,
    metrics: bool,        // enabled, and an exporter image given
    metricsTls: bool,
    replicas: nat,
    topologyRef: bool)

  /** How a call outside the reconciler came back; Wait is a result that asks for another pass. */
  datatype Call = Ok | NotFound | Wait | Err

  /** What a pass meets, call by call. */
  datatype World = World(
    deleting: bool,
    finalizerAdded: bool,
    rbac: Call, serviceAccount: Status, role: Status, roleBinding: Status,
    nad: Call,
    cleanup: Call,        // deletion of the external config map
    annotation: Call,
    ca: Call, cert: Call, metricsCert: Call,
    configMaps: Call, inputHash: Call,
    topology: Call,
    stsSpec: Call, sts: Call,
    pdb: Call,
    services: Call,
    podWithoutIp: bool,   // the services failed on a pod without an IP in the network
    observed: bool, readyReplicas: nat, updatedReplicas: nat, stsReady: bool,
    network: Call,        // Wait: the pods have no such network yet
    list: Call, svcs: seq<Svc>,
    runtime: Call,
    external: Call)

  /** The places a pass can end, in the order it comes to them. */
  datatype Step =
    | Finalizer | Deletion | Rbac | Nad | Cleanup | Annotation | CaSecret | CertSecret | MetricsSecret
    | ConfigMaps | InputHash | TopologyRef | StatefulSetSpec | StatefulSet | Budget | Services
    | Network | ServiceList | Runtime | NotReady | External | Finished

  /** Does this deployment need the external config map? */
  predicate NeedsExternal(spec: Spec) { spec.db.SB? && (spec.networkAttachment || spec.overrideService) }

  function ReadyCount(count: nat, w: World): nat { if w.observed then w.readyReplicas else count }

  /** All pods ready and no rolling update in progress. */
  predicate Gated(spec: Spec, count: nat, w: World) {
    ReadyCount(count, w) == spec.replicas && w.updatedReplicas == spec.replicas
  }

  /** The pass ends at this step if it gets there. */
  predicate Fails(step: Step, spec: Spec, count: nat, w: World) {
    match step
    case Finalizer => !w.deleting && w.finalizerAdded
    case Deletion => w.deleting
    case Rbac => w.rbac != Ok
    case Nad => spec.networkAttachment && w.nad != Ok
    case Cleanup => !spec.networkAttachment && spec.db.SB? && !spec.overrideService && w.cleanup != Ok
    case Annotation => w.annotation != Ok
    case CaSecret => spec.caBundle && w.ca != Ok
    case CertSecret => spec.tls && w.cert != Ok
    case MetricsSecret => spec.metrics && spec.metricsTls && w.metricsCert != Ok
    case ConfigMaps => w.configMaps != Ok
    case InputHash => w.inputHash != Ok
    case TopologyRef => w.topology != Ok
    case StatefulSetSpec => w.stsSpec != Ok
    case StatefulSet => w.sts != Ok
    case Budget => w.pdb != Ok
    case Services => w.services != Ok
    case Network => w.network != Ok
    case ServiceList => w.list != Ok
    case Runtime => Gated(spec, count, w) && w.runtime != Ok
    case NotReady => !w.stsReady || w.svcs == []
    case External => NeedsExternal(spec) && w.external != Ok
    case Finished => false
  }

  /** The first of these steps that ends the pass. */
  function First(steps: seq<Step>, spec: Spec, count: nat, w: World): Step {
    if steps == [] then Finished
    else if Fails(steps[0], spec, count, w) then steps[0]
    else First(steps[1..], spec, count, w)
  }

  const BEGINNING := [Finalizer, Deletion, Rbac, Nad, Cleanup, Annotation]
  const INPUTS := [CaSecret, CertSecret, MetricsSecret, ConfigMaps, InputHash]
  const DEPLOYING := [TopologyRef, StatefulSetSpec, StatefulSet, Budget, Services]
  const ENDING := [Network, ServiceList, Runtime, NotReady, External]

  /** Where the pass ends. */
  function Stop(spec: Spec, count: nat, w: World): Step {
    First(BEGINNING + INPUTS + DEPLOYING + ENDING, spec, count, w)
  }

  lemma {:induction false} FirstOfBoth(a: seq<Step>, b: seq<Step>, spec: Spec, count: nat, w: World)
    requires Finished !in a
    ensures First(a + b, spec, count, w)
         == if First(a, spec, count, w) == Finished then First(b, spec, count, w) else First(a, spec, count, w)
  {
    if a == [] {
      assert a + b == b;
    } else {
      assert (a + b)[1..] == a[1..] + b;
      FirstOfBoth(a[1..], b, spec, count, w);
    }
  }

  /** Where the pass ends before its last part, if it does. */
  function BeforeEnding(spec: Spec, count: nat, w: World): Step {
    if First(BEGINNING, spec, count, w) != Finished then First(BEGINNING, spec, count, w)
    else if First(INPUTS, spec, count, w) != Finished then First(INPUTS, spec, count, w)
    else First(DEPLOYING, spec, count, w)
  }

  /** The pass goes through its four parts in turn. */
  lemma StopByParts(spec: Spec, count: nat, w: World)
    ensures Stop(spec, count, w) ==
      if BeforeEnding(spec, count, w) != Finished then BeforeEnding(spec, count, w) else First(ENDING, spec, count, w)
  {
    FirstOfBoth(BEGINNING, INPUTS, spec, count, w);
    FirstOfBoth(BEGINNING + INPUTS, DEPLOYING, spec, count, w);
    FirstOfBoth(BEGINNING + INPUTS + DEPLOYING, ENDING, spec, count, w);
  }

  lemma FirstOfFive(a: Step, b: Step, c: Step, d: Step, e: Step, spec: Spec, count: nat, w: World)
    ensures First([a, b, c, d, e], spec, count, w) ==
      if Fails(a, spec, count, w) then a
      else if Fails(b, spec, count, w) then b
      else if Fails(c, spec, count, w) then c
      else if Fails(d, spec, count, w) then d
      else if Fails(e, spec, count, w) then e
      else Finished
  {
    assert [a, b, c, d, e] == [a] + ([b] + ([c] + ([d] + ([e] + []))));
    FirstCons(a, [b] + ([c] + ([d] + ([e] + []))), spec, count, w);
    FirstCons(b, [c] + ([d] + ([e] + [])), spec, count, w);
    FirstCons(c, [d] + ([e] + []), spec, count, w);
    FirstCons(d, [e] + [], spec, count, w);
    FirstCons(e, [], spec, count, w);
  }

  lemma FirstCons(a: Step, rest: seq<Step>, spec: Spec, count: nat, w: World)
    ensures First([a] + rest, spec, count, w) == if Fails(a, spec, count, w) then a else First(rest, spec, count, w)
  {
    assert ([a] + rest)[1..] == rest;
  }

  /** Where the last part ends: before it publishes, or while it does. */
  function VerifyStop(spec: Spec, count: nat, w: World): Step {
    if w.network != Ok then Network
    else if w.list != Ok then ServiceList
    else if Gated(spec, count, w) && w.runtime != Ok then Runtime
    else Finished
  }

  function PublishStop(spec: Spec, w: World): Step {
    if !w.stsReady || w.svcs == [] then NotReady
    else if NeedsExternal(spec) && w.external != Ok then External
    else Finished
  }

  lemma EndingStops(spec: Spec, count: nat, w: World)
    ensures First(ENDING, spec, count, w)
      == if VerifyStop(spec, count, w) != Finished then VerifyStop(spec, count, w) else PublishStop(spec, w)
  {
    FirstOfFive(Network, ServiceList, Runtime, NotReady, External, spec, count, w);
  }

  lemma InputStops(spec: Spec, count: nat, w: World)
    ensures First(INPUTS, spec, count, w)
      == if spec.caBundle && w.ca != Ok then CaSecret
         else if spec.tls && w.cert != Ok then CertSecret
         else if spec.metrics && spec.metricsTls && w.metricsCert != Ok then MetricsSecret
         else if w.configMaps != Ok then ConfigMaps
         else if w.inputHash != Ok then InputHash
         else Finished
  {
    FirstOfFive(CaSecret, CertSecret, MetricsSecret, ConfigMaps, InputHash, spec, count, w);
  }

  /** Where the StatefulSet's part ends, and what comes after it. */
  function WorkloadStop(w: World): Step {
    if w.topology != Ok then TopologyRef
    else if w.stsSpec != Ok then StatefulSetSpec
    else if w.sts != Ok then StatefulSet
    else Finished
  }

  function ExposeStop(w: World): Step {
    if w.pdb != Ok then Budget else if w.services != Ok then Services else Finished
  }

  lemma DeployingStops(spec: Spec, count: nat, w: World)
    ensures First(DEPLOYING, spec, count, w) == if WorkloadStop(w) != Finished then WorkloadStop(w) else ExposeStop(w)
  {
    FirstOfFive(TopologyRef, StatefulSetSpec, StatefulSet, Budget, Services, spec, count, w);
  }

  /** The condition that says of a pass ended at this step that it is not ready. */
  function Blamed(step: Step): Cond {
    match step
    case Finalizer => Input
    case Deletion => Input
    case Rbac => Input
    case Nad => NetworkAttachments
    case Cleanup => Input
    case Annotation => Input
    case CaSecret => TlsInput
    case CertSecret => TlsInput
    case MetricsSecret => TlsInput
    case ConfigMaps => ServiceConfig
    case InputHash => ServiceConfig
    case TopologyRef => Topology
    case StatefulSetSpec => Deployment
    case StatefulSet => Deployment
    case Budget => Pdb
    case Services => ExposeService
    case Network => NetworkAttachments
    case ServiceList => ExposeService
    case Runtime => ServiceConfig
    case NotReady => Deployment
    case External => ExternalConfig
    case Finished => Deployment
  }

  /** The conditions that a pass ended at this step reports False. */
  function FalseAt(step: Step, spec: Spec, w: World): set<Cond> {
    match step
    case Nad => {NetworkAttachments}
    case CaSecret => {TlsInput}
    case CertSecret => {TlsInput}
    case MetricsSecret => {TlsInput}
    case ConfigMaps => {ServiceConfig}
    case InputHash => {ServiceConfig}
    case TopologyRef => {Topology}
    case StatefulSet => {Deployment}
    case Budget => if spec.replicas > 1 && w.pdb != Wait then {Pdb} else {}
    case Services => if w.services != Wait && w.podWithoutIp then {ExposeService, NetworkAttachments} else {ExposeService}
    case Network => if w.network == Wait then {NetworkAttachments} else {}
    case ServiceList => {ExposeService}
    case Runtime => {ServiceConfig}
    case NotReady => {Deployment}
    case External => {ExternalConfig}
    case _ => {}
  }

  type Conds = map<Cond, Status>

  /** Apart from those of RBAC, exactly these conditions are False. */
  predicate Reports(conds: Conds, reported: set<Cond>) {
    (forall c | c in reported :: c in conds)
    && forall c | c in conds && c !in {ServiceAccount, Role, RoleBinding} :: conds[c] == False <==> c in reported
  }

  predicate NotTrue(conds: Conds, c: Cond) { c in conds && conds[c] != True }

  predicate AllTrue(conds: Conds) { forall c | c in conds :: conds[c] == True }

  predicate HasFalse(conds: Conds) { exists c | c in conds :: conds[c] == False }

  predicate RbacFalse(conds: Conds) { exists c | c in {ServiceAccount, Role, RoleBinding} && c in conds :: conds[c] == False }

  /** The Ready condition: of conditions not all True, a False one comes before an Unknown one. */
  function Summary(conds: Conds): Status {
    if AllTrue(conds) then True else if HasFalse(conds) then False else Unknown
  }

  lemma SummaryMeans(conds: Conds, reported: set<Cond>)
    requires Reports(conds, reported) && (forall c | c in reported :: c !in {ServiceAccount, Role, RoleBinding})
    ensures Summary(conds) == True <==> AllTrue(conds)
    ensures Summary(conds) == False <==> reported != {} || RbacFalse(conds)
  {
    if HasFalse(conds) && !RbacFalse(conds) {
      var c :| c in conds && conds[c] == False;
      assert c in reported;
    }
    if reported != {} {
      var c :| c in reported;
      assert c in conds && conds[c] == False;
    }
  }

  /** The conditions at the start of a pass. */
  function Initial(spec: Spec): Conds {
    var conds := map[
      Input := Unknown, ExposeService := Unknown, ServiceConfig := Unknown, NetworkAttachments := Unknown,
      Deployment := Unknown, ServiceAccount := Unknown, Role := Unknown, RoleBinding := Unknown,
      TlsInput := Unknown, Pdb := Unknown, ExternalConfig := Unknown];
    if spec.topologyRef then conds[Topology := Unknown] else conds
  }

  /** The conditions after each part of a pass that goes through it. */
  function AfterBeginning(spec: Spec, w: World): Conds {
    var conds := Initial(spec)[ServiceAccount := w.serviceAccount][Role := w.role][RoleBinding := w.roleBinding][Input := True];
    if NeedsExternal(spec) then conds else conds[ExternalConfig := True]
  }

  function AfterInputs(conds: Conds): Conds { conds[TlsInput := True][ServiceConfig := True] }

  function AfterDeploying(spec: Spec, conds: Conds): Conds {
    (if spec.topologyRef then conds[Topology := True] else conds)[Pdb := True]
  }

  function AfterEnding(conds: Conds): Conds {
    conds[NetworkAttachments := True][Deployment := True][ExposeService := True][ExternalConfig := True]
  }

  /** The status of one OVNDBCluster. */
  class Cluster {
    const spec: Spec
    const domain: string
    var conds: Conds
    var ready: Status
    var readyCount: nat
    var internalDbAddress: string

    constructor (spec: Spec, domain: string)
      ensures this.spec == spec && this.domain == domain && internalDbAddress == "" && ready == Unknown && readyCount == 0
    {
      this.spec, this.domain, conds, ready, readyCount, internalDbAddress := spec, domain, map[], Unknown, 0, "";
    }

    /** One pass; `stop` says where it ended. */
    method Reconcile(w: World) returns (stop: Step)
      requires HavePorts(w.svcs)
      modifies this
      ensures stop == Stop(spec, old(readyCount), w)
      ensures stop != Finished ==> NotTrue(conds, Blamed(stop))
      ensures Reports(conds, FalseAt(stop, spec, w))
      ensures ready == False <==> FalseAt(stop, spec, w) != {} || RbacFalse(conds)
      ensures ready == True <==> stop == Finished && w.serviceAccount == w.role == w.roleBinding == True
      ensures internalDbAddress == if stop.External? || stop.Finished? then Address(spec.tls, domain, w.svcs) else old(internalDbAddress)
    {
      conds := Initial(spec);
      stop := ReconcileNormal(w);
      // on the way out
      SummaryAtStop(conds, stop, spec, w);
      ready := Summary(conds);
    }

    /** The parts of the pass, each only when the one before went through. */
    method ReconcileNormal(w: World) returns (stop: Step)
      requires HavePorts(w.svcs) && conds == Initial(spec)
      modifies `conds, `readyCount, `internalDbAddress
      ensures stop == Stop(spec, old(readyCount), w)
      ensures stop != Finished ==> NotTrue(conds, Blamed(stop))
      ensures Reports(conds, FalseAt(stop, spec, w))
      ensures stop == Finished ==> conds == Through(spec, w)
      ensures internalDbAddress == if stop.External? || stop.Finished? then Address(spec.tls, domain, w.svcs) else old(internalDbAddress)
    {
      StopByParts(spec, readyCount, w);
      LeftAfterDeploying(spec, w);
      stop := Prepare(w);
      if stop == Finished { stop := End(w); }
    }

    /** All parts but the last. */
    method Prepare(w: World) returns (stop: Step)
      requires conds == Initial(spec)
      modifies `conds
      ensures stop == BeforeEnding(spec, readyCount, w) != External
      ensures stop != Finished ==> NotTrue(conds, Blamed(stop))
      ensures Reports(conds, FalseAt(stop, spec, w))
      ensures stop == Finished ==> conds == AfterDeploying(spec, AfterInputs(AfterBeginning(spec, w)))
    {
      StopsApart(spec, readyCount, w);
      LeftAfterBeginning(spec, w);
      stop := Begin(w);
      if stop == Finished { stop := ReadAndDeploy(w); }
    }

    method ReadAndDeploy(w: World) returns (stop: Step)
      requires conds == AfterBeginning(spec, w) && Reports(conds, {})
      modifies `conds
      ensures stop == if First(INPUTS, spec, readyCount, w) != Finished then First(INPUTS, spec, readyCount, w)
                      else First(DEPLOYING, spec, readyCount, w)
      ensures stop != Finished ==> NotTrue(conds, Blamed(stop))
      ensures Reports(conds, FalseAt(stop, spec, w))
      ensures stop == Finished ==> conds == AfterDeploying(spec, AfterInputs(AfterBeginning(spec, w)))
    {
      LeftAfterBeginning(spec, w);
      LeftAfterInputs(spec, w);
      stop := ReadInputs(w);
      if stop == Finished { stop := Deploy(w); }
    }

    method MarkTrue(c: Cond)
      modifies `conds
      ensures conds == old(conds)[c := True]
    {
      conds := conds[c := True];
    }

    method MarkFalse(c: Cond)
      modifies `conds
      ensures conds == old(conds)[c := False]
    {
      conds := conds[c := False];
    }

    method Begin(w: World) returns (stop: Step)
      requires conds == Initial(spec)
      modifies `conds
      ensures stop == First(BEGINNING, spec, readyCount, w)
      ensures stop != Finished ==> NotTrue(conds, Blamed(stop))
      ensures Reports(conds, FalseAt(stop, spec, w))
      ensures stop == Finished ==> conds == AfterBeginning(spec, w)
    {
      FirstOfFive(Deletion, Rbac, Nad, Cleanup, Annotation, spec, readyCount, w);
      assert BEGINNING[1..] == [Deletion, Rbac, Nad, Cleanup, Annotation];
      if !w.deleting && w.finalizerAdded { return Finalizer; }
      if w.deleting { return Deletion; }
      conds := conds[ServiceAccount := w.serviceAccount][Role := w.role][RoleBinding := w.roleBinding];
      if w.rbac != Ok { return Rbac; }
      stop := CheckNetwork(w);
    }

    method CheckNetwork(w: World) returns (stop: Step)
      requires Reports(conds, {})
      requires NotTrue(conds, NetworkAttachments) && NotTrue(conds, Input)
      modifies `conds
      ensures stop == if Fails(Nad, spec, readyCount, w) then Nad
                      else if Fails(Cleanup, spec, readyCount, w) then Cleanup
                      else if Fails(Annotation, spec, readyCount, w) then Annotation else Finished
      ensures stop != Finished ==> NotTrue(conds, Blamed(stop))
      ensures Reports(conds, FalseAt(stop, spec, w))
      ensures stop == Finished && NeedsExternal(spec) ==> conds == old(conds)[Input := True]
      ensures stop == Finished && !NeedsExternal(spec) ==> conds == old(conds)[Input := True][ExternalConfig := True]
    {
      if !spec.db.SB? { MarkTrue(ExternalConfig); }
      if spec.networkAttachment {
        if w.nad != Ok {
          MarkFalse(NetworkAttachments);
          return Nad;
        }
      } else if spec.db.SB? && !spec.overrideService {
        if w.cleanup != Ok { return Cleanup; }
        MarkTrue(ExternalConfig);
      }
      if w.annotation != Ok { return Annotation; }
      MarkTrue(Input);
      return Finished;
    }

    method ReadInputs(w: World) returns (stop: Step)
      requires Reports(conds, {})
      requires NotTrue(conds, TlsInput) && NotTrue(conds, ServiceConfig)
      modifies `conds
      ensures stop == First(INPUTS, spec, readyCount, w)
      ensures stop != Finished ==> NotTrue(conds, Blamed(stop))
      ensures Reports(conds, FalseAt(stop, spec, w))
      ensures stop == Finished ==> conds == AfterInputs(old(conds))
    {
      InputStops(spec, readyCount, w);
      if spec.caBundle && w.ca != Ok {
        MarkFalse(TlsInput);
        return CaSecret;
      }
      if spec.tls && w.cert != Ok {
        MarkFalse(TlsInput);
        return CertSecret;
      }
      if spec.metrics {
        if spec.metricsTls && w.metricsCert != Ok {
          MarkFalse(TlsInput);
          return MetricsSecret;
        }
      }
      MarkTrue(TlsInput);
      if w.configMaps != Ok {
        MarkFalse(ServiceConfig);
        return ConfigMaps;
      }
      if w.inputHash != Ok {
        MarkFalse(ServiceConfig);
        return InputHash;
      }
      MarkTrue(ServiceConfig);
      return Finished;
    }

    method Deploy(w: World) returns (stop: Step)
      requires Reports(conds, {})
      requires NotTrue(conds, Deployment) && NotTrue(conds, Pdb) && NotTrue(conds, ExposeService)
      requires NetworkAttachments in conds
      modifies `conds
      ensures stop == First(DEPLOYING, spec, readyCount, w)
      ensures stop != Finished ==> NotTrue(conds, Blamed(stop))
      ensures Reports(conds, FalseAt(stop, spec, w))
      ensures stop == Finished ==> conds == AfterDeploying(spec, old(conds))
    {
      DeployingStops(spec, readyCount, w);
      stop := WriteWorkload(w);
      if stop == Finished { stop := Expose(w); }
    }

    method WriteWorkload(w: World) returns (stop: Step)
      requires Reports(conds, {}) && NotTrue(conds, Deployment)
      modifies `conds
      ensures stop == WorkloadStop(w)
      ensures stop != Finished ==> NotTrue(conds, Blamed(stop))
      ensures Reports(conds, FalseAt(stop, spec, w))
      ensures stop == Finished ==> conds == if spec.topologyRef then old(conds)[Topology := True] else old(conds)
    {
      if w.topology != Ok {
        MarkFalse(Topology);
        return TopologyRef;
      }
      if spec.topologyRef { MarkTrue(Topology); }
      if w.stsSpec != Ok { return StatefulSetSpec; }
      if w.sts != Ok {
        MarkFalse(Deployment);
        return StatefulSet;
      }
      return Finished;
    }

    method Expose(w: World) returns (stop: Step)
      requires Reports(conds, {}) && NotTrue(conds, Pdb) && NotTrue(conds, ExposeService) && NetworkAttachments in conds
      modifies `conds
      ensures stop == ExposeStop(w)
      ensures stop != Finished ==> NotTrue(conds, Blamed(stop))
      ensures Reports(conds, FalseAt(stop, spec, w))
      ensures stop == Finished ==> conds == old(conds)[Pdb := True]
    {
      if w.pdb != Ok {
        if spec.replicas > 1 && w.pdb != Wait { MarkFalse(Pdb); }
        return Budget;
      }
      MarkTrue(Pdb);
      if w.services != Ok {
        if w.services != Wait && w.podWithoutIp { MarkFalse(NetworkAttachments); }
        MarkFalse(ExposeService);
        return Services;
      }
      return Finished;
    }

    method End(w: World) returns (stop: Step)
      requires Reports(conds, {})
      requires HavePorts(w.svcs)
      requires NotTrue(conds, NetworkAttachments) && NotTrue(conds, ExposeService) && NotTrue(conds, Deployment)
      requires NeedsExternal(spec) ==> NotTrue(conds, ExternalConfig)
      requires !NeedsExternal(spec) ==> ExternalConfig in conds && conds[ExternalConfig] == True
      modifies `conds, `readyCount, `internalDbAddress
      ensures stop == First(ENDING, spec, old(readyCount), w)
      ensures stop != Finished ==> NotTrue(conds, Blamed(stop))
      ensures Reports(conds, FalseAt(stop, spec, w))
      ensures stop == Finished ==> conds == AfterEnding(old(conds))
      ensures internalDbAddress == if stop.External? || stop.Finished? then Address(spec.tls, domain, w.svcs) else old(internalDbAddress)
    {
      EndingStops(spec, readyCount, w);
      if !NeedsExternal(spec) { SettledExternal(conds); }
      stop := Verify(w);
      if stop == Finished { stop := Publish(w); }
    }

    method Verify(w: World) returns (stop: Step)
      requires Reports(conds, {})
      requires NotTrue(conds, NetworkAttachments) && NotTrue(conds, ExposeService)
      modifies `conds, `readyCount
      ensures stop == VerifyStop(spec, old(readyCount), w)
      ensures stop != Finished ==> NotTrue(conds, Blamed(stop))
      ensures Reports(conds, FalseAt(stop, spec, w))
      ensures stop == Finished ==> conds == old(conds)[NetworkAttachments := True]
    {
      if w.observed { readyCount := w.readyReplicas; }
      if w.network != Ok {
        if w.network == Wait { MarkFalse(NetworkAttachments); }
        return Network;
      }
      MarkTrue(NetworkAttachments);
      if w.list != Ok {
        MarkFalse(ExposeService);
        return ServiceList;
      }
      if readyCount == spec.replicas && w.updatedReplicas == spec.replicas {
        if w.runtime != Ok {
          MarkFalse(ServiceConfig);
          return Runtime;
        }
      }
      return Finished;
    }

    method Publish(w: World) returns (stop: Step)
      requires Reports(conds, {})
      requires HavePorts(w.svcs)
      requires NeedsExternal(spec) ==> NotTrue(conds, ExternalConfig)
      modifies `conds, `internalDbAddress
      ensures stop == PublishStop(spec, w)
      ensures stop != Finished ==> NotTrue(conds, Blamed(stop))
      ensures Reports(conds, FalseAt(stop, spec, w))
      ensures stop == Finished && NeedsExternal(spec) ==>
        conds == old(conds)[Deployment := True][ExposeService := True][ExternalConfig := True]
      ensures stop == Finished && !NeedsExternal(spec) ==> conds == old(conds)[Deployment := True][ExposeService := True]
      ensures internalDbAddress == if stop == NotReady then old(internalDbAddress) else Address(spec.tls, domain, w.svcs)
    {
      if w.stsReady && |w.svcs| > 0 {
        MarkTrue(Deployment);
        MarkTrue(ExposeService);
        internalDbAddress := InternalDbAddress(spec.tls, domain, w.svcs);
        stop := WriteExternal(w);
      } else {
        MarkFalse(Deployment);
        stop := NotReady;
      }
    }

    method WriteExternal(w: World) returns (stop: Step)
      requires Reports(conds, {}) && (NeedsExternal(spec) ==> NotTrue(conds, ExternalConfig))
      modifies `conds
      ensures stop == if NeedsExternal(spec) && w.external != Ok then External else Finished
      ensures stop != Finished ==> NotTrue(conds, Blamed(stop))
      ensures Reports(conds, FalseAt(stop, spec, w))
      ensures stop == Finished ==> conds == if NeedsExternal(spec) then old(conds)[ExternalConfig := True] else old(conds)
    {
      if spec.db.SB? && (spec.networkAttachment || spec.overrideService) {
        if w.external != Ok {
          MarkFalse(ExternalConfig);
          return External;
        }
        MarkTrue(ExternalConfig);
      }
      return Finished;
    }
  }

  lemma SettledExternal(conds: Conds)
    requires ExternalConfig in conds && conds[ExternalConfig] == True
    ensures conds[NetworkAttachments := True][Deployment := True][ExposeService := True] == AfterEnding(conds)
  {
  }

  /** What the later parts find unset. */
  lemma LeftAfterBeginning(spec: Spec, w: World)
    ensures NotTrue(AfterBeginning(spec, w), TlsInput) && NotTrue(AfterBeginning(spec, w), ServiceConfig)
  {
  }

  lemma LeftAfterInputs(spec: Spec, w: World)
    ensures var i := AfterInputs(AfterBeginning(spec, w));
      NotTrue(i, Deployment) && NotTrue(i, Pdb) && NotTrue(i, ExposeService) && NetworkAttachments in i
  {
  }

  /** And that the external configuration is settled where none is needed. */
  lemma LeftAfterDeploying(spec: Spec, w: World)
    ensures var d := AfterDeploying(spec, AfterInputs(AfterBeginning(spec, w)));
      NotTrue(d, NetworkAttachments) && NotTrue(d, ExposeService) && NotTrue(d, Deployment)
      && (NeedsExternal(spec) ==> NotTrue(d, ExternalConfig))
      && (!NeedsExternal(spec) ==> ExternalConfig in d && d[ExternalConfig] == True)
  {
  }

  function Through(spec: Spec, w: World): Conds {
    AfterEnding(AfterDeploying(spec, AfterInputs(AfterBeginning(spec, w))))
  }

  /** Only the last part publishes. */
  lemma StopsApart(spec: Spec, count: nat, w: World)
    ensures First(BEGINNING, spec, count, w) !in {External} && First(INPUTS, spec, count, w) !in {External}
    ensures First(DEPLOYING, spec, count, w) !in {External}
  {
    FirstIsListed(BEGINNING, spec, count, w);
    FirstIsListed(INPUTS, spec, count, w);
    FirstIsListed(DEPLOYING, spec, count, w);
  }

  lemma {:induction false} FirstIsListed(steps: seq<Step>, spec: Spec, count: nat, w: World)
    ensures First(steps, spec, count, w) == Finished || First(steps, spec, count, w) in steps
  {
    if steps != [] { FirstIsListed(steps[1..], spec, count, w); }
  }

  /** A pass that goes through leaves every condition True but for those of RBAC. */
  lemma EndIsReady(spec: Spec, w: World)
    ensures AllTrue(Through(spec, w)) <==> w.serviceAccount == w.role == w.roleBinding == True
  {
    var conds := Through(spec, w);
    assert ServiceAccount in conds && Role in conds && RoleBinding in conds;
  }

  /* ---------- what a pass means ---------- */

  predicate RbacTrue(w: World) { w.serviceAccount == w.role == w.roleBinding == True }

  predicate ReadyPass(spec: Spec, count: nat, w: World) { Stop(spec, count, w) == Finished && RbacTrue(w) }

  predicate Publishes(spec: Spec, count: nat, w: World) { Stop(spec, count, w).External? || Stop(spec, count, w).Finished? }

  const ALL := BEGINNING + INPUTS + DEPLOYING + ENDING

  lemma {:induction false} FirstFinishedIff(steps: seq<Step>, spec: Spec, count: nat, w: World)
    requires Finished !in steps
    ensures First(steps, spec, count, w) == Finished <==> forall s | s in steps :: !Fails(s, spec, count, w)
  {
    if steps != [] { FirstFinishedIff(steps[1..], spec, count, w); }
  }

  lemma EveryStep(s: Step)
    ensures s in BEGINNING || s in INPUTS || s in DEPLOYING || s in ENDING <==> s != Finished
  {
  }

  /** A pass goes through exactly when nothing on its way fails. */
  lemma FinishedIff(spec: Spec, count: nat, w: World)
    ensures Stop(spec, count, w) == Finished <==> forall s: Step :: !Fails(s, spec, count, w)
  {
    StopByParts(spec, count, w);
    FirstFinishedIff(BEGINNING, spec, count, w);
    FirstFinishedIff(INPUTS, spec, count, w);
    FirstFinishedIff(DEPLOYING, spec, count, w);
    FirstFinishedIff(ENDING, spec, count, w);
    forall s: Step
      ensures s in BEGINNING || s in INPUTS || s in DEPLOYING || s in ENDING <==> s != Finished
    {
      EveryStep(s);
    }
  }

  lemma SummaryAtStop(conds: Conds, stop: Step, spec: Spec, w: World)
    requires Reports(conds, FalseAt(stop, spec, w))
    requires if stop == Finished then conds == Through(spec, w) else NotTrue(conds, Blamed(stop))
    ensures Summary(conds) == False <==> FalseAt(stop, spec, w) != {} || RbacFalse(conds)
    ensures Summary(conds) == True <==> stop == Finished && RbacTrue(w)
  {
    SummaryMeans(conds, FalseAt(stop, spec, w));
    if stop == Finished { EndIsReady(spec, w); }
  }

  /** Every pass that ends ready has published, and a pass that publishes ends ready unless the
      external config map it needs could not be written or RBAC is not settled. */
  lemma PublishingIsReadyIff(spec: Spec, count: nat, w: World)
    ensures ReadyPass(spec, count, w) ==> Publishes(spec, count, w)
    ensures Publishes(spec, count, w) ==>
      (ReadyPass(spec, count, w) <==> (NeedsExternal(spec) ==> w.external == Ok) && RbacTrue(w))
  {
    if Stop(spec, count, w) == Finished {
      FinishedIff(spec, count, w);
      assert !Fails(External, spec, count, w);
    } else if Stop(spec, count, w) == External {
      FirstFails(ALL, spec, count, w);
    }
  }

  lemma {:induction false} FirstFails(steps: seq<Step>, spec: Spec, count: nat, w: World)
    ensures First(steps, spec, count, w) != Finished ==> Fails(First(steps, spec, count, w), spec, count, w)
  {
    if steps != [] { FirstFails(steps[1..], spec, count, w); }
  }
}
