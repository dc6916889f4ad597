/** OVNNorthd and the addresses it is deployed with, over all interleavings of the reconcilers. */
module NorthdAddresses {
  import opened Text
  import opened ShellText
  import opened Addresses
  import opened DbClusterPass

  /** Where a northd pass is: it reads one address after the other. */
  datatype Northd = Idle | HasNb(nb: string) | HasBoth(nb: string, sb: string)

  /** The addresses in the stored statuses, "" when there is none. */
  datatype State = State(nb: string, sb: string, northd: Northd)

  datatype Event =
    | DbPass(spec: Spec, domain: string, count: nat, w: World, persisted: bool)
    | Gone(db: DbType)     // the cluster is deleted, or a fresh one stands in its place
    | ReadNb
    | ReadSb
    | Deploy               // northd's StatefulSet is written with the two addresses
    | GiveUp               // the northd pass ends before that

  predicate Occurs(s: State, e: Event) {
    match e
    case DbPass(_, _, _, w, _) => HavePorts(w.svcs)
    case Gone(_) => true
    case ReadNb => s.northd.Idle?
    case ReadSb => s.northd.HasNb?
    case Deploy => s.northd.HasBoth?
    case GiveUp => !s.northd.Idle?
  }

  /** GetInternalEndpoint: an empty address is an error, and the pass is over. */
  function Apply(s: State, e: Event): State
    requires Occurs(s, e)
  {
    match e
    case DbPass(spec, domain, count, w, persisted) =>
      if !persisted || !Publishes(spec, count, w) then s
      else if spec.db.NB? then s.(nb := Address(spec.tls, domain, w.svcs))
      else s.(sb := Address(spec.tls, domain, w.svcs))
    case Gone(db) => if db.NB? then s.(nb := "") else s.(sb := "")
    case ReadNb => s.(northd := if s.nb == "" then Idle else HasNb(s.nb))
    case ReadSb => s.(northd := if s.sb == "" then Idle else HasBoth(s.northd.nb, s.sb))
    case Deploy => s.(northd := Idle)
    case GiveUp => s.(northd := Idle)
  }

  const START := State("", "", Idle)

  /** A run from the start, and the state before its event i. */
  predicate Runs(es: seq<Event>)
    decreases |es|, 0
  {
    es == [] || (Runs(es[..|es| - 1]) && Occurs(After(es[..|es| - 1]), es[|es| - 1]))
  }

  function After(es: seq<Event>): State
    requires Runs(es)
    decreases |es|, 1
  {
    if es == [] then START else Apply(After(es[..|es| - 1]), es[|es| - 1])
  }

  /** Event j published this address of this database, and its status was stored. */
  predicate PublishedAt(es: seq<Event>, j: nat, db: DbType, address: string) {
    j < |es| && es[j].DbPass? && es[j].persisted && es[j].spec.db == db
    && Publishes(es[j].spec, es[j].count, es[j].w)
    && HavePorts(es[j].w.svcs) && address == Address(es[j].spec.tls, es[j].domain, es[j].w.svcs)
  }

  ghost predicate Published(es: seq<Event>, db: DbType, address: string) {
    exists j: nat :: PublishedAt(es, j, db, address)
  }

  lemma PublishedMore(es: seq<Event>, db: DbType, address: string)
    requires es != [] && Published(es[..|es| - 1], db, address)
    ensures Published(es, db, address)
  {
    var j: nat :| PublishedAt(es[..|es| - 1], j, db, address);
    assert PublishedAt(es, j, db, address);
  }

  /** Addresses stored or read are published ones. */
  ghost predicate Grounded(es: seq<Event>, s: State) {
    && (s.nb != "" ==> Published(es, NB, s.nb))
    && (s.sb != "" ==> Published(es, SB, s.sb))
    && (!s.northd.Idle? ==> s.northd.nb != "" && Published(es, NB, s.northd.nb))
    && (s.northd.HasBoth? ==> s.northd.sb != "" && Published(es, SB, s.northd.sb))
  }

  lemma GroundedMore(es: seq<Event>, s: State)
    requires es != [] && Grounded(es[..|es| - 1], s)
    ensures Grounded(es, s)
  {
    if s.nb != "" { PublishedMore(es, NB, s.nb); }
    if s.sb != "" { PublishedMore(es, SB, s.sb); }
    if !s.northd.Idle? { PublishedMore(es, NB, s.northd.nb); }
    if s.northd.HasBoth? { PublishedMore(es, SB, s.northd.sb); }
  }

  lemma EventKeepsGrounded(es: seq<Event>, s: State, e: Event)
    requires Grounded(es, s) && Occurs(s, e)
    requires e.DbPass? && e.persisted && Publishes(e.spec, e.count, e.w) ==>
      Published(es, e.spec.db, Address(e.spec.tls, e.domain, e.w.svcs))
    ensures Grounded(es, Apply(s, e))
  {
    match e
    case DbPass(spec, domain, count, w, persisted) =>
    case Gone(db) =>
    case ReadNb =>
    case ReadSb =>
    case Deploy =>
    case GiveUp =>
  }

  lemma {:induction false} AlwaysGrounded(es: seq<Event>)
    requires Runs(es)
    ensures Grounded(es, After(es))
    decreases |es|
  {
    if es != [] {
      var before, e := es[..|es| - 1], es[|es| - 1];
      AlwaysGrounded(before);
      GroundedMore(es, After(before));
      if e.DbPass? && e.persisted && Publishes(e.spec, e.count, e.w) {
        assert PublishedAt(es, |es| - 1, e.spec.db, Address(e.spec.tls, e.domain, e.w.svcs));
      }
      EventKeepsGrounded(es, After(before), e);
    }
  }

  /** Over every interleaving: northd is deployed only with two non-empty addresses, each of them
      published and stored by an earlier pass over its own database. */
  lemma DeployedAddressesArePublished(es: seq<Event>)
    requires Runs(es + [Deploy])
    ensures Runs(es) && After(es).northd.HasBoth?
    ensures After(es).northd.nb != "" && Published(es, NB, After(es).northd.nb)
    ensures After(es).northd.sb != "" && Published(es, SB, After(es).northd.sb)
  {
    assert (es + [Deploy])[..|es|] == es;
    AlwaysGrounded(es);
  }

  /** Read at the comma, a published address that is not empty is a list of endpoints of pods'
      services, each on its own database's port. */
  lemma PublishedAddressReads(es: seq<Event>, db: DbType, address: string, j: nat)
    requires PublishedAt(es, j, db, address) && address != ""
    requires NoCommas(es[j].domain, es[j].w.svcs) && forall i | 0 <= i < |es[j].w.svcs| :: Made(es[j].w.svcs[i], db)
    ensures forall i | 0 <= i < |Split(address, ',')| :: AfterLastColon(Split(address, ',')[i]) == Decimal(DbPort(db))
    ensures |Split(address, ',')| == |PerPod(es[j].w.svcs)|
  {
    var e := es[j];
    AddressSplits(e.spec.tls, e.domain, e.w.svcs);
    PerPodMeans(e.w.svcs);
    var pods := PerPod(e.w.svcs);
    forall i | 0 <= i < |pods| ensures AfterLastColon(Endpoint(e.spec.tls, e.domain, pods[i])) == Decimal(DbPort(db)) {
      assert pods[i] in e.w.svcs;
      EndpointPort(e.spec.tls, e.domain, pods[i], db, 0);
    }
  }

  /* ---------- by a ready pass? ---------- */

  /** A world where every call succeeds, with these services. */
  function Smooth(svcs: seq<Svc>, pods: nat, external: Call): World {
    World(false, false, Ok, True, True, True, Ok, Ok, Ok, Ok, Ok, Ok, Ok, Ok, Ok, Ok, Ok, Ok, Ok, false,
      true, pods, pods, true, Ok, Ok, svcs, Ok, external)
  }

  /** The southbound cluster on an external network. */
  const EXTERNAL_SB := Spec(SB, true, false, false, false, false, false, 1, false)

  lemma SmoothPasses(spec: Spec, svcs: seq<Svc>, external: Call)
    requires svcs != []
    ensures Publishes(spec, 0, Smooth(svcs, spec.replicas, external))
    ensures Stop(spec, 0, Smooth(svcs, spec.replicas, external)) == if NeedsExternal(spec) && external != Ok then External else Finished
  {
    var w := Smooth(svcs, spec.replicas, external);
    forall s: Step | s != External ensures !Fails(s, spec, 0, w) {}
    if NeedsExternal(spec) && external != Ok {
      forall s | s in BEGINNING + INPUTS + DEPLOYING + ENDING[..4] ensures !Fails(s, spec, 0, w) {}
      FirstFinishedIff(BEGINNING + INPUTS + DEPLOYING + ENDING[..4], spec, 0, w);
      assert ALL == (BEGINNING + INPUTS + DEPLOYING + ENDING[..4]) + [External];
      FirstOfBoth(BEGINNING + INPUTS + DEPLOYING + ENDING[..4], [External], spec, 0, w);
      assert [External] == [External] + [];
      FirstCons(External, [], spec, 0, w);
    } else {
      FinishedIff(spec, 0, w);
    }
  }

  /** A pass published this address and ended ready. */
  ghost predicate PublishedByReady(es: seq<Event>, db: DbType, address: string) {
    exists j: nat :: PublishedAt(es, j, db, address) && ReadyPass(es[j].spec, es[j].count, es[j].w)
  }

  /** A pass published this address, wrote the external config map if it needs one, and found RBAC
      settled. */
  ghost predicate PublishedThrough(es: seq<Event>, db: DbType, address: string) {
    exists j: nat :: PublishedAt(es, j, db, address) && (NeedsExternal(es[j].spec) ==> es[j].w.external == Ok) && RbacTrue(es[j].w)
  }

  /** Exactly when an address northd is deployed with comes from a ready pass: some pass that published
      it got its external config map written, where it needs one, and its RBAC settled. */
  lemma DeployedByReadyIff(es: seq<Event>, db: DbType, address: string)
    requires Runs(es + [Deploy])
    requires address == if db.NB? then After(es).northd.nb else After(es).northd.sb
    ensures PublishedByReady(es, db, address) <==> PublishedThrough(es, db, address)
    ensures Published(es, db, address)
  {
    DeployedAddressesArePublished(es);
    forall j: nat | PublishedAt(es, j, db, address)
      ensures ReadyPass(es[j].spec, es[j].count, es[j].w)
        <==> (NeedsExternal(es[j].spec) ==> es[j].w.external == Ok) && RbacTrue(es[j].w)
    {
      PublishingIsReadyIff(es[j].spec, es[j].count, es[j].w);
    }
  }

  const PLAIN_NB := Spec(NB, false, false, false, false, false, false, 1, false)

  function OnePod(db: DbType): seq<Svc> { [Service("ovsdbserver-0", "openstack", db, false, false)] }

  lemma OnePodAddress(db: DbType)
    ensures HavePorts(OnePod(db)) && Address(false, "cluster.local", OnePod(db)) != ""
  {
    var pods := OnePod(db);
    PerPodMeans(pods);
    assert pods[0] in pods;
    assert PerPod(pods) != [];
    assert NoCommas("cluster.local", pods);
    AddressSplits(false, "cluster.local", pods);
  }

  /** The publishing pass of a southbound cluster on an external network, whose config map cannot be
      written. */
  lemma PublishedWithoutReady()
    ensures Publishes(EXTERNAL_SB, 0, Smooth(OnePod(SB), 1, Err)) && !ReadyPass(EXTERNAL_SB, 0, Smooth(OnePod(SB), 1, Err))
  {
    SmoothPasses(EXTERNAL_SB, OnePod(SB), Err);
  }

  lemma OneMore(es: seq<Event>, e: Event)
    requires Runs(es) && Occurs(After(es), e)
    ensures Runs(es + [e]) && After(es + [e]) == Apply(After(es), e)
  {
    assert (es + [e])[..|es|] == es;
  }

  const NB_PASS := DbPass(PLAIN_NB, "cluster.local", 0, Smooth(OnePod(NB), 1, Ok), true)

  const SB_PASS := DbPass(EXTERNAL_SB, "cluster.local", 0, Smooth(OnePod(SB), 1, Err), true)

  const READ_BOTH := [NB_PASS, SB_PASS, ReadNb, ReadSb]

  /** A run in which northd is deployed with an address that no ready pass published. */
  lemma DeployedWithoutReady()
    ensures Runs(READ_BOTH) && Runs(READ_BOTH + [Deploy])
    ensures After(READ_BOTH).northd
      == HasBoth(Address(false, "cluster.local", OnePod(NB)), Address(false, "cluster.local", OnePod(SB)))
    ensures !PublishedByReady(READ_BOTH, SB, After(READ_BOTH).northd.sb)
  {
    BothPublish();
    OneMore([NB_PASS, SB_PASS], ReadNb);
    assert [NB_PASS, SB_PASS] + [ReadNb] == [NB_PASS, SB_PASS, ReadNb];
    OneMore([NB_PASS, SB_PASS, ReadNb], ReadSb);
    assert [NB_PASS, SB_PASS, ReadNb] + [ReadSb] == READ_BOTH;
    OneMore(READ_BOTH, Deploy);
    PublishedWithoutReady();
    forall j: nat | PublishedAt(READ_BOTH, j, SB, After(READ_BOTH).northd.sb)
      ensures !ReadyPass(READ_BOTH[j].spec, READ_BOTH[j].count, READ_BOTH[j].w)
    {
      assert j == 1;
    }
  }

  lemma BothPublish()
    ensures Runs([NB_PASS, SB_PASS])
    ensures After([NB_PASS, SB_PASS])
      == State(Address(false, "cluster.local", OnePod(NB)), Address(false, "cluster.local", OnePod(SB)), Idle)
    ensures Address(false, "cluster.local", OnePod(NB)) != "" && Address(false, "cluster.local", OnePod(SB)) != ""
  {
    OnePodAddress(NB);
    OnePodAddress(SB);
    SmoothPasses(PLAIN_NB, OnePod(NB), Ok);
    SmoothPasses(EXTERNAL_SB, OnePod(SB), Err);
    OneMore([], NB_PASS);
    assert [] + [NB_PASS] == [NB_PASS];
    OneMore([NB_PASS], SB_PASS);
    assert [NB_PASS] + [SB_PASS] == [NB_PASS, SB_PASS];
  }

  /** And a ready pass need not publish an address that can be used: with no replicas the cluster
      is ready, the only service is the headless one, and the address is empty. */
  lemma ReadyWithoutAddress(db: DbType)
    ensures var spec := Spec(db, false, false, false, false, false, false, 0, false);
      var svcs := [HeadlessService("ovsdbserver", "openstack", db)];
      ReadyPass(spec, 0, Smooth(svcs, 0, Ok)) && HavePorts(svcs) && Address(false, "cluster.local", svcs) == ""
  {
    var spec := Spec(db, false, false, false, false, false, false, 0, false);
    var svcs := [HeadlessService("ovsdbserver", "openstack", db)];
    SmoothPasses(spec, svcs, Ok);
    assert svcs[..0] == [];
    assert PerPod(svcs) == [];
  }
}
