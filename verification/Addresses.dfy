/** The services of a database cluster and the address that is published from them. */
module Addresses {
  import opened Text
  import opened ShellText

  datatype DbType = NB | SB

  datatype Port = Port(name: string, port: nat)

  datatype Svc = Svc(name: string, namespace: string, headless: bool, loadBalancer: bool, ports: seq<Port>)

  const METRICS_PORT: nat := 1981

  function DbPort(db: DbType): nat { if db.SB? then 6642 else 6641 }

  function RaftPort(db: DbType): nat { if db.SB? then 6644 else 6643 }

  function PortName(db: DbType): string { if db.SB? then "south" else "north" }

  /** The service of one pod, and the load balancer's. */
  function Service(name: string, namespace: string, db: DbType, metrics: bool, loadBalancer: bool): Svc {
    var ports := [Port(PortName(db), DbPort(db)), Port(PortName(db) + "-raft", RaftPort(db))];
    Svc(name, namespace, false, loadBalancer, if metrics then ports + [Port("metrics", METRICS_PORT)] else ports)
  }

  function HeadlessService(name: string, namespace: string, db: DbType): Svc {
    Svc(name, namespace, true, false, [Port(PortName(db) + "-raft", RaftPort(db))])
  }

  /** A service this operator made for the cluster, with whatever metrics setting at the time. */
  predicate Made(s: Svc, db: DbType) {
    || s == Service(s.name, s.namespace, db, true, s.loadBalancer)
    || s == Service(s.name, s.namespace, db, false, s.loadBalancer)
    || s == HeadlessService(s.name, s.namespace, db)
  }

  /** The services of pods, in the order listed. */
  function PerPod(list: seq<Svc>): (r: seq<Svc>)
    ensures HavePorts(list) ==> HavePorts(r)
  {
    if list == [] then []
    else PerPod(list[..|list| - 1]) + if list[|list| - 1].headless || list[|list| - 1].loadBalancer then [] else [list[|list| - 1]]
  }

  predicate HavePorts(list: seq<Svc>) { forall i | 0 <= i < |list| :: list[i].ports != [] }

  function Scheme(tls: bool): string { if tls then "ssl" else "tcp" }

  function Endpoint(tls: bool, domain: string, s: Svc): string
    requires s.ports != []
  {
    Scheme(tls) + ":" + s.name + "." + s.namespace + ".svc." + domain + ":" + Decimal(s.ports[0].port)
  }

  function Endpoints(tls: bool, domain: string, pods: seq<Svc>): (r: seq<string>)
    requires HavePorts(pods)
    ensures |r| == |pods| && forall i | 0 <= i < |pods| :: r[i] == Endpoint(tls, domain, pods[i])
  {
    if pods == [] then [] else [Endpoint(tls, domain, pods[0])] + Endpoints(tls, domain, pods[1..])
  }

  lemma {:induction false} PerPodMeans(list: seq<Svc>)
    ensures forall s | s in PerPod(list) :: s in list && !s.headless && !s.loadBalancer
    ensures forall s | s in list && !s.headless && !s.loadBalancer :: s in PerPod(list)
  {
    if list != [] {
      var before := list[..|list| - 1];
      PerPodMeans(before);
      assert list == before + [list[|list| - 1]];
    }
  }

  /** What is published: one endpoint for each service of a pod. */
  function Address(tls: bool, domain: string, list: seq<Svc>): string
    requires HavePorts(list)
  {
    Join(Endpoints(tls, domain, PerPod(list)), ",")
  }

  lemma EndpointsSnoc(tls: bool, domain: string, pods: seq<Svc>, s: Svc)
    requires HavePorts(pods) && s.ports != []
    ensures Endpoints(tls, domain, pods + [s]) == Endpoints(tls, domain, pods) + [Endpoint(tls, domain, s)]
  {
  }

  lemma PerPodSnoc(list: seq<Svc>, i: nat)
    requires i < |list|
    ensures PerPod(list[..i + 1]) == PerPod(list[..i]) + if list[i].headless || list[i].loadBalancer then [] else [list[i]]
  {
    assert list[..i + 1][..i] == list[..i];
  }

  method InternalDbAddress(tls: bool, domain: string, list: seq<Svc>) returns (address: string)
    requires HavePorts(list)
    ensures address == Address(tls, domain, list)
  {
    var endpoints := [];
    for i := 0 to |list|
      invariant HavePorts(PerPod(list[..i])) && endpoints == Endpoints(tls, domain, PerPod(list[..i]))
    {
      var s := list[i];
      PerPodSnoc(list, i);
      if s.headless || s.loadBalancer { continue; }
      EndpointsSnoc(tls, domain, PerPod(list[..i]), s);
      endpoints := endpoints + [Endpoint(tls, domain, s)];
    }
    assert list[..|list|] == list;
    address := Join(endpoints, ",");
  }

  /** Names of Kubernetes objects and domains contain no comma. */
  predicate NoCommas(domain: string, list: seq<Svc>) {
    Without(domain, ',') && forall i | 0 <= i < |list| :: Without(list[i].name, ',') && Without(list[i].namespace, ',')
  }

  lemma DigitsWithout(n: nat, c: char)
    requires !IsDigit(c)
    ensures Without(Decimal(n), c)
  {
    DecimalShape(n);
  }

  lemma EndpointNoComma(tls: bool, domain: string, s: Svc)
    requires s.ports != [] && Without(domain, ',') && Without(s.name, ',') && Without(s.namespace, ',')
    ensures Without(Endpoint(tls, domain, s), ',')
  {
    DigitsWithout(s.ports[0].port, ',');
    var head := Scheme(tls) + ":" + s.name;
    var middle := "." + s.namespace + ".svc.";
    assert Without(head, ',') && Without(middle, ',');
    assert Endpoint(tls, domain, s) == head + middle + domain + ":" + Decimal(s.ports[0].port);
  }

  /** A client that splits the published address at the commas gets the endpoints of the pods'
      services, one for each and in order, unless there is none. */
  lemma AddressSplits(tls: bool, domain: string, list: seq<Svc>)
    requires HavePorts(list) && NoCommas(domain, list)
    ensures HavePorts(PerPod(list))
    ensures Split(Address(tls, domain, list), ',') == Endpoints(tls, domain, PerPod(list)) <==> PerPod(list) != []
    ensures Address(tls, domain, list) == "" <==> PerPod(list) == []
  {
    PerPodMeans(list);
    var endpoints := Endpoints(tls, domain, PerPod(list));
    forall i | 0 <= i < |endpoints| ensures Without(endpoints[i], ',') && endpoints[i] != "" {
      assert PerPod(list)[i] in list;
      EndpointNoComma(tls, domain, PerPod(list)[i]);
    }
    if endpoints != [] {
      SplitJoin(endpoints, ',');
      assert endpoints[0] != "";
    }
  }

  /** Every endpoint ends in the port of the database's own type, and in no other number: never in
      the RAFT or the metrics port. */
  lemma EndpointPort(tls: bool, domain: string, s: Svc, db: DbType, n: nat)
    requires Made(s, db) && !s.headless
    ensures s.ports != [] && AfterLastColon(Endpoint(tls, domain, s)) == Decimal(DbPort(db))
    ensures AfterLastColon(Endpoint(tls, domain, s)) == Decimal(n) <==> n == DbPort(db)
    ensures DbPort(db) !in {RaftPort(NB), RaftPort(SB), METRICS_PORT}
  {
    DigitsWithout(DbPort(db), ':');
    var before := Scheme(tls) + ":" + s.name + "." + s.namespace + ".svc." + domain;
    AfterLastColonOf(before, Decimal(DbPort(db)));
    assert Endpoint(tls, domain, s) == before + ":" + Decimal(DbPort(db));
    if Decimal(n) == Decimal(DbPort(db)) { DecimalInjective(n, DbPort(db)); }
  }
}
