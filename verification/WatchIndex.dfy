/** Which OVNDBClusters a changed secret or topology wakes, through the field indexes. */
module WatchIndex {
  import opened Options

  /** The watched fields of a custom resource. */
  datatype Cluster = Cluster(
    name: string,
    namespace: string,
    caBundleSecretName: string,
    tlsSecretName: Option<string>,
    metricsTlsSecretName: Option<string>,
    topologyRef: Option<string>)

  datatype Field = CaBundle | Tls | MetricsTls | Topology

  /** allWatchFields, in order. */
  const FIELDS := [CaBundle, Tls, MetricsTls, Topology]

  /** The index of a field: the keys under which a resource is found. */
  function Index(f: Field, c: Cluster): seq<string> {
    match f
    case CaBundle => if c.caBundleSecretName == "" then [] else [c.caBundleSecretName]
    case Tls => if c.tlsSecretName.None? then [] else [c.tlsSecretName.value]
    case MetricsTls => if c.metricsTlsSecretName.None? then [] else [c.metricsTlsSecretName.value]
    case Topology => if c.topologyRef.None? then [] else [c.topologyRef.value]
  }

  /** A field of the resource names the source. */
  predicate Names(c: Cluster, f: Field, source: string) {
    match f
    case CaBundle => c.caBundleSecretName == source
    case Tls => c.tlsSecretName == Some(source)
    case MetricsTls => c.metricsTlsSecretName == Some(source)
    case Topology => c.topologyRef == Some(source)
  }

  datatype Request = Request(name: string, namespace: string)

  function RequestOf(c: Cluster): Request { Request(c.name, c.namespace) }

  /** What the API lists for one field: the resources of the namespace indexed under the name. */
  function Listed(cs: seq<Cluster>, f: Field, source: string, namespace: string): seq<Cluster> {
    if cs == [] then []
    else
      var last := cs[|cs| - 1];
      Listed(cs[..|cs| - 1], f, source, namespace)
        + if last.namespace == namespace && source in Index(f, last) then [last] else []
  }

  function RequestsOf(cs: seq<Cluster>): seq<Request> {
    if cs == [] then [] else RequestsOf(cs[..|cs| - 1]) + [RequestOf(cs[|cs| - 1])]
  }

  function RequestsFor(cs: seq<Cluster>, fields: seq<Field>, source: string, namespace: string): seq<Request> {
    if fields == [] then []
    else
      RequestsFor(cs, fields[..|fields| - 1], source, namespace)
        + RequestsOf(Listed(cs, fields[|fields| - 1], source, namespace))
  }

  /** The fields before the first whose listing fails. */
  function ListedFields(fields: seq<Field>, fails: set<Field>): seq<Field> {
    if fields == [] || fields[0] in fails then [] else [fields[0]] + ListedFields(fields[1..], fails)
  }

  /** findObjectsForSrc: a failed listing ends the search with what was found so far. */
  method FindObjectsForSrc(cs: seq<Cluster>, source: string, namespace: string, fails: set<Field>) returns (requests: seq<Request>)
    ensures requests == RequestsFor(cs, ListedFields(FIELDS, fails), source, namespace)
  {
    requests := Search(cs, FIELDS, source, namespace, fails);
  }

  method Search(cs: seq<Cluster>, fields: seq<Field>, source: string, namespace: string, fails: set<Field>)
    returns (requests: seq<Request>)
    ensures requests == RequestsFor(cs, ListedFields(fields, fails), source, namespace)
  {
    requests := [];
    for i := 0 to |fields|
      invariant requests == RequestsFor(cs, fields[..i], source, namespace)
      invariant ListedFields(fields, fails) == fields[..i] + ListedFields(fields[i..], fails)
    {
      if fields[i] in fails {
        assert ListedFields(fields, fails) == fields[..i];
        return;
      }
      OneMoreField(cs, fields, i, source, namespace, fails);
      var crList := List(cs, fields[i], source, namespace);
      requests := Append(requests, crList);
    }
    assert fields[..|fields|] == fields;
    assert ListedFields(fields, fails) == fields;
  }

  lemma OneMoreField(cs: seq<Cluster>, fields: seq<Field>, i: nat, source: string, namespace: string, fails: set<Field>)
    requires i < |fields| && fields[i] !in fails
    ensures RequestsFor(cs, fields[..i + 1], source, namespace)
      == RequestsFor(cs, fields[..i], source, namespace) + RequestsOf(Listed(cs, fields[i], source, namespace))
    ensures fields[..i] + ListedFields(fields[i..], fails) == fields[..i + 1] + ListedFields(fields[i + 1..], fails)
  {
    assert fields[i..][1..] == fields[i + 1..];
    assert fields[..i + 1] == fields[..i] + [fields[i]] && fields[..i + 1][..i] == fields[..i];
  }

  method Append(requests: seq<Request>, crList: seq<Cluster>) returns (r: seq<Request>)
    ensures r == requests + RequestsOf(crList)
  {
    r := requests;
    for k := 0 to |crList|
      invariant r == requests + RequestsOf(crList[..k])
    {
      assert crList[..k + 1][..k] == crList[..k];
      r := r + [RequestOf(crList[k])];
    }
    assert crList[..|crList|] == crList;
  }

  method List(cs: seq<Cluster>, f: Field, source: string, namespace: string) returns (r: seq<Cluster>)
    ensures r == Listed(cs, f, source, namespace)
  {
    r := [];
    for i := 0 to |cs|
      invariant r == Listed(cs[..i], f, source, namespace)
    {
      assert cs[..i + 1][..i] == cs[..i];
      if cs[i].namespace == namespace && source in Index(f, cs[i]) { r := r + [cs[i]]; }
    }
    assert cs[..|cs|] == cs;
  }

  /* ---------- the index agrees with a scan ---------- */

  /** How many of these fields of the resource name the source. */
  function NamingFields(c: Cluster, fields: seq<Field>, source: string): nat {
    if fields == [] then 0
    else NamingFields(c, fields[..|fields| - 1], source) + if Names(c, fields[|fields| - 1], source) then 1 else 0
  }

  /** No two resources share name and namespace. */
  predicate Identified(cs: seq<Cluster>) {
    forall i, j | 0 <= i < j < |cs| :: RequestOf(cs[i]) != RequestOf(cs[j])
  }

  lemma IndexIsNames(c: Cluster, f: Field, source: string)
    requires source != ""
    ensures source in Index(f, c) <==> Names(c, f, source)
  {
  }

  predicate Requested(cs: seq<Cluster>, c: Cluster) { exists i | 0 <= i < |cs| :: RequestOf(cs[i]) == RequestOf(c) }

  function Count(rs: seq<Request>, r: Request): nat { multiset(rs)[r] }

  lemma CountSnoc(rs: seq<Request>, more: seq<Request>, r: Request)
    ensures Count(rs + more, r) == Count(rs, r) + Count(more, r)
  {
  }

  /** The listed resource's request stands in the list for it alone. */
  lemma {:induction false} ListedOnce(cs: seq<Cluster>, f: Field, source: string, namespace: string, c: Cluster)
    requires source != "" && Identified(cs)
    ensures !Requested(cs, c) ==> Count(RequestsOf(Listed(cs, f, source, namespace)), RequestOf(c)) == 0
    ensures c in cs ==> (Count(RequestsOf(Listed(cs, f, source, namespace)), RequestOf(c))
      == if c.namespace == namespace && Names(c, f, source) then 1 else 0)
  {
    if cs != [] {
      var before, last := cs[..|cs| - 1], cs[|cs| - 1];
      ListedOnce(before, f, source, namespace, c);
      ListedSnoc(cs, f, source, namespace, c);
      ApartFromLast(cs, c);
    }
  }

  lemma ListedSnoc(cs: seq<Cluster>, f: Field, source: string, namespace: string, c: Cluster)
    requires source != "" && cs != []
    ensures Count(RequestsOf(Listed(cs, f, source, namespace)), RequestOf(c))
      == Count(RequestsOf(Listed(cs[..|cs| - 1], f, source, namespace)), RequestOf(c))
        + if cs[|cs| - 1].namespace == namespace && Names(cs[|cs| - 1], f, source) && RequestOf(cs[|cs| - 1]) == RequestOf(c)
          then 1 else 0
  {
    var some, last := Listed(cs[..|cs| - 1], f, source, namespace), cs[|cs| - 1];
    IndexIsNames(last, f, source);
    if last.namespace == namespace && Names(last, f, source) {
      assert (some + [last])[..|some|] == some;
      CountSnoc(RequestsOf(some), [RequestOf(last)], RequestOf(c));
    } else {
      assert some + [] == some;
    }
  }

  lemma ApartFromLast(cs: seq<Cluster>, c: Cluster)
    requires Identified(cs) && cs != []
    ensures c == cs[|cs| - 1] ==> !Requested(cs[..|cs| - 1], c)
    ensures c in cs[..|cs| - 1] ==> RequestOf(cs[|cs| - 1]) != RequestOf(c)
    ensures c in cs ==> c == cs[|cs| - 1] || c in cs[..|cs| - 1]
    ensures !Requested(cs, c) ==> !Requested(cs[..|cs| - 1], c) && RequestOf(cs[|cs| - 1]) != RequestOf(c)
    ensures Identified(cs[..|cs| - 1])
  {
    var before := cs[..|cs| - 1];
    assert cs == before + [cs[|cs| - 1]];
    forall i | 0 <= i < |before|
      ensures RequestOf(before[i]) != RequestOf(cs[|cs| - 1]) && before[i] == cs[i]
    {
      assert RequestOf(cs[i]) != RequestOf(cs[|cs| - 1]);
    }
  }

  /** Each resource of the namespace is requested once for every field that names the source, and
      none of another namespace is. */
  lemma {:induction false} RequestsAgreeWithScan(cs: seq<Cluster>, fields: seq<Field>, source: string, namespace: string, c: Cluster)
    requires source != "" && Identified(cs) && c in cs
    ensures Count(RequestsFor(cs, fields, source, namespace), RequestOf(c))
      == if c.namespace == namespace then NamingFields(c, fields, source) else 0
  {
    if fields != [] {
      var before, f := fields[..|fields| - 1], fields[|fields| - 1];
      RequestsAgreeWithScan(cs, before, source, namespace, c);
      ListedOnce(cs, f, source, namespace, c);
      CountSnoc(RequestsFor(cs, before, source, namespace), RequestsOf(Listed(cs, f, source, namespace)), RequestOf(c));
    }
  }

  /** With error-free listings all four fields are searched. */
  lemma {:induction false} AllFieldsListed(fields: seq<Field>)
    ensures ListedFields(fields, {}) == fields
  {
    if fields != [] { AllFieldsListed(fields[1..]); }
  }

  /** The whole search. */
  lemma SearchIsScan(cs: seq<Cluster>, source: string, namespace: string, c: Cluster)
    requires source != "" && Identified(cs) && c in cs
    ensures Count(RequestsFor(cs, ListedFields(FIELDS, {}), source, namespace), RequestOf(c))
      == if c.namespace == namespace then NamingFields(c, FIELDS, source) else 0
  {
    AllFieldsListed(FIELDS);
    RequestsAgreeWithScan(cs, FIELDS, source, namespace, c);
  }
}
