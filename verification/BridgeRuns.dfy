/** Every run of configure_physical_networks leaves the node as its last list of networks says. */
module BridgeRuns {
  import opened Text
  import opened ShellText
  import opened Bridges

  /* ---------- the list the operator hands over ---------- */

  /** getPhysicalNetworks: the keys of a map, in any order, become one line. */
  function PhysicalNetworks(keys: seq<string>): string { Join(Sort(keys), " ") }

  lemma DistinctOnce(xs: seq<string>, x: string)
    requires Distinct(xs)
    ensures multiset(xs)[x] <= 1
  {
    if x in xs {
      var i :| 0 <= i < |xs| && xs[i] == x;
      assert xs == xs[..i] + [x] + xs[i + 1..];
      assert x !in xs[..i] && x !in xs[i + 1..];
    }
  }

  lemma OnceDistinct(xs: seq<string>)
    requires forall x :: multiset(xs)[x] <= 1
    ensures Distinct(xs)
  {
    forall i, j | 0 <= i < j < |xs| ensures xs[i] != xs[j] {
      var l, r := xs[..j], xs[j..];
      assert xs == l + r && l[i] == xs[i] && r[0] == xs[j];
      assert xs[i] in multiset(l) && xs[j] in multiset(r);
      assert multiset(xs)[xs[i]] == multiset(l)[xs[i]] + multiset(r)[xs[i]];
    }
  }

  /** The script reads the keys back, each once, whatever order the map gave them in. */
  lemma NetworksReadBack(keys: seq<string>, others: seq<string>)
    requires AllClean(keys) && Distinct(keys) && multiset(keys) == multiset(others)
    ensures Words(PhysicalNetworks(keys)) == Sort(keys) && PhysicalNetworks(keys) == PhysicalNetworks(others)
    ensures AllClean(Sort(keys)) && Distinct(Sort(keys))
  {
    SortIsSorted(keys);
    forall x ensures multiset(Sort(keys))[x] <= 1 { DistinctOnce(keys, x); }
    OnceDistinct(Sort(keys));
    forall i | 0 <= i < |keys| ensures Clean(Sort(keys)[i]) {
      assert Sort(keys)[i] in multiset(keys);
    }
    WordsOfJoin(Sort(keys));
    SortUnique(keys, others);
  }

  /* ---------- what a run changes ---------- */

  lemma {:induction false} AddAllPorts(p: Ports, brs: seq<string>)
    ensures forall b :: b in AddAll(p, brs) <==> b in p || b in brs
    ensures forall b | b in p :: forall q | q in p[b] :: q in AddAll(p, brs)[b] && AddAll(p, brs)[b][q] == p[b][q]
    ensures forall b | b in brs :: AfterFirstDash(b) in AddAll(p, brs)[b]
    ensures forall b | b in p && b !in brs :: AddAll(p, brs)[b] == p[b]
    ensures forall b | b in AddAll(p, brs) :: forall q | q in AddAll(p, brs)[b] ::
      (b in p && q in p[b]) || (q == AfterFirstDash(b) && AddAll(p, brs)[b][q] == Plain)
  {
    if brs != [] { AddAllPorts(p, brs[..|brs| - 1]); }
  }

  lemma {:induction false} DeleteAllPorts(p: Ports, ovnBridge: string, brs: seq<string>)
    ensures forall b :: b in DeleteAll(p, ovnBridge, brs) <==> b in p && b !in brs
    ensures forall b | b in p && b !in brs && b != ovnBridge :: DeleteAll(p, ovnBridge, brs)[b] == p[b]
    ensures forall b | b in DeleteAll(p, ovnBridge, brs) :: forall q | q in DeleteAll(p, ovnBridge, brs)[b] ::
      q in p[b] && DeleteAll(p, ovnBridge, brs)[b][q] == p[b][q]
  {
    if brs != [] { DeleteAllPorts(p, ovnBridge, brs[..|brs| - 1]); }
  }

  lemma AfterBr(net: string)
    ensures AfterFirstDash(BrName(net)) == net
  {
    var s := BrName(net);
    assert s[2] == '-';
    var i := FindChar(s, '-');
    assert s[0] == 'b' && s[1] == 'r';
    assert forall k | 0 <= k < i :: s[..i][k] == s[k];
    assert s[3..] == net;
  }

  lemma BrNamesCount(nets: seq<string>, net: string)
    ensures BrName(net) in BrNames(nets) <==> net in nets
    ensures Distinct(nets) ==> Distinct(BrNames(nets))
  {
    forall a: string, b: string | BrName(a) == BrName(b) ensures a == b {
      assert a == BrName(a)[3..] && b == BrName(b)[3..];
    }
    if net in nets {
      var i :| 0 <= i < |nets| && nets[i] == net;
      assert BrNames(nets)[i] == BrName(net);
    }
  }

  /** The first and the last network of a list. */
  predicate AtAnEnd(nets: seq<string>, net: string) { nets != [] && (net == nets[0] || net == nets[|nets| - 1]) }

  /** A run deletes exactly the bridges of the first and last network mapped before that are no
      longer wanted, and creates exactly those wanted that are not one of these two. */
  lemma RunDifference(before: seq<string>, wanted: seq<string>, net: string)
    requires AllClean(before) && Distinct(before) && AllClean(wanted) && Distinct(wanted)
    ensures BrName(net) in ToDelete(Mapping(before), Join(wanted, " ")) <==> AtAnEnd(before, net) && net !in wanted
    ensures BrName(net) in ToAdd(Mapping(before), Join(wanted, " ")) <==> net in wanted && !AtAnEnd(before, net)
  {
    WordsOfJoin(wanted);
    CurrentIsReadBack(before);
    var names := BrNames(wanted);
    forall i | 0 <= i < |wanted| ensures Literal(names[i]) { PairIsWord(wanted[i]); }
    SetDifferenceIsDifference(ReadBack(before), names);
    SetDifferenceIsDifference(names, ReadBack(before));
    BrNamesCount(wanted, net);
    BrNamesCount(before, net);
    DistinctOnce(names, BrName(net));
    ReadBackOnce(before, net);
    var toDelete := ToDelete(Mapping(before), Join(wanted, " "));
    var toAdd := ToAdd(Mapping(before), Join(wanted, " "));
    assert BrName(net) in toDelete <==> BrName(net) in multiset(toDelete);
    assert BrName(net) in toAdd <==> BrName(net) in multiset(toAdd);
    assert BrName(net) in names <==> BrName(net) in multiset(names);
  }

  lemma ReadBackOnce(nets: seq<string>, net: string)
    requires Distinct(nets)
    ensures multiset(ReadBack(nets))[BrName(net)] == if AtAnEnd(nets, net) then 1 else 0
  {
    var r := ReadBack(nets);
    forall a: string, b: string | BrName(a) == BrName(b) ensures a == b {
      assert a == BrName(a)[3..] && b == BrName(b)[3..];
    }
    DistinctOnce(r, BrName(net));
    assert BrName(net) in r <==> BrName(net) in multiset(r);
  }

  /* ---------- runs ---------- */

  /** The stored mapping is that of these networks. */
  predicate Mapped(n: Node, nets: seq<string>) {
    n.stored == Mapping(nets) && AllClean(nets) && Distinct(nets) && NoClash(n.ports)
  }

  /** Every mapped network has its bridge, with a plain port named after the network. */
  predicate Consistent(n: Node, nets: seq<string>) {
    Mapped(n, nets) && forall net | net in nets :: HasPort(n.ports, net)
  }

  predicate HasPort(p: Ports, net: string) { BrName(net) in p && net in p[BrName(net)] }

  /** No patch port carries the name that belongs to its bridge's plain port. */
  predicate NoClash(p: Ports) {
    forall b | b in p :: AfterFirstDash(b) in p[b] ==> p[b][AfterFirstDash(b)] == Plain
  }

  /** Which bridges of mapped networks a run leaves: a network of the list before loses its bridge
      exactly when it is not wanted and stood first or last, so the bridges in between stay. */
  lemma BridgesAfterRun(n: Node, ovnBridge: string, before: seq<string>, wanted: seq<string>, net: string)
    requires Consistent(n, before) && AllClean(wanted) && Distinct(wanted)
    ensures BrName(net) in Configure(n, ovnBridge, Join(wanted, " ")).ports <==>
      net in wanted || (BrName(net) in n.ports && !AtAnEnd(before, net))
  {
    RunDifference(before, wanted, net);
    var toAdd := ToAdd(n.stored, Join(wanted, " "));
    AddAllPorts(n.ports, toAdd);
    DeleteAllPorts(AddAll(n.ports, toAdd), ovnBridge, ToDelete(n.stored, Join(wanted, " ")));
    if net in wanted && AtAnEnd(before, net) { assert HasPort(n.ports, net); }
  }

  /** Every bridge no longer wanted goes exactly when no network between the first and the last
      one mapped is dropped; with at most two mapped before there is none in between. */
  lemma RemovesAllIff(n: Node, ovnBridge: string, before: seq<string>, wanted: seq<string>)
    requires Consistent(n, before) && AllClean(wanted) && Distinct(wanted)
    ensures DroppedAreGone(before, wanted, Configure(n, ovnBridge, Join(wanted, " ")).ports)
      <==> forall i | 0 < i < |before| - 1 :: before[i] in wanted
    ensures |before| <= 2 ==> DroppedAreGone(before, wanted, Configure(n, ovnBridge, Join(wanted, " ")).ports)
  {
    var after := Configure(n, ovnBridge, Join(wanted, " ")).ports;
    forall net | net in before ensures BrName(net) in after <==> net in wanted || !AtAnEnd(before, net) {
      assert HasPort(n.ports, net);
      BridgesAfterRun(n, ovnBridge, before, wanted, net);
    }
    DroppedMiddles(before, wanted, after);
  }

  predicate DroppedAreGone(before: seq<string>, wanted: seq<string>, after: Ports) {
    forall net | net in before && net !in wanted :: BrName(net) !in after
  }

  lemma DroppedMiddles(before: seq<string>, wanted: seq<string>, after: Ports)
    requires Distinct(before)
    requires forall net | net in before :: BrName(net) in after <==> net in wanted || !AtAnEnd(before, net)
    ensures DroppedAreGone(before, wanted, after) <==> forall i | 0 < i < |before| - 1 :: before[i] in wanted
  {
    if forall i | 0 < i < |before| - 1 :: before[i] in wanted {
      forall net | net in before && net !in wanted ensures BrName(net) !in after {
        var i :| 0 <= i < |before| && before[i] == net;
        assert i == 0 || i == |before| - 1;
      }
    } else {
      var i :| 0 < i < |before| - 1 && before[i] !in wanted;
      assert before[i] in before && !AtAnEnd(before, before[i]);
    }
  }

  predicate KeepsPorts(p: Ports, q: Ports, b: string) {
    b in p ==> b in q && forall x | x in p[b] :: x in q[b] && q[b][x] == p[b][x]
  }

  /** A wanted bridge that exists keeps all its ports, and a wanted network has its bridge and port
      after a run exactly when it had them, or was not the first or the last mapped. */
  lemma WantedAfterRun(n: Node, ovnBridge: string, before: seq<string>, wanted: seq<string>, net: string)
    requires Mapped(n, before) && AllClean(wanted) && Distinct(wanted)
    requires net in wanted && BrName(net) != ovnBridge
    ensures HasPort(Configure(n, ovnBridge, Join(wanted, " ")).ports, net) <==>
      HasPort(n.ports, net) || !AtAnEnd(before, net)
    ensures KeepsPorts(n.ports, Configure(n, ovnBridge, Join(wanted, " ")).ports, BrName(net))
  {
    RunDifference(before, wanted, net);
    var toAdd := ToAdd(n.stored, Join(wanted, " "));
    AddAllPorts(n.ports, toAdd);
    DeleteAllPorts(AddAll(n.ports, toAdd), ovnBridge, ToDelete(n.stored, Join(wanted, " ")));
    AfterBr(net);
  }

  lemma RunKeepsNoClash(n: Node, ovnBridge: string, physicalNetworks: string)
    requires NoClash(n.ports)
    ensures NoClash(Configure(n, ovnBridge, physicalNetworks).ports)
  {
    var toAdd := ToAdd(n.stored, physicalNetworks);
    AddAllPorts(n.ports, toAdd);
    DeleteAllPorts(AddAll(n.ports, toAdd), ovnBridge, ToDelete(n.stored, physicalNetworks));
  }

  /** The node is as the list says after a run exactly when each wanted network that was mapped
      first or last still had its bridge and port. */
  lemma CompletedRunIff(n: Node, ovnBridge: string, before: seq<string>, wanted: seq<string>)
    requires Mapped(n, before) && AllClean(wanted) && Distinct(wanted) && Apart(ovnBridge, wanted)
    ensures Consistent(Configure(n, ovnBridge, Join(wanted, " ")), wanted) <==>
      forall net | net in wanted && AtAnEnd(before, net) :: HasPort(n.ports, net)
  {
    WordsOfJoin(wanted);
    RunKeepsNoClash(n, ovnBridge, Join(wanted, " "));
    forall net | net in wanted
      ensures HasPort(Configure(n, ovnBridge, Join(wanted, " ")).ports, net) <==>
        HasPort(n.ports, net) || !AtAnEnd(before, net)
    {
      WantedAfterRun(n, ovnBridge, before, wanted, net);
    }
  }

  /** No network is named so that its bridge is the integration bridge. */
  predicate Apart(ovnBridge: string, nets: seq<string>) { forall net | net in nets :: BrName(net) != ovnBridge }

  /** The first node is as its empty list says. */
  lemma EmptyIsConsistent()
    ensures Consistent(Node(map[], ""), [])
  {
  }

  /* ---------- a middle bridge that stays ---------- */

  /** The bridge of the network between two others stays when all three are dropped. */
  lemma MiddleStays(ovnBridge: string, nets: seq<string>)
    requires |nets| == 3 && AllClean(nets) && Distinct(nets) && Apart(ovnBridge, nets)
    ensures var n := Configure(Node(map[], ""), ovnBridge, Join(nets, " "));
      Consistent(n, nets) && BrName(nets[1]) in Configure(n, ovnBridge, Join([], " ")).ports
  {
    var n := Configure(Node(map[], ""), ovnBridge, Join(nets, " "));
    CompletedRunIff(Node(map[], ""), ovnBridge, [], nets);
    assert HasPort(n.ports, nets[1]);
    BridgesAfterRun(n, ovnBridge, nets, [], nets[1]);
  }

  /* ---------- runs, and runs cut short ---------- */

  datatype Event =
    | Run(keys: seq<string>)
    | Aborted(keys: seq<string>, cut: Cut)
    | Elsewhere(ports: Ports)

  /** Between runs ovn-controller adds and removes patch ports, and anyone adds ports and bridges;
      plain ports stay. */
  predicate OthersMay(p: Ports, q: Ports) {
    && NoClash(q)
    && forall b | b in p :: b in q && forall x | x in p[b] && p[b][x] == Plain :: x in q[b] && q[b][x] == Plain
  }

  /** The networks a run asks for are map keys that the shell can carry, none of them the
      integration bridge's. */
  ghost predicate Occurs(n: Node, e: Event, ovnBridge: string) {
    if e.Elsewhere? then OthersMay(n.ports, e.ports)
    else AllClean(e.keys) && Distinct(e.keys) && Apart(ovnBridge, e.keys)
  }

  function Apply(n: Node, ovnBridge: string, e: Event): Node {
    match e
    case Run(keys) => Configure(n, ovnBridge, PhysicalNetworks(keys))
    case Aborted(keys, cut) => Interrupt(n, ovnBridge, PhysicalNetworks(keys), cut)
    case Elsewhere(ports) => n.(ports := ports)
  }

  ghost predicate Runs(n: Node, ovnBridge: string, es: seq<Event>)
    decreases |es|
  {
    es == [] || (Occurs(n, es[0], ovnBridge) && Runs(Apply(n, ovnBridge, es[0]), ovnBridge, es[1..]))
  }

  /** After each completed run the node is as the list of that run says. */
  ghost predicate CompletedAreConsistent(n: Node, ovnBridge: string, es: seq<Event>)
    decreases |es|
  {
    es == [] || (
      && (es[0].Run? ==> Consistent(Apply(n, ovnBridge, es[0]), Sort(es[0].keys)))
      && CompletedAreConsistent(Apply(n, ovnBridge, es[0]), ovnBridge, es[1..]))
  }

  /** The networks of the last completed run, as printed. */
  function MappedAfter(before: seq<string>, e: Event): seq<string> { if e.Run? then Sort(e.keys) else before }

  /** The mapped networks whose bridges a run cut short deletes. */
  function Deleted(before: seq<string>, e: Event): set<string> {
    if e.Aborted? && e.cut.Deleting?
    then set net | net in before && BrName(net) in Upto(ToDelete(Mapping(before), PhysicalNetworks(e.keys)), e.cut.done)
    else {}
  }

  /** The mapped networks that lost their bridges since the last completed run. */
  function LostAfter(before: seq<string>, lost: set<string>, e: Event): set<string> {
    if e.Run? then {} else lost + Deleted(before, e)
  }

  /** No completed run wants a network back whose bridge a run cut short after the previous
      completed one has deleted. */
  predicate NoneWantedBack(before: seq<string>, lost: set<string>, es: seq<Event>)
    decreases |es|
  {
    es == [] || (
      && (es[0].Run? ==> forall net | net in lost :: net !in es[0].keys)
      && NoneWantedBack(MappedAfter(before, es[0]), LostAfter(before, lost, es[0]), es[1..]))
  }

  /** Nobody else makes bridges. */
  ghost predicate OthersMakeNone(n: Node, ovnBridge: string, es: seq<Event>)
    decreases |es|
  {
    es == [] || (
      && (es[0].Elsewhere? ==> es[0].ports.Keys <= n.ports.Keys)
      && OthersMakeNone(Apply(n, ovnBridge, es[0]), ovnBridge, es[1..]))
  }

  /** All mapped networks but the lost ones have bridge and port; lost are only the first and the last. */
  predicate Sound(n: Node, ovnBridge: string, before: seq<string>, lost: set<string>) {
    && Mapped(n, before) && Apart(ovnBridge, before)
    && (forall net | net in lost :: AtAnEnd(before, net))
    && forall net | net in before && net !in lost :: HasPort(n.ports, net)
  }

  predicate Gone(n: Node, lost: set<string>) { forall net | net in lost :: BrName(net) !in n.ports }

  lemma UptoIn(xs: seq<string>, k: nat, x: string)
    ensures x in Upto(xs, k) ==> x in xs
  {
  }

  lemma DeletedAreDropped(before: seq<string>, e: Event, net: string)
    requires AllClean(before) && Distinct(before) && e.Aborted? && AllClean(e.keys) && Distinct(e.keys)
    requires net in Deleted(before, e)
    ensures AtAnEnd(before, net) && net !in e.keys
  {
    NetworksReadBack(e.keys, e.keys);
    SortIsSorted(e.keys);
    RunDifference(before, Sort(e.keys), net);
    UptoIn(ToDelete(Mapping(before), PhysicalNetworks(e.keys)), e.cut.done, BrName(net));
    assert net in multiset(Sort(e.keys)) <==> net in multiset(e.keys);
  }

  /** A run cut short while adding takes nothing away. */
  lemma CutWhileAdding(n: Node, ovnBridge: string, pn: string, k: nat, bare: bool)
    requires NoClash(n.ports)
    ensures var p := Interrupt(n, ovnBridge, pn, Adding(k, bare)).ports;
      NoClash(p) && forall b | b in n.ports :: b in p && n.ports[b].Keys <= p[b].Keys
    ensures forall b | b in Interrupt(n, ovnBridge, pn, Adding(k, bare)).ports :: b in n.ports || b in ToAdd(n.stored, pn)
  {
    var toAdd := ToAdd(n.stored, pn);
    AddAllPorts(n.ports, Upto(toAdd, k));
    forall b ensures b in Upto(toAdd, k) ==> b in toAdd { UptoIn(toAdd, k, b); }
  }

  /** One cut short while deleting takes the bridges it has come to, and some patch ports. */
  lemma CutWhileDeleting(n: Node, ovnBridge: string, pn: string, k: nat, peers: set<string>)
    requires NoClash(n.ports)
    ensures var p := Interrupt(n, ovnBridge, pn, Deleting(k, peers)).ports;
      NoClash(p)
      && (forall b | b in n.ports && b !in Upto(ToDelete(n.stored, pn), k) && b != ovnBridge :: b in p && n.ports[b].Keys <= p[b].Keys)
      && forall b | b in p :: (b in n.ports || b in ToAdd(n.stored, pn)) && b !in Upto(ToDelete(n.stored, pn), k)
  {
    var toAdd := ToAdd(n.stored, pn);
    AddAllPorts(n.ports, toAdd);
    DeleteAllPorts(AddAll(n.ports, toAdd), ovnBridge, Upto(ToDelete(n.stored, pn), k));
  }

  lemma AbortedKeepsSound(n: Node, ovnBridge: string, before: seq<string>, lost: set<string>, e: Event)
    requires Sound(n, ovnBridge, before, lost) && Occurs(n, e, ovnBridge) && e.Aborted?
    ensures Sound(Apply(n, ovnBridge, e), ovnBridge, before, LostAfter(before, lost, e))
    ensures Gone(n, lost) ==> Gone(Apply(n, ovnBridge, e), LostAfter(before, lost, e))
  {
    var pn := PhysicalNetworks(e.keys);
    NetworksReadBack(e.keys, e.keys);
    match e.cut {
      case Adding(k, bare) => CutWhileAdding(n, ovnBridge, pn, k, bare);
      case Deleting(k, peers) => CutWhileDeleting(n, ovnBridge, pn, k, peers);
    }
    forall net | net in Deleted(before, e) ensures AtAnEnd(before, net) { DeletedAreDropped(before, e, net); }
    forall net | net in before ensures BrName(net) in ToAdd(n.stored, pn) ==> !AtAnEnd(before, net) {
      RunDifference(before, Sort(e.keys), net);
    }
  }

  lemma RunIsConsistentIff(n: Node, ovnBridge: string, before: seq<string>, lost: set<string>, e: Event)
    requires Sound(n, ovnBridge, before, lost) && Occurs(n, e, ovnBridge) && e.Run?
    ensures (forall net | net in lost :: net !in e.keys) ==> Consistent(Apply(n, ovnBridge, e), Sort(e.keys))
    ensures Gone(n, lost) && Consistent(Apply(n, ovnBridge, e), Sort(e.keys)) ==> forall net | net in lost :: net !in e.keys
    ensures Apart(ovnBridge, Sort(e.keys))
  {
    NetworksReadBack(e.keys, e.keys);
    SortIsSorted(e.keys);
    forall net ensures net in Sort(e.keys) <==> net in e.keys {
      assert net in multiset(Sort(e.keys)) <==> net in multiset(e.keys);
    }
    CompletedRunIff(n, ovnBridge, before, Sort(e.keys));
  }

  lemma ElsewhereKeepsSound(n: Node, ovnBridge: string, before: seq<string>, lost: set<string>, e: Event)
    requires Sound(n, ovnBridge, before, lost) && Occurs(n, e, ovnBridge) && e.Elsewhere?
    ensures Sound(Apply(n, ovnBridge, e), ovnBridge, before, lost)
  {
    forall net | net in before && net !in lost ensures HasPort(e.ports, net) {
      AfterBr(net);
      assert HasPort(n.ports, net);
    }
  }

  /** Over every run, with runs cut short anywhere: each completed one leaves the node as its list
      says when none wants a network back that a run cut short has deleted; and only then, if nobody
      else makes the bridge. */
  lemma {:induction false} CompletedAreConsistentIff(
    n: Node, ovnBridge: string, before: seq<string>, lost: set<string>, es: seq<Event>)
    requires Sound(n, ovnBridge, before, lost) && Runs(n, ovnBridge, es)
    ensures NoneWantedBack(before, lost, es) ==> CompletedAreConsistent(n, ovnBridge, es)
    ensures Gone(n, lost) && OthersMakeNone(n, ovnBridge, es) && CompletedAreConsistent(n, ovnBridge, es) ==>
      NoneWantedBack(before, lost, es)
    decreases |es|
  {
    if es != [] {
      var e := es[0];
      match e {
        case Run(_) => RunIsConsistentIff(n, ovnBridge, before, lost, e);
        case Aborted(_, _) => AbortedKeepsSound(n, ovnBridge, before, lost, e);
        case Elsewhere(_) => ElsewhereKeepsSound(n, ovnBridge, before, lost, e);
      }
      if Sound(Apply(n, ovnBridge, e), ovnBridge, MappedAfter(before, e), LostAfter(before, lost, e)) {
        CompletedAreConsistentIff(
          Apply(n, ovnBridge, e), ovnBridge, MappedAfter(before, e), LostAfter(before, lost, e), es[1..]);
      }
    }
  }

  /** A run cut short is tried again with the same networks until one completes. */
  predicate TriedAgain(es: seq<Event>)
    decreases |es|
  {
    es == [] || (TriedAgain(es[1..]) && (es[0].Aborted? ==> NextTries(es[1..], es[0].keys)))
  }

  /** The next run, cut short or not, is for these networks. */
  predicate NextTries(es: seq<Event>, keys: seq<string>)
    decreases |es|
  {
    es == [] || (if es[0].Elsewhere? then NextTries(es[1..], keys) else multiset(es[0].keys) == multiset(keys))
  }

  /** Then no completed run wants back what was deleted, so all of them leave the node as they should. */
  lemma {:induction false} TriedAgainIsSafe(
    n: Node, ovnBridge: string, before: seq<string>, lost: set<string>, keys: seq<string>, es: seq<Event>)
    requires Sound(n, ovnBridge, before, lost) && Runs(n, ovnBridge, es) && TriedAgain(es)
    requires lost == {} || (NextTries(es, keys) && forall net | net in lost :: net !in keys)
    ensures NoneWantedBack(before, lost, es)
    decreases |es|
  {
    if es != [] {
      var e := es[0];
      match e
      case Run(_) =>
        SameKeys(e.keys, keys);
        RunIsConsistentIff(n, ovnBridge, before, lost, e);
        TriedAgainIsSafe(Apply(n, ovnBridge, e), ovnBridge, Sort(e.keys), {}, keys, es[1..]);
      case Aborted(_, _) =>
        SameKeys(e.keys, keys);
        AbortedKeepsSound(n, ovnBridge, before, lost, e);
        forall net | net in Deleted(before, e) ensures net !in e.keys { DeletedAreDropped(before, e, net); }
        TriedAgainIsSafe(Apply(n, ovnBridge, e), ovnBridge, before, LostAfter(before, lost, e), e.keys, es[1..]);
      case Elsewhere(_) =>
        ElsewhereKeepsSound(n, ovnBridge, before, lost, e);
        assert LostAfter(before, lost, e) == lost;
        TriedAgainIsSafe(Apply(n, ovnBridge, e), ovnBridge, before, lost, keys, es[1..]);
    }
  }

  lemma SameKeys(xs: seq<string>, ys: seq<string>)
    ensures multiset(xs) == multiset(ys) ==> forall x :: x in xs <==> x in ys
  {
    if multiset(xs) == multiset(ys) {
      forall x ensures x in xs <==> x in ys { assert x in multiset(xs) <==> x in multiset(ys); }
    }
  }

  function Exec(n: Node, ovnBridge: string, es: seq<Event>): Node
    decreases |es|
  {
    if es == [] then n else Exec(Apply(n, ovnBridge, es[0]), ovnBridge, es[1..])
  }

  function MappedAtEnd(before: seq<string>, es: seq<Event>): seq<string>
    decreases |es|
  {
    if es == [] then before else MappedAtEnd(MappedAfter(before, es[0]), es[1..])
  }

  function LostAtEnd(before: seq<string>, lost: set<string>, es: seq<Event>): set<string>
    decreases |es|
  {
    if es == [] then lost else LostAtEnd(MappedAfter(before, es[0]), LostAfter(before, lost, es[0]), es[1..])
  }

  /** And at every moment of such a run each network in the stored mapping, which is that of the last
      completed run, has its bridge and port, unless a run cut short since then has deleted it. */
  lemma {:induction false} AlwaysSound(n: Node, ovnBridge: string, before: seq<string>, lost: set<string>, es: seq<Event>)
    requires Sound(n, ovnBridge, before, lost) && Runs(n, ovnBridge, es) && NoneWantedBack(before, lost, es)
    ensures Sound(Exec(n, ovnBridge, es), ovnBridge, MappedAtEnd(before, es), LostAtEnd(before, lost, es))
    decreases |es|
  {
    if es != [] {
      var e := es[0];
      match e {
        case Run(_) => RunIsConsistentIff(n, ovnBridge, before, lost, e);
        case Aborted(_, _) => AbortedKeepsSound(n, ovnBridge, before, lost, e);
        case Elsewhere(_) => ElsewhereKeepsSound(n, ovnBridge, before, lost, e);
      }
      AlwaysSound(Apply(n, ovnBridge, e), ovnBridge, MappedAfter(before, e), LostAfter(before, lost, e), es[1..]);
    }
  }

  /** From the first start on: runs tried again after being cut short always leave the node as their
      list says; when nobody else makes bridges, all do exactly when none wants a deleted one back. */
  lemma AlwaysConsistentIff(ovnBridge: string, es: seq<Event>)
    requires Runs(Node(map[], ""), ovnBridge, es)
    ensures TriedAgain(es) ==> CompletedAreConsistent(Node(map[], ""), ovnBridge, es)
    ensures OthersMakeNone(Node(map[], ""), ovnBridge, es) ==>
      (CompletedAreConsistent(Node(map[], ""), ovnBridge, es) <==> NoneWantedBack([], {}, es))
  {
    EmptyIsConsistent();
    CompletedAreConsistentIff(Node(map[], ""), ovnBridge, [], {}, es);
    if TriedAgain(es) { TriedAgainIsSafe(Node(map[], ""), ovnBridge, [], {}, [], es); }
  }

  lemma OneToDelete(net: string)
    requires Clean(net)
    ensures ToDelete(Mapping([net]), "") == [BrName(net)] && ToAdd(Mapping([net]), "") == []
  {
    CurrentIsReadBack([net]);
    var br := [BrName(net)];
    SetDifferenceIsDifference(br, []);
    SetDifferenceIsDifference([], br);
    var gone := SetDifference(Join(br, " "), "");
    assert |multiset(gone)| == |gone| == 1 && gone[0] in multiset(gone);
    assert |multiset(SetDifference("", Join(br, " ")))| == 0;
  }

  lemma RunOfOne(n: Node, ovnBridge: string, net: string)
    requires Clean(net) && BrName(net) != ovnBridge
    ensures Apply(n, ovnBridge, Run([net])) == Configure(n, ovnBridge, net)
    ensures Apply(n, ovnBridge, Run([net])).stored == Mapping([net])
  {
    var nets := [net];
    assert Join(nets, " ") == net;
    assert nets[1..] == [];
    assert Sort(nets) == nets;
    WordAlone(net);
  }

  lemma AbortedRun(n: Node, ovnBridge: string, net: string)
    requires n.stored == Mapping([net]) && Clean(net)
    ensures var m := Apply(n, ovnBridge, Aborted([], Deleting(1, {})));
      m.stored == Mapping([net]) && BrName(net) !in m.ports
  {
    OneToDelete(net);
    DeleteAllPorts(n.ports, ovnBridge, [BrName(net)]);
    assert PhysicalNetworks([]) == "" && Upto([BrName(net)], 1) == [BrName(net)];
  }

  lemma NotAddedAgain(m: Node, ovnBridge: string, net: string)
    requires m.stored == Mapping([net]) && BrName(net) !in m.ports && Clean(net)
    ensures BrName(net) !in Configure(m, ovnBridge, net).ports
  {
    assert Join([net], " ") == net;
    RunDifference([net], [net], net);
    var toAdd := ToAdd(m.stored, net);
    AddAllPorts(m.ports, toAdd);
    DeleteAllPorts(AddAll(m.ports, toAdd), ovnBridge, ToDelete(m.stored, net));
  }

  lemma RunsOfThree(n: Node, ovnBridge: string, a: Event, b: Event, c: Event)
    requires Occurs(n, a, ovnBridge) && Occurs(Apply(n, ovnBridge, a), b, ovnBridge)
    requires Occurs(Apply(Apply(n, ovnBridge, a), ovnBridge, b), c, ovnBridge)
    ensures Runs(n, ovnBridge, [a, b, c])
    ensures Exec(n, ovnBridge, [a, b, c]) == Apply(Apply(Apply(n, ovnBridge, a), ovnBridge, b), ovnBridge, c)
  {
    var m := Apply(Apply(n, ovnBridge, a), ovnBridge, b);
    assert [a, b, c][1..] == [b, c] && [b, c][1..] == [c] && [c][1..] == [];
    assert Exec(m, ovnBridge, [c]) == Apply(m, ovnBridge, c) && Runs(m, ovnBridge, [c]);
    assert Exec(Apply(n, ovnBridge, a), ovnBridge, [b, c]) == Apply(m, ovnBridge, c);
  }

  /** Three runs that can happen: one adds a network, one that drops it fails after deleting the
      bridge, and one wants it again: the mapping names a bridge that is not there. */
  lemma AbortedRunLosesBridge(ovnBridge: string, net: string)
    requires Clean(net) && BrName(net) != ovnBridge
    ensures var es := [Run([net]), Aborted([], Deleting(1, {})), Run([net])];
      Runs(Node(map[], ""), ovnBridge, es)
      && Exec(Node(map[], ""), ovnBridge, es).stored == Mapping([net])
      && BrName(net) !in Exec(Node(map[], ""), ovnBridge, es).ports
  {
    var start, run, aborted := Node(map[], ""), Run([net]), Aborted([], Deleting(1, {}));
    var n := Apply(start, ovnBridge, run);
    var m := Apply(n, ovnBridge, aborted);
    RunOfOne(start, ovnBridge, net);
    AbortedRun(n, ovnBridge, net);
    RunOfOne(m, ovnBridge, net);
    NotAddedAgain(m, ovnBridge, net);
    RunsOfThree(start, ovnBridge, run, aborted, run);
  }
}
