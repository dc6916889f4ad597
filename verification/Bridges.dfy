/** configure_physical_networks: the bridges of a node follow the physical networks of the spec. */
module Bridges {
  import opened Text
  import opened ShellText

  /** What a bridge's port is: a plain one, or one end of a patch pair. */
  datatype Kind = Plain | Patch(peer: string)

  /** Bridge name to its ports. */
  type Ports = map<string, map<string, Kind>>

  function BrName(net: string): string { "br-" + net }

  function Pair(net: string): string { net + ":" + BrName(net) }

  function BrNames(nets: seq<string>): (r: seq<string>)
    ensures |r| == |nets| && forall i | 0 <= i < |nets| :: r[i] == BrName(nets[i])
  {
    if nets == [] then [] else [BrName(nets[0])] + BrNames(nets[1..])
  }

  function Pairs(nets: seq<string>): (r: seq<string>)
    ensures |r| == |nets| && forall i | 0 <= i < |nets| :: r[i] == Pair(nets[i])
  {
    if nets == [] then [] else [Pair(nets[0])] + Pairs(nets[1..])
  }

  /** external_ids:ovn-bridge-mappings for these networks; "" when it is not set. */
  function Mapping(nets: seq<string>): string { Join(Pairs(nets), ",") }

  /** A network name that the shell, xargs and the mapping string carry as it is. */
  predicate Clean(net: string) { Literal(net) && Without(net, ',') && Without(net, ':') }

  predicate AllClean(nets: seq<string>) { forall i | 0 <= i < |nets| :: Clean(nets[i]) }

  predicate Distinct(xs: seq<string>) { forall i, j | 0 <= i < j < |xs| :: xs[i] != xs[j] }

  /* ---------- reading the mapping back ---------- */

  /** br_current.  The test `[ -z "$br_current"]` lacks a blank; the shell makes of it what is
      meant: true for an empty value, an error, so false, for another. */
  function CurrentOf(bms: seq<string>): string {
    if bms == [] then ""
    else
      var before := CurrentOf(bms[..|bms| - 1]);
      var br := AfterLastColon(bms[|bms| - 1]);
      if before == "" then br else before + " " + br
  }

  /** The bridges the script finds in a stored mapping of these networks: only the first comma is
      replaced, so of three or more it sees the first and the last. */
  function ReadBack(nets: seq<string>): seq<string> {
    if nets == [] then []
    else if |nets| == 1 then [BrName(nets[0])]
    else [BrName(nets[0]), BrName(nets[|nets| - 1])]
  }

  lemma WordConcat(s: string, t: string)
    requires (forall i | 0 <= i < |s| :: !Blank(s[i])) && IsWord(t)
    ensures IsWord(s + t)
  {
  }

  lemma PairIsWord(net: string)
    requires Clean(net)
    ensures IsWord(Pair(net)) && Literal(BrName(net)) && Without(Pair(net), ',') && Without(BrName(net), ':')
  {
    WordConcat("br-", net);
    WordConcat(net + ":", BrName(net));
  }

  lemma {:induction false} MappingIsWord(nets: seq<string>)
    requires AllClean(nets) && nets != []
    ensures IsWord(Mapping(nets))
  {
    PairIsWord(nets[0]);
    if |nets| > 1 {
      assert Pairs(nets)[1..] == Pairs(nets[1..]);
      MappingIsWord(nets[1..]);
      WordConcat(Pair(nets[0]) + ",", Mapping(nets[1..]));
    } else {
      assert Pairs(nets) == [Pair(nets[0])];
    }
  }

  lemma {:induction false} MappingEnds(nets: seq<string>)
    requires AllClean(nets) && nets != []
    ensures AfterLastColon(Mapping(nets)) == BrName(nets[|nets| - 1])
  {
    var before, last := nets[..|nets| - 1], nets[|nets| - 1];
    PairIsWord(last);
    assert nets == before + [last];
    PairsMore(before, last);
    JoinSnoc(Pairs(before), Pair(last), ",");
    if before == [] {
      AfterLastColonOf(last, BrName(last));
    } else {
      var m := Mapping(before) + ",";
      Regroup(m, last, ":");
      Regroup(m, last + ":", BrName(last));
      AfterLastColonOf(m + last, BrName(last));
    }
  }

  lemma CurrentOfTwo(a: string, b: string)
    requires AfterLastColon(a) != ""
    ensures CurrentOf([a]) == AfterLastColon(a)
    ensures CurrentOf([a, b]) == AfterLastColon(a) + " " + AfterLastColon(b)
  {
    assert [a][..0] == [] && [a, b][..1] == [a];
    assert CurrentOf([a]) == AfterLastColon(a);
  }

  lemma MappingWords(nets: seq<string>)
    requires AllClean(nets) && |nets| > 1
    ensures Words(FirstCommaToBlank(Mapping(nets))) == [Pair(nets[0]), Mapping(nets[1..])]
  {
    var first, rest := Pair(nets[0]), Mapping(nets[1..]);
    PairIsWord(nets[0]);
    assert Pairs(nets)[1..] == Pairs(nets[1..]);
    FirstCommaAfter(first, rest);
    MappingIsWord(nets[1..]);
    WordAlone(rest);
    var tail := " " + rest;
    assert first + " " + rest == first + tail;
    WordsFirst(first, tail);
    assert tail[1..] == rest;
  }

  /** What the script reads of the mapping it stored. */
  lemma CurrentIsReadBack(nets: seq<string>)
    requires AllClean(nets)
    ensures CurrentOf(Words(FirstCommaToBlank(Mapping(nets)))) == Join(ReadBack(nets), " ")
    ensures AllLiteral(ReadBack(nets))
  {
    if nets != [] {
      PairIsWord(nets[0]);
      AfterLastColonOf(nets[0], BrName(nets[0]));
      if |nets| == 1 {
        assert Mapping(nets) == Pair(nets[0]);
        FirstCommaAfter(Pair(nets[0]), "");
        WordAlone(Pair(nets[0]));
        CurrentOfTwo(Pair(nets[0]), "");
      } else {
        PairIsWord(nets[|nets| - 1]);
        MappingWords(nets);
        MappingEnds(nets[1..]);
        CurrentOfTwo(Pair(nets[0]), Mapping(nets[1..]));
        assert ReadBack(nets)[1..] == [BrName(nets[|nets| - 1])];
      }
    }
  }

  /* ---------- bridge operations ---------- */

  /** `add-br` and `add-port`, both `--may-exist`. */
  function AddBridge(p: Ports, br: string): Ports {
    var ports := if br in p then p[br] else map[];
    var port := AfterFirstDash(br);
    p[br := if port in ports then ports else ports[port := Plain]]
  }

  function AddAll(p: Ports, brs: seq<string>): Ports {
    if brs == [] then p else AddBridge(AddAll(p, brs[..|brs| - 1]), brs[|brs| - 1])
  }

  function Peers(ports: map<string, Kind>): set<string> {
    set q | q in ports && ports[q].Patch? :: ports[q].peer
  }

  /** The peers of the bridge's patch ports leave the integration bridge, then the bridge goes. */
  function DeleteBridge(p: Ports, ovnBridge: string, br: string): Ports {
    if br !in p then p
    else (if ovnBridge in p then p[ovnBridge := p[ovnBridge] - Peers(p[br])] else p) - {br}
  }

  function DeleteAll(p: Ports, ovnBridge: string, brs: seq<string>): Ports {
    if brs == [] then p else DeleteBridge(DeleteAll(p, ovnBridge, brs[..|brs| - 1]), ovnBridge, brs[|brs| - 1])
  }

  /** The node after the script. */
  datatype Node = Node(ports: Ports, stored: string)

  function ToDelete(stored: string, physicalNetworks: string): seq<string> {
    SetDifference(CurrentOf(Words(FirstCommaToBlank(stored))), Join(BrNames(Words(physicalNetworks)), " "))
  }

  function ToAdd(stored: string, physicalNetworks: string): seq<string> {
    SetDifference(Join(BrNames(Words(physicalNetworks)), " "), CurrentOf(Words(FirstCommaToBlank(stored))))
  }

  function Configure(n: Node, ovnBridge: string, physicalNetworks: string): Node {
    var added := AddAll(n.ports, ToAdd(n.stored, physicalNetworks));
    Node(DeleteAll(added, ovnBridge, ToDelete(n.stored, physicalNetworks)), Mapping(Words(physicalNetworks)))
  }

  /** Where init.sh, which runs under `set -e`, leaves the script when a command fails: after so many
      bridges added, perhaps one more without its port; or, all being added, after so many deleted,
      perhaps some patch ports more gone from the integration bridge.  The mapping is written last. */
  datatype Cut = Adding(done: nat, bare: bool) | Deleting(done: nat, peers: set<string>)

  function Upto(xs: seq<string>, k: nat): seq<string> { if k <= |xs| then xs[..k] else xs }

  function Interrupt(n: Node, ovnBridge: string, physicalNetworks: string, cut: Cut): Node {
    var toAdd, toDelete := ToAdd(n.stored, physicalNetworks), ToDelete(n.stored, physicalNetworks);
    match cut
    case Adding(k, bare) =>
      var p := AddAll(n.ports, Upto(toAdd, k));
      n.(ports := if bare && k < |toAdd| && toAdd[k] !in p then p[toAdd[k] := map[]] else p)
    case Deleting(k, peers) =>
      var p := DeleteAll(AddAll(n.ports, toAdd), ovnBridge, Upto(toDelete, k));
      n.(ports := if k < |toDelete| && toDelete[k] in p && ovnBridge in p
                  then p[ovnBridge := p[ovnBridge] - Peers(p[toDelete[k]]) * peers] else p)
  }

  lemma {:induction false} PairsMore(nets: seq<string>, net: string)
    ensures Pairs(nets + [net]) == Pairs(nets) + [Pair(net)]
  {
    if nets != [] {
      assert (nets + [net])[1..] == nets[1..] + [net];
      PairsMore(nets[1..], net);
    }
  }

  lemma {:induction false} BrNamesMore(nets: seq<string>, net: string)
    ensures BrNames(nets + [net]) == BrNames(nets) + [BrName(net)]
  {
    if nets != [] {
      assert (nets + [net])[1..] == nets[1..] + [net];
      BrNamesMore(nets[1..], net);
    }
  }

  lemma PeersOfMore(m: map<string, Kind>, q: string, k: Kind)
    requires q !in m
    ensures Peers(m[q := k]) == Peers(m) + if k.Patch? then {k.peer} else {}
  {
    var n := m[q := k];
    forall x | x in Peers(m) ensures x in Peers(n) {
      var y :| y in m && m[y].Patch? && m[y].peer == x;
      assert y in n && n[y] == m[y];
    }
    if k.Patch? { assert n[q] == k; }
  }

  method DesiredMapping(nets: seq<string>) returns (mappings: string, brNew: string)
    ensures mappings == Mapping(nets) && brNew == Join(BrNames(nets), " ")
  {
    mappings, brNew := "", "";
    for i := 0 to |nets|
      invariant mappings == Mapping(nets[..i]) && brNew == Join(BrNames(nets[..i]), " ")
      invariant mappings == "" <==> i == 0
    {
      var br := BrName(nets[i]);
      assert nets[..i + 1] == nets[..i] + [nets[i]];
      PairsMore(nets[..i], nets[i]);
      BrNamesMore(nets[..i], nets[i]);
      JoinSnoc(Pairs(nets[..i]), Pair(nets[i]), ",");
      JoinSnoc(BrNames(nets[..i]), br, " ");
      if mappings == "" {
        mappings, brNew := Pair(nets[i]), br;
      } else {
        mappings, brNew := mappings + "," + Pair(nets[i]), brNew + " " + br;
      }
    }
    assert nets[..|nets|] == nets;
  }

  method CurrentBridges(bms: seq<string>) returns (brCurrent: string)
    ensures brCurrent == CurrentOf(bms)
  {
    brCurrent := "";
    for i := 0 to |bms|
      invariant brCurrent == CurrentOf(bms[..i])
    {
      assert bms[..i + 1][..i] == bms[..i];
      if brCurrent == "" {
        brCurrent := AfterLastColon(bms[i]);
      } else {
        brCurrent := brCurrent + " " + AfterLastColon(bms[i]);
      }
    }
    assert bms[..|bms|] == bms;
  }

  /** The local Open_vSwitch database of a node, and the script on it. */
  class OvsDb {
    const ovnBridge: string
    var ports: Ports
    var stored: string

    constructor (ovnBridge: string)
      ensures this.ovnBridge == ovnBridge && ports == map[] && stored == ""
    {
      this.ovnBridge, ports, stored := ovnBridge, map[], "";
    }

    method ConfigurePhysicalNetworks(physicalNetworks: string)
      modifies this
      ensures Node(ports, stored) == Configure(Node(old(ports), old(stored)), ovnBridge, physicalNetworks)
    {
      var mappings, brNew := DesiredMapping(Words(physicalNetworks));
      var brCurrent := CurrentBridges(Words(FirstCommaToBlank(stored)));
      var toDelete := SetDifference(brCurrent, brNew);
      var toAdd := SetDifference(brNew, brCurrent);
      AddBridges(toAdd);
      DeleteBridges(toDelete);
      stored := mappings;
    }

    method AddBridges(brs: seq<string>)
      modifies `ports
      ensures ports == AddAll(old(ports), brs)
    {
      for i := 0 to |brs|
        invariant ports == AddAll(old(ports), brs[..i])
      {
        assert brs[..i + 1][..i] == brs[..i];
        AddBr(brs[i]);
      }
      assert brs[..|brs|] == brs;
    }

    method DeleteBridges(brs: seq<string>)
      modifies `ports
      ensures ports == DeleteAll(old(ports), ovnBridge, brs)
    {
      for i := 0 to |brs|
        invariant ports == DeleteAll(old(ports), ovnBridge, brs[..i])
      {
        assert brs[..i + 1][..i] == brs[..i];
        DelBr(brs[i]);
      }
      assert brs[..|brs|] == brs;
    }

    method AddBr(br: string)
      modifies `ports
      ensures ports == AddBridge(old(ports), br)
    {
      if br !in ports { ports := ports[br := map[]]; }
      var port := AfterFirstDash(br);
      if port !in ports[br] { ports := ports[br := ports[br][port := Plain]]; }
    }

    method DelBr(br: string)
      modifies `ports
      ensures ports == DeleteBridge(old(ports), ovnBridge, br)
    {
      if br in ports {
        var ifaces := ports[br];
        DelPeers(ifaces);
        ports := ports - {br};
      }
    }

    method DelPeers(kinds: map<string, Kind>)
      modifies `ports
      ensures ports == if ovnBridge in old(ports) then old(ports)[ovnBridge := old(ports)[ovnBridge] - Peers(kinds)]
                       else old(ports)
    {
      var left, done := kinds.Keys, map[];
      while left != {}
        invariant left == kinds.Keys - done.Keys && done.Keys <= kinds.Keys
        invariant forall q | q in done :: done[q] == kinds[q]
        invariant ports.Keys == old(ports).Keys
        invariant forall b | b in ports :: ports[b] == if b == ovnBridge then old(ports)[b] - Peers(done) else old(ports)[b]
        decreases left
      {
        var iface :| iface in left;
        PeersOfMore(done, iface, kinds[iface]);
        if kinds[iface].Patch? { DelPort(kinds[iface].peer); }
        done := done[iface := kinds[iface]];
        left := left - {iface};
      }
      assert done.Keys == kinds.Keys by {
        forall q | q in kinds.Keys ensures q in done.Keys { assert q !in left; }
      }
      assert done == kinds;
    }

    method DelPort(port: string)
      modifies `ports
      ensures ports.Keys == old(ports).Keys
      ensures forall b | b in ports :: ports[b] == if b == ovnBridge then old(ports)[b] - {port} else old(ports)[b]
    {
      if ovnBridge in ports { ports := ports[ovnBridge := ports[ovnBridge] - {port}]; }
    }
  }
}
