/** The configurations written into the definitions say, as JSON, what the spec says. */
module NetworkJson {
  import opened JsonText
  import opened NetworkPlan

  lemma SanitisedUnescaped(alnum: char -> bool, s: string)
    requires LetterOrNumber(alnum)
    ensures Unescaped(Sanitise(alnum, s))
  {
    forall i | 0 <= i < |s| ensures Sanitise(alnum, s)[i] >= ' ' && Sanitise(alnum, s)[i] !in ['"', '\\'] {
      if alnum(s[i]) { assert s[i] >= ' '; }
    }
  }

  /** A link, as an object with its name. */
  function LinkJson(link: string): Json { Obj([Member("name", Str(link))]) }

  function LinkJsons(links: seq<string>): (r: seq<Json>)
    ensures |r| == |links| && forall i | 0 <= i < |links| :: r[i] == LinkJson(links[i])
  {
    if links == [] then [] else [LinkJson(links[0])] + LinkJsons(links[1..])
  }

  predicate AllUnescaped(links: seq<string>) { forall i | 0 <= i < |links| :: Unescaped(links[i]) }

  lemma LinkObjectReads(link: string)
    requires Unescaped(link)
    ensures Reads(LinkObject(link), LinkJson(link))
  {
    QuotedReads(link);
    var fs, vs := [Field("name", Quoted(link), "")], [Str(link)];
    ObjectReads(fs, vs);
    assert Members(fs, vs) == [Member("name", Str(link))];
  }

  lemma {:induction false} LinkObjectsRead(links: seq<string>)
    requires AllUnescaped(links)
    ensures ItemsAre(LinkObjects(links), LinkJsons(links))
  {
    if links != [] {
      LinkObjectReads(links[0]);
      LinkObjectsRead(links[1..]);
      assert LinkObjects(links)[1..] == LinkObjects(links[1..]) && LinkJsons(links)[1..] == LinkJsons(links[1..]);
    }
  }

  /** The printed array of links reads back as exactly these links, in order. */
  lemma LinkArrayReads(links: seq<string>)
    requires AllUnescaped(links)
    ensures Reads(LinkArray(links), Arr(LinkJsons(links)))
    ensures Parse(LinkArray(links)) == Found(Arr(LinkJsons(links)), "")
  {
    LinkObjectsRead(links);
    ArrayReads(LinkObjects(links), LinkJsons(links));
    WholeText(LinkArray(links), Arr(LinkJsons(links)));
  }

  /** Sanitised links always read back, whatever the links of the spec contain. */
  lemma SanitisedLinksReadBack(alnum: char -> bool, links: seq<string>)
    requires LetterOrNumber(alnum)
    ensures Parse(LinkArray(Sanitised(alnum, links))) == Found(Arr(LinkJsons(Sanitised(alnum, links))), "")
  {
    var names := Sanitised(alnum, links);
    forall i | 0 <= i < |names| ensures Unescaped(names[i]) { SanitisedUnescaped(alnum, links[i]); }
    LinkArrayReads(names);
  }

  /** Different lists of names print differently. */
  lemma LinkArrayInjective(links: seq<string>, others: seq<string>)
    requires AllUnescaped(links) && AllUnescaped(others)
    requires LinkArray(links) == LinkArray(others)
    ensures links == others
  {
    LinkArrayReads(links);
    LinkArrayReads(others);
    assert LinkJsons(links) == LinkJsons(others);
    forall i | 0 <= i < |links| ensures links[i] == others[i] {
      assert LinkJsons(links)[i] == LinkJson(links[i]) && LinkJsons(others)[i] == LinkJson(others[i]);
    }
  }

  function NadJson(physNet: string, interfaceName: string): Json {
    Obj([Member("cniVersion", Str("0.3.1")), Member("name", Str(physNet)),
         Member("type", Str("host-device")), Member("device", Str(interfaceName))])
  }

  function NameMembers(physNet: string): seq<Member> {
    [Member("cniVersion", Str("0.3.1")), Member("name", Str(physNet)), Member("type", Str("bond"))]
  }

  function ModeMembers(bond: Bond): seq<Member> {
    [Member("mode", Str(bond.mode)), Member("failOverMac", Num(Number(1))), Member("linksInContainer", Bool(true))]
  }

  function LinkMembers(bond: Bond, links: seq<string>): seq<Member> {
    [Member("miimon", Str("100")), Member("mtu", Num(Number(bond.mtu))), Member("links", Arr(LinkJsons(links)))]
  }

  function BondJson(physNet: string, bond: Bond, links: seq<string>): Json {
    Obj(NameMembers(physNet) + (ModeMembers(bond) + LinkMembers(bond, links)))
  }

  /** What a NIC's definition says is read back exactly when the device name, which goes in as it
      is, needs no escape. */
  lemma NadConfigReadsIff(physNet: string, interfaceName: string)
    requires Unescaped(physNet)
    ensures Parse(NadConfig(physNet, interfaceName)) == Found(NadJson(physNet, interfaceName), "") <==> Unescaped(interfaceName)
  {
    var fs, vs := NadFields(physNet, interfaceName)[..3], [Str("0.3.1"), Str(physNet), Str("host-device")];
    StringField("cniVersion", "0.3.1", " ");
    StringField("name", physNet, " ");
    StringField("type", "host-device", " ");
    assert NadFields(physNet, interfaceName) == fs + [Field("device", Quoted(interfaceName), "")];
    LastStringReadsIff(fs, vs, "device", interfaceName);
    assert NadJson(physNet, interfaceName) == Obj(Members(fs, vs) + [Member("device", Str(interfaceName))]);
  }

  function NameValues(physNet: string): seq<Json> { [Str("0.3.1"), Str(physNet), Str("bond")] }

  function ModeValues(bond: Bond): seq<Json> { [Str(bond.mode), Num(Number(1)), Bool(true)] }

  function LinkValues(bond: Bond, links: seq<string>): seq<Json> {
    [Str("100"), Num(Number(bond.mtu)), Arr(LinkJsons(links))]
  }

  function BondValues(physNet: string, bond: Bond, links: seq<string>): seq<Json> {
    NameValues(physNet) + (ModeValues(bond) + LinkValues(bond, links))
  }

  lemma TrueField()
    ensures FieldIs(Field("linksInContainer", "true", " "), Bool(true))
  {
    TrueReads();
  }

  lemma LinksField(links: seq<string>)
    requires AllUnescaped(links)
    ensures FieldIs(Field("links", LinkArray(links), ""), Arr(LinkJsons(links)))
  {
    LinkArrayReads(links);
  }

  lemma LinkFieldsRead(bond: Bond, links: seq<string>)
    requires AllUnescaped(links)
    ensures FieldsAre(LinkFields(bond, LinkArray(links)), LinkValues(bond, links))
  {
    StringField("miimon", "100", " ");
    NumberField("mtu", bond.mtu, " ");
    LinksField(links);
  }

  lemma ModeFieldsRead(bond: Bond)
    requires Unescaped(bond.mode)
    ensures FieldsAre(ModeFields(bond), ModeValues(bond))
  {
    StringField("mode", bond.mode, " ");
    NumberField("failOverMac", 1, " ");
    TrueField();
  }

  lemma NameFieldsRead(physNet: string)
    requires Unescaped(physNet)
    ensures FieldsAre(NameFields(physNet), NameValues(physNet))
  {
    StringField("cniVersion", "0.3.1", "");
    StringField("name", physNet, " ");
    StringField("type", "bond", " ");
  }

  lemma BondFieldsRead(physNet: string, bond: Bond, links: seq<string>)
    requires Unescaped(physNet) && Unescaped(bond.mode) && AllUnescaped(links)
    ensures FieldsAre(BondFields(physNet, bond, LinkArray(links)), BondValues(physNet, bond, links))
  {
    NameFieldsRead(physNet);
    ModeFieldsRead(bond);
    LinkFieldsRead(bond, links);
    BothFieldsAre(ModeFields(bond), ModeValues(bond), LinkFields(bond, LinkArray(links)), LinkValues(bond, links));
    BothFieldsAre(NameFields(physNet), NameValues(physNet),
      ModeFields(bond) + LinkFields(bond, LinkArray(links)), ModeValues(bond) + LinkValues(bond, links));
  }

  lemma BondMembers(physNet: string, bond: Bond, links: seq<string>)
    ensures Obj(Members(BondFields(physNet, bond, LinkArray(links)), BondValues(physNet, bond, links)))
         == BondJson(physNet, bond, links)
  {
    var linkFields := LinkFields(bond, LinkArray(links));
    assert Members(NameFields(physNet), NameValues(physNet)) == NameMembers(physNet);
    assert Members(ModeFields(bond), ModeValues(bond)) == ModeMembers(bond);
    assert Members(linkFields, LinkValues(bond, links)) == LinkMembers(bond, links);
    MembersOfBoth(ModeFields(bond), ModeValues(bond), linkFields, LinkValues(bond, links));
    MembersOfBoth(NameFields(physNet), NameValues(physNet), ModeFields(bond) + linkFields, ModeValues(bond) + LinkValues(bond, links));
  }

  lemma BondConfigReads(physNet: string, bond: Bond, links: seq<string>)
    requires Unescaped(physNet) && Unescaped(bond.mode) && AllUnescaped(links)
    ensures Parse(BondConfig(physNet, bond, LinkArray(links))) == Found(BondJson(physNet, bond, links), "")
  {
    BondFieldsRead(physNet, bond, links);
    ObjectReads(BondFields(physNet, bond, LinkArray(links)), BondValues(physNet, bond, links));
    BondMembers(physNet, bond, links);
    WholeText(BondConfig(physNet, bond, LinkArray(links)), BondJson(physNet, bond, links));
  }

  /** A bond's configuration determines its name, mode, MTU and links. */
  lemma BondConfigInjective(physNet: string, bond: Bond, links: seq<string>, other: string, bond': Bond, links': seq<string>)
    requires Unescaped(physNet) && Unescaped(bond.mode) && AllUnescaped(links)
    requires Unescaped(other) && Unescaped(bond'.mode) && AllUnescaped(links')
    requires BondConfig(physNet, bond, LinkArray(links)) == BondConfig(other, bond', LinkArray(links'))
    ensures physNet == other && bond.mode == bond'.mode && bond.mtu == bond'.mtu && links == links'
  {
    BondConfigReads(physNet, bond, links);
    BondConfigReads(other, bond', links');
    var ms, ns := BondJson(physNet, bond, links).members, BondJson(other, bond', links').members;
    assert ms[1] == ns[1] && ms[3] == ns[3] && ms[7] == ns[7] && ms[8] == ns[8];
    NumberInjective(bond.mtu, bond'.mtu);
    assert LinkJsons(links) == LinkJsons(links');
    forall i | 0 <= i < |links| ensures links[i] == links'[i] {
      assert LinkJsons(links)[i] == LinkJson(links[i]) && LinkJsons(links')[i] == LinkJson(links'[i]);
    }
  }
}
