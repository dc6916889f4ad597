/** What the controller plans for the NICs of a node: the attachment list and the definitions
    (NetworkAttachmentDefinition, NAD) behind it. */
module NetworkPlan {
  import opened Text
  import opened JsonText

  datatype Bond = Bond(mode: string, mtu: int, links: seq<string>)

  /** The fields of the custom resource that matter here: its name, NIC and bond maps. */
  datatype Spec = Spec(name: string, nics: map<string, string>, bonds: map<string, Bond>)

  /** One definition to be written. */
  datatype Write = Write(name: string, config: string)

  /** unicode.IsLetter or unicode.IsNumber, of which only this matters: neither holds of a quote,
      a backslash or a control character. */
  ghost predicate LetterOrNumber(alnum: char -> bool) {
    !alnum('"') && !alnum('\\') && forall c | c < ' ' :: !alnum(c)
  }

  function Sanitise(alnum: char -> bool, s: string): (r: string)
    ensures |r| == |s|
    ensures forall i | 0 <= i < |s| :: r[i] == if alnum(s[i]) || s[i] == '-' then s[i] else '-'
  {
    if s == "" then "" else [if alnum(s[0]) || s[0] == '-' then s[0] else '-'] + Sanitise(alnum, s[1..])
  }

  function Sanitised(alnum: char -> bool, links: seq<string>): (r: seq<string>)
    ensures |r| == |links| && forall i | 0 <= i < |links| :: r[i] == Sanitise(alnum, links[i])
  {
    if links == [] then [] else [Sanitise(alnum, links[0])] + Sanitised(alnum, links[1..])
  }

  /** defineNADConfig: the format string, field by field. */
  function NadConfig(physNet: string, interfaceName: string): string {
    ObjectText(NadFields(physNet, interfaceName))
  }

  function NadFields(physNet: string, interfaceName: string): seq<Field> {
    [Field("cniVersion", Quoted("0.3.1"), " "), Field("name", Quoted(physNet), " "),
     Field("type", Quoted("host-device"), " "), Field("device", Quoted(interfaceName), "")]
  }

  function LinkObject(link: string): string { ObjectText([Field("name", Quoted(link), "")]) }

  function LinkObjects(links: seq<string>): (r: seq<string>)
    ensures |r| == |links| && forall i | 0 <= i < |links| :: r[i] == LinkObject(links[i])
  {
    if links == [] then [] else [LinkObject(links[0])] + LinkObjects(links[1..])
  }

  /** The JSON array of a bond's links. */
  function LinkArray(links: seq<string>): string { ArrayText(LinkObjects(links)) }

  /** defineBondNADConfig, for links already printed. */
  function BondConfig(physNet: string, bond: Bond, linkArray: string): string {
    ObjectText(BondFields(physNet, bond, linkArray))
  }

  function BondFields(physNet: string, bond: Bond, linkArray: string): seq<Field> {
    NameFields(physNet) + (ModeFields(bond) + LinkFields(bond, linkArray))
  }

  function NameFields(physNet: string): seq<Field> {
    [Field("cniVersion", Quoted("0.3.1"), ""), Field("name", Quoted(physNet), " "), Field("type", Quoted("bond"), " ")]
  }

  function ModeFields(bond: Bond): seq<Field> {
    [Field("mode", Quoted(bond.mode), " "), Field("failOverMac", Number(1), " "), Field("linksInContainer", "true", " ")]
  }

  function LinkFields(bond: Bond, linkArray: string): seq<Field> {
    [Field("miimon", Quoted("100"), " "), Field("mtu", Number(bond.mtu), " "), Field("links", linkArray, "")]
  }

  /* ---------- the plan ---------- */

  /** The bond that a key stands for, if any. */
  predicate IsBond(spec: Spec, k: string) { k in spec.nics && spec.nics[k] in spec.bonds }

  function Links(spec: Spec, k: string): seq<string>
    requires IsBond(spec, k)
  {
    spec.bonds[spec.nics[k]].links
  }

  /** A key that stops the run: its bond has no links. */
  predicate Refused(spec: Spec, attachments: seq<string>, k: string) {
    k !in attachments && IsBond(spec, k) && Links(spec, k) == []
  }

  /** What one key adds to the attachment list. */
  function Entry(spec: Spec, alnum: char -> bool, attachments: seq<string>, k: string): seq<string> {
    if k !in attachments && IsBond(spec, k) then Sanitised(alnum, Links(spec, k)) + [k] else [k]
  }

  function LinkWrite(alnum: char -> bool, link: string): Write {
    Write(Sanitise(alnum, link), NadConfig(Sanitise(alnum, link), link))
  }

  function LinkWrites(alnum: char -> bool, links: seq<string>): (r: seq<Write>)
    ensures |r| == |links| && forall i | 0 <= i < |links| :: r[i] == LinkWrite(alnum, links[i])
  {
    if links == [] then [] else [LinkWrite(alnum, links[0])] + LinkWrites(alnum, links[1..])
  }

  /** What one key writes. */
  function Writes(spec: Spec, alnum: char -> bool, attachments: seq<string>, k: string): seq<Write> {
    if k in attachments || k !in spec.nics then []
    else if IsBond(spec, k) then
      LinkWrites(alnum, Links(spec, k))
      + [Write(k, BondConfig(k, spec.bonds[spec.nics[k]], LinkArray(Sanitised(alnum, Links(spec, k)))))]
    else [Write(k, NadConfig(k, spec.nics[k]))]
  }

  function Concat<T>(parts: seq<seq<T>>): seq<T> {
    if parts == [] then [] else parts[0] + Concat(parts[1..])
  }

  function Entries(spec: Spec, alnum: char -> bool, attachments: seq<string>, keys: seq<string>): (r: seq<seq<string>>)
    ensures |r| == |keys| && forall i | 0 <= i < |keys| :: r[i] == Entry(spec, alnum, attachments, keys[i])
  {
    if keys == [] then [] else [Entry(spec, alnum, attachments, keys[0])] + Entries(spec, alnum, attachments, keys[1..])
  }

  function AllWrites(spec: Spec, alnum: char -> bool, attachments: seq<string>, keys: seq<string>): (r: seq<seq<Write>>)
    ensures |r| == |keys| && forall i | 0 <= i < |keys| :: r[i] == Writes(spec, alnum, attachments, keys[i])
  {
    if keys == [] then [] else [Writes(spec, alnum, attachments, keys[0])] + AllWrites(spec, alnum, attachments, keys[1..])
  }

  /** The keys that are processed: all, or those before the first refused one. */
  function Processed(spec: Spec, attachments: seq<string>, keys: seq<string>): (n: nat)
    ensures n <= |keys| && (forall i | 0 <= i < n :: !Refused(spec, attachments, keys[i]))
    ensures n < |keys| ==> Refused(spec, attachments, keys[n])
  {
    if keys == [] || Refused(spec, attachments, keys[0]) then 0 else 1 + Processed(spec, attachments, keys[1..])
  }

  /** The sorted multiset of NIC keys and given attachments. */
  function Keys(nicKeys: seq<string>, attachments: seq<string>): seq<string> { Sort(nicKeys + attachments) }

  /** The attachment list: entry by entry over the sorted keys. */
  function Plan(spec: Spec, alnum: char -> bool, attachments: seq<string>, keys: seq<string>): seq<string> {
    Concat(Entries(spec, alnum, attachments, keys))
  }

  /** The definitions written, in order. */
  function PlanWrites(spec: Spec, alnum: char -> bool, attachments: seq<string>, keys: seq<string>): seq<Write> {
    Concat(AllWrites(spec, alnum, attachments, keys[..Processed(spec, attachments, keys)]))
  }

  /** Neither depends on the order in which the map of NICs yields its keys. */
  lemma PlanIgnoresMapOrder(spec: Spec, alnum: char -> bool, attachments: seq<string>, order1: seq<string>, order2: seq<string>)
    requires multiset(order1) == multiset(order2)
    ensures Plan(spec, alnum, attachments, Keys(order1, attachments)) == Plan(spec, alnum, attachments, Keys(order2, attachments))
    ensures PlanWrites(spec, alnum, attachments, Keys(order1, attachments))
         == PlanWrites(spec, alnum, attachments, Keys(order2, attachments))
  {
    SortUnique(order1 + attachments, order2 + attachments);
  }

  lemma {:induction false} ConcatSplit<T>(parts: seq<seq<T>>, i: nat)
    requires i <= |parts|
    ensures Concat(parts) == Concat(parts[..i]) + Concat(parts[i..])
  {
    if i > 0 {
      ConcatSplit(parts[1..], i - 1);
      assert parts[..i][1..] == parts[1..][..i - 1] && parts[1..][i - 1..] == parts[i..];
    } else {
      assert parts[..0] == [] && parts[0..] == parts;
    }
  }

  lemma ConcatSnoc<T>(parts: seq<seq<T>>, p: seq<T>)
    ensures Concat(parts + [p]) == Concat(parts) + p
  {
    ConcatSplit(parts + [p], |parts|);
    assert (parts + [p])[..|parts|] == parts && (parts + [p])[|parts|..] == [p];
    assert Concat([p]) == p + [];
  }

  predicate StandsAt<T(==)>(list: seq<T>, part: seq<T>, at: nat) {
    at + |part| <= |list| && list[at..at + |part|] == part
  }

  /** Every bond is in the list, with its links just before it and in their order. */
  lemma LinksPrecedeBond(spec: Spec, alnum: char -> bool, attachments: seq<string>, keys: seq<string>, j: nat)
    returns (at: nat)
    requires j < |keys| && keys[j] !in attachments && IsBond(spec, keys[j])
    ensures StandsAt(Plan(spec, alnum, attachments, keys), Sanitised(alnum, Links(spec, keys[j])) + [keys[j]], at)
  {
    var parts := Entries(spec, alnum, attachments, keys);
    var list, links := Concat(parts), Sanitised(alnum, Links(spec, keys[j]));
    ConcatSplit(parts, j);
    at := |Concat(parts[..j])|;
    assert parts[j] == links + [keys[j]];
    assert Concat(parts[j..]) == parts[j] + Concat(parts[j..][1..]);
    assert list == Concat(parts[..j]) + (parts[j] + Concat(parts[j..][1..]));
    assert list[at..at + |parts[j]|] == parts[j];
    assert StandsAt(list, links + [keys[j]], at);
  }

  /** A name stands in the list exactly when it is a key or a link of a bond among the keys. */
  lemma {:induction false} PlanMembers(spec: Spec, alnum: char -> bool, attachments: seq<string>, keys: seq<string>, x: string)
    ensures x in Plan(spec, alnum, attachments, keys) <==>
      exists k | k in keys :: x == k || (k !in attachments && IsBond(spec, k) && x in Sanitised(alnum, Links(spec, k)))
  {
    if keys != [] {
      PlanMembers(spec, alnum, attachments, keys[1..], x);
      assert Plan(spec, alnum, attachments, keys) == Entry(spec, alnum, attachments, keys[0]) + Plan(spec, alnum, attachments, keys[1..]);
      forall k | k in keys ensures k == keys[0] || k in keys[1..] {}
    }
  }

  /** The array as far as the loop has printed it after i links. */
  function Printed(links: seq<string>, i: nat): string
    requires i <= |links|
  {
    "[" + Join(LinkObjects(links[..i]), ", ") + if 0 < i < |links| then ", " else ""
  }

  lemma PrintedMore(links: seq<string>, i: nat)
    requires i < |links|
    ensures Printed(links, i + 1) == Printed(links, i) + LinkObject(links[i]) + if i < |links| - 1 then ", " else ""
  {
    var before := LinkObjects(links[..i]);
    assert LinkObjects(links[..i + 1]) == before + [LinkObject(links[i])];
    JoinSnoc(before, LinkObject(links[i]), ", ");
    if i == 0 { assert before == []; }
  }

  /** The loop that prints a bond's configuration. */
  method DefineBondNadConfig(physNet: string, bond: Bond, links: seq<string>) returns (config: string)
    ensures config == BondConfig(physNet, bond, LinkArray(links))
  {
    var linkNames := PrintLinks(links);
    config := BondConfig(physNet, bond, linkNames);
  }

  method PrintLinks(links: seq<string>) returns (linkNames: string)
    ensures linkNames == LinkArray(links)
  {
    linkNames := "[";
    assert links[..0] == [];
    for i := 0 to |links|
      invariant linkNames == Printed(links, i)
    {
      PrintedMore(links, i);
      linkNames := linkNames + LinkObject(links[i]);
      if i < |links| - 1 { linkNames := linkNames + ", "; }
    }
    assert links[..|links|] == links;
    linkNames := linkNames + "]";
  }
}
