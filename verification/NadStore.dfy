/** The definitions in the cluster, and CreateOrUpdateAdditionalNetworks on them. */
module NadStore {
  import opened Text
  import opened NetworkPlan

  /** A definition and the names of its owners. */
  datatype Nad = Nad(config: string, owners: seq<string>)

  type Store = map<string, Nad>

  datatype Outcome = Done | BondWithNoLinks(interfaceName: string) | ApiError

  /* ---------- what the writes mean ---------- */

  /** One definition written by the instance `me`: created, updated when owned, else left. */
  function Put(s: Store, me: string, w: Write): Store {
    if w.name !in s then s[w.name := Nad(w.config, [me])]
    else if me in s[w.name].owners then s[w.name := s[w.name].(config := w.config)]
    else s
  }

  function PutAll(s: Store, me: string, ws: seq<Write>): Store {
    if ws == [] then s else Put(PutAll(s, me, ws[..|ws| - 1]), me, ws[|ws| - 1])
  }

  predicate Named(ws: seq<Write>, name: string) { exists i | 0 <= i < |ws| :: ws[i].name == name }

  /** The last configuration written for a name. */
  function LastConfig(ws: seq<Write>, name: string): (r: string)
    requires Named(ws, name)
    ensures exists i | 0 <= i < |ws| ::
      ws[i].name == name && ws[i].config == r && forall j | i < j < |ws| :: ws[j].name != name
  {
    if ws[|ws| - 1].name == name then ws[|ws| - 1].config else LastConfig(ws[..|ws| - 1], name)
  }

  /** What the instance may write: a definition that is not there, or that it owns. */
  predicate Writable(s: Store, me: string, name: string) { name in s ==> me in s[name].owners }

  /** Definitions nobody names and definitions of other owners stay; a named one that is absent or
      owned ends with the last configuration written for it, and keeps its owners. */
  lemma {:induction false} PutAllMeans(s: Store, me: string, ws: seq<Write>, name: string)
    ensures !Named(ws, name) || !Writable(s, me, name) ==>
      (name in PutAll(s, me, ws) <==> name in s) && (name in s ==> PutAll(s, me, ws)[name] == s[name])
    ensures Named(ws, name) && Writable(s, me, name) ==>
      name in PutAll(s, me, ws)
      && PutAll(s, me, ws)[name] == Nad(LastConfig(ws, name), if name in s then s[name].owners else [me])
  {
    if ws != [] {
      var before := ws[..|ws| - 1];
      PutAllMeans(s, me, before, name);
      assert ws[|ws| - 1].name == name ==> Named(ws, name);
      assert Named(before, name) ==> Named(ws, name) by {
        forall i | 0 <= i < |before| && before[i].name == name ensures Named(ws, name) { assert ws[i] == before[i]; }
      }
      assert Named(ws, name) && ws[|ws| - 1].name != name ==> Named(before, name) by {
        forall i | 0 <= i < |ws| - 1 && ws[i].name == name ensures Named(before, name) { assert ws[i] == before[i]; }
      }
    }
  }

  lemma {:induction false} PutAllOwners(s: Store, me: string, ws: seq<Write>, name: string)
    ensures Writable(s, me, name) <==> Writable(PutAll(s, me, ws), me, name)
  {
    PutAllMeans(s, me, ws, name);
  }

  /** Writing everything again after having written a part of it, or all, ends where writing it
      once ends: a run that stopped half-way is made good by the next one. */
  lemma RetryConverges(s: Store, me: string, ws: seq<Write>, i: nat)
    requires i <= |ws|
    ensures PutAll(PutAll(s, me, ws[..i]), me, ws) == PutAll(s, me, ws)
  {
    var half := PutAll(s, me, ws[..i]);
    var once, again := PutAll(s, me, ws), PutAll(half, me, ws);
    forall name ensures (name in once <==> name in again) && (name in once ==> once[name] == again[name]) {
      PutAllMeans(s, me, ws, name);
      PutAllMeans(s, me, ws[..i], name);
      PutAllMeans(half, me, ws, name);
      PutAllOwners(s, me, ws[..i], name);
      assert Named(ws[..i], name) ==> Named(ws, name) by {
        forall k | 0 <= k < i && ws[..i][k].name == name ensures Named(ws, name) { assert ws[k] == ws[..i][k]; }
      }
    }
  }

  /* ---------- a run against the API ---------- */

  /** The store, and how many API calls have been made. */
  datatype World = World(nads: Store, calls: nat)

  /** How the API answers a call; Lost: it takes effect, but the answer is an error. */
  datatype Reply = Fine | Lost | Rejected

  /** createOrUpdateNetworkAttachmentDefinition: a Get, then a Create or an Update where one is
      due; replies(n) answers call number n. */
  function Attempt(w: World, replies: nat -> Reply, me: string, x: Write): (World, bool) {
    if replies(w.calls) != Fine then (World(w.nads, w.calls + 1), false)
    else if x.name in w.nads && me !in w.nads[x.name].owners then (World(w.nads, w.calls + 1), true)
    else
      var reply := replies(w.calls + 1);
      (World(if reply == Rejected then w.nads else Put(w.nads, me, x), w.calls + 2), reply == Fine)
  }

  /** The writes in order, up to the first that fails; and how many succeeded. */
  function AttemptAll(w: World, replies: nat -> Reply, me: string, ws: seq<Write>): (World, nat) {
    if ws == [] then (w, 0)
    else
      var before := AttemptAll(w, replies, me, ws[..|ws| - 1]);
      if before.1 < |ws| - 1 then before
      else
        var last := Attempt(before.0, replies, me, ws[|ws| - 1]);
        (last.0, if last.1 then |ws| else |ws| - 1)
  }

  lemma {:induction false} AttemptsCount(w: World, replies: nat -> Reply, me: string, ws: seq<Write>)
    ensures AttemptAll(w, replies, me, ws).1 <= |ws|
  {
    if ws != [] { AttemptsCount(w, replies, me, ws[..|ws| - 1]); }
  }

  /** Whatever call fails, and whether or not it took effect, the store is that of the first k writes,
      where k counts those that succeeded and perhaps the one that failed. */
  lemma {:induction false} AttemptsMean(w: World, replies: nat -> Reply, me: string, ws: seq<Write>) returns (k: nat)
    ensures AttemptAll(w, replies, me, ws).1 <= k <= |ws| && k <= AttemptAll(w, replies, me, ws).1 + 1
    ensures AttemptAll(w, replies, me, ws).0.nads == PutAll(w.nads, me, ws[..k])
  {
    k := |ws|;
    assert ws[..|ws|] == ws;
    if ws != [] {
      var before := ws[..|ws| - 1];
      var m := AttemptsMean(w, replies, me, before);
      AttemptsCount(w, replies, me, before);
      assert ws[..m] == before[..m] && before[..|before|] == before;
      var now := AttemptAll(w, replies, me, before);
      if now.1 < |before| {
        k := m;
      } else {
        var last := Attempt(now.0, replies, me, ws[|ws| - 1]);
        if !last.1 && last.0.nads == now.0.nads { k := m; }
      }
    }
  }

  lemma AttemptSnoc(w: World, replies: nat -> Reply, me: string, ws: seq<Write>, x: Write)
    ensures AttemptAll(w, replies, me, ws).1 < |ws| ==>
      AttemptAll(w, replies, me, ws + [x]) == AttemptAll(w, replies, me, ws)
    ensures AttemptAll(w, replies, me, ws).1 >= |ws| ==>
      AttemptAll(w, replies, me, ws + [x])
      == (Attempt(AttemptAll(w, replies, me, ws).0, replies, me, x).0,
          if Attempt(AttemptAll(w, replies, me, ws).0, replies, me, x).1 then |ws| + 1 else |ws|)
  {
    assert (ws + [x])[..|ws|] == ws;
  }

  /** Once a write has failed the rest is not tried. */
  lemma {:induction false} FailedAttemptsStay(w: World, replies: nat -> Reply, me: string, ws: seq<Write>, more: seq<Write>)
    requires AttemptAll(w, replies, me, ws).1 < |ws|
    ensures AttemptAll(w, replies, me, ws + more) == AttemptAll(w, replies, me, ws)
  {
    if more == [] {
      assert ws + more == ws;
    } else {
      FailedAttemptsStay(w, replies, me, ws, more[..|more| - 1]);
      assert ws + more == (ws + more[..|more| - 1]) + [more[|more| - 1]];
      AttemptSnoc(w, replies, me, ws + more[..|more| - 1], more[|more| - 1]);
    }
  }

  lemma {:induction false} AttemptAppend(w: World, replies: nat -> Reply, me: string, ws: seq<Write>, more: seq<Write>)
    requires AttemptAll(w, replies, me, ws).1 >= |ws|
    ensures AttemptAll(w, replies, me, ws + more).0 == AttemptAll(AttemptAll(w, replies, me, ws).0, replies, me, more).0
    ensures AttemptAll(w, replies, me, ws + more).1 == |ws| + AttemptAll(AttemptAll(w, replies, me, ws).0, replies, me, more).1
  {
    AttemptsCount(w, replies, me, ws);
    if more == [] {
      assert ws + more == ws;
    } else {
      var before := more[..|more| - 1];
      AttemptAppend(w, replies, me, ws, before);
      AttemptsCount(AttemptAll(w, replies, me, ws).0, replies, me, before);
      assert ws + more == (ws + before) + [more[|more| - 1]];
      AttemptSnoc(w, replies, me, ws + before, more[|more| - 1]);
    }
  }

  lemma AttemptNext(w: World, replies: nat -> Reply, me: string, ws: seq<Write>, i: nat, before: World, after: World, ok: bool)
    requires i < |ws| && AttemptAll(w, replies, me, ws[..i]) == (before, i)
    requires Attempt(before, replies, me, ws[i]) == (after, ok)
    ensures ok ==> AttemptAll(w, replies, me, ws[..i + 1]) == (after, i + 1)
    ensures !ok ==> AttemptAll(w, replies, me, ws) == (after, i)
  {
    AttemptOneMore(w, replies, me, ws[..i], ws[i], before, after, ok);
    assert ws[..i + 1] == ws[..i] + [ws[i]];
    if !ok {
      FailedAttemptsStay(w, replies, me, ws[..i] + [ws[i]], ws[i + 1..]);
      assert ws[..i] + [ws[i]] + ws[i + 1..] == ws;
    }
  }

  lemma AttemptOneMore(w: World, replies: nat -> Reply, me: string, ws: seq<Write>, x: Write, before: World, after: World, ok: bool)
    requires AttemptAll(w, replies, me, ws) == (before, |ws|) && Attempt(before, replies, me, x) == (after, ok)
    ensures AttemptAll(w, replies, me, ws + [x]) == (after, if ok then |ws| + 1 else |ws|)
  {
    AttemptSnoc(w, replies, me, ws, x);
  }

  lemma PartNext(w: World, replies: nat -> Reply, me: string, parts: seq<seq<Write>>, i: nat, before: World, after: World, ok: bool)
    requires i < |parts| && AttemptAll(w, replies, me, Concat(parts[..i])) == (before, |Concat(parts[..i])|)
    requires AttemptAll(before, replies, me, parts[i]).0 == after && (ok <==> AttemptAll(before, replies, me, parts[i]).1 >= |parts[i]|)
    ensures ok ==> AttemptAll(w, replies, me, Concat(parts[..i + 1])) == (after, |Concat(parts[..i + 1])|)
    ensures !ok ==> AttemptAll(w, replies, me, Concat(parts)).0 == after
    ensures !ok ==> AttemptAll(w, replies, me, Concat(parts)).1 < |Concat(parts)|
  {
    PartsSnoc(parts, i);
    var some := Concat(parts[..i + 1]);
    AttemptAppend(w, replies, me, Concat(parts[..i]), parts[i]);
    AttemptsCount(w, replies, me, some);
    if !ok {
      ConcatSplit(parts, i + 1);
      FailedAttemptsStay(w, replies, me, some, Concat(parts[i + 1..]));
    }
  }

  lemma LinkWritesTake(alnum: char -> bool, links: seq<string>, i: nat)
    requires i <= |links|
    ensures LinkWrites(alnum, links[..i]) == LinkWrites(alnum, links)[..i]
  {
  }

  lemma SanitisedMore(alnum: char -> bool, links: seq<string>, i: nat)
    requires i < |links|
    ensures Sanitised(alnum, links[..i + 1]) == Sanitised(alnum, links[..i]) + [Sanitise(alnum, links[i])]
  {
  }

  lemma LinkNext(w: World, replies: nat -> Reply, me: string, alnum: char -> bool, links: seq<string>, i: nat,
                 before: World, after: World, ok: bool)
    requires i < |links| && AttemptAll(w, replies, me, LinkWrites(alnum, links[..i])) == (before, i)
    requires Attempt(before, replies, me, LinkWrite(alnum, links[i])) == (after, ok)
    ensures ok ==> AttemptAll(w, replies, me, LinkWrites(alnum, links[..i + 1])) == (after, i + 1)
    ensures !ok ==> AttemptAll(w, replies, me, LinkWrites(alnum, links)) == (after, i)
  {
    var all := LinkWrites(alnum, links);
    LinkWritesTake(alnum, links, i);
    LinkWritesTake(alnum, links, i + 1);
    AttemptNext(w, replies, me, all, i, before, after, ok);
  }

  /** The namespace of one controller, with its API server. */
  class Namespace {
    var nads: Store
    var calls: nat
    const replies: nat -> Reply
    const alnum: char -> bool

    constructor (nads: Store, replies: nat -> Reply, alnum: char -> bool)
      ensures this.nads == nads && this.replies == replies && this.alnum == alnum
    {
      this.nads, this.replies, this.alnum, calls := nads, replies, alnum, 0;
    }

    ghost function Now(): World reads this { World(nads, calls) }

    /** One API call. */
    method Call() returns (reply: Reply)
      modifies `calls
      ensures calls == old(calls) + 1 && reply == replies(old(calls))
    {
      reply := replies(calls);
      calls := calls + 1;
    }

    method CreateOrUpdateNad(me: string, w: Write) returns (ok: bool)
      modifies this
      ensures (Now(), ok) == Attempt(old(Now()), replies, me, w)
    {
      var got := Call();
      if got != Fine { return false; }
      ok := true;
      if w.name !in nads {
        var created := Call();
        if created != Rejected { nads := nads[w.name := Nad(w.config, [me])]; }
        ok := created == Fine;
      } else {
        var owned := Owns(nads[w.name].owners, me);
        if owned {
          var updated := Call();
          if updated != Rejected { nads := nads[w.name := nads[w.name].(config := w.config)]; }
          ok := updated == Fine;
        }
      }
    }

    method SanitiseName(interfaceName: string) returns (name: string)
      ensures name == Sanitise(alnum, interfaceName)
    {
      name := "";
      for i := 0 to |interfaceName|
        invariant name == Sanitise(alnum, interfaceName)[..i]
      {
        var c := interfaceName[i];
        name := name + [if alnum(c) || c == '-' then c else '-'];
      }
    }

    method CreateLinkNad(me: string, link: string) returns (ok: bool, name: string)
      modifies this
      ensures (Now(), ok) == Attempt(old(Now()), replies, me, LinkWrite(alnum, link)) && name == Sanitise(alnum, link)
    {
      name := SanitiseName(link);
      ok := CreateOrUpdateNad(me, Write(name, NadConfig(name, link)));
    }

    method CreateLinkNads(me: string, links: seq<string>) returns (ok: bool, linkNames: seq<string>)
      modifies this
      ensures Wrote(old(Now()), me, LinkWrites(alnum, links), Now(), ok)
      ensures ok ==> linkNames == Sanitised(alnum, links)
    {
      linkNames := [];
      ghost var start := Now();
      for i := 0 to |links|
        invariant AttemptAll(start, replies, me, LinkWrites(alnum, links[..i])) == (Now(), i)
        invariant linkNames == Sanitised(alnum, links[..i])
      {
        ghost var before := Now();
        var name;
        ok, name := CreateLinkNad(me, links[i]);
        LinkNext(start, replies, me, alnum, links, i, before, Now(), ok);
        if !ok { return; }
        SanitisedMore(alnum, links, i);
        linkNames := linkNames + [name];
      }
      assert links[..|links|] == links;
      ok := true;
    }

    /** These writes were attempted in order from that world, and whether all succeeded. */
    ghost predicate Wrote(before: World, me: string, ws: seq<Write>, after: World, ok: bool) {
      after == AttemptAll(before, replies, me, ws).0 && (ok <==> AttemptAll(before, replies, me, ws).1 >= |ws|)
    }

    /** A key that is not refused: one that was given stands for itself, others are written. */
    method ProcessKey(spec: Spec, attachments: seq<string>, k: string) returns (ok: bool, entry: seq<string>)
      requires (k in attachments || k in spec.nics) && !Refused(spec, attachments, k)
      modifies this
      ensures Wrote(old(Now()), spec.name, Writes(spec, alnum, attachments, k), Now(), ok)
      ensures ok ==> entry == Entry(spec, alnum, attachments, k)
    {
      if k in attachments { return true, [k]; }
      var interfaceName := spec.nics[k];
      var config;
      ghost var first := [];
      entry := [];
      if interfaceName in spec.bonds {
        var bond := spec.bonds[interfaceName];
        ok, entry := CreateLinkNads(spec.name, bond.links);
        first := LinkWrites(alnum, bond.links);
        if !ok {
          FailedAttemptsStay(old(Now()), replies, spec.name, first, [Write(k, BondConfig(k, bond, LinkArray(Sanitised(alnum, bond.links))))]);
          return;
        }
        config := DefineBondNadConfig(k, bond, entry);
      } else {
        config := NadConfig(k, interfaceName);
      }
      assert Writes(spec, alnum, attachments, k) == first + [Write(k, config)];
      AttemptSnoc(old(Now()), replies, spec.name, first, Write(k, config));
      AttemptsCount(old(Now()), replies, spec.name, first);
      ok := CreateOrUpdateNad(spec.name, Write(k, config));
      entry := entry + [k];
    }

    /** `nicKeys` is the order in which the NIC map yields its keys. */
    method CreateOrUpdateAdditionalNetworks(spec: Spec, nicKeys: seq<string>, attachments: seq<string>)
      returns (outcome: Outcome, list: seq<string>)
      requires multiset(nicKeys) == multiset(spec.nics.Keys)
      modifies this
      ensures Wrote(old(Now()), spec.name, PlanWrites(spec, alnum, attachments, Keys(nicKeys, attachments)), Now(),
        outcome != ApiError)
      ensures outcome != ApiError ==> outcome == Stopped(spec, attachments, Keys(nicKeys, attachments))
      ensures outcome == Done ==> list == Plan(spec, alnum, attachments, Keys(nicKeys, attachments))
    {
      var keys := Keys(nicKeys, attachments);
      KeysAreNics(spec, nicKeys, attachments);
      outcome, list := ProcessKeys(spec, attachments, keys);
    }

    method ProcessKeys(spec: Spec, attachments: seq<string>, keys: seq<string>) returns (outcome: Outcome, list: seq<string>)
      requires forall i | 0 <= i < |keys| :: keys[i] in attachments || keys[i] in spec.nics
      modifies this
      ensures Wrote(old(Now()), spec.name, PlanWrites(spec, alnum, attachments, keys), Now(), outcome != ApiError)
      ensures outcome != ApiError ==> outcome == Stopped(spec, attachments, keys)
      ensures outcome == Done ==> list == Plan(spec, alnum, attachments, keys)
    {
      list := [];
      ghost var start, n := Now(), Processed(spec, attachments, keys);
      ghost var parts := AllWrites(spec, alnum, attachments, keys[..n]);
      ghost var entries := Entries(spec, alnum, attachments, keys);
      for i := 0 to |keys|
        invariant i <= n
        invariant AttemptAll(start, replies, spec.name, Concat(parts[..i])) == (Now(), |Concat(parts[..i])|)
        invariant list == Concat(entries[..i])
      {
        var k := keys[i];
        if Refused(spec, attachments, k) {
          assert i == n && parts[..i] == parts;
          return BondWithNoLinks(spec.nics[k]), [];
        }
        ghost var before := Now();
        var ok, entry := ProcessKey(spec, attachments, k);
        PartNext(start, replies, spec.name, parts, i, before, Now(), ok);
        if !ok { return ApiError, []; }
        PartsSnoc(entries, i);
        list := list + entry;
      }
      assert parts[..n] == parts;
      assert entries[..|keys|] == entries;
      outcome := Done;
    }
  }

  /** How a run ends when every API call it made succeeded. */
  function Stopped(spec: Spec, attachments: seq<string>, keys: seq<string>): Outcome {
    var n := Processed(spec, attachments, keys);
    if n < |keys| && keys[n] in spec.nics then BondWithNoLinks(spec.nics[keys[n]]) else Done
  }

  method Owns(owners: seq<string>, me: string) returns (owned: bool)
    ensures owned == (me in owners)
  {
    owned := false;
    for i := 0 to |owners|
      invariant owned == (me in owners[..i])
    {
      if owners[i] == me { return true; }
    }
  }

  lemma PartsSnoc<T>(parts: seq<seq<T>>, i: nat)
    requires i < |parts|
    ensures Concat(parts[..i + 1]) == Concat(parts[..i]) + parts[i]
  {
    assert parts[..i + 1] == parts[..i] + [parts[i]];
    ConcatSnoc(parts[..i], parts[i]);
  }

  lemma KeysAreNics(spec: Spec, nicKeys: seq<string>, attachments: seq<string>)
    requires multiset(nicKeys) == multiset(spec.nics.Keys)
    ensures forall k | k in Keys(nicKeys, attachments) :: k in attachments || k in spec.nics
  {
    SortIsSorted(nicKeys + attachments);
    forall k | k in Keys(nicKeys, attachments) ensures k in attachments || k in spec.nics {
      assert k in multiset(Keys(nicKeys, attachments));
      assert k in nicKeys ==> k in multiset(nicKeys);
    }
  }

  /* ---------- what a run leaves ---------- */

  /** A run that failed anywhere, followed by one that succeeds, leaves the store that one
      successful run leaves; so does repeating a successful run.  The list is the same too, as it
      depends on the spec only. */
  lemma RunsConverge(w: World, replies: nat -> Reply, me: string, ws: seq<Write>)
    requires AttemptAll(AttemptAll(w, replies, me, ws).0, replies, me, ws).1 >= |ws|
    ensures AttemptAll(AttemptAll(w, replies, me, ws).0, replies, me, ws).0.nads == PutAll(w.nads, me, ws)
  {
    var half := AttemptAll(w, replies, me, ws).0;
    var k := AttemptsMean(w, replies, me, ws);
    SuccessMeans(half, replies, me, ws);
    RetryConverges(w.nads, me, ws, k);
  }

  lemma SuccessMeans(w: World, replies: nat -> Reply, me: string, ws: seq<Write>)
    requires AttemptAll(w, replies, me, ws).1 >= |ws|
    ensures AttemptAll(w, replies, me, ws).0.nads == PutAll(w.nads, me, ws)
  {
    var k := AttemptsMean(w, replies, me, ws);
    assert ws[..|ws|] == ws;
  }
}
