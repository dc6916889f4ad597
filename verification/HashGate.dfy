/** The hash gate of the OVNController reconciler: a pass deploys only what an earlier status said. */
module HashGate {
  import opened Options

  /** Environment settings by name, as they are hashed. */
  type Env = map<string, string>

  const OVN_INPUT_HASH := "OvnInputHash"
  const OVS_INPUT_HASH := "OvsInputHash"

  datatype DaemonSet = Ovn | Ovs

  function HashKey(d: DaemonSet): string { if d.Ovn? then OVN_INPUT_HASH else OVS_INPUT_HASH }

  /** A DaemonSet created or patched with this CONFIG_HASH. */
  datatype Deploy = Deploy(daemon: DaemonSet, hash: string)

  /** How far the calls around the gate let a pass go. */
  datatype Reach =
    | StopsBeforeHashes   // RBAC, TLS secrets, or the ConfigMaps of the scripts
    | StopsAfterGate      // networks, topology
    | StopsAfterOvn       // the first DaemonSet is written, the second is not
    | WritesBoth

  /** One pass: the hashes of the TLS secrets and of the scripts it finds, how far it gets when the
      gate lets it through, and whether the status patch at its end succeeds. */
  datatype Pass = Pass(tls: Env, scripts: Env, reach: Reach, persisted: bool)

  /** The settings that are hashed for OVN; for OVS there are none. */
  function OvnEnv(p: Pass): Env { p.tls + p.scripts }

  predicate AtGate(p: Pass) { p.reach != StopsBeforeHashes }

  /** The hash the status holds for a DaemonSet is not this one. */
  predicate Changed(status: map<string, string>, d: DaemonSet, h: string) {
    HashKey(d) !in status || status[HashKey(d)] != h
  }

  predicate GateStops(hash: Env -> string, status: map<string, string>, p: Pass) {
    AtGate(p) && (Changed(status, Ovn, hash(OvnEnv(p))) || Changed(status, Ovs, hash(map[])))
  }

  /** The status a pass leaves. */
  function AfterPass(hash: Env -> string, status: map<string, string>, p: Pass): map<string, string> {
    if AtGate(p) && p.persisted then status[OVN_INPUT_HASH := hash(OvnEnv(p))][OVS_INPUT_HASH := hash(map[])] else status
  }

  /** The controller of one instance. */
  class Controller {
    const hash: Env -> string
    var status: map<string, string>

    constructor (hash: Env -> string)
      ensures this.hash == hash && status == map[]
    {
      this.hash, status := hash, map[];
    }

    /** The loops that copy the TLS settings for OVN: the second copies the copy onto itself, so
        the settings for OVS stay out and stay empty. */
    method MergeEnvs(tls: Env) returns (ovn: Env)
      ensures ovn == tls
    {
      ovn := CopyInto(map[], tls);
      ovn := CopyInto(ovn, ovn);
    }

    method CopyInto(target: Env, source: Env) returns (r: Env)
      ensures r == target + source
    {
      r := target;
      var left := source.Keys;
      while left != {}
        invariant left <= source.Keys
        invariant r.Keys == target.Keys + (source.Keys - left)
        invariant forall k | k in r :: r[k] == if k in source && k !in left then source[k] else target[k]
        decreases left
      {
        var k :| k in left;
        r := r[k := source[k]];
        left := left - {k};
      }
    }

    /** createHashOfInputHashes */
    method CreateHash(env: Env, d: DaemonSet) returns (h: string, changed: bool)
      modifies this
      ensures h == hash(env) && changed == Changed(old(status), d, h)
      ensures status == old(status)[HashKey(d) := h]
    {
      h := hash(env);
      changed := HashKey(d) !in status || status[HashKey(d)] != h;
      if changed { status := status[HashKey(d) := h]; }
      assert status == old(status)[HashKey(d) := h];
    }

    method Reconcile(p: Pass) returns (deploys: seq<Deploy>, stopped: bool)
      modifies this
      ensures status == AfterPass(hash, old(status), p)
      ensures stopped == GateStops(hash, old(status), p)
      ensures deploys == Deploys(hash, old(status), p)
    {
      deploys, stopped := [], false;
      var read := status;
      if p.reach != StopsBeforeHashes {
        var configMapVars: Env := map[];
        var ovnVars := MergeEnvs(p.tls);
        ovnVars := CopyInto(ovnVars, p.scripts);
        var ovnHash, ovnChanged := CreateHash(ovnVars, Ovn);
        var ovsHash, ovsChanged := CreateHash(configMapVars, Ovs);
        stopped := ovnChanged || ovsChanged;
        if !stopped && p.reach != StopsAfterGate {
          deploys := deploys + [Deploy(Ovn, ovnHash)];
          if p.reach == WritesBoth { deploys := deploys + [Deploy(Ovs, ovsHash)]; }
        }
      }
      if !p.persisted { status := read; }
    }
  }

  /** What a pass writes. */
  function Deploys(hash: Env -> string, status: map<string, string>, p: Pass): seq<Deploy> {
    if p.reach == StopsBeforeHashes || p.reach == StopsAfterGate || GateStops(hash, status, p) then []
    else [Deploy(Ovn, hash(OvnEnv(p)))] + if p.reach == WritesBoth then [Deploy(Ovs, hash(map[]))] else []
  }

  /* ---------- runs ---------- */

  /** The status before pass i of a run. */
  function StatusBefore(hash: Env -> string, status: map<string, string>, ps: seq<Pass>, i: nat): map<string, string>
    requires i <= |ps|
  {
    if i == 0 then status else AfterPass(hash, StatusBefore(hash, status, ps, i - 1), ps[i - 1])
  }

  /** Pass j of the run computed this hash, and its status patch went through. */
  predicate Stored(hash: Env -> string, ps: seq<Pass>, j: nat, w: Deploy) {
    j < |ps| && AtGate(ps[j]) && ps[j].persisted
    && w.hash == hash(if w.daemon == Ovn then OvnEnv(ps[j]) else map[])
  }

  lemma {:induction false} StatusCameFromPass(hash: Env -> string, status: map<string, string>, ps: seq<Pass>, i: nat, d: DaemonSet)
    requires i <= |ps|
    requires HashKey(d) in StatusBefore(hash, status, ps, i)
    ensures (HashKey(d) in status && status[HashKey(d)] == StatusBefore(hash, status, ps, i)[HashKey(d)])
      || exists j | 0 <= j < i :: Stored(hash, ps, j, Deploy(d, StatusBefore(hash, status, ps, i)[HashKey(d)]))
  {
    if i > 0 {
      if AtGate(ps[i - 1]) && ps[i - 1].persisted {
        assert OVN_INPUT_HASH[2] != OVS_INPUT_HASH[2];
        assert Stored(hash, ps, i - 1, Deploy(d, StatusBefore(hash, status, ps, i)[HashKey(d)]));
      } else {
        StatusCameFromPass(hash, status, ps, i - 1, d);
      }
    }
  }

  /** Over every run: whatever a pass writes was in the status it read, and got there by the patch
      of an earlier pass (or was in the status the run began with). */
  lemma DeploysWereStored(hash: Env -> string, status: map<string, string>, ps: seq<Pass>, i: nat, w: Deploy)
    requires i < |ps| && w in Deploys(hash, StatusBefore(hash, status, ps, i), ps[i])
    ensures HashKey(w.daemon) in StatusBefore(hash, status, ps, i)
    ensures StatusBefore(hash, status, ps, i)[HashKey(w.daemon)] == w.hash
    ensures (HashKey(w.daemon) in status && status[HashKey(w.daemon)] == w.hash)
      || exists j | 0 <= j < i :: Stored(hash, ps, j, w)
  {
    StatusCameFromPass(hash, status, ps, i, w.daemon);
  }

  /** A write is always of the settings of the pass that makes it; for OVS that is one and the same
      hash in every pass of every run, so no secret and no script ever rolls OVS. */
  lemma DeploysAreCurrent(hash: Env -> string, status: map<string, string>, p: Pass, w: Deploy)
    requires w in Deploys(hash, status, p)
    ensures w.hash == hash(if w.daemon == Ovn then OvnEnv(p) else map[])
  {
  }

  lemma OvsNeverRolls(hash: Env -> string, status: map<string, string>, ps: seq<Pass>, i: nat, j: nat, v: Deploy, w: Deploy)
    requires i < |ps| && j < |ps| && v.daemon == w.daemon == Ovs
    requires v in Deploys(hash, StatusBefore(hash, status, ps, i), ps[i])
    requires w in Deploys(hash, StatusBefore(hash, status, ps, j), ps[j])
    ensures v == w
  {
    DeploysAreCurrent(hash, StatusBefore(hash, status, ps, i), ps[i], v);
    DeploysAreCurrent(hash, StatusBefore(hash, status, ps, j), ps[j], w);
  }

  /** After a pass that got to the gate and whose status was stored, the next one that gets there
      is stopped exactly when the hash of its settings is another. */
  lemma NextStopsIff(hash: Env -> string, status: map<string, string>, p: Pass, q: Pass)
    requires AtGate(p) && p.persisted && AtGate(q)
    ensures GateStops(hash, AfterPass(hash, status, p), q) <==> hash(OvnEnv(q)) != hash(OvnEnv(p))
  {
    assert OVN_INPUT_HASH[2] != OVS_INPUT_HASH[2];
  }

  /** So with stable inputs and stored status no two passes of a run in a row are stopped, and the
      second deploys the settings, if the calls after the gate let it. */
  lemma NeverStopsTwice(hash: Env -> string, status: map<string, string>, ps: seq<Pass>, i: nat)
    requires i + 1 < |ps| && ps[i].persisted && OvnEnv(ps[i]) == OvnEnv(ps[i + 1])
    requires GateStops(hash, StatusBefore(hash, status, ps, i), ps[i])
    ensures !GateStops(hash, StatusBefore(hash, status, ps, i + 1), ps[i + 1])
    ensures ps[i + 1].reach == WritesBoth ==>
      Deploys(hash, StatusBefore(hash, status, ps, i + 1), ps[i + 1])
      == [Deploy(Ovn, hash(OvnEnv(ps[i + 1]))), Deploy(Ovs, hash(map[]))]
  {
    if AtGate(ps[i + 1]) { NextStopsIff(hash, StatusBefore(hash, status, ps, i), ps[i], ps[i + 1]); }
  }

  /** The last pass before pass i that got to the gate and whose status was stored. */
  function LastStored(ps: seq<Pass>, i: nat): (last: Option<nat>)
    requires i <= |ps|
    ensures last.Some? ==> last.value < i && AtGate(ps[last.value]) && ps[last.value].persisted
    ensures forall j | 0 <= j < i && AtGate(ps[j]) && ps[j].persisted :: last.Some? && j <= last.value
  {
    if i == 0 then None
    else if AtGate(ps[i - 1]) && ps[i - 1].persisted then Some(i - 1)
    else LastStored(ps, i - 1)
  }

  /** Before each pass of a run the status is what that pass stored. */
  lemma {:induction false} StatusIsOfLastStored(hash: Env -> string, ps: seq<Pass>, i: nat)
    requires i <= |ps|
    ensures var status, last := StatusBefore(hash, map[], ps, i), LastStored(ps, i);
      if last.None? then status == map[]
      else status == map[OVN_INPUT_HASH := hash(OvnEnv(ps[last.value])), OVS_INPUT_HASH := hash(map[])]
  {
    if i > 0 { StatusIsOfLastStored(hash, ps, i - 1); }
  }

  ghost predicate Distinguishes(hash: Env -> string) { forall a, b :: hash(a) == hash(b) ==> a == b }

  /** Over every run of a new instance, whatever fails and whatever gets lost: the gate stops exactly
      those passes that get there with other settings than the last one that was stored, or first. */
  lemma StopsIff(hash: Env -> string, ps: seq<Pass>, i: nat)
    requires i < |ps| && Distinguishes(hash)
    ensures GateStops(hash, StatusBefore(hash, map[], ps, i), ps[i]) <==>
      AtGate(ps[i]) && (LastStored(ps, i).None? || OvnEnv(ps[LastStored(ps, i).value]) != OvnEnv(ps[i]))
  {
    StatusIsOfLastStored(hash, ps, i);
    assert OVN_INPUT_HASH[2] != OVS_INPUT_HASH[2];
  }

  /** So OVN is written by exactly the passes that find their settings stored, and are not held up
      around the gate; and OVS is written with it unless the pass ends in between. */
  lemma DeploysIff(hash: Env -> string, ps: seq<Pass>, i: nat)
    requires i < |ps| && Distinguishes(hash)
    ensures var ds := Deploys(hash, StatusBefore(hash, map[], ps, i), ps[i]);
      (ds != [] <==> ps[i].reach in {StopsAfterOvn, WritesBoth}
                     && LastStored(ps, i).Some? && OvnEnv(ps[LastStored(ps, i).value]) == OvnEnv(ps[i]))
      && (|ds| == 2 <==> ds != [] && ps[i].reach == WritesBoth)
  {
    StopsIff(hash, ps, i);
  }
}
