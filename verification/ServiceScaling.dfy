/** Per-pod services over scalings: OVNDBCluster's count-driven sweep and OVNNorthd's scan. */
module ServiceScaling {

  /** What one API call came to.  A call that did not finish may have had its effect all the same. */
  datatype Outcome = Done | Pending(done: bool) | Failed(done: bool)

  /** How a pass, or a part of it, ends; Requeue asks for another pass. */
  datatype Ending = Completed | EmptyResult | Requeue | Error

  /** The indices lo, lo+1, .., hi-1. */
  function Range(lo: nat, hi: nat): (r: set<nat>)
    ensures forall i: nat :: i in r <==> lo <= i < hi
  {
    set i: nat | lo <= i < hi && Within(lo, i, hi)
  }

  predicate Within(lo: nat, i: nat, hi: nat) { lo <= i < hi }

  lemma {:induction false} RangeSize(lo: nat, hi: nat)
    ensures |Range(lo, hi)| == if lo <= hi then hi - lo else 0
  {
    if lo < hi {
      RangeSize(lo, hi - 1);
      assert Range(lo, hi) == Range(lo, hi - 1) + {hi - 1};
    } else {
      assert Range(lo, hi) == {};
    }
  }

  /* ---------- OVNDBCluster ---------- */

  /** Services for the pods in the order listed, up to the first call that is not done. */
  function CreateAll(s: set<nat>, pods: seq<nat>, calls: seq<Outcome>): (set<nat>, Ending)
    requires |calls| == |pods|
    decreases |pods|
  {
    if pods == [] then (s, Completed)
    else match calls[0]
      case Done => CreateAll(s + {pods[0]}, pods[1..], calls[1..])
      case Pending(done) => (if done then s + {pods[0]} else s, EmptyResult)
      case Failed(done) => (if done then s + {pods[0]} else s, Error)
  }

  /** The deletions that fail, and whether each has its effect all the same. */
  type Fails = map<nat, bool>

  /** Deletion of the indices from n-1 down to the number of replicas, up to the first that fails. */
  function SweepDown(s: set<nat>, replicas: nat, n: nat, fails: Fails): (set<nat>, Ending)
    decreases n
  {
    if n <= replicas then (s, Completed)
    else if n - 1 in fails then (if fails[n - 1] then s - {n - 1} else s, Error)
    else SweepDown(s - {n - 1}, replicas, n - 1, fails)
  }

  /** One pass: how it fared before the loop over the pods (the common service, the list of pods), how
      the calls went (one that made the service may still fail on its metrics label), whether the
      listing before the sweep succeeded, which deletions fail, and how the part after it (DNS) ends. */
  datatype Pass = Pass(
    before: Ending, replicas: nat, pods: seq<nat>, calls: seq<Outcome>, listed: bool, fails: Fails, after: Ending)

  predicate WellFormed(p: Pass) { |p.calls| == |p.pods| }

  /** The services when the loop over the pods is over. */
  function Created(s: set<nat>, p: Pass): (set<nat>, Ending)
    requires WellFormed(p)
  {
    if p.before != Completed then (s, p.before) else CreateAll(s, p.pods, p.calls)
  }

  function AfterPass(s: set<nat>, p: Pass): (set<nat>, Ending)
    requires WellFormed(p)
  {
    var created := Created(s, p);
    if created.1 != Completed then created
    else
      var swept := if p.listed then SweepDown(created.0, p.replicas, |created.0|, p.fails) else created;
      (swept.0, if swept.1 == Completed then p.after else swept.1)
  }

  /** A pass in which every call was done. */
  predicate Clean(p: Pass) {
    && WellFormed(p) && p.before == Completed && p.after == Completed && p.listed && p.fails == map[]
    && forall i | 0 <= i < |p.calls| :: p.calls[i] == Done
  }

  function PodSet(pods: seq<nat>): set<nat> { set i | 0 <= i < |pods| :: pods[i] }

  lemma PodSetCons(pods: seq<nat>)
    requires pods != []
    ensures PodSet(pods) == {pods[0]} + PodSet(pods[1..])
  {
    forall x | x in PodSet(pods) ensures x == pods[0] || x in PodSet(pods[1..]) {
      var i :| 0 <= i < |pods| && pods[i] == x;
      if i > 0 { assert pods[1..][i - 1] == x; }
    }
    forall x | x in PodSet(pods[1..]) ensures x in PodSet(pods) {
      var i :| 0 <= i < |pods[1..]| && pods[1..][i] == x;
      assert pods[i + 1] == x;
    }
  }

  lemma {:induction false} CreateAllMeans(s: set<nat>, pods: seq<nat>, calls: seq<Outcome>)
    requires |calls| == |pods|
    ensures s <= CreateAll(s, pods, calls).0 <= s + PodSet(pods)
    ensures CreateAll(s, pods, calls).1 == Completed <==> forall i | 0 <= i < |pods| :: calls[i] == Done
    ensures CreateAll(s, pods, calls).1 == Completed ==> CreateAll(s, pods, calls).0 == s + PodSet(pods)
    decreases |pods|
  {
    if pods == [] {
      assert PodSet(pods) == {};
    } else {
      CreateAllMeans(s + {pods[0]}, pods[1..], calls[1..]);
      PodSetCons(pods);
      assert (forall i | 0 <= i < |pods| :: calls[i] == Done) <==>
        calls[0] == Done && (forall i | 0 <= i < |pods[1..]| :: calls[1..][i] == Done) by {
        if calls[0] == Done && (forall i | 0 <= i < |pods[1..]| :: calls[1..][i] == Done) {
          forall i | 0 <= i < |pods| ensures calls[i] == Done { if i > 0 { assert calls[i] == calls[1..][i - 1]; } }
        }
      }
    }
  }

  lemma {:induction false} SweepDownMeans(s: set<nat>, replicas: nat, n: nat, fails: Fails)
    ensures exists at: nat :: SweptAt(s, replicas, n, fails, at)
    decreases n
  {
    if n <= replicas || (n - 1 in fails && !fails[n - 1]) {
      assert SweptAt(s, replicas, n, fails, n) by { assert s - Range(n, n) == s; }
    } else if n - 1 in fails {
      assert SweptAt(s, replicas, n, fails, n - 1) by { assert s - Range(n - 1, n) == s - {n - 1}; }
    } else {
      SweepDownMeans(s - {n - 1}, replicas, n - 1, fails);
      var at: nat :| SweptAt(s - {n - 1}, replicas, n - 1, fails, at);
      assert s - {n - 1} - Range(at, n - 1) == s - Range(at, n);
      assert SweptAt(s, replicas, n, fails, at);
    }
  }

  /** The sweep removed the indices from `at` up, and stopped there because it was finished or
      because a deletion failed: the next one, or the last one that had its effect. */
  predicate SweptAt(s: set<nat>, replicas: nat, n: nat, fails: Fails, at: nat) {
    && at <= n && (replicas <= at || at == n)
    && SweepDown(s, replicas, n, fails).0 == s - Range(at, n)
    && (SweepDown(s, replicas, n, fails).1 == Completed ==> at <= replicas)
    && (SweepDown(s, replicas, n, fails).1 != Completed ==> Stopped(replicas, fails, at))
  }

  predicate Stopped(replicas: nat, fails: Fails, at: nat) {
    (at > replicas && at - 1 in fails && !fails[at - 1]) || (at >= replicas && at in fails && fails[at])
  }

  /** A sweep in which nothing fails. */
  lemma SweepDownAll(s: set<nat>, replicas: nat, n: nat)
    ensures SweepDown(s, replicas, n, map[]) == (s - Range(replicas, n), Completed)
  {
    SweepDownMeans(s, replicas, n, map[]);
    var at: nat :| SweptAt(s, replicas, n, map[], at);
    assert s - Range(at, n) == s - Range(replicas, n);
  }

  /** From any services, whatever fails: no service of a pod below the replica count goes, and no
      service appears that was not there and has no pod. */
  lemma WantedServicesStay(s: set<nat>, p: Pass)
    requires WellFormed(p)
    ensures forall i | i in s && i < p.replicas :: i in AfterPass(s, p).0
    ensures AfterPass(s, p).0 <= s + PodSet(p.pods)
  {
    CreateAllMeans(s, p.pods, p.calls);
    var created := CreateAll(s, p.pods, p.calls).0;
    SweepDownMeans(created, p.replicas, |created|, p.fails);
    var at: nat :| SweptAt(created, p.replicas, |created|, p.fails, at);
  }

  /** What a clean pass leaves, from any services. */
  lemma CleanPassMeans(s: set<nat>, p: Pass)
    requires Clean(p)
    ensures var created := s + PodSet(p.pods);
      AfterPass(s, p) == (created - Range(p.replicas, |created|), Completed)
  {
    CreateAllMeans(s, p.pods, p.calls);
    var created := s + PodSet(p.pods);
    SweepDownAll(created, p.replicas, |created|);
  }

  /** The sweep counts services, so it removes all beyond the replicas exactly when none has an
      index as large as both their number and the replica count. */
  lemma SweepCompleteIff(s: set<nat>, p: Pass)
    requires Clean(p)
    ensures (forall i | i in AfterPass(s, p).0 :: i < p.replicas) <==>
      forall i | i in s + PodSet(p.pods) :: i < p.replicas || i < |s + PodSet(p.pods)|
  {
    CleanPassMeans(s, p);
    var created := s + PodSet(p.pods);
    var after := AfterPass(s, p).0;
    forall i | i in created ensures i in after <==> i < p.replicas || i >= |created| {}
    forall i | i in after ensures i in created {}
  }

  function Max(a: nat, b: nat): nat { if a < b then b else a }

  function Min(a: nat, b: nat): nat { if a < b then a else b }

  /** From initial segments a clean pass leaves exactly this initial segment. */
  lemma SegmentPass(services: nat, pods: nat, p: Pass)
    requires Clean(p) && PodSet(p.pods) == Range(0, pods)
    ensures AfterPass(Range(0, services), p) == (Range(0, Min(Max(services, pods), p.replicas)), Completed)
  {
    CleanPassMeans(Range(0, services), p);
    SegmentsJoin(services, pods);
    RangeSize(0, Max(services, pods));
    SegmentCut(Max(services, pods), p.replicas);
  }

  lemma SegmentsJoin(m: nat, n: nat)
    ensures Range(0, m) + Range(0, n) == Range(0, Max(m, n))
  {
  }

  lemma SegmentCut(n: nat, replicas: nat)
    ensures Range(0, n) - Range(replicas, n) == Range(0, Min(n, replicas))
  {
  }

  /* ---------- when the services stay an initial segment ---------- */

  ghost predicate Segment(s: set<nat>) { exists n: nat :: IsRange(s, n) }

  predicate IsRange(s: set<nat>, n: nat) { s == Range(0, n) }

  lemma SubsetSize(s: set<nat>, t: set<nat>)
    requires s <= t
    ensures |s| <= |t| && (|s| == |t| ==> s == t)
  {
    assert t == s + (t - s);
    if |s| == |t| { assert t - s == {}; }
  }

  /** A set all of whose indices are below its size is an initial segment. */
  lemma BelowSizeIsSegment(s: set<nat>)
    requires forall i | i in s :: i < |s|
    ensures Segment(s)
  {
    RangeSize(0, |s|);
    SubsetSize(s, Range(0, |s|));
    assert IsRange(s, |s|);
  }

  /** What a sweep leaves is an initial segment exactly when what it found is: it never reaches the
      indices at or above the number of services, and cannot close a gap below them. */
  lemma SweepSegmentIff(s: set<nat>, replicas: nat, fails: Fails)
    ensures Segment(SweepDown(s, replicas, |s|, fails).0) <==> Segment(s)
  {
    SweepDownMeans(s, replicas, |s|, fails);
    var at: nat :| SweptAt(s, replicas, |s|, fails, at);
    if Segment(s) { CutOfSegment(s, at); }
    if Segment(s - Range(at, |s|)) { SegmentIfCutIs(s, at); }
  }

  lemma CutOfSegment(s: set<nat>, at: nat)
    requires Segment(s)
    ensures Segment(s - Range(at, |s|))
  {
    var n: nat :| IsRange(s, n);
    RangeSize(0, n);
    assert IsRange(s - Range(at, |s|), Min(at, n));
  }

  lemma SegmentIfCutIs(s: set<nat>, at: nat)
    requires Segment(s - Range(at, |s|))
    ensures Segment(s)
  {
    var left := s - Range(at, |s|);
    var n: nat :| IsRange(left, n);
    RangeSize(0, n);
    SubsetSize(left, s);
    forall i | i in s ensures i < |s| { assert i in left || i in Range(at, |s|); }
    BelowSizeIsSegment(s);
  }

  /** Whatever else fails in a pass, it leaves an initial segment exactly when its creations do. */
  lemma PassSegmentIff(s: set<nat>, p: Pass)
    requires WellFormed(p)
    ensures Segment(AfterPass(s, p).0) <==> Segment(Created(s, p).0)
  {
    SweepSegmentIff(Created(s, p).0, p.replicas, p.fails);
  }

  /** Wherever the creations stop, the services are an initial segment. */
  ghost predicate ListingSafe(s: set<nat>, pods: seq<nat>) {
    forall k | 0 <= k <= |pods| :: Segment(s + PodSet(pods[..k]))
  }

  /** The creations that succeed are those of the first pods listed. */
  lemma {:induction false} CreatesAPrefix(s: set<nat>, pods: seq<nat>, calls: seq<Outcome>) returns (k: nat)
    requires |calls| == |pods|
    ensures k <= |pods| && CreateAll(s, pods, calls).0 == s + PodSet(pods[..k])
    decreases |pods|
  {
    if pods == [] || calls[0] == Pending(false) || calls[0] == Failed(false) {
      k := 0;
      assert PodSet(pods[..0]) == {};
    } else {
      k := 1;
      if calls[0] == Done {
        var rest := CreatesAPrefix(s + {pods[0]}, pods[1..], calls[1..]);
        k := rest + 1;
      }
      assert pods[..k][0] == pods[0] && pods[..k][1..] == pods[1..][..k - 1];
      PodSetCons(pods[..k]);
      assert PodSet([]) == {};
    }
  }

  /** And they can stop after any number of them. */
  lemma {:induction false} AnyPrefixIsCreated(s: set<nat>, pods: seq<nat>, k: nat) returns (calls: seq<Outcome>)
    requires k <= |pods|
    ensures |calls| == |pods| && CreateAll(s, pods, calls).0 == s + PodSet(pods[..k])
    decreases |pods|
  {
    if pods == [] {
      calls := [];
      assert PodSet(pods[..k]) == {};
    } else if k == 0 {
      calls := seq(|pods|, _ => Pending(false));
      assert PodSet(pods[..k]) == {};
    } else {
      var rest := AnyPrefixIsCreated(s + {pods[0]}, pods[1..], k - 1);
      calls := [Done] + rest;
      assert calls[1..] == rest && pods[..k][1..] == pods[1..][..k - 1];
      PodSetCons(pods[..k]);
    }
  }

  /** A listing of pods is safe, however its creations fare, exactly when every prefix of it fills up an
      initial segment: a condition on the listing alone, known before the first call. */
  lemma ListingSafeIff(s: set<nat>, pods: seq<nat>)
    ensures (forall calls | |calls| == |pods| :: Segment(CreateAll(s, pods, calls).0)) <==> ListingSafe(s, pods)
  {
    if ListingSafe(s, pods) {
      forall calls | |calls| == |pods| ensures Segment(CreateAll(s, pods, calls).0) {
        var k := CreatesAPrefix(s, pods, calls);
      }
    } else {
      var k: nat :| k <= |pods| && !Segment(s + PodSet(pods[..k]));
      var calls := AnyPrefixIsCreated(s, pods, k);
    }
  }

  lemma AscendingIsSafe(s: set<nat>, pods: seq<nat>)
    requires Segment(s) && forall i | 0 <= i < |pods| :: pods[i] == i
    ensures ListingSafe(s, pods)
  {
    var n: nat :| IsRange(s, n);
    forall k | 0 <= k <= |pods| ensures Segment(s + PodSet(pods[..k])) {
      assert PodSet(pods[..k]) == Range(0, k) by {
        forall x | x in Range(0, k) ensures x in PodSet(pods[..k]) { assert pods[..k][x] == x; }
      }
      SegmentsJoin(n, k);
      assert IsRange(s + PodSet(pods[..k]), Max(n, k));
    }
  }

  /** Once all pods have their services any order of the listing is safe. */
  lemma PresentIsSafe(s: set<nat>, pods: seq<nat>)
    requires Segment(s) && forall i | 0 <= i < |pods| :: pods[i] in s
    ensures ListingSafe(s, pods)
  {
    forall k | 0 <= k <= |pods| ensures Segment(s + PodSet(pods[..k])) {
      assert s + PodSet(pods[..k]) == s;
    }
  }

  /* ---------- runs ---------- */

  predicate AllWellFormed(ps: seq<Pass>) { forall i | 0 <= i < |ps| :: WellFormed(ps[i]) }

  /** After every pass of the run the services are an initial segment. */
  ghost predicate AlwaysSegment(s: set<nat>, ps: seq<Pass>)
    requires AllWellFormed(ps)
    decreases |ps|
  {
    Segment(s) && (ps != [] ==> AlwaysSegment(AfterPass(s, ps[0]).0, ps[1..]))
  }

  /** In every pass of the run the creations stop at an initial segment. */
  ghost predicate CreatesSegments(s: set<nat>, ps: seq<Pass>)
    requires AllWellFormed(ps)
    decreases |ps|
  {
    ps != [] ==> Segment(Created(s, ps[0]).0) && CreatesSegments(AfterPass(s, ps[0]).0, ps[1..])
  }

  /** Over every run, scaling up and down and failing anywhere, the services stay an initial segment
      exactly when the creations of each pass stop at one; sweeps, listings and deletions that fail
      have no part in it. */
  lemma {:induction false} RunSegmentIff(s: set<nat>, ps: seq<Pass>)
    requires Segment(s) && AllWellFormed(ps)
    ensures AlwaysSegment(s, ps) <==> CreatesSegments(s, ps)
    decreases |ps|
  {
    if ps != [] {
      var t := AfterPass(s, ps[0]).0;
      PassSegmentIff(s, ps[0]);
      if Segment(t) { RunSegmentIff(t, ps[1..]); } else { assert !AlwaysSegment(t, ps[1..]); }
    }
  }

  /** The listing of each pass is safe, or all its creations succeed and fill up an initial segment. */
  ghost predicate SafeListings(s: set<nat>, ps: seq<Pass>)
    requires AllWellFormed(ps)
    decreases |ps|
  {
    ps != [] ==>
      && (ListingSafe(s, ps[0].pods) || (Created(s, ps[0]).1 == Completed && Segment(s + PodSet(ps[0].pods))))
      && SafeListings(AfterPass(s, ps[0]).0, ps[1..])
  }

  lemma {:induction false} RunKeepsSegment(s: set<nat>, ps: seq<Pass>)
    requires Segment(s) && AllWellFormed(ps) && SafeListings(s, ps)
    ensures AlwaysSegment(s, ps)
    decreases |ps|
  {
    if ps != [] {
      var p := ps[0];
      ListingSafeIff(s, p.pods);
      CreateAllMeans(s, p.pods, p.calls);
      PassSegmentIff(s, p);
      RunKeepsSegment(AfterPass(s, p).0, ps[1..]);
    }
  }

  /** The order of the listing matters when a pass stops half-way: names sort pod 10 before pod 2.
      A pass over eleven pods that is interrupted at pod 2, then a scale-down to three, leaves the
      service of pod 10 behind, and no later pass at that size removes it. */
  lemma ListingOrderMatters()
    ensures AfterPass({}, STOPPED) == ({0, 1, 10}, EmptyResult)
    ensures Clean(SMALLER) && AfterPass({0, 1, 10}, SMALLER) == ({0, 1, 2, 10}, Completed)
    ensures AfterPass({0, 1, 2, 10}, SMALLER) == ({0, 1, 2, 10}, Completed)
  {
    CreatedBeforeStop();
    SmallerLeaves({0, 1, 10});
    SmallerLeaves({0, 1, 2, 10});
    assert {0, 1, 10} + {0, 1, 2} == {0, 1, 2, 10} == {0, 1, 2, 10} + {0, 1, 2};
  }

  const STOPPED := Pass(Completed, 11, [0, 1, 10, 2, 3, 4, 5, 6, 7, 8, 9],
    [Done, Done, Done, Pending(false), Done, Done, Done, Done, Done, Done, Done], true, map[], Completed)

  const SMALLER := Pass(Completed, 3, [0, 1, 2], [Done, Done, Done], true, map[], Completed)

  lemma CreatedBeforeStop()
    ensures CreateAll({}, STOPPED.pods, STOPPED.calls) == ({0, 1, 10}, EmptyResult)
  {
    var pods, calls := STOPPED.pods, STOPPED.calls;
    StopsAt({0, 1, 10}, pods[3..], calls[3..]);
    OneMoreCreated({0, 1}, pods[2..], calls[2..]);
    OneMoreCreated({0}, pods[1..], calls[1..]);
    OneMoreCreated({}, pods, calls);
    assert {0} + {1} == {0, 1} && {0, 1} + {10} == {0, 1, 10} && {} + {0} == {0};
  }

  lemma SmallerLeaves(s: set<nat>)
    requires s + {0, 1, 2} == {0, 1, 2, 10}
    ensures AfterPass(s, SMALLER) == ({0, 1, 2, 10}, Completed)
  {
    CleanPassMeans(s, SMALLER);
    PodsOfSmaller();
    FourServices();
  }

  lemma FourServices()
    ensures var all: set<nat> := {0, 1, 2, 10};
      |all| == 4 && all - Range(3, |all|) == all
  {
    var all: set<nat> := {0, 1, 2, 10};
    assert |all| == 4;
  }

  lemma PodsOfSmaller()
    ensures PodSet(SMALLER.pods) == {0, 1, 2}
  {
    var pods := SMALLER.pods;
    assert pods[0] == 0 && pods[1] == 1 && pods[2] == 2;
    assert 0 in PodSet(pods) && 1 in PodSet(pods) && 2 in PodSet(pods);
  }

  lemma StopsAt(s: set<nat>, pods: seq<nat>, calls: seq<Outcome>)
    requires |calls| == |pods| > 0 && calls[0] == Pending(false)
    ensures CreateAll(s, pods, calls) == (s, EmptyResult)
  {
  }

  lemma OneMoreCreated(s: set<nat>, pods: seq<nat>, calls: seq<Outcome>)
    requires |calls| == |pods| > 0 && calls[0] == Done
    ensures CreateAll(s, pods, calls) == CreateAll(s + {pods[0]}, pods[1..], calls[1..])
  {
  }

  /** The services of one database cluster, updated pass by pass. */
  class PerPodServices {
    var services: set<nat>

    constructor ()
      ensures services == {}
    {
      services := {};
    }

    method ReconcileServices(p: Pass) returns (ending: Ending)
      requires WellFormed(p)
      modifies this
      ensures (services, ending) == AfterPass(old(services), p)
    {
      if p.before != Completed { return p.before; }
      for i := 0 to |p.pods|
        invariant CreateAll(old(services), p.pods, p.calls) == CreateAll(services, p.pods[i..], p.calls[i..])
      {
        assert p.pods[i..][1..] == p.pods[i + 1..] && p.calls[i..][1..] == p.calls[i + 1..];
        match p.calls[i] {
          case Done =>
            services := services + {p.pods[i]};
          case Pending(done) =>
            if done { services := services + {p.pods[i]}; }
            return EmptyResult;
          case Failed(done) =>
            if done { services := services + {p.pods[i]}; }
            return Error;
        }
      }
      ghost var created := services;
      if p.listed && |services| > p.replicas {
        var i := |services|;
        while i > p.replicas
          invariant i >= p.replicas
          invariant SweepDown(services, p.replicas, i, p.fails) == SweepDown(created, p.replicas, |created|, p.fails)
        {
          i := i - 1;
          if i !in p.fails || p.fails[i] { services := services - {i}; }
          if i in p.fails { return Error; }
        }
      }
      return p.after;
    }
  }

  /* ---------- OVNNorthd ---------- */

  const MAX_REPLICAS: nat := 32

  /** cleanupExtraServices: every index from the replica count up to 32; failures are passed over. */
  function Scan(s: set<nat>, replicas: nat, fails: Fails): set<nat> { s - Gone(replicas, MAX_REPLICAS, fails) }

  function Gone(lo: nat, hi: nat, fails: Fails): set<nat> { set i | i in Range(lo, hi) && (i !in fails || fails[i]) }

  /** The metrics services of OVNNorthd. */
  class MetricsServices {
    var services: set<nat>

    constructor ()
      ensures services == {}
    {
      services := {};
    }

    /** reconcileMetricsServices; call i is the creation of service i. */
    method ReconcileMetricsServices(replicas: nat, calls: seq<Outcome>, fails: Fails) returns (ending: Ending)
      requires |calls| == replicas
      modifies this
      ensures (forall i | 0 <= i < replicas :: calls[i] == Done) ==>
        ending == Completed && services == Scan(old(services) + Range(0, replicas), replicas, fails)
      ensures forall i | 0 <= i < replicas && calls[i] != Done && (forall k | 0 <= k < i :: calls[k] == Done) ::
        ending == (if calls[i].Pending? then Requeue else Error)
        && services == old(services) + Range(0, if calls[i].done then i + 1 else i)
    {
      for i := 0 to replicas
        invariant services == old(services) + Range(0, i)
        invariant forall k | 0 <= k < i :: calls[k] == Done
      {
        match calls[i] {
          case Done =>
            services := services + {i};
          case Pending(done) =>
            if done { services := services + {i}; }
            return Requeue;
          case Failed(done) =>
            if done { services := services + {i}; }
            return Error;
        }
      }
      CleanupExtraServices(replicas, fails);
      return Completed;
    }

    method CleanupExtraServices(replicas: nat, fails: Fails)
      modifies this
      ensures services == Scan(old(services), replicas, fails)
    {
      var i := replicas;
      while i < MAX_REPLICAS
        invariant replicas <= i
        invariant i > MAX_REPLICAS ==> i == replicas
        invariant services == old(services) - Gone(replicas, i, fails)
      {
        if i in services && (i !in fails || fails[i]) { services := services - {i}; }
        i := i + 1;
      }
    }
  }

  /** From any services below 32 a failure-free northd pass is exact, whatever gaps there are. */
  lemma NorthdExact(s: set<nat>, replicas: nat)
    requires s <= Range(0, MAX_REPLICAS)
    ensures Scan(s + Range(0, replicas), replicas, map[]) == Range(0, replicas)
  {
  }

  /** On initial segments the sweep by count and the scan leave the same services exactly when no
      service lies beyond both 32 and the replica count. */
  lemma SweepAgreesWithScanIff(n: nat, replicas: nat)
    ensures SweepDown(Range(0, n), replicas, n, map[]).0 == Scan(Range(0, n), replicas, map[]) <==> n <= Max(replicas, MAX_REPLICAS)
  {
    SweepDownAll(Range(0, n), replicas, n);
    var swept, scanned := Range(0, n) - Range(replicas, n), Scan(Range(0, n), replicas, map[]);
    if n > Max(replicas, MAX_REPLICAS) {
      assert n - 1 in scanned && n - 1 !in swept;
    } else {
      assert swept == scanned;
    }
  }
}
