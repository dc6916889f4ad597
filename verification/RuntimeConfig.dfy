/** Runtime configuration of a database cluster: when it is attempted, and which job sets what. */
module RuntimeConfig {
  import opened Options
  import opened Text

  /** The settings that are hashed together. */
  datatype Params = Params(electionTimer: int, inactivityProbe: int, logLevel: string)

  /** How one job submission ended; in progress does not stop the loop, an error does. */
  datatype Submission = Finished | InProgress | Broken

  /** One pass of the reconciler, as far as it concerns runtime configuration. */
  datatype Pass = Pass(
    params: Params,
    gated: bool,              // all pods ready and no rolling update
    mapWritten: bool,         // the ConfigMap for the jobs
    podsListed: bool,
    submissions: seq<Submission>,
    persisted: bool)          // the status patch at the end of the pass

  /** The hash of the settings tells them apart, and is never the empty string of a missing key. */
  ghost predicate Distinguishes(hash: Params -> string) {
    (forall p :: hash(p) != "") && forall p, q | hash(p) == hash(q) :: p == q
  }

  /* ---------- one attempt per change ---------- */

  /** The status hash a pass starts from, the one it leaves, and what it attempts. */
  function AfterPass(hash: Params -> string, stored: string, p: Pass): string {
    if p.gated && p.persisted then hash(p.params) else stored
  }

  function AttemptsOfPass(hash: Params -> string, stored: string, p: Pass): seq<Params> {
    if p.gated && hash(p.params) != stored then [p.params] else []
  }

  function Attempts(hash: Params -> string, stored: string, ps: seq<Pass>): seq<Params>
    decreases |ps|
  {
    if ps == [] then []
    else AttemptsOfPass(hash, stored, ps[0]) + Attempts(hash, AfterPass(hash, stored, ps[0]), ps[1..])
  }

  /** The hash in the status for the settings last recorded. */
  function Recorded(hash: Params -> string, last: Option<Params>): string {
    if last.None? then "" else hash(last.value)
  }

  /** The settings seen at gated passes. */
  function Seen(ps: seq<Pass>): seq<Params>
    decreases |ps|
  {
    if ps == [] then [] else (if ps[0].gated then [ps[0].params] else []) + Seen(ps[1..])
  }

  /** A list without the elements equal to the one just before. */
  function Changes(last: Option<Params>, ts: seq<Params>): seq<Params>
    decreases |ts|
  {
    if ts == [] then []
    else if last == Some(ts[0]) then Changes(last, ts[1..])
    else [ts[0]] + Changes(Some(ts[0]), ts[1..])
  }

  /** With persisted status the attempts are exactly the changes of the settings seen, whatever
      goes wrong after the hash is stored. */
  lemma {:induction false} OneAttemptPerChange(hash: Params -> string, last: Option<Params>, ps: seq<Pass>)
    requires Distinguishes(hash) && forall i | 0 <= i < |ps| :: ps[i].persisted
    ensures Attempts(hash, Recorded(hash, last), ps) == Changes(last, Seen(ps))
    decreases |ps|
  {
    if ps != [] {
      var p := ps[0];
      if p.gated {
        OneAttemptPerChange(hash, Some(p.params), ps[1..]);
        assert Seen(ps) == [p.params] + Seen(ps[1..]);
        assert Seen(ps)[1..] == Seen(ps[1..]);
      } else {
        OneAttemptPerChange(hash, last, ps[1..]);
        assert Seen(ps) == Seen(ps[1..]);
      }
    }
  }

  /* ---------- the jobs of one attempt ---------- */

  datatype Pod = Pod(name: string, node: string, failed: bool, succeeded: bool, deleting: bool)

  datatype Job = Job(name: string, node: string, configFlags: string)

  predicate Available(p: Pod) { !p.failed && !p.succeeded && !p.deleting }

  function AvailablePods(pods: seq<Pod>): seq<Pod> {
    if pods == [] then []
    else AvailablePods(pods[..|pods| - 1]) + if Available(pods[|pods| - 1]) then [pods[|pods| - 1]] else []
  }

  const FLAGS := ["ELECTION_TIMER", "LOG_LEVEL", "INACTIVITY_PROBE"]

  function JobName(pod: string, second: nat): string { pod + "-config-" + Decimal(second) }

  /** The jobs are one-to-one, in order, with the available pods. */
  predicate JobsOf(jobs: seq<Job>, pods: seq<Pod>, clock: seq<nat>) {
    |jobs| == |pods| == |clock|
    && forall i | 0 <= i < |jobs| :: jobs[i] == Job(JobName(pods[i].name, clock[i]), pods[i].node, Join(FLAGS, " "))
  }

  /** createConsolidatedConfigJobs; `now(i)` is the clock when pod i is looked at. */
  method CreateConfigJobs(pods: seq<Pod>, now: nat -> nat) returns (jobs: seq<Job>)
    ensures exists clock :: JobsOf(jobs, AvailablePods(pods), clock)
  {
    jobs := [];
    ghost var clock := [];
    assert pods[..0] == [];
    for i := 0 to |pods|
      invariant JobsOf(jobs, AvailablePods(pods[..i]), clock)
    {
      var pod := pods[i];
      assert pods[..i + 1][..i] == pods[..i];
      if pod.failed || pod.succeeded || pod.deleting { continue; }
      jobs := jobs + [Job(JobName(pod.name, now(i)), pod.node, Join(FLAGS, " "))];
      clock := clock + [now(i)];
    }
    assert pods[..|pods|] == pods;
  }

  /** A job name determines its pod, so the jobs of different pods never clash, whatever the clock. */
  lemma JobNameDeterminesPod(pod: string, second: nat, other: string, otherSecond: nat)
    requires JobName(pod, second) == JobName(other, otherSecond)
    ensures pod == other && second == otherSecond
  {
    var s, t := Decimal(second), Decimal(otherSecond);
    DecimalShape(second);
    DecimalShape(otherSecond);
    var name := JobName(pod, second);
    LastDash(pod + "-config", s, name);
    LastDash(other + "-config", t, name);
    assert |s| == |t|;
    assert s == name[|name| - |s|..] == t;
    DecimalInjective(second, otherSecond);
    assert pod == name[..|name| - |s| - 8] == other;
  }

  /** After the last dash there are only the digits. */
  lemma LastDash(before: string, digits: string, name: string)
    requires name == before + "-" + digits && AllDigits(digits)
    ensures name[|name| - |digits| - 1] == '-'
    ensures forall i | |name| - |digits| <= i < |name| :: name[i] != '-'
  {
    forall i | |name| - |digits| <= i < |name| ensures name[i] != '-' {
      assert name[i] == digits[i - |before| - 1];
    }
  }

  predicate DistinctNames(pods: seq<Pod>) { forall i, j | 0 <= i < j < |pods| :: pods[i].name != pods[j].name }

  lemma JobNamesDistinct(jobs: seq<Job>, pods: seq<Pod>, clock: seq<nat>)
    requires JobsOf(jobs, pods, clock) && DistinctNames(pods)
    ensures forall i, j | 0 <= i < j < |jobs| :: jobs[i].name != jobs[j].name
  {
    forall i, j | 0 <= i < j < |jobs| ensures jobs[i].name != jobs[j].name {
      JobNamesDiffer(pods[i].name, clock[i], pods[j].name, clock[j]);
    }
  }

  lemma JobNamesDiffer(pod: string, second: nat, other: string, otherSecond: nat)
    requires pod != other
    ensures JobName(pod, second) != JobName(other, otherSecond)
  {
    if JobName(pod, second) == JobName(other, otherSecond) { JobNameDeterminesPod(pod, second, other, otherSecond); }
  }

  /* ---------- runtime-config.sh ---------- */

  /** `$(hostname)` starts with the prefix of pod 0's jobs. */
  predicate Pod0Host(serviceName: string, hostname: string) { serviceName + "-0-config-" <= hostname }

  function PodName(serviceName: string, ordinal: nat): string { serviceName + "-" + Decimal(ordinal) }

  /** The host name of a job's pod is the job's name and a generated suffix.  The script's prefix
      matches it for ordinal 0 and for no other, 10 and 20 included. */
  lemma Pod0HostIff(serviceName: string, ordinal: nat, second: nat, suffix: string)
    ensures Pod0Host(serviceName, JobName(PodName(serviceName, ordinal), second) + suffix) <==> ordinal == 0
  {
    var host := JobName(PodName(serviceName, ordinal), second) + suffix;
    DecimalShape(ordinal);
    assert host == serviceName + "-" + Decimal(ordinal) + "-config-" + Decimal(second) + suffix;
    var n := |serviceName|;
    assert host[n + 1] == Decimal(ordinal)[0];
    assert (serviceName + "-0-config-")[n + 1] == '0';
    if ordinal == 0 {
      assert host == serviceName + "-0-config-" + Decimal(second) + suffix;
      assert host[..|serviceName + "-0-config-"|] == serviceName + "-0-config-";
    }
  }

  /** The settings of one database server, and the script on it. */
  class DbServer {
    var electionTimer: int
    var logLevel: string
    var inactivityProbe: int

    constructor (p: Params)
      ensures Settings() == p
    {
      electionTimer, logLevel, inactivityProbe := p.electionTimer, p.logLevel, p.inactivityProbe;
    }

    ghost function Settings(): Params reads this { Params(electionTimer, inactivityProbe, logLevel) }

    /** The flags, searched with `grep -q`, say what to do; `leader` whether the election timer may be changed here; the
        last two whether the log level and the probe can be set. */
    method Configure(p: Params, serviceName: string, hostname: string, configFlags: string,
                     socket: bool, leader: bool, logOk: bool, probeOk: bool) returns (ok: bool)
      modifies this
      ensures ok == (socket && (Contains(configFlags, "LOG_LEVEL") ==> logOk)
        && (Contains(configFlags, "INACTIVITY_PROBE") && Pod0Host(serviceName, hostname) ==> probeOk))
      ensures electionTimer == if socket && leader && Contains(configFlags, "ELECTION_TIMER") then p.electionTimer
                               else old(electionTimer)
      ensures logLevel == if socket && logOk && Contains(configFlags, "LOG_LEVEL") then p.logLevel else old(logLevel)
      ensures inactivityProbe == if ok && Contains(configFlags, "INACTIVITY_PROBE") && Pod0Host(serviceName, hostname)
                                 then p.inactivityProbe else old(inactivityProbe)
    {
      if !socket { return false; }
      if Contains(configFlags, "ELECTION_TIMER") && leader { electionTimer := p.electionTimer; }
      if Contains(configFlags, "LOG_LEVEL") {
        if !logOk { return false; }
        logLevel := p.logLevel;
      }
      if Contains(configFlags, "INACTIVITY_PROBE") && Pod0Host(serviceName, hostname) {
        if !probeOk { return false; }
        inactivityProbe := p.inactivityProbe;
      }
      return true;
    }
  }

  lemma {:induction false} JoinContains(words: seq<string>, i: nat)
    requires i < |words|
    ensures Contains(Join(words, " "), words[i])
  {
    if i == 0 {
      assert words[0] <= Join(words, " ");
    } else {
      JoinContains(words[1..], i - 1);
      ContainsAfter(words[0] + " ", Join(words[1..], " "), words[i]);
    }
  }

  /** A job whose script sets the inactivity probe. */
  ghost predicate WritesProbe(serviceName: string, job: Job, suffix: string) {
    Contains(job.configFlags, "INACTIVITY_PROBE") && Pod0Host(serviceName, job.name + suffix)
  }

  /** The pods of the cluster: each has its ordinal's name, no two the same. */
  predicate Ordinals(serviceName: string, pods: seq<Pod>, ordinals: seq<nat>) {
    && |pods| == |ordinals|
    && (forall i | 0 <= i < |pods| :: pods[i].name == PodName(serviceName, ordinals[i]))
    && forall i, j | 0 <= i < j < |pods| :: ordinals[i] != ordinals[j]
  }

  /** Of the jobs of one attempt exactly those of pod 0 write the probe: one when pod 0 is among
      the available pods, none otherwise. */
  lemma OneProbeWriter(serviceName: string, jobs: seq<Job>, pods: seq<Pod>, clock: seq<nat>, ordinals: seq<nat>, suffixes: seq<string>)
    requires JobsOf(jobs, pods, clock) && Ordinals(serviceName, pods, ordinals) && |suffixes| == |jobs|
    ensures forall i | 0 <= i < |jobs| :: WritesProbe(serviceName, jobs[i], suffixes[i]) <==> ordinals[i] == 0
    ensures forall i, j | 0 <= i < |jobs| && 0 <= j < |jobs| ::
      WritesProbe(serviceName, jobs[i], suffixes[i]) && WritesProbe(serviceName, jobs[j], suffixes[j]) ==> i == j
    ensures (exists i | 0 <= i < |jobs| :: WritesProbe(serviceName, jobs[i], suffixes[i])) <==> 0 in ordinals
  {
    JoinContains(FLAGS, 2);
    forall i | 0 <= i < |jobs| ensures WritesProbe(serviceName, jobs[i], suffixes[i]) <==> ordinals[i] == 0 {
      Pod0HostIff(serviceName, ordinals[i], clock[i], suffixes[i]);
    }
  }

  /* ---------- one pass ---------- */

  /** The part of the cluster's status that this concerns. */
  class ClusterStatus {
    const hash: Params -> string
    var stored: string

    constructor (hash: Params -> string)
      ensures this.hash == hash && stored == ""
    {
      this.hash, stored := hash, "";
    }

    /** reconcileRuntimeConfig: the hash is stored before anything is created. */
    method ReconcileRuntimeConfig(p: Pass) returns (attempts: seq<Params>, submitted: nat, ok: bool)
      modifies this
      ensures stored == hash(p.params)
      ensures attempts == if hash(p.params) == old(stored) then [] else [p.params]
      ensures submitted > 0 ==> attempts != [] && p.mapWritten && p.podsListed
      ensures submitted <= |p.submissions|
      ensures attempts != [] && ok ==> submitted == |p.submissions| && Broken !in p.submissions
    {
      attempts, submitted, ok := [], 0, true;
      if hash(p.params) == stored { return; }
      attempts := [p.params];
      stored := hash(p.params);
      if !p.mapWritten || !p.podsListed { return attempts, 0, false; }
      for i := 0 to |p.submissions|
        invariant Broken !in p.submissions[..i] && submitted == i
      {
        submitted := submitted + 1;
        if p.submissions[i] == Broken { return attempts, submitted, false; }
      }
      assert p.submissions[..|p.submissions|] == p.submissions;
    }

    /** A pass, with the status read at its start and patched at its end. */
    method Reconcile(p: Pass) returns (attempts: seq<Params>)
      modifies this
      ensures stored == AfterPass(hash, old(stored), p)
      ensures attempts == AttemptsOfPass(hash, old(stored), p)
    {
      attempts := [];
      var read := stored;
      if p.gated {
        var submitted, ok;
        attempts, submitted, ok := ReconcileRuntimeConfig(p);
      }
      if !p.persisted { stored := read; }
    }
  }
}
