/** setup.sh, cleanup.sh and ovndb_readiness.sh as the pod runs them, line after line on its own
    files, tied to the line machine and to what the operator expects of each. */
module RaftScripts {
  import opened Options
  import opened Text
  import opened ShellText
  import opened RaftMachine
  import opened RaftRules
  import opened RaftRuns

  /* ---------- the words cleanup.sh reads ---------- */

  function SkipBlanks(s: string): string {
    if s != "" && Blank(s[0]) then SkipBlanks(s[1..]) else s
  }

  function SkipWord(s: string): string {
    if s != "" && !Blank(s[0]) then SkipWord(s[1..]) else s
  }

  /** awk's `$2`. */
  function SecondWord(line: string): string {
    TakeWord(SkipBlanks(SkipWord(SkipBlanks(line))))
  }

  /** `grep Status: | awk '{print $2}'`. */
  function Printed(lines: seq<string>): string {
    if lines == [] then ""
    else (if Contains(lines[0], "Status:") then SecondWord(lines[0]) + "\n" else "") + Printed(lines[1..])
  }

  /** `$( )` drops the newlines at the end. */
  function Substituted(s: string): string {
    if s != "" && s[|s| - 1] == '\n' then Substituted(s[..|s| - 1]) else s
  }

  /** The variable STATUS after one poll. */
  function StatusWord(lines: seq<string>): string { Substituted(Printed(lines)) }

  lemma WordHasNoBlank(s: string)
    ensures ' ' !in TakeWord(s)
  {
  }

  lemma {:induction false} PrintedHasNoBlank(lines: seq<string>)
    ensures ' ' !in Printed(lines)
  {
    if lines != [] {
      PrintedHasNoBlank(lines[1..]);
      WordHasNoBlank(SkipBlanks(SkipWord(SkipBlanks(lines[0]))));
    }
  }

  lemma {:induction false} SubstitutedIsPrefix(s: string)
    ensures Substituted(s) <= s
  {
    if s != "" && s[|s| - 1] == '\n' { SubstitutedIsPrefix(s[..|s| - 1]); }
  }

  /** Whatever the server prints, STATUS is never "left cluster": the comparison never ends the wait. */
  lemma LeftClusterNeverMatches(lines: seq<string>)
    ensures StatusWord(lines) != "left cluster"
  {
    PrintedHasNoBlank(lines);
    SubstitutedIsPrefix(Printed(lines));
    assert "left cluster"[4] == ' ';
  }

  /** The loop of cleanup.sh over the server's answers; it is cut off when they run out, which is
      the pod's grace period.  It ends at the first answer without a status, and nowhere else. */
  method WaitUntilLeft(answers: seq<seq<string>>) returns (left: bool, polls: nat)
    ensures polls <= |answers|
    ensures forall k | 0 <= k < polls :: StatusWord(answers[k]) != ""
    ensures left <==> polls < |answers|
    ensures left ==> StatusWord(answers[polls]) == ""
  {
    polls := 0;
    while polls < |answers|
      invariant polls <= |answers|
      invariant forall k | 0 <= k < polls :: StatusWord(answers[k]) != ""
    {
      var status := StatusWord(answers[polls]);
      LeftClusterNeverMatches(answers[polls]);
      if status == "" || status == "left cluster" { return true, polls; }
      polls := polls + 1;
    }
    left := false;
  }

  /* ---------- the scripts ---------- */

  const DEFAULT_PROBE: nat := 60000

  class DbPod {
    const ordinal: nat
    const scheme: Scheme
    var file: DbFile
    var scratch: Scratch
    var listen: Option<Scheme>   // pod -0: the connection row ...
    var probe: Option<nat>       // ... and its inactivity_probe
    var running: bool

    constructor (ordinal: nat, scheme: Scheme, file: DbFile, scratch: Scratch)
      ensures this.ordinal == ordinal && this.scheme == scheme
      ensures this.file == file && this.scratch == scratch && !running
    {
      this.ordinal, this.scheme, this.file, this.scratch := ordinal, scheme, file, scratch;
      listen, probe, running := None, None, false;
    }

    method CleanupDbFile()
      modifies `file
      ensures file == Absent
    {
      file := Absent;
    }

    /** ovn-ctl run_*_ovsdb; cid names the cluster it would create. */
    method RunServer(cid: nat)
      requires !file.Empty? && (ordinal == 0 ==> !file.Joining?)
      modifies `file, `running, `listen, `probe
      ensures running && file.OfCluster()
      ensures file == if old(file).OfCluster() then old(file)
                      else if ordinal != 0 then Joining(scheme)
                      else Clustered(cid, scheme, if old(file).Standalone? then old(file).data else [])
      ensures if old(file).Absent? then listen == None && probe == None
              else listen == old(listen) && probe == old(probe)
    {
      if file.Absent? {
        listen, probe := None, None;
        file := Empty;
        file := if ordinal == 0 then Clustered(cid, scheme, []) else Joining(scheme);
      } else if file.Standalone? {
        file := if ordinal == 0 then Clustered(cid, scheme, file.data) else Joining(scheme);
      }
      running := true;
    }

    /** The conversion block: only pod -0, only a cluster file of another address. */
    method ConvertIfProtocolChanged(answers: bool, converts: bool)
      requires ordinal == 0 && !file.Joining?
      modifies `file, `scratch
      ensures file == if answers && converts && old(file).Clustered? && old(file).scheme != scheme
                      then Standalone(old(file).data) else old(file)
      ensures scratch == if !answers || !old(file).Clustered? || old(file).scheme == scheme then old(scratch)
                         else if converts then NoScratch else Torn
    {
      if file.OfCluster() && answers && file.scheme != scheme {
        scratch := NoScratch;
        scratch := Torn;
        if converts {
          scratch := Whole(file.data);
          file := Standalone(scratch.data);
          scratch := NoScratch;
        }
      }
    }

    /** set-connection clears the probe, so it is read before and set again after, until it sticks;
        `misses` counts the attempts that do not take. */
    method ConfigureConnection(misses: nat)
      modifies `listen, `probe
      ensures listen == Some(scheme)
      ensures probe == Some(if old(probe).None? then DEFAULT_PROBE else old(probe).value)
    {
      var current := if probe.None? then DEFAULT_PROBE else probe.value;
      listen, probe := Some(scheme), None;
      var left := misses;
      while probe != Some(current)
        invariant listen == Some(scheme)
        invariant probe == None || probe == Some(current)
        decreases if probe == Some(current) then 0 else 1, left
      {
        if left == 0 { probe := Some(current); } else { left := left - 1; }
      }
    }

    /** setup.sh.  Its effect on the database is SetupResult, which is also where the line machine
        ends (SetupMeaning); an operator-set inactivity probe outlives it. */
    method Setup(answers: bool, converts: bool, cid: nat, misses: nat)
      requires if ordinal == 0 then !file.Joining? else !file.Standalone?
      modifies this
      ensures running && file.OfCluster()
      ensures file == SetupResult(ordinal, scheme, old(file), answers && converts, cid)
      ensures ordinal == 0 ==> listen == Some(scheme)
      ensures ordinal == 0 ==>
        probe == Some(if old(probe).None? || old(file).Absent? || old(file).Empty? then DEFAULT_PROBE else old(probe).value)
      ensures ordinal != 0 ==> scratch == old(scratch)
    {
      if file.Absent? || file.Empty? { CleanupDbFile(); }
      if ordinal == 0 { ConvertIfProtocolChanged(answers, converts); }
      RunServer(cid);
      if ordinal == 0 { ConfigureConnection(misses); }
    }

    /** cleanup.sh.  A higher pod's file is deleted only after the server answered without a status;
        pod -0's file is kept in every case. */
    method Cleanup(accepted: bool, answers: seq<seq<string>>) returns (completed: bool)
      requires running
      modifies `file, `running
      ensures completed <==> ordinal == 0 || (accepted && exists k :: 0 <= k < |answers| && StatusWord(answers[k]) == "")
      ensures file == if completed && ordinal != 0 then Absent else old(file)
      ensures running <==> !completed
    {
      if ordinal != 0 {
        if !accepted { return false; }   // set -e
        var left, polls := WaitUntilLeft(answers);
        if !left { return false; }       // killed while waiting
        CleanupDbFile();
      }
      running := false;
      completed := true;
    }
  }

  /** TLS flip of pod -0 as its own scripts do it: the hook, then setup at the other scheme.  The rows
      are kept and the cluster is a new one at the new scheme. */
  method FlipZero(before: DbPod, to: Scheme, cid: nat) returns (after: DbPod)
    requires before.ordinal == 0 && before.running && before.file.Clustered? && before.file.scheme != to
    modifies before
    ensures after.file == Clustered(cid, to, old(before.file).data) && after.running
    ensures after.listen == Some(to)
  {
    var done := before.Cleanup(true, []);
    after := new DbPod(0, to, before.file, before.scratch);
    after.Setup(true, true, cid, 0);
  }

  /* ---------- the readiness probe ---------- */

  /** What the probe can find out from the local server. */
  datatype ServerStatus = NoProcess | NoAnswer | Member | JoiningCluster | OtherStatus

  function StatusOf(s: State, i: nat): ServerStatus
    requires Slot(s, i)
  {
    var p := s.pods[i];
    if !p.ServerRuns() then NoProcess
    else if p.phase.Hook? && (p.phase.hook.AwaitLeft? || p.phase.hook.RemoveDb?) then OtherStatus
    else match p.file
      case Clustered(_, _, _) => Member
      case Joining(_) => JoiningCluster
      case _ => NoAnswer
  }

  /** While a preStop hook runs the probe still passes for a member, and for an accepted joiner, as
      long as it has not begun to leave: before `cluster/leave`, and in pod -0 until it stops. */
  predicate PassesInHook(s: State, i: nat)
    requires Slot(s, 0) && Slot(s, i)
  {
    var p := s.pods[i];
    && p.phase.Hook? && (p.phase.hook.AskLeave? || p.phase.hook.StopServer?)
    && (p.file.Clustered? || (p.file.Joining? && i != 0 && Mismatch(s, p.scheme)))
  }

  /** ovndb_readiness.sh with its early exits. */
  method Probe(s: State, i: nat) returns (passes: bool)
    requires Slot(s, 0) && Slot(s, i)
    ensures passes <==> if s.pods[i].phase.Hook? then PassesInHook(s, i) else Ready(s, i)
  {
    var status := StatusOf(s, i);
    if status == NoProcess { return false; }
    if status == NoAnswer { return false; }
    if status == Member { return true; }
    if status == JoiningCluster {
      if i != 0 {
        var mismatch := ProtocolMismatch(s, s.pods[i].scheme);
        if mismatch { return true; }
      }
      return false;
    }
    return false;
  }

  /** check_protocol_mismatch. */
  method ProtocolMismatch(s: State, target: Scheme) returns (detected: bool)
    requires Slot(s, 0)
    ensures detected <==> Mismatch(s, target)
  {
    if target == Ssl {
      if ServesTcp(s) { return true; }
    } else {
      return true;
    }
    return false;
  }
}
