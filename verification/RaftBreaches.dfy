/** Each guard that NoSplitBrain relies on is needed: one breach of it, in a run that is otherwise
    guarded and starts in a good state, splits the cluster. */
module RaftBreaches {
  import opened Options
  import opened RaftMachine
  import opened RaftSafety
  import opened RaftRules
  import opened RaftGuards
  import opened RaftRuns

  /** A run from the good state s to the split state t, guarded but for the single event e in a. */
  ghost predicate OneBreach(s: State, a: State, e: Event, t: State) {
    && GuardInv(s) && |s.pods| == |a.pods| == |t.pods|
    && Reaches(Guards, s, a) && Enabled(a, e) && !Guarded(a, e) && |Apply(a, e).pods| == |s.pods|
    && Reaches(Guards, Apply(a, e), t) && !Unity(t)
  }

  const MEMBER := Pod(Tcp, Serving, Clustered(0, Tcp, []), NoScratch)

  const STOPPED := Pod(Tcp, Gone, Clustered(0, Tcp, []), NoScratch)

  const NONE := Pod(Tcp, Gone, Absent, NoScratch)

  /** Two serving members over tcp. */
  const PAIR := State([MEMBER, MEMBER], Tcp, Tcp, Some(Tcp), 1)

  /** One serving member over tcp; the second pod was never created. */
  const SINGLE := State([MEMBER, NONE], Tcp, Tcp, Some(Tcp), 1)

  /** The spec changes to ssl. */
  function Flipped(second: Pod): State { State([MEMBER, second], Tcp, Ssl, Some(Tcp), 1) }

  /** And pod -0 is gone, gracefully. */
  function ZeroStopped(second: Pod): State { State([STOPPED, second], Tcp, Ssl, Some(Tcp), 1) }

  lemma StopZero(second: Pod)
    ensures Reaches(Guards, Flipped(second), ZeroStopped(second))
  {
    var s := Flipped(second);
    ReachesByOne(Guards, s, Terminate(0));
    var m := Apply(s, Terminate(0));
    ReachesOneMore(Guards, s, m, Step(0, true));
    var t := Apply(m, Step(0, true));
    assert t.pods == [STOPPED, second];
    assert t == ZeroStopped(second);
  }

  lemma FlipAndStopZero(s: State)
    requires s == PAIR || s == SINGLE
    ensures Reaches(Guards, s, ZeroStopped(s.pods[1]))
  {
    assert Apply(s, Flip(Ssl)) == Flipped(s.pods[1]);
    ReachesByOne(Guards, s, Flip(Ssl));
    StopZero(s.pods[1]);
    ReachesOn(Guards, s, Flipped(s.pods[1]), ZeroStopped(s.pods[1]));
  }

  /** Once pod -0 starts at ssl over its tcp cluster, its setup.sh makes a new cluster; a higher
      tcp member is left behind. */
  lemma ConversionSplits(s: State) returns (t: State)
    requires Base(s) && |s.pods| == 2
    requires s.pods[0].phase == Setup(TestEmpty) && s.pods[0].scheme == Ssl
    requires s.pods[0].file == Clustered(0, Tcp, []) == s.pods[1].file
    ensures Reaches(Guards, s, t) && !Unity(t) && |t.pods| == 2
  {
    t := SetupServes(s, 0, true);
    assert t.pods[1].file.Clustered?;
  }

  /** Creating pod -0 at the new scheme before a higher member is replaced. */
  lemma OutOfOrderSplits() returns (a: State, t: State)
    ensures OneBreach(PAIR, a, Create(0, Ssl), t)
  {
    a := ZeroStopped(MEMBER);
    FlipAndStopZero(PAIR);
    assert a.pods[1].scheme == Tcp;
    t := ConversionSplits(Apply(a, Create(0, Ssl)));
  }

  /** The file of a higher pod that went away without leaving goes on as a member of the old cluster
      when pod -0 is converted. */
  lemma LeftBehindSplits() returns (t: State)
    ensures Reaches(Guards, Flipped(STOPPED), t) && !Unity(t) && |t.pods| == 2
  {
    var s, c := Flipped(STOPPED), ZeroStopped(STOPPED);
    StopZero(STOPPED);
    assert HigherAt(c, Ssl);
    ReachesOneMore(Guards, s, c, Create(0, Ssl));
    t := ConversionSplits(Apply(c, Create(0, Ssl)));
    ReachesOn(Guards, s, Apply(c, Create(0, Ssl)), t);
  }

  /** A refused `cluster/leave` ends the hook before it deletes the file. */
  lemma RefusedLeaveSplits() returns (a: State, t: State)
    ensures OneBreach(PAIR, a, Step(1, false), t)
  {
    var f := Apply(PAIR, Flip(Ssl));
    ReachesByOne(Guards, PAIR, Flip(Ssl));
    ReachesOneMore(Guards, PAIR, f, Terminate(1));
    a := Apply(f, Terminate(1));
    assert Apply(a, Step(1, false)) == Flipped(STOPPED);
    t := LeftBehindSplits();
  }

  /** A higher member that is killed keeps its file. */
  lemma KillSplits() returns (a: State, t: State)
    ensures OneBreach(PAIR, a, Kill(1), t)
  {
    ReachesByOne(Guards, PAIR, Flip(Ssl));
    a := Apply(PAIR, Flip(Ssl));
    assert Apply(a, Kill(1)) == Flipped(STOPPED);
    t := LeftBehindSplits();
  }

  /** pod -0 serves its tcp cluster from an ssl revision, and a second pod starts at tcp: it joins, and
      one restart of pod -0's container repeats the conversion and splits it off. */
  lemma LateJoinerSplits(b: State) returns (t: State)
    requires Base(b) && |b.pods| == 2
    requires b.pods[0].phase == Serving && b.pods[0].scheme == Ssl && b.pods[0].file == Clustered(0, Tcp, [])
    requires b.pods[1].phase == Setup(TestEmpty) && b.pods[1].scheme == Tcp && b.pods[1].file == Absent
    ensures Reaches(Guards, b, t) && !Unity(t) && |t.pods| == 2
  {
    var m := SetupServes(b, 1, true);
    ReachesOneMore(Guards, b, m, Join(1));
    BaseKept(m, Join(1));
    var d := Apply(m, Join(1));
    ReachesOneMore(Guards, b, d, Crash(0));
    BaseKept(d, Crash(0));
    var r := Apply(d, Crash(0));
    t := ConversionSplits(r);
    ReachesOn(Guards, b, r, t);
  }

  /** From SINGLE, pod -0 at its first line at ssl. */
  lemma StartAtSsl() returns (c: State)
    ensures Reaches(Guards, SINGLE, c) && Base(c)
    ensures c == State([Pod(Ssl, Setup(TestEmpty), Clustered(0, Tcp, []), NoScratch), NONE], Tcp, Ssl, Some(Tcp), 1)
  {
    var z := ZeroStopped(NONE);
    FlipAndStopZero(SINGLE);
    assert HigherAt(z, Ssl);
    ReachesOneMore(Guards, SINGLE, z, Create(0, Ssl));
    c := Apply(z, Create(0, Ssl));
  }

  /** Its conversion fails, and the spec is flipped back before it is repeated. */
  lemma FailAndFlipBack() returns (a: State)
    ensures Reaches(Guards, SINGLE, a) && Base(a) && |a.pods| == 2 && a.target == Tcp && a.pods[1] == NONE
    ensures a.pods[0].phase == Serving && a.pods[0].scheme == Ssl && a.pods[0].file == Clustered(0, Tcp, [])
  {
    var c := StartAtSsl();
    assert HigherAt(c, Ssl);
    var f := SetupServes(c, 0, false);
    ReachesOn(Guards, SINGLE, c, f);
    ReachesOneMore(Guards, SINGLE, f, Flip(Tcp));
    BaseKept(f, Flip(Tcp));
    a := Apply(f, Flip(Tcp));
  }

  /** Then a higher pod created at the revision asked for splits the cluster. */
  lemma FlipBackSplits() returns (a: State, t: State)
    ensures a.target == Tcp && OneBreach(SINGLE, a, Create(1, Tcp), t)
  {
    a := FailAndFlipBack();
    BaseKept(a, Create(1, Tcp));
    t := LateJoinerSplits(Apply(a, Create(1, Tcp)));
  }

  /** The spec is flipped back while pod -0 is about to convert, and a higher pod starts. */
  lemma FlipBackWhileConverting() returns (a: State)
    ensures Reaches(Guards, SINGLE, a) && Base(a) && |a.pods| == 2 && a.target == Tcp
    ensures a.pods == [Pod(Ssl, Setup(TestProtocol), Clustered(0, Tcp, []), NoScratch), Pod(Tcp, Setup(TestEmpty), Absent, NoScratch)]
  {
    var c := StartAtSsl();
    ReachesOneMore(Guards, SINGLE, c, Flip(Tcp));
    var x := Apply(c, Flip(Tcp));
    ReachesOneMore(Guards, SINGLE, x, Create(1, Tcp));
    var y := Apply(x, Create(1, Tcp));
    ReachesOneMore(Guards, SINGLE, y, Step(0, true));
    a := Apply(y, Step(0, true));
  }

  /** The conversion fails, and pod -0 serves its tcp cluster. */
  lemma FailAndServe(a: State) returns (m: State)
    requires Base(a) && |a.pods| == 2
    requires a.pods == [Pod(Ssl, Setup(TestProtocol), Clustered(0, Tcp, []), NoScratch), Pod(Tcp, Setup(TestEmpty), Absent, NoScratch)]
    ensures Reaches(Guards, Apply(a, Step(0, false)), m) && Base(m) && |m.pods| == 2 && m.pods[1] == a.pods[1]
    ensures m.pods[0].phase == Serving && m.pods[0].scheme == Ssl && m.pods[0].file == Clustered(0, Tcp, [])
  {
    BaseKept(a, Step(0, false));
    var b := Apply(a, Step(0, false));
    assert PodOk(b, 0, b.pods[0]);
    m := SetupLeads(b, 0, true);
    SetupFromLaunch(0, b.pods[0], true, b.nextCid);
  }

  /** Then a failing conversion splits the cluster. */
  lemma FailureAfterFlipSplits() returns (a: State, t: State)
    ensures OneBreach(SINGLE, a, Step(0, false), t)
  {
    a := FlipBackWhileConverting();
    assert a.pods[1].scheme == Tcp;
    var m := FailAndServe(a);
    t := LateJoinerSplits(m);
    ReachesOn(Guards, Apply(a, Step(0, false)), m, t);
  }
}
