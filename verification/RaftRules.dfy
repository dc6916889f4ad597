/** What runs may look like: the readiness probe, the StatefulSet's order, and the guards that are
    enough to keep one cluster. */
module RaftRules {
  import opened Options
  import opened RaftMachine

  /* ---------- ovndb_readiness.sh ---------- */

  /** `get-connection` over tcp succeeds against pod -0's database port. */
  predicate ServesTcp(s: State)
    requires Slot(s, 0)
  {
    s.pods[0].ServerRuns() && s.listen == Some(Tcp)
  }

  /** check_protocol_mismatch in a pod whose template has this scheme. */
  predicate Mismatch(s: State, scheme: Scheme)
    requires Slot(s, 0)
  {
    scheme == Tcp || ServesTcp(s)
  }

  /** The readiness probe of pod i passes. */
  predicate Ready(s: State, i: nat)
    requires Slot(s, 0) && Slot(s, i)
  {
    var p := s.pods[i];
    && p.Up()
    && (p.file.Clustered? || (p.file.Joining? && i != 0 && Mismatch(s, p.scheme)))
  }

  /* ---------- the order of a StatefulSet ---------- */

  ghost predicate HigherAt(s: State, scheme: Scheme) {
    forall i | 0 < i < |s.pods| :: s.pods[i].phase.Gone? || s.pods[i].scheme == scheme
  }

  predicate FileAt(s: State, scheme: Scheme)
    requires Slot(s, 0)
  {
    s.pods[0].file.Clustered? ==> s.pods[0].file.scheme == scheme
  }

  /** The last rolling update is over: every pod is of the update revision, and pod -0's database
      was converted to it. */
  ghost predicate Settled(s: State)
    requires Slot(s, 0)
  {
    && HigherAt(s, s.target)
    && (!s.pods[0].phase.Gone? ==> s.pods[0].scheme == s.target)
    && ((exists i :: 0 <= i < |s.pods| && !s.pods[i].phase.Gone?) ==> FileAt(s, s.target))
  }

  /** The StatefulSet order.  pod -0 takes the update revision after every higher pod; until then,
      pods that are replaced for another reason come back at the current revision.  A higher pod
      that holds a cluster file goes away through a hook whose `cluster/leave` is accepted. */
  ghost predicate Allowed(s: State, e: Event)
    requires Slot(s, 0) && Enabled(s, e)
  {
    match e
    case Flip(_) => Settled(s)
    case Create(i, x) =>
      if i == 0 then (x == s.target && HigherAt(s, s.target)) || (x == s.current && FileAt(s, s.current))
      else
        || x == s.target
        || (x == s.current && FileAt(s, s.current) && (s.pods[0].phase.Gone? || s.pods[0].scheme == s.current))
    case Roll(i) =>
      && s.pods[i].scheme != s.target
      && forall j | i < j < |s.pods| :: s.pods[j].phase.Gone? || (s.pods[j].scheme == s.target && Ready(s, j))
    case Step(i, ok) => s.pods[i].phase == Hook(AskLeave) ==> ok
    case Kill(i) => i == 0 || !s.pods[i].file.OfCluster()
    case _ => true
  }

  /* ---------- the guards ---------- */

  /** pod -0 runs over a cluster of another scheme than its own. */
  predicate OffScheme(s: State)
    requires Slot(s, 0)
  {
    var p := s.pods[0];
    !p.phase.Gone? && p.file.Clustered? && p.file.scheme != p.scheme
  }

  /** Its setup.sh has not come to the start of the server: the conversion is ahead or under way. */
  predicate Converting(s: State)
    requires Slot(s, 0)
  {
    && OffScheme(s) && s.pods[0].phase.Setup?
    && !s.pods[0].phase.line.Launch? && !s.pods[0].phase.line.Fill? && !s.pods[0].phase.line.SetConnection?
  }

  /** At this line of pod i a command that fails makes the conversion fail. */
  predicate AtConversion(s: State, i: nat)
    requires Slot(s, 0) && Slot(s, i)
  {
    i == 0 && OffScheme(s) && (s.pods[0].phase == Setup(TestProtocol) || s.pods[0].phase == Setup(FinishConvert))
  }

  /** Flips, rolls, scale-downs, crashes and joins come at any time and in any order.  But pod -0 is
      created at the scheme its database has or at the one that all higher pods run; after a failed
      conversion no higher pod is created at another scheme than pod -0's; a conversion fails only
      while all higher pods run pod -0's scheme; and a higher pod with a cluster file goes away
      through a hook whose `cluster/leave` is accepted. */
  ghost predicate Guarded(s: State, e: Event)
    requires Slot(s, 0) && Enabled(s, e)
  {
    match e
    case Create(i, x) =>
      if i == 0 then FileAt(s, x) || HigherAt(s, x)
      else OffScheme(s) && !Converting(s) ==> x == s.pods[0].scheme
    case Step(i, ok) =>
      ok || (s.pods[i].phase != Hook(AskLeave) && (AtConversion(s, i) ==> HigherAt(s, s.pods[0].scheme)))
    case Kill(i) => i == 0 || !s.pods[i].file.OfCluster()
    case _ => true
  }

  /* ---------- runs ---------- */

  datatype Rule = Order | Guards

  ghost predicate Obeys(r: Rule, s: State, e: Event)
    requires Slot(s, 0) && Enabled(s, e)
  {
    if r == Order then Allowed(s, e) else Guarded(s, e)
  }

  ghost predicate Follows(r: Rule, s: State, evs: seq<Event>)
    requires Slot(s, 0)
    decreases |evs|
  {
    evs != [] ==> Enabled(s, evs[0]) && Obeys(r, s, evs[0]) && Follows(r, Apply(s, evs[0]), evs[1..])
  }
}
