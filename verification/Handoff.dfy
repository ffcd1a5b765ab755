/** Any number of work passes against one kernel and one database, interleaved
    call by call.

    What is assumed of the world around the passes is written in `Possible` and
    the `…After` functions. The kernel takes no request whose scope is over its
    limit. It grants a claim under a new id and a higher fencing token, at any
    time, for any route it does not hold as completed, and completes a claim only
    under the route's latest token. The database runs at READ COMMITTED: a
    statement sees what is committed when it runs and what its own transaction
    wrote; an insert that meets an uncommitted row with its key waits, so it has
    no answer until the other transaction ends. Fresh ids have never been handed
    out before. Every call may fail, with or without effect; a process may die
    and the database may end its transaction at any moment.

    A pass is never reused: a process that starts over, or goes on after a
    time-out, is a new pass. */
module Handoff {
  import opened Sequences
  import opened Domain
  import opened Scopes
  import opened Rows
  import opened Passes

  type PassId = nat

  /** An accepted `pf2e.rules.admit` submission: which pass's route it was made
      for and what its scope was printed from. */
  datatype Admission = Admission(routeId: RouteId, source: SourceReference, candidate: Candidate)
  {
    /** What the kernel and the Rules Service see of it. */
    function Scope(): string { AdmitScopeFor(source, candidate) }

    function Key(): Key { KeyOf(source, PARSER_VERSION) }
  }

  /** A committed run. The table `parse_runs` holds the key alone; the route and
      the candidates it was written for are recorded here to state what the rows
      of `parsed_candidates` are. No answer depends on them. */
  datatype Run = Run(routeId: RouteId, candidates: seq<Candidate>)

  /** What an open transaction has written. */
  datatype Tx = Tx(run: Option<Key>, rows: set<CandidateRow>)

  datatype Pass = Pass(pc: Pc, tx: Option<Tx>)

  datatype State = State(
    // the kernel
    requests: map<RouteId, RoutedRequest>,
    claims: map<ClaimId, WorkClaim>,
    tokens: map<RouteId, int>,
    completed: set<RouteId>,
    accepted: set<Admission>,
    // the database
    runs: map<Key, Run>,
    rows: set<CandidateRow>,
    // every fresh id handed out
    issued: set<Uuid>,
    passes: map<PassId, Pass>)

  const NOTHING_WRITTEN := Tx(None, {})

  // ---------- steps ----------

  /** The rows a statement of this transaction sees. */
  function Visible(s: State, tx: Tx): set<CandidateRow> { s.rows + tx.rows }

  predicate Sees(s: State, tx: Tx, key: Key) { key in s.runs || tx.run == Some(key) }

  ghost predicate NoDup<T(!new)>(xs: seq<T>)
  {
    forall i, j :: 0 <= i < j < |xs| ==> xs[i] != xs[j]
  }

  /** Another open transaction has inserted this run and not yet ended. */
  ghost predicate Locked(s: State, p: PassId, key: Key)
  {
    exists q :: q in s.passes && q != p && s.passes[q].tx.Some? && s.passes[q].tx.value.run == Some(key)
  }

  /** The database may answer a call so. */
  ghost predicate DatabaseMay(s: State, p: PassId, tx: Option<Tx>, call: Call, reply: Reply)
  {
    match call
    case Begin => reply.Done?
    case FindDigests(documentId, documentVersion) =>
      && tx.Some? && reply.Digests?
      && (forall d :: d in reply.digests <==>
            exists key :: Sees(s, tx.value, key) && key.documentId == documentId
                          && key.documentVersion == documentVersion && key.contentDigest == d)
    case FindRun(key) => tx.Some? && reply == RunFound(Sees(s, tx.value, key))
    case InsertRun(key) =>
      && tx.Some?
      && reply == Inserted(if Sees(s, tx.value, key) then 0 else 1)
      && !(key !in s.runs && Locked(s, p, key))
    case InsertRow(row) =>
      && tx.Some? && reply.Done?
      && Sees(s, tx.value, row.key)
      && forall r :: r in Visible(s, tx.value) ==> r.candidateId != row.candidateId
    case SelectRows(key) =>
      && tx.Some? && reply.SelectedRows?
      && NoDup(reply.rows)
      && forall r :: r in reply.rows <==> r in Visible(s, tx.value) && r.key == key
    case Commit => tx.Some? && reply.Done?
    case _ => false
  }

  /** The kernel may answer a call so. */
  predicate KernelMay(s: State, call: Call, reply: Reply)
  {
    match call
    case EligibleRoutes => reply.Routes? && forall r :: r in reply.routes ==> r in s.requests && r !in s.completed
    case ProposeClaim(routeId) =>
      || reply.AlreadyClaimed?
      || reply.RouteNotFound?
      || (&& reply.Claimed? && routeId in s.requests && routeId !in s.completed
          && reply.claim.routeId == routeId && reply.claim.claimId !in s.claims
          && (routeId in s.tokens ==> s.tokens[routeId] < reply.claim.fencingToken))
    case GetRequest(routeId) =>
      reply.RequestNotFound? || (routeId in s.requests && reply == Found(s.requests[routeId]))
    case SubmitRequest(_, scope) => reply.NotAccepted? || (reply.Accepted? && |scope| <= SCOPE_LIMIT)
    case CompleteClaim(claimId, fencingToken) =>
      || reply.Fenced?
      || reply.ClaimNotFound?
      || (reply.Completed? && Current(s, claimId, fencingToken))
    case _ => false
  }

  /** The claim is the latest granted for its route, and the route is open. */
  predicate Current(s: State, claimId: ClaimId, fencingToken: int)
  {
    && claimId in s.claims && s.claims[claimId].fencingToken == fencingToken
    && s.claims[claimId].routeId in s.tokens && s.tokens[s.claims[claimId].routeId] == fencingToken
    && s.claims[claimId].routeId !in s.completed
  }

  /** Fresh ids: distinct, and never handed out before. */
  ghost predicate FreshMay(s: State, call: Call, reply: Reply)
  {
    && call.FreshIds? && reply.Ids? && |reply.ids| == call.count
    && NoDup(reply.ids) && forall id :: id in reply.ids ==> id !in s.issued
  }

  ghost predicate Possible(s: State, p: PassId, reply: Reply)
    requires p in s.passes && Live(s.passes[p].pc)
  {
    var pc, tx := s.passes[p].pc, s.passes[p].tx;
    reply.Failed? || KernelMay(s, CallOf(pc), reply) || DatabaseMay(s, p, tx, CallOf(pc), reply)
    || FreshMay(s, CallOf(pc), reply)
  }

  /** What an answered call leaves in its transaction. */
  function TxAfter(pass: Pass, reply: Reply): Option<Tx>
    requires Live(pass.pc)
  {
    match pass.pc
    case Opening(_) => if reply.Done? then Some(NOTHING_WRITTEN) else pass.tx
    case InsertingRun(job, _) =>
      if pass.tx.Some? && reply == Inserted(1) then Some(pass.tx.value.(run := Some(job.Key()))) else pass.tx
    case InsertingRows(job, candidates, done) =>
      if pass.tx.Some? && reply.Done? then
        Some(pass.tx.value.(rows := pass.tx.value.rows + {RowOf(job.Key(), candidates[done])}))
      else pass.tx
    case Committing(_, _, _) => if reply.Done? then None else pass.tx
    case _ => pass.tx
  }

  /** What an answered call leaves in the kernel, the tables and the id supply. */
  function WorldAfter(s: State, pass: Pass, reply: Reply): State
    requires Live(pass.pc)
  {
    match pass.pc
    case Claiming(routeId) =>
      if reply.Claimed? then
        s.(claims := s.claims[reply.claim.claimId := reply.claim],
           tokens := s.tokens[routeId := reply.claim.fencingToken])
      else s
    case Naming(_) => if reply.Ids? then s.(issued := s.issued + set id | id in reply.ids) else s
    case Committing(job, candidates, _) =>
      if reply.Done? && pass.tx.Some? && pass.tx.value.run.Some? then
        s.(runs := s.runs[pass.tx.value.run.value := Run(job.routeId, candidates)],
           rows := s.rows + pass.tx.value.rows)
      else s
    case Submitting(job, candidates, _, done) =>
      if reply.Accepted? then s.(accepted := s.accepted + {Admission(job.routeId, job.source, candidates[done])}) else s
    case Completing(_, claim, _) =>
      if reply.Completed? && claim.claimId in s.claims then
        s.(completed := s.completed + {s.claims[claim.claimId].routeId})
      else s
    case _ => s
  }

  datatype Event =
    /** The kernel accepts a request and routes it here. */
    | Arrive(routeId: RouteId, request: RoutedRequest)
    /** A pass begins. */
    | Start(pass: PassId)
    /** A pass's call is answered. */
    | Serve(pass: PassId, reply: Reply)
    /** A pass's call takes effect, but its answer is lost. */
    | Lose(pass: PassId, reply: Reply)
    /** A pass's process dies. */
    | Crash(pass: PassId)
    /** The database ends a pass's transaction, undoing what it wrote. */
    | Abort(pass: PassId)

  ghost predicate Enabled(s: State, e: Event)
  {
    match e
    case Arrive(routeId, request) => routeId !in s.requests && |request.scope| <= SCOPE_LIMIT
    case Start(p) => p !in s.passes
    case Serve(p, reply) => p in s.passes && Live(s.passes[p].pc) && Possible(s, p, reply)
    case Lose(p, reply) => p in s.passes && Live(s.passes[p].pc) && Possible(s, p, reply)
    case Crash(p) => p in s.passes
    case Abort(p) => p in s.passes && s.passes[p].tx.Some?
  }

  ghost function Next(s: State, e: Event): State
    requires Enabled(s, e)
  {
    match e
    case Arrive(routeId, request) => s.(requests := s.requests[routeId := request])
    case Start(p) => s.(passes := s.passes[p := Pass(AskingRoutes, None)])
    case Serve(p, reply) => Answered(s, p, reply, reply)
    case Lose(p, reply) => Answered(s, p, reply, Failed)
    case Crash(p) => s.(passes := s.passes[p := s.passes[p].(pc := Ended(Err(Died)))])
    case Abort(p) => s.(passes := s.passes[p := s.passes[p].(tx := None)])
  }

  /** The call of pass `p` takes effect with `reply`, and the pass hears `heard`. */
  function Answered(s: State, p: PassId, reply: Reply, heard: Reply): State
    requires p in s.passes && Live(s.passes[p].pc)
  {
    var pass := s.passes[p];
    var world := WorldAfter(s, pass, reply);
    world.(passes := s.passes[p := Pass(Resume(pass.pc, heard), TxAfter(pass, reply))])
  }

  /** Nothing has arrived, nothing is stored, no pass has begun. */
  function Initial(): State
  {
    State(map[], map[], map[], {}, {}, map[], {}, {}, map[])
  }

  /** A run from one state to another. */
  ghost predicate Reaches(s: State, events: seq<Event>, t: State)
    decreases |events|
  {
    if events == [] then s == t
    else Enabled(s, events[0]) && Reaches(Next(s, events[0]), events[1..], t)
  }
}
