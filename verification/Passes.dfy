/** One work pass (`work_once` in `src/lib.rs`, with `dispatch` and
    `parse_once` inside it) as the calls it makes: to the kernel, to the
    database one statement at a time, and to the generator of fresh ids. */
module Passes {
  import opened Sequences
  import opened Text
  import opened Domain
  import opened Parser
  import opened Scopes
  import opened Rows

  type RouteId = string
  type ClaimId = string

  datatype RoutedRequest = RoutedRequest(action: string, scope: string)

  datatype WorkClaim = WorkClaim(claimId: ClaimId, routeId: RouteId, fencingToken: int)

  datatype Call =
    // kernel
    | EligibleRoutes
    | ProposeClaim(routeId: RouteId)
    | GetRequest(routeId: RouteId)
    | SubmitRequest(action: string, scope: string)
    | CompleteClaim(claimId: ClaimId, fencingToken: int)
    // database
    | Begin
    | FindDigests(documentId: Uuid, documentVersion: Int64)
    | FindRun(key: Key)
    | InsertRun(key: Key)
    | InsertRow(row: CandidateRow)
    | SelectRows(key: Key)
    | Commit
    // randomness
    | FreshIds(count: nat)

  /** An answer to a call. `Failed` stands for every error: no connection, an
      unexpected status, a malformed or lost response. */
  datatype Reply =
    | Routes(routes: seq<RouteId>)
    | Claimed(claim: WorkClaim) | AlreadyClaimed | RouteNotFound
    | Found(request: RoutedRequest) | RequestNotFound
    | Accepted | NotAccepted
    | Completed | Fenced | ClaimNotFound
    | Done
    | Digests(digests: seq<Digest>)
    | RunFound(found: bool)
    | Inserted(count: nat)
    | SelectedRows(rows: seq<CandidateRow>)
    | Ids(ids: seq<Uuid>)
    | Failed

  datatype CandidateError = EmptySourceText | SourceDigestMismatch | Repository

  datatype PassError =
    | KernelFailed
    | MalformedScope(reason: ScopeError)
    | AdmissionNotAccepted
    | CandidateFailed(error: CandidateError)
    | Died

  datatype WorkOutcome =
    | NothingEligible
    | ClaimLost(routeId: RouteId)
    | RequestUnavailable(routeId: RouteId)
    | LostBeforeCompletion(routeId: RouteId, claimId: ClaimId)
    | CompletedWork(routeId: RouteId, candidateCount: nat, wasAlreadyProcessed: bool)
    | UnknownAction(routeId: RouteId, action: string)

  type PassResult = Result<WorkOutcome, PassError>

  /** A claimed `pf2e.parse` route and the source its scope names. */
  datatype Job = Job(routeId: RouteId, claim: WorkClaim, source: SourceReference)
  {
    function Key(): Key { KeyOf(source, PARSER_VERSION) }
  }

  /** What `dispatch` has come to before the claim is completed. */
  datatype Dispatched =
    | Parsed(job: Job, candidates: seq<Candidate>, wasAlreadyProcessed: bool)
    | Unknown(action: string)

  /** Where a pass stands: the call it makes next and what it remembers. */
  datatype Pc =
    | AskingRoutes
    | Claiming(routeId: RouteId)
    | Reading(routeId: RouteId, claim: WorkClaim)
    | Opening(job: Job)
    | CheckingDigests(job: Job)
    | FindingRun(job: Job)
    | Naming(job: Job)
    | InsertingRun(job: Job, candidates: seq<Candidate>)
    | InsertingRows(job: Job, candidates: seq<Candidate>, done: nat)
    | Loading(job: Job)
    | Committing(job: Job, candidates: seq<Candidate>, wasAlreadyProcessed: bool)
    | Submitting(job: Job, candidates: seq<Candidate>, wasAlreadyProcessed: bool, done: nat)
    | Completing(routeId: RouteId, claim: WorkClaim, dispatched: Dispatched)
    | Ended(result: PassResult)

  /** The pass has a call to make. */
  predicate Live(pc: Pc)
  {
    && !pc.Ended?
    && (pc.InsertingRows? || pc.Submitting? ==> pc.done < |pc.candidates|)
  }

  function CallOf(pc: Pc): Call
    requires Live(pc)
  {
    match pc
    case AskingRoutes => EligibleRoutes
    case Claiming(routeId) => ProposeClaim(routeId)
    case Reading(routeId, _) => GetRequest(routeId)
    case Opening(_) => Begin
    case CheckingDigests(job) => FindDigests(job.source.documentId, job.source.documentVersion)
    case FindingRun(job) => FindRun(job.Key())
    case Naming(job) => FreshIds(|ParseCandidates(job.source.sourceText)|)
    case InsertingRun(job, _) => InsertRun(job.Key())
    case InsertingRows(job, candidates, done) => InsertRow(RowOf(job.Key(), candidates[done]))
    case Loading(job) => SelectRows(job.Key())
    case Committing(_, _, _) => Commit
    case Submitting(job, candidates, _, done) =>
      SubmitRequest(ADMIT_ACTION, AdmitScopeFor(job.source, candidates[done]))
    case Completing(_, claim, _) => CompleteClaim(claim.claimId, claim.fencingToken)
  }

  function KernelError(): Pc { Ended(Err(KernelFailed)) }

  function CandidateFailure(error: CandidateError): Pc { Ended(Err(CandidateFailed(error))) }

  /** `dispatch` on the routed request, up to `parse_once`'s first call. */
  function Interpret(routeId: RouteId, claim: WorkClaim, request: RoutedRequest): Pc
  {
    if request.action == PARSE_ACTION then
      match ParseInputScope(request.scope)
      case Err(reason) => Ended(Err(MalformedScope(reason)))
      case Ok(source) => StartParse(Job(routeId, claim, source))
    else Completing(routeId, claim, Unknown(request.action))
  }

  function StartParse(job: Job): Pc
  {
    if Trim(job.source.sourceText) == "" then CandidateFailure(EmptySourceText) else Opening(job)
  }

  function WithIds(ids: seq<Uuid>, drafts: seq<Draft>): (candidates: seq<Candidate>)
    requires |ids| == |drafts|
    ensures |candidates| == |drafts|
    ensures forall i :: 0 <= i < |drafts| ==> candidates[i] == Candidate(ids[i], drafts[i])
  {
    seq(|ids|, i requires 0 <= i < |ids| => Candidate(ids[i], drafts[i]))
  }

  function NextInsert(job: Job, candidates: seq<Candidate>, done: nat): Pc
  {
    if done < |candidates| then InsertingRows(job, candidates, done) else Committing(job, candidates, false)
  }

  function NextSubmit(job: Job, candidates: seq<Candidate>, wasAlreadyProcessed: bool, done: nat): Pc
  {
    if done < |candidates| then Submitting(job, candidates, wasAlreadyProcessed, done)
    else Completing(job.routeId, job.claim, Parsed(job, candidates, wasAlreadyProcessed))
  }

  function AfterRoutes(reply: Reply): Pc
  {
    if !reply.Routes? then KernelError()
    else if reply.routes == [] then Ended(Ok(NothingEligible))
    else Claiming(reply.routes[0])
  }

  function AfterClaim(routeId: RouteId, reply: Reply): Pc
  {
    if reply.Claimed? then Reading(routeId, reply.claim)
    else if reply.AlreadyClaimed? || reply.RouteNotFound? then Ended(Ok(ClaimLost(routeId)))
    else KernelError()
  }

  function AfterRequest(routeId: RouteId, claim: WorkClaim, reply: Reply): Pc
  {
    if reply.Found? then Interpret(routeId, claim, reply.request)
    else if reply.RequestNotFound? then Ended(Ok(RequestUnavailable(routeId)))
    else KernelError()
  }

  function AfterDigests(job: Job, reply: Reply): Pc
  {
    if !reply.Digests? then CandidateFailure(Repository)
    else if exists d :: d in reply.digests && d != job.source.contentDigest then CandidateFailure(SourceDigestMismatch)
    else FindingRun(job)
  }

  function AfterFindRun(job: Job, reply: Reply): Pc
  {
    if !reply.RunFound? then CandidateFailure(Repository) else if reply.found then Loading(job) else Naming(job)
  }

  function AfterIds(job: Job, reply: Reply): Pc
  {
    var drafts := ParseCandidates(job.source.sourceText);
    if reply.Ids? && |reply.ids| == |drafts| then InsertingRun(job, WithIds(reply.ids, drafts))
    else Ended(Err(Died))
  }

  function AfterInsertRun(job: Job, candidates: seq<Candidate>, reply: Reply): Pc
  {
    if !reply.Inserted? then CandidateFailure(Repository)
    else if reply.count == 0 then Loading(job)
    else NextInsert(job, candidates, 0)
  }

  function AfterRows(job: Job, reply: Reply): Pc
  {
    if !reply.SelectedRows? then CandidateFailure(Repository)
    else
      match LoadCandidates(reply.rows)
      case None => CandidateFailure(Repository)
      case Some(candidates) => Committing(job, candidates, true)
  }

  function AfterSubmit(job: Job, candidates: seq<Candidate>, wasAlreadyProcessed: bool, done: nat, reply: Reply): Pc
  {
    if reply.Accepted? then NextSubmit(job, candidates, wasAlreadyProcessed, done + 1)
    else if reply.NotAccepted? then Ended(Err(AdmissionNotAccepted))
    else KernelError()
  }

  function AfterCompletion(routeId: RouteId, claim: WorkClaim, dispatched: Dispatched, reply: Reply): Pc
  {
    if !(reply.Completed? || reply.Fenced? || reply.ClaimNotFound?) then KernelError()
    else if dispatched.Unknown? then Ended(Ok(UnknownAction(routeId, dispatched.action)))
    else if reply.Completed? then
      Ended(Ok(CompletedWork(routeId, |dispatched.candidates|, dispatched.wasAlreadyProcessed)))
    else Ended(Ok(LostBeforeCompletion(routeId, claim.claimId)))
  }

  /** Where a pass stands after the answer to its call. An answer of a shape the
      call cannot have is a failure. */
  function Resume(pc: Pc, reply: Reply): Pc
    requires Live(pc)
  {
    match pc
    case AskingRoutes => AfterRoutes(reply)
    case Claiming(routeId) => AfterClaim(routeId, reply)
    case Reading(routeId, claim) => AfterRequest(routeId, claim, reply)
    case Opening(job) => if reply.Done? then CheckingDigests(job) else CandidateFailure(Repository)
    case CheckingDigests(job) => AfterDigests(job, reply)
    case FindingRun(job) => AfterFindRun(job, reply)
    case Naming(job) => AfterIds(job, reply)
    case InsertingRun(job, candidates) => AfterInsertRun(job, candidates, reply)
    case InsertingRows(job, candidates, done) =>
      if reply.Done? then NextInsert(job, candidates, done + 1) else CandidateFailure(Repository)
    case Loading(job) => AfterRows(job, reply)
    case Committing(job, candidates, wasAlreadyProcessed) =>
      if reply.Done? then NextSubmit(job, candidates, wasAlreadyProcessed, 0) else CandidateFailure(Repository)
    case Submitting(job, candidates, wasAlreadyProcessed, done) =>
      AfterSubmit(job, candidates, wasAlreadyProcessed, done, reply)
    case Completing(routeId, claim, dispatched) => AfterCompletion(routeId, claim, dispatched, reply)
  }
}
