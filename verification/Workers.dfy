/** The code of a work pass, statement by statement, over a port that answers
    its calls. Each method is proved to make exactly the calls the automaton of
    `Passes` makes and to act on every answer as it does. */
module Workers {
  import opened Sequences
  import opened Text
  import opened Domain
  import opened Parser
  import opened Scopes
  import opened Rows
  import opened Passes

  datatype ParseOutcome = ParseOutcome(
    source: SourceReference, candidates: seq<Candidate>, wasAlreadyProcessed: bool)

  datatype DispatchOutcome = DispatchOutcome(candidateCount: nat, wasAlreadyProcessed: bool)

  datatype DispatchError = UnknownActionError(action: string) | Other(error: PassError)

  /** The kernel, the database and the id generator as one port. What they will
      answer is not known to the caller. */
  class Port {
    var answers: seq<Reply>
    ghost var pc: Pc

    /** Every call made must be the one the automaton makes next. */
    method Ask(call: Call) returns (reply: Reply)
      requires Live(pc) && call == CallOf(pc)
      modifies this
      ensures pc == Resume(old(pc), reply)
    {
      hide Resume;
      reply := if answers == [] then Failed else answers[0];
      answers := if answers == [] then [] else answers[1..];
      pc := Resume(pc, reply);
    }

    /** The generator of fresh ids, which always answers. */
    method Fresh(count: nat) returns (ids: seq<Uuid>)
      requires pc.Naming? && count == |ParseCandidates(pc.job.source.sourceText)|
      modifies this
      ensures |ids| == count && pc == Resume(old(pc), Ids(ids))
    {
      var reply := if answers == [] then Failed else answers[0];
      answers := if answers == [] then [] else answers[1..];
      ids := if reply.Ids? && |reply.ids| == count then reply.ids else seq(count, _ => seq(32, _ => 0));
      pc := Resume(pc, Ids(ids));
    }
  }

  /** `load_candidates`. */
  method Load(port: Port, key: Key, ghost job: Job) returns (candidates: Result<seq<Candidate>, CandidateError>)
    requires port.pc == Loading(job) && key == job.Key()
    modifies port
    ensures candidates.Ok? ==> port.pc == Committing(job, candidates.value, true)
    ensures candidates.Err? ==> port.pc == CandidateFailure(candidates.error)
  {
    var reply := port.Ask(SelectRows(key));
    if !reply.SelectedRows? {
      return Err(Repository);
    }
    var loaded := LoadCandidates(reply.rows);
    return if loaded.None? then Err(Repository) else Ok(loaded.value);
  }

  /** The already-processed exits: load what the run stored, and commit. */
  method LoadAndCommit(port: Port, key: Key, source: SourceReference, ghost job: Job)
    returns (outcome: Result<ParseOutcome, CandidateError>)
    requires port.pc == Loading(job) && key == job.Key() && source == job.source
    modifies port
    ensures outcome.Ok? ==> outcome.value.source == source && outcome.value.wasAlreadyProcessed
                            && port.pc == NextSubmit(job, outcome.value.candidates, true, 0)
    ensures outcome.Err? ==> port.pc == CandidateFailure(outcome.error)
  {
    var candidates := Load(port, key, job);
    if candidates.Err? {
      return Err(candidates.error);
    }
    var committed := port.Ask(Commit);
    if !committed.Done? {
      return Err(Repository);
    }
    return Ok(ParseOutcome(source, candidates.value, true));
  }

  /** The digest check: every digest already recorded for the version must be this source's. */
  method CheckDigests(port: Port, source: SourceReference, ghost job: Job) returns (error: Option<CandidateError>)
    requires port.pc == CheckingDigests(job) && source == job.source
    modifies port
    ensures error.None? ==> port.pc == FindingRun(job)
    ensures error.Some? ==> port.pc == CandidateFailure(error.value)
  {
    var existing := port.Ask(FindDigests(source.documentId, source.documentVersion));
    if !existing.Digests? {
      return Some(Repository);
    }
    for i := 0 to |existing.digests|
      invariant forall j :: 0 <= j < i ==> existing.digests[j] == source.contentDigest
    {
      if existing.digests[i] != source.contentDigest {
        assert existing.digests[i] in existing.digests;
        return Some(SourceDigestMismatch);
      }
    }
    return None;
  }

  /** Store every candidate, then commit. */
  method StoreAndCommit(port: Port, key: Key, candidates: seq<Candidate>, ghost job: Job) returns (stored: bool)
    requires port.pc == NextInsert(job, candidates, 0) && key == job.Key()
    modifies port
    ensures port.pc == if stored then NextSubmit(job, candidates, false, 0) else CandidateFailure(Repository)
  {
    hide RowOf;
    for i := 0 to |candidates|
      invariant port.pc == NextInsert(job, candidates, i)
    {
      var inserted := port.Ask(InsertRow(RowOf(key, candidates[i])));
      if !inserted.Done? {
        return false;
      }
    }
    var committed := port.Ask(Commit);
    return committed.Done?;
  }

  method ParseOnce(port: Port, parserVersion: string, source: SourceReference, ghost job: Job)
    returns (outcome: Result<ParseOutcome, CandidateError>)
    requires port.pc == StartParse(job) && source == job.source && parserVersion == PARSER_VERSION
    modifies port
    ensures outcome.Ok? ==> outcome.value.source == source && port.pc
                            == NextSubmit(job, outcome.value.candidates, outcome.value.wasAlreadyProcessed, 0)
    ensures outcome.Err? ==> port.pc == CandidateFailure(outcome.error)
  {
    hide ParseCandidates, Trim, RowOf, LoadCandidates;
    if Trim(source.sourceText) == "" {
      return Err(EmptySourceText);
    }
    var key := KeyOf(source, parserVersion);
    var begun := port.Ask(Begin);
    if !begun.Done? {
      return Err(Repository);
    }

    var refused := CheckDigests(port, source, job);
    if refused.Some? {
      return Err(refused.value);
    }

    var alreadyRan := port.Ask(FindRun(key));
    if !alreadyRan.RunFound? {
      return Err(Repository);
    }
    if alreadyRan.found {
      outcome := LoadAndCommit(port, key, source, job);
      return;
    }

    var drafts := ParseCandidates(source.sourceText);
    var ids := port.Fresh(|drafts|);
    var candidates := WithIds(ids, drafts);
    var inserted := port.Ask(InsertRun(key));
    if !inserted.Inserted? {
      return Err(Repository);
    }
    if inserted.count == 0 {
      outcome := LoadAndCommit(port, key, source, job);
      return;
    }

    var stored := StoreAndCommit(port, key, candidates, job);
    return if stored then Ok(ParseOutcome(source, candidates, false)) else Err(Repository);
  }

  /** `dispatch`: parse, then submit one admission per candidate, stopping at the first that fails. */
  method Dispatch(port: Port, request: RoutedRequest, ghost routeId: RouteId, ghost claim: WorkClaim)
    returns (outcome: Result<DispatchOutcome, DispatchError>)
    requires port.pc == Interpret(routeId, claim, request)
    modifies port
    ensures outcome.Ok? ==>
              && port.pc.Completing? && port.pc.routeId == routeId && port.pc.claim == claim
              && port.pc.dispatched.Parsed?
              && outcome.value.candidateCount == |port.pc.dispatched.candidates|
              && outcome.value.wasAlreadyProcessed == port.pc.dispatched.wasAlreadyProcessed
    ensures outcome.Err? ==>
              match outcome.error
              case UnknownActionError(action) => port.pc == Completing(routeId, claim, Unknown(action))
              case Other(error) => port.pc == Ended(Err(error))
  {
    hide ParseInputScope, AdmitScopeFor, Trim, AfterSubmit;
    if request.action != PARSE_ACTION {
      return Err(UnknownActionError(request.action));
    }
    var source := ParseInputScope(request.scope);
    if source.Err? {
      return Err(Other(MalformedScope(source.error)));
    }
    ghost var job := Job(routeId, claim, source.value);
    var parsed := ParseOnce(port, PARSER_VERSION, source.value, job);
    if parsed.Err? {
      return Err(Other(CandidateFailed(parsed.error)));
    }
    var candidates := parsed.value.candidates;
    for i := 0 to |candidates|
      invariant port.pc == NextSubmit(job, candidates, parsed.value.wasAlreadyProcessed, i)
    {
      var submitted := port.Ask(SubmitRequest(ADMIT_ACTION, AdmitScopeFor(parsed.value.source, candidates[i])));
      Submitted(job, candidates, parsed.value.wasAlreadyProcessed, i, submitted);
      if !submitted.Accepted? {
        return Err(Other(if submitted.NotAccepted? then AdmissionNotAccepted else KernelFailed));
      }
    }
    return Ok(DispatchOutcome(|candidates|, parsed.value.wasAlreadyProcessed));
  }

  lemma Submitted(job: Job, candidates: seq<Candidate>, already: bool, done: nat, reply: Reply)
    ensures AfterSubmit(job, candidates, already, done, reply)
            == if reply.Accepted? then NextSubmit(job, candidates, already, done + 1)
               else Ended(Err(if reply.NotAccepted? then AdmissionNotAccepted else KernelFailed))
  {
  }

  /** `work_once`: a whole pass, from its first call to its result. */
  method WorkOnce(port: Port) returns (result: PassResult)
    requires port.pc == AskingRoutes
    modifies port
    ensures port.pc == Ended(result)
  {
    hide Interpret;
    var routes := port.Ask(EligibleRoutes);
    if !routes.Routes? {
      return Err(KernelFailed);
    }
    if routes.routes == [] {
      return Ok(NothingEligible);
    }
    var route := routes.routes[0];

    var claimed := port.Ask(ProposeClaim(route));
    if claimed.AlreadyClaimed? || claimed.RouteNotFound? {
      return Ok(ClaimLost(route));
    } else if !claimed.Claimed? {
      return Err(KernelFailed);
    }
    var claim := claimed.claim;

    var found := port.Ask(GetRequest(route));
    if found.RequestNotFound? {
      return Ok(RequestUnavailable(route));
    } else if !found.Found? {
      return Err(KernelFailed);
    }

    var dispatched := Dispatch(port, found.request, route, claim);
    if dispatched.Err? && dispatched.error.Other? {
      return Err(dispatched.error.error);
    }
    var completed := port.Ask(CompleteClaim(claim.claimId, claim.fencingToken));
    if !(completed.Completed? || completed.Fenced? || completed.ClaimNotFound?) {
      return Err(KernelFailed);
    }
    if dispatched.Err? {
      return Ok(UnknownAction(route, dispatched.error.action));
    }
    if completed.Completed? {
      return Ok(CompletedWork(route, dispatched.value.candidateCount, dispatched.value.wasAlreadyProcessed));
    }
    return Ok(LostBeforeCompletion(route, claim.claimId));
  }
}
