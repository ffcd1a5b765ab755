/** What a pass's result says: of the answers that led to it, of the requests,
    and of what the kernel and the database hold from then on. */
module Results {
  import opened Sequences
  import opened Text
  import opened Domain
  import opened Parser
  import opened Scopes
  import opened Rows
  import opened Passes
  import opened Handoff
  import opened Safety
  import opened Guarantees
  import opened VersionDigests

  // ---------- which answer ends a pass, and how ----------

  /** Pass `p` stands at `pc`, its call is answered, and then it stands at `next`. */
  ghost predicate Served(s: State, p: PassId, reply: Reply, pc: Pc, next: Pc)
  {
    Enabled(s, Serve(p, reply)) && s.passes[p].pc == pc && Next(s, Serve(p, reply)).passes[p].pc == next
  }

  lemma ServedIs(s: State, p: PassId, reply: Reply, pc: Pc, next: Pc)
    requires Served(s, p, reply, pc, next)
    ensures p in s.passes && s.passes[p].pc == pc && Live(pc) && next == Resume(pc, reply) && Possible(s, p, reply)
  {
    hide Possible, WorldAfter, TxAfter, Resume, Live;
  }

  lemma AskingResumes(reply: Reply)
    ensures Resume(AskingRoutes, reply) == AfterRoutes(reply)
    ensures !AfterRoutes(reply).Ended? || AfterRoutes(reply).result in [Ok(NothingEligible), Err(KernelFailed)]
  {
  }

  lemma ClaimingResumes(pc: Pc, reply: Reply)
    requires pc.Claiming?
    ensures var next := Resume(pc, reply);
      && !next.Claiming?
      && (next.Ended? ==> next.result in [Ok(ClaimLost(pc.routeId)), Err(KernelFailed)])
      && (next == Ended(Ok(ClaimLost(pc.routeId))) <==> reply in [AlreadyClaimed, RouteNotFound])
  {
  }

  /** What a readable parse request starts with, and what ends a pass before it. */
  lemma ReadingResumes(pc: Pc, reply: Reply)
    requires pc.Reading?
    ensures var next := Resume(pc, reply);
      && !next.Claiming?
      && (next.Ended? && next.result.Ok? ==> next.result == Ok(RequestUnavailable(pc.routeId)))
      && (next == Ended(Ok(RequestUnavailable(pc.routeId))) <==> reply == RequestNotFound)
  {
    hide ParseInputScope, Trim;
  }

  lemma ParsingResumes(pc: Pc, reply: Reply)
    requires Live(pc) && !pc.AskingRoutes? && !pc.Claiming? && !pc.Reading? && !pc.Completing?
    ensures var next := Resume(pc, reply); !next.Claiming? && !(next.Ended? && next.result.Ok?)
  {
    hide ParseCandidates, LoadCandidates, WithIds;
  }

  lemma CompletingResumes(pc: Pc, reply: Reply)
    requires pc.Completing?
    ensures var next, r := Resume(pc, reply), pc.routeId;
      && next.Ended?
      && (next.result == Err(KernelFailed) <==> reply !in [Completed, Fenced, ClaimNotFound])
      && (next.result.Ok? && pc.dispatched.Unknown? ==> next.result == Ok(UnknownAction(r, pc.dispatched.action)))
      && (pc.dispatched.Parsed? ==>
            && (next.result == Ok(LostBeforeCompletion(r, pc.claim.claimId)) <==> reply in [Fenced, ClaimNotFound])
            && (next.result == Ok(CompletedWork(r, |pc.dispatched.candidates|, pc.dispatched.wasAlreadyProcessed))
                <==> reply == Completed))
      && (next.result.Err? ==> next.result == Err(KernelFailed))
  {
  }

  /** A pass finds nothing to do exactly when no route is eligible, and otherwise
      claims the first. */
  lemma RoutesIff(s: State, p: PassId, reply: Reply, pc: Pc, next: Pc)
    requires Served(s, p, reply, pc, next)
    ensures next == Ended(Ok(NothingEligible)) <==> pc.AskingRoutes? && reply == Routes([])
    ensures forall r :: next == Claiming(r) <==> pc.AskingRoutes? && reply.Routes? && [r] <= reply.routes
  {
    ServedIs(s, p, reply, pc, next);
    hide Served, Possible, Resume, Live;
    match pc
    case AskingRoutes => AskingResumes(reply);
    case Claiming(_) => ClaimingResumes(pc, reply);
    case Reading(_, _) => ReadingResumes(pc, reply);
    case Completing(_, _, _) => CompletingResumes(pc, reply);
    case _ => ParsingResumes(pc, reply);
  }

  /** Exactly which answers end a pass without an error: a claim that is taken or
      has no route, a request that is gone, and any answer to its completion,
      which for a parsed route must be that it is completed. */
  lemma OutcomeIff(s: State, p: PassId, reply: Reply, pc: Pc, next: Pc)
    requires Served(s, p, reply, pc, next)
    ensures forall r :: next == Ended(Ok(ClaimLost(r)))
                        <==> pc == Claiming(r) && reply in [AlreadyClaimed, RouteNotFound]
    ensures forall r :: next == Ended(Ok(RequestUnavailable(r)))
                        <==> pc.Reading? && pc.routeId == r && reply == RequestNotFound
    ensures forall r, a :: next == Ended(Ok(UnknownAction(r, a)))
                           <==> pc.Completing? && pc.routeId == r && pc.dispatched == Unknown(a)
                                && reply in [Completed, Fenced, ClaimNotFound]
    ensures forall r, c :: next == Ended(Ok(LostBeforeCompletion(r, c)))
                           <==> pc.Completing? && pc.routeId == r && pc.claim.claimId == c && pc.dispatched.Parsed?
                                && reply in [Fenced, ClaimNotFound]
    ensures forall r, n, w :: next == Ended(Ok(CompletedWork(r, n, w)))
                              <==> pc.Completing? && pc.routeId == r && reply == Completed && pc.dispatched.Parsed?
                                   && |pc.dispatched.candidates| == n && pc.dispatched.wasAlreadyProcessed == w
  {
    ServedIs(s, p, reply, pc, next);
    hide Served, Possible, Resume, Live;
    match pc
    case AskingRoutes => AskingResumes(reply);
    case Claiming(_) => ClaimingResumes(pc, reply);
    case Reading(_, _) => ReadingResumes(pc, reply);
    case Completing(_, _, _) => CompletingResumes(pc, reply);
    case _ => ParsingResumes(pc, reply);
  }

  // ---------- which answer makes a pass fail ----------

  predicate AtKernel(pc: Pc)
  {
    pc.AskingRoutes? || pc.Claiming? || pc.Reading? || pc.Submitting? || pc.Completing?
  }

  predicate AtDatabase(pc: Pc)
  {
    pc.Opening? || pc.CheckingDigests? || pc.FindingRun? || pc.InsertingRun? || pc.InsertingRows? || pc.Loading?
    || pc.Committing?
  }

  /** An answer has the shape its call allows. */
  predicate Shaped(pc: Pc, reply: Reply)
  {
    reply.Failed?
    || match pc
       case AskingRoutes => reply.Routes?
       case Claiming(_) => reply.Claimed? || reply.AlreadyClaimed? || reply.RouteNotFound?
       case Reading(_, _) => reply.Found? || reply.RequestNotFound?
       case Opening(_) => reply.Done?
       case CheckingDigests(_) => reply.Digests?
       case FindingRun(_) => reply.RunFound?
       case Naming(job) => reply.Ids? && |reply.ids| == |ParseCandidates(job.source.sourceText)|
       case InsertingRun(_, _) => reply.Inserted?
       case InsertingRows(_, _, _) => reply.Done?
       case Loading(_) => reply.SelectedRows?
       case Committing(_, _, _) => reply.Done?
       case Submitting(_, _, _, _) => reply.Accepted? || reply.NotAccepted?
       case Completing(_, _, _) => reply.Completed? || reply.Fenced? || reply.ClaimNotFound?
       case Ended(_) => false
  }

  lemma KernelShaped(s: State, pc: Pc, reply: Reply)
    requires Live(pc) && KernelMay(s, CallOf(pc), reply)
    ensures Shaped(pc, reply)
  {
    hide AdmitScopeFor, ParseCandidates, RowOf, Current;
  }

  lemma DatabaseShaped(s: State, p: PassId, tx: Option<Tx>, pc: Pc, reply: Reply)
    requires Live(pc) && DatabaseMay(s, p, tx, CallOf(pc), reply)
    ensures Shaped(pc, reply)
  {
    hide AdmitScopeFor, ParseCandidates, RowOf, Locked, NoDup, Sees;
  }

  lemma FreshShaped(s: State, pc: Pc, reply: Reply)
    requires Live(pc) && FreshMay(s, CallOf(pc), reply)
    ensures Shaped(pc, reply)
  {
    hide AdmitScopeFor, ParseCandidates, RowOf, NoDup;
  }

  lemma PossibleShaped(s: State, p: PassId, reply: Reply)
    requires p in s.passes && Live(s.passes[p].pc) && Possible(s, p, reply)
    ensures Shaped(s.passes[p].pc, reply)
  {
    hide KernelMay, DatabaseMay, FreshMay, CallOf, Live;
    var pc, tx := s.passes[p].pc, s.passes[p].tx;
    if KernelMay(s, CallOf(pc), reply) {
      KernelShaped(s, pc, reply);
    } else if DatabaseMay(s, p, tx, CallOf(pc), reply) {
      DatabaseShaped(s, p, tx, pc, reply);
    } else if FreshMay(s, CallOf(pc), reply) {
      FreshShaped(s, pc, reply);
    }
  }

  /** Some run the pass can see gives its document version another digest. */
  ghost predicate SeesOtherDigest(s: State, p: PassId, source: SourceReference)
    requires p in s.passes && s.passes[p].tx.Some?
  {
    exists key :: Sees(s, s.passes[p].tx.value, key) && OfVersion(key, source.documentId, source.documentVersion)
                  && key.contentDigest != source.contentDigest
  }

  lemma KernelFails(pc: Pc, reply: Reply)
    requires Live(pc) && AtKernel(pc) && Shaped(pc, reply)
    ensures var next := Resume(pc, reply);
      && (next == Ended(Err(KernelFailed)) <==> reply == Failed)
      && (next == Ended(Err(AdmissionNotAccepted)) <==> pc.Submitting? && reply == NotAccepted)
      && (next.Ended? && next.result.Err? && !pc.Reading? ==> next.result.error in [KernelFailed, AdmissionNotAccepted])
  {
    hide ParseInputScope, Trim, LoadCandidates, WithIds;
  }

  lemma DatabaseFails(pc: Pc, reply: Reply)
    requires Live(pc) && (AtDatabase(pc) || pc.Naming?) && Shaped(pc, reply)
    requires pc.Loading? && reply.SelectedRows? ==> LoadCandidates(reply.rows).Some?
    ensures var next := Resume(pc, reply);
      && (next == Ended(Err(CandidateFailed(Repository))) <==> reply == Failed && AtDatabase(pc))
      && (next == Ended(Err(Died)) <==> reply == Failed && pc.Naming?)
      && (next == Ended(Err(CandidateFailed(SourceDigestMismatch)))
          <==> pc.CheckingDigests? && reply.Digests?
               && exists d :: d in reply.digests && d != pc.job.source.contentDigest)
      && (next.Ended? ==> next.result in [Err(Died), Err(CandidateFailed(Repository)),
                                          Err(CandidateFailed(SourceDigestMismatch))])
  {
    hide ParseCandidates, LoadCandidates, WithIds;
  }

  lemma ReadingFails(pc: Pc, reply: Reply)
    requires pc.Reading? && Shaped(pc, reply)
    ensures var next := Resume(pc, reply);
      && (next == Ended(Err(KernelFailed)) <==> reply == Failed)
      && (forall e :: next == Ended(Err(MalformedScope(e)))
                      <==> reply.Found? && reply.request.action == "pf2e.parse"
                           && ParseInputScope(reply.request.scope) == Err(e))
      && (next == Ended(Err(CandidateFailed(EmptySourceText)))
          <==> reply.Found? && reply.request.action == "pf2e.parse" && ParseInputScope(reply.request.scope).Ok?
               && Blank(ParseInputScope(reply.request.scope).value.sourceText))
      && (next.Ended? && next.result.Err? ==>
            || next.result.error in [KernelFailed, CandidateFailed(EmptySourceText)]
            || next.result.error.MalformedScope?)
  {
    hide ParseInputScope, Trim;
    if reply.Found? && ParseInputScope(reply.request.scope).Ok? {
      TrimFacts(ParseInputScope(reply.request.scope).value.sourceText);
    }
  }

  lemma OtherDigests(s: State, p: PassId, reply: Reply)
    requires p in s.passes && s.passes[p].pc.CheckingDigests? && Possible(s, p, reply) && reply.Digests?
    ensures s.passes[p].tx.Some?
    ensures (exists d :: d in reply.digests && d != s.passes[p].pc.job.source.contentDigest)
            <==> SeesOtherDigest(s, p, s.passes[p].pc.job.source)
  {
    hide Sees;
    var source := s.passes[p].pc.job.source;
    assert DatabaseMay(s, p, s.passes[p].tx, FindDigests(source.documentId, source.documentVersion), reply);
    if d :| d in reply.digests && d != source.contentDigest {
      var key :| Sees(s, s.passes[p].tx.value, key) && key.documentId == source.documentId
                 && key.documentVersion == source.documentVersion && key.contentDigest == d;
      assert OfVersion(key, source.documentId, source.documentVersion);
    }
    if SeesOtherDigest(s, p, source) {
      var key :| Sees(s, s.passes[p].tx.value, key) && OfVersion(key, source.documentId, source.documentVersion)
                 && key.contentDigest != source.contentDigest;
      assert key.contentDigest in reply.digests;
    }
  }

  lemma LoadingReads(s: State, p: PassId, reply: Reply)
    requires Inv(s) && p in s.passes && Live(s.passes[p].pc) && Possible(s, p, reply)
    ensures s.passes[p].pc.Loading? && reply.SelectedRows? ==> LoadCandidates(reply.rows).Some?
  {
    hide PassOk, Meant, Possible, RowsOk, RunsOk, TxsOk, HeldOk, ClaimsOk, AcceptedOk, CompletedOk, Live,
         LoadCandidates;
    PossibleMeans(s, p, reply);
    assert Before(s, p, reply);
    if s.passes[p].pc.Loading? && reply.SelectedRows? {
      RowsLoaded(s, p, reply);
    }
  }

  lemma Fails(s: State, p: PassId, reply: Reply, pc: Pc, next: Pc)
    requires Inv(s) && Served(s, p, reply, pc, next)
    ensures Live(pc) && next == Resume(pc, reply) && Shaped(pc, reply)
    ensures pc.Loading? && reply.SelectedRows? ==> LoadCandidates(reply.rows).Some?
    ensures pc.CheckingDigests? && reply.Digests? ==>
              && p in s.passes && s.passes[p].tx.Some?
              && ((exists d :: d in reply.digests && d != pc.job.source.contentDigest)
                  <==> SeesOtherDigest(s, p, pc.job.source))
  {
    ServedIs(s, p, reply, pc, next);
    hide Inv, Served, Possible, Resume, Shaped, Live, LoadCandidates, SeesOtherDigest;
    PossibleShaped(s, p, reply);
    LoadingReads(s, p, reply);
    if pc.CheckingDigests? && reply.Digests? { OtherDigests(s, p, reply); }
  }

  lemma FailsAtKernel(pc: Pc, reply: Reply)
    requires Live(pc) && Shaped(pc, reply)
    requires pc.Loading? && reply.SelectedRows? ==> LoadCandidates(reply.rows).Some?
    ensures var next := Resume(pc, reply);
      && (next == Ended(Err(KernelFailed)) <==> AtKernel(pc) && reply == Failed)
      && (next == Ended(Err(AdmissionNotAccepted)) <==> pc.Submitting? && reply == NotAccepted)
      && (forall e :: next == Ended(Err(MalformedScope(e)))
                      <==> pc.Reading? && reply.Found? && reply.request.action == "pf2e.parse"
                           && ParseInputScope(reply.request.scope) == Err(e))
      && (next == Ended(Err(CandidateFailed(EmptySourceText)))
          <==> pc.Reading? && reply.Found? && reply.request.action == "pf2e.parse"
               && ParseInputScope(reply.request.scope).Ok?
               && Blank(ParseInputScope(reply.request.scope).value.sourceText))
  {
    hide Resume, Shaped, ParseInputScope, LoadCandidates, Blank;
    if pc.Reading? {
      ReadingFails(pc, reply);
    } else if AtKernel(pc) {
      KernelFails(pc, reply);
    } else {
      DatabaseFails(pc, reply);
    }
  }

  lemma FailsAtDatabase(pc: Pc, reply: Reply)
    requires Live(pc) && Shaped(pc, reply)
    requires pc.Loading? && reply.SelectedRows? ==> LoadCandidates(reply.rows).Some?
    ensures var next := Resume(pc, reply);
      && (next == Ended(Err(CandidateFailed(Repository))) <==> AtDatabase(pc) && reply == Failed)
      && (next == Ended(Err(Died)) <==> pc.Naming? && reply == Failed)
      && (next == Ended(Err(CandidateFailed(SourceDigestMismatch)))
          <==> pc.CheckingDigests? && reply.Digests?
               && exists d :: d in reply.digests && d != pc.job.source.contentDigest)
  {
    hide Resume, Shaped, ParseInputScope, LoadCandidates;
    if pc.Reading? {
      ReadingFails(pc, reply);
    } else if AtKernel(pc) {
      KernelFails(pc, reply);
    } else {
      DatabaseFails(pc, reply);
    }
  }

  /** Exactly when a pass fails at the kernel, and how: a call that fails, a
      submission that is not accepted, or a parse request whose scope cannot be
      read or whose text is blank. */
  lemma KernelFailureIff(s: State, p: PassId, reply: Reply, pc: Pc, next: Pc)
    requires Inv(s) && Served(s, p, reply, pc, next)
    ensures next == Ended(Err(KernelFailed)) <==> AtKernel(pc) && reply == Failed
    ensures next == Ended(Err(AdmissionNotAccepted)) <==> pc.Submitting? && reply == NotAccepted
    ensures forall e :: next == Ended(Err(MalformedScope(e)))
                        <==> pc.Reading? && reply.Found? && reply.request.action == "pf2e.parse"
                             && ParseInputScope(reply.request.scope) == Err(e)
    ensures next == Ended(Err(CandidateFailed(EmptySourceText)))
            <==> pc.Reading? && reply.Found? && reply.request.action == "pf2e.parse"
                 && ParseInputScope(reply.request.scope).Ok?
                 && Blank(ParseInputScope(reply.request.scope).value.sourceText)
  {
    hide *;
    Fails(s, p, reply, pc, next);
    FailsAtKernel(pc, reply);
  }

  /** Exactly when a pass fails at the database, and how: a call that fails, or a
      digest that differs from one its transaction sees for the document version. */
  lemma DatabaseFailureIff(s: State, p: PassId, reply: Reply, pc: Pc, next: Pc)
    requires Inv(s) && Served(s, p, reply, pc, next)
    ensures next == Ended(Err(CandidateFailed(Repository))) <==> AtDatabase(pc) && reply == Failed
    ensures next == Ended(Err(Died)) <==> pc.Naming? && reply == Failed
    ensures next == Ended(Err(CandidateFailed(SourceDigestMismatch)))
            <==> pc.CheckingDigests? && reply.Digests? && p in s.passes && s.passes[p].tx.Some?
                 && SeesOtherDigest(s, p, pc.job.source)
  {
    hide *;
    Fails(s, p, reply, pc, next);
    FailsAtDatabase(pc, reply);
  }

  // ---------- what a result vouches for ----------

  /** What a result says of the requests, the claims, the completions and the
      tables, of which none can be undone. */
  ghost predicate Vouched(s: State, result: PassResult)
  {
    match result
    case Ok(CompletedWork(r, n, _)) =>
      && r in s.completed && Delivers(s, r)
      && n == |s.runs[KeyOf(SourceOf(s.requests[r]).value, PARSER_VERSION)].candidates|
    case Ok(LostBeforeCompletion(r, c)) => c in s.claims && s.claims[c].routeId == r && Delivers(s, r)
    case Ok(UnknownAction(r, a)) => r in s.requests && s.requests[r].action == a != PARSE_ACTION
    case Ok(RequestUnavailable(r)) => r in s.requests
    case Ok(ClaimLost(r)) => r in s.requests
    case _ => true
  }

  /** A parse route with every candidate of its key's run submitted and accepted. */
  ghost predicate Delivers(s: State, r: RouteId)
  {
    && r in s.requests && SourceOf(s.requests[r]).Some? && Delivered(s, r)
    && KeyOf(SourceOf(s.requests[r]).value, PARSER_VERSION) in s.runs
  }

  lemma VouchedExtends(s: State, t: State, result: PassResult)
    requires Vouched(s, result) && Extends(s, t)
    ensures Vouched(t, result)
  {
    hide SourceOf;
  }

  ghost predicate Standing(s: State, pc: Pc)
  {
    && (pc.Ended? ==> Vouched(s, pc.result))
    && (pc.Claiming? ==> pc.routeId in s.requests)
  }

  ghost predicate Standings(s: State) { forall p :: p in s.passes ==> Standing(s, s.passes[p].pc) }

  /** What a pass about to be told of its completion knows. */
  lemma CompletingKnows(s: State, pass: Pass)
    requires pass.pc.Completing? && PassOk(s, pass)
    ensures var pc := pass.pc;
      && pc.claim.claimId in s.claims && s.claims[pc.claim.claimId].routeId == pc.routeId
      && (pc.dispatched.Unknown? ==>
            && pc.routeId in s.requests
            && s.requests[pc.routeId].action == pc.dispatched.action != PARSE_ACTION)
      && (pc.dispatched.Parsed? ==>
            && Delivers(s, pc.routeId)
            && |pc.dispatched.candidates|
               == |s.runs[KeyOf(SourceOf(s.requests[pc.routeId]).value, PARSER_VERSION)].candidates|)
  {
    hide SourceOf;
    var pc := pass.pc;
    if pc.dispatched.Parsed? {
      var job, candidates := pc.dispatched.job, pc.dispatched.candidates;
      var run := s.runs[job.Key()].candidates;
      assert |multiset(candidates)| == |multiset(run)|;
      forall c | c in run ensures Admission(pc.routeId, job.source, c) in s.accepted {
        assert c in multiset(candidates);
      }
    }
  }

  lemma CompletesRoute(s: State, p: PassId, reply: Reply)
    requires p in s.passes && s.passes[p].pc.Completing? && reply == Completed
    requires s.passes[p].pc.claim.claimId in s.claims
    ensures s.claims[s.passes[p].pc.claim.claimId].routeId in WorldAfter(s, s.passes[p], reply).completed
  {
  }

  lemma ReadingKnows(s: State, pass: Pass)
    requires pass.pc.Reading? && PassOk(s, pass)
    ensures pass.pc.routeId in s.requests
  {
  }

  lemma FirstClaimed(s: State, p: PassId, reply: Reply)
    requires p in s.passes && s.passes[p].pc.AskingRoutes? && Possible(s, p, reply)
    ensures var next := Resume(AskingRoutes, reply);
      && (next.Claiming? ==> next.routeId in s.requests)
      && (next.Ended? ==> next.result in [Ok(NothingEligible), Err(KernelFailed)])
  {
  }

  /** An outcome that vouches for something, by the stage that gives it. */
  lemma AnsweredStands(s: State, p: PassId, reply: Reply, w: State)
    requires p in s.passes && Live(s.passes[p].pc) && Possible(s, p, reply)
    requires PassOk(s, s.passes[p]) && Standing(s, s.passes[p].pc)
    requires w == WorldAfter(s, s.passes[p], reply) && Extends(s, w)
    ensures Standing(w, Resume(s.passes[p].pc, reply))
  {
    hide Possible, WorldAfter, Resume, Live, PassOk, Extends, Delivers, SourceOf;
    var pc := s.passes[p].pc;
    if pc.AskingRoutes? {
      FirstClaimed(s, p, reply);
      RequestsExtend(s, w);
    } else if pc.Claiming? {
      ClaimingResumes(pc, reply);
      RequestsExtend(s, w);
    } else if pc.Reading? {
      ReadingKnows(s, s.passes[p]);
      ReadingResumes(pc, reply);
      RequestsExtend(s, w);
    } else if pc.Completing? {
      CompletingKnows(s, s.passes[p]);
      CompletingStands(s, p, reply, w);
    } else {
      ParsingResumes(pc, reply);
    }
  }

  lemma RequestsExtend(s: State, w: State)
    requires Extends(s, w)
    ensures forall r :: r in s.requests ==> r in w.requests
  {
  }

  lemma CompletingStands(s: State, p: PassId, reply: Reply, w: State)
    requires p in s.passes && s.passes[p].pc.Completing? && PassOk(s, s.passes[p])
    requires w == WorldAfter(s, s.passes[p], reply) && Extends(s, w)
    ensures Standing(w, Resume(s.passes[p].pc, reply))
  {
    hide WorldAfter, Resume, PassOk, Extends, SourceOf, Delivers;
    var pc := s.passes[p].pc;
    CompletingKnows(s, s.passes[p]);
    CompletingResumes(pc, reply);
    if reply == Completed { CompletesRoute(s, p, reply); }
    var r := pc.routeId;
    if pc.dispatched.Unknown? {
      VouchedExtends(s, w, Ok(UnknownAction(r, pc.dispatched.action)));
    } else {
      VouchedExtends(s, w, Ok(LostBeforeCompletion(r, pc.claim.claimId)));
      DeliversExtends(s, w, r);
    }
  }

  lemma DeliversExtends(s: State, w: State, r: RouteId)
    requires Delivers(s, r) && Extends(s, w)
    ensures Delivers(w, r)
    ensures var key := KeyOf(SourceOf(s.requests[r]).value, PARSER_VERSION);
      && key == KeyOf(SourceOf(w.requests[r]).value, PARSER_VERSION)
      && w.runs[key] == s.runs[key]
  {
    hide SourceOf;
  }

  lemma StandsExtended(s: State, t: State, pc: Pc)
    requires Standing(s, pc) && Extends(s, t)
    ensures Standing(t, pc)
  {
    hide Vouched, Extends;
    RequestsExtend(s, t);
    if pc.Ended? { VouchedExtends(s, t, pc.result); }
  }

  lemma StandingsKept(s: State, t: State)
    requires Standings(s) && Extends(s, t)
    requires forall p :: p in t.passes ==>
               (p in s.passes && t.passes[p].pc == s.passes[p].pc) || Standing(t, t.passes[p].pc)
    ensures Standings(t)
  {
    hide Standing, Extends;
    forall p | p in t.passes ensures Standing(t, t.passes[p].pc) {
      if p in s.passes && t.passes[p].pc == s.passes[p].pc { StandsExtended(s, t, s.passes[p].pc); }
    }
  }

  lemma FailedErrs(pc: Pc)
    requires Live(pc)
    ensures Resume(pc, Failed).Ended? && Resume(pc, Failed).result.Err?
  {
  }

  lemma StandingWorld(w: State, t: State, pc: Pc)
    requires Standing(w, pc) && t == w.(passes := t.passes)
    ensures Standing(t, pc)
  {
    hide SourceOf;
  }

  lemma AnsweredStandings(s: State, p: PassId, reply: Reply, heard: Reply)
    requires Inv(s) && Standings(s) && p in s.passes && Live(s.passes[p].pc) && Possible(s, p, reply)
    requires heard == reply || heard.Failed?
    ensures Standings(Answered(s, p, reply, heard))
  {
    hide ClaimsOk, RunsOk, RowsOk, TxsOk, HeldOk, AcceptedOk, CompletedOk, WorldAfter, TxAfter, Resume, Live, PassOk,
         Possible, Meant, Extends, Standing;
    var pc := s.passes[p].pc;
    var w, t := WorldAfter(s, s.passes[p], reply), Answered(s, p, reply, heard);
    PossibleMeans(s, p, reply);
    WorldExtends(s, p, reply);
    AnsweredStands(s, p, reply, w);
    FailedErrs(pc);
    ErrStands(t, Resume(pc, Failed));
    StandingWorld(w, t, Resume(pc, reply));
    ExtendsPasses(s, w, t);
    StandingsKept(s, t);
  }

  lemma ErrStands(t: State, pc: Pc)
    ensures pc.Ended? && pc.result.Err? ==> Standing(t, pc)
    ensures pc.AskingRoutes? ==> Standing(t, pc)
  {
  }

  lemma StepStandings(s: State, e: Event)
    requires Inv(s) && Standings(s) && Enabled(s, e)
    ensures Standings(Next(s, e))
  {
    hide Inv, Possible, Live, Answered, Extends, Standing, Standings;
    InvParts(s);
    NextExtends(s, e);
    match e
    case Serve(p, reply) => AnsweredStandings(s, p, reply, reply);
    case Lose(p, reply) => AnsweredStandings(s, p, reply, Failed);
    case Start(p) => ErrStands(Next(s, e), AskingRoutes); StandingsKept(s, Next(s, e));
    case Crash(p) => ErrStands(Next(s, e), Ended(Err(Died))); StandingsKept(s, Next(s, e));
    case _ => StandingsKept(s, Next(s, e));
  }

  lemma {:induction false} ReachesStandings(s: State, events: seq<Event>, t: State)
    requires Inv(s) && Standings(s) && Reaches(s, events, t)
    ensures Standings(t)
    decreases |events|
  {
    hide Inv, Enabled, Next, Standings;
    if events != [] {
      StepKeepsInv(s, events[0]);
      StepStandings(s, events[0]);
      ReachesStandings(Next(s, events[0]), events[1..], t);
    }
  }

  lemma {:induction false} SetOfCount(candidates: seq<Candidate>)
    requires DistinctIds(candidates)
    ensures |SetOf(candidates)| == |candidates|
  {
    if candidates != [] {
      var front, last := candidates[..|candidates| - 1], candidates[|candidates| - 1];
      assert candidates == front + [last];
      SetOfCount(front);
      assert last !in SetOf(front);
      assert SetOf(candidates) == SetOf(front) + {last};
    }
  }

  lemma StoredCount(s: State, key: Key)
    requires Inv(s) && key in s.runs
    ensures |StoredFor(s, key)| == |s.runs[key].candidates|
    ensures forall c :: c in StoredFor(s, key) ==> c in s.runs[key].candidates
  {
    hide Inv, RowsOk, RunsOk, TxsOk, PassesOk, AcceptedOk, CompletedOk, StoredFor;
    InvParts(s);
    StoredIsRun(s, key);
    RunDistinct(s, key);
    SetOfCount(s.runs[key].candidates);
  }

  /** Every candidate stored for the route's key was submitted for it and accepted. */
  ghost predicate HandedOver(s: State, r: RouteId, key: Key)
  {
    && r in s.requests && s.requests[r].action == "pf2e.parse" && SourceOf(s.requests[r]).Some?
    && KeyOf(SourceOf(s.requests[r]).value, "pf2e-parser-0.1.0") == key
    && forall c :: c in StoredFor(s, key) ==> Admission(r, SourceOf(s.requests[r]).value, c) in s.accepted
  }

  /** Ever after a pass has reported that it completed a route, the kernel holds
      the route as completed, all of it is handed over, and the reported number
      is that of the candidates stored; a pass that lost its claim at the end
      has handed all of it over as well. */
  lemma ResultMeans(s: State, p: PassId, result: PassResult)
    requires Reachable(s) && p in s.passes && s.passes[p].pc == Ended(result)
    ensures forall r, n, w :: result == Ok(CompletedWork(r, n, w)) ==>
              r in s.completed && exists key :: HandedOver(s, r, key) && n == |StoredFor(s, key)|
    ensures forall r, c :: result == Ok(LostBeforeCompletion(r, c)) ==>
              c in s.claims && s.claims[c].routeId == r && exists key :: HandedOver(s, r, key)
    ensures forall r, a :: result == Ok(UnknownAction(r, a)) ==>
              r in s.requests && s.requests[r].action == a != "pf2e.parse"
    ensures forall r :: result in [Ok(RequestUnavailable(r)), Ok(ClaimLost(r))] ==> r in s.requests
  {
    hide Inv, Reaches, Standings, StoredFor, Delivers, HandedOver;
    var events :| Reaches(Initial(), events, s);
    InitialInv();
    NoPasses();
    ReachesStandings(Initial(), events, s);
    ReachableInv(s);
    PassStands(s, p);
    match result
    case Ok(CompletedWork(r, _, _)) => DeliversHandsOver(s, r);
    case Ok(LostBeforeCompletion(r, _)) => DeliversHandsOver(s, r);
    case _ =>
  }

  lemma NoPasses()
    ensures Standings(Initial())
  {
  }

  lemma PassStands(s: State, p: PassId)
    requires Standings(s) && p in s.passes
    ensures Standing(s, s.passes[p].pc)
  {
  }

  lemma DeliversHandsOver(s: State, r: RouteId)
    requires Inv(s) && Delivers(s, r)
    ensures var key := KeyOf(SourceOf(s.requests[r]).value, PARSER_VERSION);
      HandedOver(s, r, key) && |StoredFor(s, key)| == |s.runs[key].candidates|
  {
    hide Inv, StoredFor;
    StoredCount(s, KeyOf(SourceOf(s.requests[r]).value, PARSER_VERSION));
  }

  // ---------- already processed ----------

  /** What a pass past its transaction reports of it. */
  function Reports(pc: Pc): Option<bool>
  {
    match pc
    case Submitting(_, _, already, _) => Some(already)
    case Completing(_, _, Parsed(_, _, already)) => Some(already)
    case Ended(Ok(CompletedWork(_, _, already))) => Some(already)
    case _ => None
  }

  /** The pass goes on and has not come past its transaction. */
  predicate Earlier(pc: Pc) { !pc.Ended? && Reports(pc).None? }

  predicate Silent(pc: Pc) { pc.Ended? && Reports(pc).None? }

  lemma EarlierResumes(pc: Pc, reply: Reply)
    requires Live(pc) && Earlier(pc) && !pc.Committing?
    ensures Earlier(Resume(pc, reply)) || Silent(Resume(pc, reply))
  {
    hide ParseInputScope, Trim, ParseCandidates, LoadCandidates, WithIds;
  }

  lemma CommittingResumes(pc: Pc, reply: Reply)
    requires pc.Committing?
    ensures if reply.Done? then Reports(Resume(pc, reply)) == Some(pc.wasAlreadyProcessed)
            else Silent(Resume(pc, reply))
  {
  }

  lemma ReportsResumes(pc: Pc, reply: Reply)
    requires Live(pc) && Reports(pc).Some?
    ensures Reports(Resume(pc, reply)) == Reports(pc) || Silent(Resume(pc, reply))
  {
  }

  /** A commit that takes effect is of a run exactly when the candidates are the pass's own. */
  lemma CommitsOwn(s: State, p: PassId, reply: Reply)
    requires Inv(s) && p in s.passes && s.passes[p].pc.Committing? && Possible(s, p, reply) && reply.Done?
    ensures Writing(s.passes[p]).Some? <==> !s.passes[p].pc.wasAlreadyProcessed
  {
    hide JobOk, ParsedFor, FromRun, RowSet, RowsOk, RunsOk, TxsOk, HeldOk, ClaimsOk, AcceptedOk, CompletedOk;
    assert PassOk(s, s.passes[p]);
    PossibleMeans(s, p, reply);
  }

  /** What one event does to what pass `p` reports. */
  ghost predicate ReportsOn(s: State, e: Event, p: PassId, pc: Pc, next: Pc)
  {
    && (Earlier(pc) ==>
          || (Earlier(next) && !Commits(s, e, p))
          || Silent(next)
          || (Reports(next).Some? && (Reports(next).value <==> !Commits(s, e, p))))
    && (Reports(pc).Some? ==> !Commits(s, e, p) && (Reports(next) == Reports(pc) || Silent(next)))
    && (Silent(pc) ==> Silent(next))
  }

  lemma AnsweredReports(s: State, e: Event, p: PassId, reply: Reply, heard: Reply)
    requires Inv(s) && p in s.passes && Live(s.passes[p].pc) && Possible(s, p, reply)
    requires (e == Serve(p, reply) && heard == reply) || (e == Lose(p, reply) && heard == Failed)
    ensures ReportsOn(s, e, p, s.passes[p].pc, Resume(s.passes[p].pc, heard))
  {
    hide Inv, Possible, Resume, Live, Writing;
    var pc := s.passes[p].pc;
    if pc.Committing? {
      CommittingResumes(pc, heard);
      if reply.Done? { CommitsOwn(s, p, reply); }
    } else if Earlier(pc) {
      EarlierResumes(pc, heard);
    } else {
      LiveGoesOn(pc);
      ReportsResumes(pc, heard);
    }
  }

  lemma LiveGoesOn(pc: Pc)
    requires Live(pc)
    ensures !pc.Ended?
  {
  }

  lemma EventReports(s: State, e: Event, p: PassId)
    requires Inv(s) && Enabled(s, e)
    ensures p !in s.passes ==>
              !Commits(s, e, p) && (p in Next(s, e).passes ==> Next(s, e).passes[p].pc == AskingRoutes)
    ensures p in s.passes ==>
              p in Next(s, e).passes && ReportsOn(s, e, p, s.passes[p].pc, Next(s, e).passes[p].pc)
  {
    hide Inv, Possible, Live, WorldAfter, TxAfter, Resume, Commits, ReportsOn;
    match e
    case Serve(q, reply) =>
      if q == p { AnsweredReports(s, e, p, reply, reply); } else { OthersReport(s, e, p); }
    case Lose(q, reply) =>
      if q == p { AnsweredReports(s, e, p, reply, Failed); } else { OthersReport(s, e, p); }
    case _ => OthersReport(s, e, p);
  }

  lemma OthersReport(s: State, e: Event, p: PassId)
    requires !((e.Serve? || e.Lose?) && e.pass == p)
    ensures !Commits(s, e, p)
    ensures forall pc :: ReportsOn(s, e, p, pc, pc) && ReportsOn(s, e, p, pc, Ended(Err(Died)))
  {
    hide Writing;
  }

  /** Pass `p` has committed a run before moment `n`. */
  ghost predicate HasCommitted(states: seq<State>, events: seq<Event>, n: int, p: PassId)
    requires |states| == |events| + 1 && 0 <= n <= |events|
  {
    exists i :: 0 <= i < n && Commits(states[i], events[i], p)
  }

  lemma {:induction false} ReportsHistory(states: seq<State>, events: seq<Event>, n: nat, p: PassId)
    requires History(states, events) && n <= |events|
    ensures p !in states[n].passes ==> !HasCommitted(states, events, n, p)
    ensures p in states[n].passes ==>
              var pc := states[n].passes[p].pc;
              && (Earlier(pc) ==> !HasCommitted(states, events, n, p))
              && (Reports(pc).Some? ==> (Reports(pc).value <==> !HasCommitted(states, events, n, p)))
  {
    hide Inv, Enabled, Next, Commits, Earlier, Silent, Reports;
    if n > 0 {
      var s, e := states[n - 1], events[n - 1];
      assert Leads(s, e, states[n]);
      HistoryInv(states, events, n - 1);
      EventReports(s, e, p);
      ReportsHistory(states, events, n - 1, p);
      StartsEarlier();
      OneKind();
      assert HasCommitted(states, events, n, p) <==> HasCommitted(states, events, n - 1, p) || Commits(s, e, p);
    }
  }

  lemma StartsEarlier()
    ensures Earlier(AskingRoutes) && Reports(AskingRoutes).None?
  {
  }

  lemma OneKind()
    ensures forall pc :: (Earlier(pc) ==> Reports(pc).None?) && (Silent(pc) ==> Reports(pc).None? && !Earlier(pc))
    ensures forall pc :: Earlier(pc) || Silent(pc) || Reports(pc).Some?
  {
  }

  /** A completed pass reports its candidates as already processed exactly when
      it was not the pass that committed them. */
  lemma AlreadyProcessedIff(states: seq<State>, events: seq<Event>, n: nat, p: PassId, r: RouteId, count: nat,
                            already: bool)
    requires History(states, events) && n <= |events|
    requires p in states[n].passes && states[n].passes[p].pc == Ended(Ok(CompletedWork(r, count, already)))
    ensures already <==> !exists i :: 0 <= i < n && Commits(states[i], events[i], p)
  {
    hide History, Commits;
    ReportsHistory(states, events, n, p);
  }

  // ---------- what is submitted ----------

  /** A receiver reads this candidate of this source in the header. */
  predicate Announces(h: AdmitHeader, source: SourceReference, c: Candidate)
  {
    && h.candidateId == c.id && h.ruleType == c.draft.ruleType && -0.005 <= h.confidence - c.draft.confidence <= 0.005
    && h.documentId == source.documentId && h.documentVersion == source.documentVersion
    && h.contentDigest == source.contentDigest && h.parserVersion == "pf2e-parser-0.1.0"
  }

  lemma HeaderAnnounces(source: SourceReference, c: Candidate)
    ensures var read := ReadAdmitScope(AdmitScopeFor(source, c));
            read.Some? && Announces(read.value.0, source, c)
  {
    AdmitScopeReads(source, c);
    hide ReadAdmitScope, AdmitScopeFor, HeaderOf;
  }

  /** Whatever a pass submits is an admission from which the receiver reads a
      candidate stored for the key of its route's request, and that request's source. */
  lemma SubmissionReads(s: State, p: PassId)
    requires Reachable(s) && p in s.passes && Live(s.passes[p].pc) && s.passes[p].pc.Submitting?
    ensures var call, r := CallOf(s.passes[p].pc), s.passes[p].pc.job.routeId;
      && call.SubmitRequest? && call.action == "pf2e.rules.admit" && r in s.requests
      && SourceOf(s.requests[r]).Some? && ReadAdmitScope(call.scope).Some?
      && exists c :: c in StoredFor(s, KeyOf(SourceOf(s.requests[r]).value, "pf2e-parser-0.1.0"))
                     && Announces(ReadAdmitScope(call.scope).value.0, SourceOf(s.requests[r]).value, c)
  {
    hide Reachable, Inv, RowsOk, RunsOk, TxsOk, PassesOk, AcceptedOk, CompletedOk, StoredFor, SourceOf, Announces,
         ReadAdmitScope, AdmitScopeFor;
    ReachableInv(s);
    InvParts(s);
    var pc := s.passes[p].pc;
    ReturnedIsRun(s, p);
    ParseOnceReturnsStored(s, p);
    var c := pc.candidates[pc.done];
    HeaderAnnounces(pc.job.source, c);
    assert c in SetOf(pc.candidates);
  }
}
