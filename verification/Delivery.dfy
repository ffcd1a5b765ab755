/** Which requests a lone worker can bring to completion: exactly those whose
    candidates' admit scopes the kernel can take. */
module Delivery {
  import opened Sequences
  import opened Text
  import opened Domain
  import opened Decimals
  import opened Parser
  import opened ParserLaws
  import opened BookBlocks
  import opened Scopes
  import opened Rows
  import opened Passes
  import opened Handoff
  import opened Safety
  import opened Guarantees
  import opened Progress
  import opened Liveness

  // ---------- what can be delivered ----------

  ghost predicate NamesKey(s: State, r: RouteId, key: Key)
  {
    r in s.requests && SourceOf(s.requests[r]).Some? && KeyOf(SourceOf(s.requests[r]).value, PARSER_VERSION) == key
  }

  predicate DraftsFit(source: SourceReference, drafts: seq<Draft>)
  {
    forall d :: d in drafts ==> Fits(source, d)
  }

  /** These drafts can be submitted for every route that names the key. */
  ghost predicate FitEverywhere(s: State, key: Key, drafts: seq<Draft>)
  {
    forall r :: NamesKey(s, r, key) ==> DraftsFit(SourceOf(s.requests[r]).value, drafts)
  }

  /** What is stored under the key, or, when nothing is, the parse of some
      request that names it, can be submitted for every route that names it. */
  ghost predicate KeyDeliverable(s: State, key: Key)
  {
    if key in s.runs then
      forall r :: NamesKey(s, r, key) ==> StoredFits(s, SourceOf(s.requests[r]).value)
    else
      exists f :: NamesKey(s, f, key)
                  && FitEverywhere(s, key, ParseCandidates(SourceOf(s.requests[f]).value.sourceText))
  }

  ghost predicate Deliverable(s: State)
  {
    forall r, key :: NamesKey(s, r, key) ==> KeyDeliverable(s, key)
  }

  lemma StoredFitsIff(s: State, source: SourceReference)
    requires RowsOk(s) && KeyOf(source, PARSER_VERSION) in s.runs
    ensures StoredFits(s, source)
            <==> DraftsFit(source, DraftsOf(s.runs[KeyOf(source, PARSER_VERSION)].candidates))
  {
    hide RowsOk, StoredFor, Fits, DraftsOf, DraftsFit;
    StoredIsRun(s, KeyOf(source, PARSER_VERSION));
    DraftsFitIff(source, s.runs[KeyOf(source, PARSER_VERSION)].candidates);
  }

  lemma DraftsFitIff(source: SourceReference, candidates: seq<Candidate>)
    ensures DraftsFit(source, DraftsOf(candidates)) <==> forall c :: c in SetOf(candidates) ==> Fits(source, c.draft)
  {
    hide Fits;
    var drafts := DraftsOf(candidates);
    if forall c :: c in SetOf(candidates) ==> Fits(source, c.draft) {
      forall d | d in drafts ensures Fits(source, d) {
        var i :| 0 <= i < |drafts| && drafts[i] == d;
        assert candidates[i] in SetOf(candidates);
      }
    }
    if DraftsFit(source, drafts) {
      forall c | c in SetOf(candidates) ensures Fits(source, c.draft) {
        var i :| 0 <= i < |candidates| && candidates[i] == c;
        assert drafts[i] == c.draft;
      }
    }
  }

  // ---------- the number of blocks ----------

  lemma {:induction false} InterleaveLength(gaps: seq<string>, blocks: seq<string>)
    requires |gaps| == |blocks| + 1 && forall b :: b in blocks ==> b != ""
    ensures |Interleave(gaps, blocks)| >= |blocks|
  {
    if blocks != [] {
      assert blocks[0] in blocks && forall b :: b in blocks[1..] ==> b in blocks;
      InterleaveLength(gaps[1..], blocks[1..]);
    }
  }

  /** A text has no more blocks than characters. */
  lemma BlocksAreFew(text: string)
    ensures |ParseCandidates(text)| <= |text|
  {
    hide Blocks, ReadBlock;
    var gaps := SourceTextsCover(text);
    var texts := Map((d: Draft) => d.sourceText, ParseCandidates(text));
    BlocksFacts(text);
    forall b | b in texts ensures b != "" {
      var i :| 0 <= i < |texts| && texts[i] == b;
      SourceTextIs(text, i);
    }
    InterleaveLength(gaps, texts);
  }

  lemma SourceTextIs(text: string, i: nat)
    requires i < |ParseCandidates(text)|
    ensures ParseCandidates(text)[i].sourceText in Blocks(text)
  {
    hide Blocks;
    assert ParseCandidates(text)[i] == ReadBlock(Blocks(text)[i]);
  }

  /** A request the kernel takes needs no more supply ids than its limit. */
  lemma FewIds(request: RoutedRequest)
    requires |request.scope| <= SCOPE_LIMIT && SourceOf(request).Some?
    ensures |ParseCandidates(SourceOf(request).value.sourceText)| <= SCOPE_LIMIT
  {
    var documentId, version, digestText := ParsedParts(request.scope);
    BlocksAreFew(SourceOf(request).value.sourceText);
    hide ParseCandidates, ParseInputScope;
  }

  // ---------- one pass, brought to its end ----------

  /** The pass works on this route. */
  predicate OnRoute(pc: Pc, r: RouteId)
  {
    (pc.Claiming? && pc.routeId == r) || (ClaimHeld(pc).Some? && ClaimHeld(pc).value.0 == r)
  }

  predicate TxMatches(pass: Pass) { pass.tx.Some? <==> InTransaction(pass.pc) }

  predicate Over(pass: Pass) { pass.pc.Ended? && pass.tx.None? }

  /** What the route's candidates are or will be can be submitted for it. */
  ghost predicate Ready(s: State, r: RouteId)
  {
    && r in s.requests
    && match SourceOf(s.requests[r])
       case None => true
       case Some(source) =>
         var key := KeyOf(source, PARSER_VERSION);
         DraftsFit(source, if key in s.runs then DraftsOf(s.runs[key].candidates)
                           else ParseCandidates(source.sourceText))
  }

  ghost predicate Moving(s: State, p: PassId, r: RouteId)
  {
    && Inv(s) && Solo(s) && WellFormed(s) && Ready(s, r)
    && p in s.passes && Live(s.passes[p].pc) && OnRoute(s.passes[p].pc, r) && TxMatches(s.passes[p])
    && forall q :: q in s.passes && q != p ==> Over(s.passes[q])
  }

  /** The runs are as they were, or the route's own parse is stored under its key. */
  ghost predicate RunsGrow(s: State, t: State, r: RouteId)
    requires r in s.requests
  {
    || t.runs == s.runs
    || (SourceOf(s.requests[r]).Some?
        && var source := SourceOf(s.requests[r]).value;
           var key := KeyOf(source, PARSER_VERSION);
           && key !in s.runs && key in t.runs && t.runs == s.runs[key := t.runs[key]]
           && DraftsOf(t.runs[key].candidates) == ParseCandidates(source.sourceText))
  }

  lemma StageRoute(s: State, p: PassId, r: RouteId)
    requires p in s.passes && PassOk(s, s.passes[p]) && OnRoute(s.passes[p].pc, r)
    requires InTransaction(s.passes[p].pc) || s.passes[p].pc.Submitting?
    ensures JobOk(s, s.passes[p].pc.job) && s.passes[p].pc.job.routeId == r
  {
    hide JobOk, ParsedFor, FromRun, AllAdmitted, RowSet;
  }

  /** What a pass on a ready route submits is within the limit. */
  lemma ReadyFits(s: State, p: PassId, r: RouteId)
    requires Moving(s, p, r)
    ensures SubmissionFits(s.passes[p].pc)
  {
    hide Solo, WellFormed, Fits, ClaimsOk, RunsOk, RowsOk, TxsOk, HeldOk, AcceptedOk, CompletedOk, SourceOf,
         ParseCandidates, InTransaction;
    var pc := s.passes[p].pc;
    if pc.Submitting? && pc.done < |pc.candidates| {
      assert PassOk(s, s.passes[p]);
      StageRoute(s, p, r);
      hide Inv, OnRoute;
      var stored := s.runs[pc.job.Key()].candidates;
      var c := pc.candidates[pc.done];
      assert c in multiset(pc.candidates);
      var i :| 0 <= i < |stored| && stored[i] == c;
      assert DraftsOf(stored)[i] == c.draft;
    }
  }

  // ---------- one answer ----------

  ghost predicate GoodAnswer(s: State, p: PassId, reply: Reply)
  {
    p in s.passes && Live(s.passes[p].pc) && Possible(s, p, reply) && Good(s.passes[p].pc, reply)
  }

  function Served(s: State, p: PassId, reply: Reply): State
    requires p in s.passes && Live(s.passes[p].pc)
  {
    Answered(s, p, reply, reply)
  }

  lemma GoodIsNoFault(pc: Pc, reply: Reply)
    requires Good(pc, reply)
    ensures !FaultReply(reply)
  {
  }

  lemma NeverAsksAgain(pc: Pc, reply: Reply)
    requires Live(pc)
    ensures !Resume(pc, reply).AskingRoutes?
  {
    hide ParseCandidates, LoadCandidates, ParseInputScope, Trim, RowOf, WithIds;
  }

  lemma ClaimHeldIs(pc: Pc)
    requires Live(pc) && !pc.AskingRoutes? && !pc.Claiming?
    ensures ClaimHeld(pc).Some?
  {
  }

  /** A pass stays on its route. */
  lemma OnRouteAfter(s: State, p: PassId, r: RouteId, reply: Reply)
    requires GoodAnswer(s, p, reply) && OnRoute(s.passes[p].pc, r)
    ensures var next := Resume(s.passes[p].pc, reply);
      next.Ended? || (Live(next) && OnRoute(next, r))
  {
    hide Possible, Good, Resume, ClaimHeld, Live;
    var pc := s.passes[p].pc;
    StartHolds(pc);
    AnswersAdvance(pc, reply);
    HeldClaimAfter(pc, reply);
    ClaimingAfter(pc, reply);
    NeverAsksAgain(pc, reply);
    var next := Resume(pc, reply);
    if !next.Ended? {
      ClaimHeldIs(next);
    }
  }

  /** A pass is in its transaction exactly while it has one open. */
  lemma TxMatchesAfter(s: State, p: PassId, reply: Reply)
    requires GoodAnswer(s, p, reply) && TxMatches(s.passes[p])
    requires Resume(s.passes[p].pc, reply).Ended? ==> s.passes[p].pc.Completing?
    ensures TxMatches(Pass(Resume(s.passes[p].pc, reply), TxAfter(s.passes[p], reply)))
  {
    hide Possible, ParseCandidates, LoadCandidates, ParseInputScope, Trim, RowOf, WithIds;
  }

  lemma IssuedAfter(s: State, pass: Pass, reply: Reply)
    requires Live(pass.pc)
    ensures WorldAfter(s, pass, reply).issued
            == if pass.pc.Naming? && reply.Ids? then s.issued + set id | id in reply.ids else s.issued
  {
  }

  lemma RunsAfter(s: State, p: PassId, r: RouteId, reply: Reply)
    requires Inv(s) && GoodAnswer(s, p, reply) && OnRoute(s.passes[p].pc, r) && r in s.requests
    ensures RunsGrow(s, Served(s, p, reply), r)
  {
    hide PassOk, Meant, Possible, Good, WorldAfter, RowsOk, RunsOk, TxsOk, HeldOk, ClaimsOk, AcceptedOk, CompletedOk,
         Live, Writing, RowSet, SourceOf, ParseCandidates, DraftsOf, IdsOf, DistinctIds, OnRoute, InTransaction;
    var pass := s.passes[p];
    PossibleMeans(s, p, reply);
    assert Before(s, p, reply);
    AddedRuns(s, p, reply);
    if pass.pc.Committing? && reply.Done? && Writing(pass).Some? {
      NewRun(s, p, reply);
      CommittingInTransaction(pass.pc);
      StageRoute(s, p, r);
      NewKey(s, p);
      var run := Run(pass.pc.job.routeId, pass.pc.candidates);
      assert s.runs + map[pass.pc.job.Key() := run] == s.runs[pass.pc.job.Key() := run];
    } else {
      assert s.runs + map[] == s.runs;
    }
  }

  lemma CommittingInTransaction(pc: Pc)
    ensures pc.Committing? ==> InTransaction(pc)
  {
  }

  lemma NewKey(s: State, p: PassId)
    requires TxsOk(s) && p in s.passes && Writing(s.passes[p]).Some?
    ensures Writing(s.passes[p]).value !in s.runs
  {
  }

  lemma ReadyAfter(s: State, t: State, r: RouteId)
    requires Ready(s, r) && t.requests == s.requests && RunsGrow(s, t, r)
    ensures Ready(t, r)
  {
    hide SourceOf, ParseCandidates, DraftsOf, Fits;
  }

  lemma WellFormedSame(s: State, t: State)
    requires WellFormed(s) && t.requests == s.requests
    ensures WellFormed(t)
  {
    hide Readable, SourceOf, Consistent;
  }

  /** A good answer leaves the pass moving, with only its own changes made. */
  lemma GoodStep(s: State, p: PassId, r: RouteId, reply: Reply)
    requires Moving(s, p, r) && GoodAnswer(s, p, reply) && !s.passes[p].pc.Completing?
    ensures var t := Served(s, p, reply);
      && Enabled(s, Serve(p, reply)) && Next(s, Serve(p, reply)) == t
      && Moving(t, p, r) && RunsGrow(s, t, r)
      && t.requests == s.requests && t.completed == s.completed
      && t.passes == s.passes[p := t.passes[p]]
      && t.issued == (if s.passes[p].pc.Naming? && reply.Ids? then s.issued + set id | id in reply.ids else s.issued)
  {
    hide Inv, Solo, WellFormed, Ready, Possible, Good, Live, OnRoute, TxMatches, Resume, TxAfter, WorldAfter, RunsGrow,
         Over;
    var pass := s.passes[p];
    var t := Served(s, p, reply);
    var e := Serve(p, reply);
    assert Enabled(s, e) && Next(s, e) == t;
    StepKeepsInv(s, e);
    SoloKept(s, e);
    RequestsSame(s, pass, reply);
    OnlyCompletionsComplete(s, pass, reply);
    IssuedAfter(s, pass, reply);
    WellFormedSame(s, t);
    ReadyRoute(s, r);
    RunsAfter(s, p, r, reply);
    ReadyAfter(s, t, r);
    GoodGoesOn(s, p, reply);
    OnRouteStarted(pass.pc, r);
    OnRouteAfter(s, p, r, reply);
    TxMatchesAfter(s, p, reply);
  }

  lemma ReadyRoute(s: State, r: RouteId)
    requires Ready(s, r)
    ensures r in s.requests
  {
    hide SourceOf, ParseCandidates, DraftsOf, Fits;
  }

  lemma OnRouteStarted(pc: Pc, r: RouteId)
    requires OnRoute(pc, r)
    ensures !pc.AskingRoutes?
  {
  }

  /** The good answer to a completion completes the route. */
  lemma LastStep(s: State, p: PassId, r: RouteId, reply: Reply)
    requires Moving(s, p, r) && GoodAnswer(s, p, reply) && s.passes[p].pc.Completing?
    ensures var t := Served(s, p, reply);
      && Enabled(s, Serve(p, reply)) && Next(s, Serve(p, reply)) == t
      && Inv(t) && Solo(t) && t.requests == s.requests && t.runs == s.runs && t.issued == s.issued
      && t.completed == s.completed + {r}
      && t.passes == s.passes[p := t.passes[p]] && Over(t.passes[p])
  {
    hide Inv, Solo, WellFormed, Ready, Possible, Good, Live, OnRoute, TxMatches, Resume, TxAfter, WorldAfter, Over;
    var pass := s.passes[p];
    var e := Serve(p, reply);
    assert Enabled(s, e) && Next(s, e) == Served(s, p, reply);
    StepKeepsInv(s, e);
    SoloKept(s, e);
    RequestsSame(s, pass, reply);
    IssuedAfter(s, pass, reply);
    CompletingIsNoCommit(s, p, reply);
    ClaimedRoute(s, p, r, reply);
    CompletedWorld(s, p, reply);
    TxMatchesAfter(s, p, reply);
    CompletionEnds(pass.pc, reply);
    EndsOver(Pass(Resume(pass.pc, reply), TxAfter(pass, reply)));
  }

  lemma CompletingIsNoCommit(s: State, p: PassId, reply: Reply)
    requires GoodAnswer(s, p, reply) && s.passes[p].pc.Completing?
    ensures WorldAfter(s, s.passes[p], reply).runs == s.runs && reply.Completed?
  {
    hide Possible;
    OnlyCommitsWrite(s, s.passes[p], reply);
  }

  lemma CompletionEnds(pc: Pc, reply: Reply)
    requires Live(pc) && pc.Completing?
    ensures Resume(pc, reply).Ended?
  {
  }

  lemma EndsOver(pass: Pass)
    requires TxMatches(pass) && pass.pc.Ended?
    ensures Over(pass)
  {
  }

  lemma ClaimedRoute(s: State, p: PassId, r: RouteId, reply: Reply)
    requires Inv(s) && p in s.passes && s.passes[p].pc.Completing? && OnRoute(s.passes[p].pc, r)
    ensures s.passes[p].pc.claim.claimId in s.claims && s.claims[s.passes[p].pc.claim.claimId].routeId == r
  {
    hide RowsOk, RunsOk, TxsOk, HeldOk, ClaimsOk, AcceptedOk, CompletedOk, SourceOf, FromRun, AllAdmitted;
    assert PassOk(s, s.passes[p]);
  }

  // ---------- a whole pass ----------

  /** Enough ids, distinct and never handed out. */
  ghost predicate FreshFor(s: State, supply: seq<Uuid>)
  {
    |supply| >= SCOPE_LIMIT && NoDup(supply) && forall id :: id in supply ==> id !in s.issued
  }

  ghost predicate Untouched(s: State, ids: set<Uuid>) { ids !! s.issued }

  /** Nothing in these events goes wrong. */
  predicate Faultless(events: seq<Event>)
  {
    forall e :: e in events ==> e.Start? || (e.Serve? && !FaultReply(e.reply))
  }

  lemma Others(s: State, p: PassId)
    requires p in s.passes && forall q :: q in s.passes && q != p ==> Over(s.passes[q])
    ensures forall key :: !Locked(s, p, key)
  {
  }

  lemma NamingIds(s: State, p: PassId, r: RouteId, supply: seq<Uuid>) returns (reply: Reply)
    requires Moving(s, p, r) && s.passes[p].pc.Naming? && FreshFor(s, supply)
    ensures GoodAnswer(s, p, reply) && reply.Ids? && forall id :: id in reply.ids ==> id in supply
  {
    hide Solo, WellFormed, Ready, SourceOf, ParseCandidates, RunsOk, RowsOk, TxsOk, HeldOk, AcceptedOk, CompletedOk,
         OnRoute;
    var job := s.passes[p].pc.job;
    assert PassOk(s, s.passes[p]);
    FewIds(s.requests[job.routeId]);
    var count := |ParseCandidates(job.source.sourceText)|;
    reply := Ids(supply[..count]);
    assert FreshMay(s, FreshIds(count), reply);
    hide PassesOk, ClaimsOk;
  }

  /** The good answer of a moving pass, taking supply ids from those given. */
  lemma Answer(s: State, p: PassId, r: RouteId, supply: seq<Uuid>) returns (reply: Reply)
    requires Moving(s, p, r)
    requires s.passes[p].pc.Naming? ==> FreshFor(s, supply)
    ensures GoodAnswer(s, p, reply)
    ensures s.passes[p].pc.Naming? && reply.Ids? ==> forall id :: id in reply.ids ==> id in supply
  {
    hide Inv, Solo, WellFormed, Ready, Possible, Good, Live, OnRoute, TxMatches, FreshFor, Supply, ParseCandidates;
    if s.passes[p].pc.Naming? {
      reply := NamingIds(s, p, r, supply);
    } else {
      Others(s, p);
      hide Over, Locked;
      ReadyFits(s, p, r);
      LiveNotEnded(s.passes[p].pc);
      NeverStuck(s, p);
      hide SubmissionFits;
      reply :| Possible(s, p, reply) && Good(s.passes[p].pc, reply);
    }
  }

  /** What a finished pass on route `r` leaves. */
  ghost predicate Finished(s: State, t: State, p: PassId, r: RouteId)
    requires r in s.requests
  {
    && Inv(t) && Solo(t) && t.requests == s.requests && t.completed == s.completed + {r}
    && p in t.passes && Over(t.passes[p]) && t.passes == s.passes[p := t.passes[p]]
    && RunsGrow(s, t, r)
  }

  /** A moving pass reaches the end of its route without a fault. */
  lemma RunPass(s: State, p: PassId, r: RouteId, supply: seq<Uuid>, rest: set<Uuid>)
    returns (events: seq<Event>, t: State)
    requires Moving(s, p, r) && r in s.requests
    requires Stage(s.passes[p].pc) >= 6 ==> FreshFor(s, supply)
    requires Untouched(s, rest) && forall id :: id in supply ==> id !in rest
    ensures SoloRun(s, events, t) && Faultless(events) && Finished(s, t, p, r) && Untouched(t, rest)
    decreases Stage(s.passes[p].pc), Left(s.passes[p].pc)
  {
    hide Inv, Solo, WellFormed, Ready, Possible, Good, Live, OnRoute, TxMatches, FreshFor, Resume, TxAfter, WorldAfter,
         RunsGrow, Over, Enabled, Next, Stage, Left;
    NamingStage(s.passes[p].pc);
    var reply := Answer(s, p, r, supply);
    var e, next := Serve(p, reply), Served(s, p, reply);
    GoodIsNoFault(s.passes[p].pc, reply);
    if s.passes[p].pc.Completing? {
      LastStep(s, p, r, reply);
      SameRunsGrow(s, next, r);
      events, t := [e], next;
      OneEvent(s, e, t);
    } else {
      GoodStep(s, p, r, reply);
      StepsDown(s, p, reply);
      StillFresh(s, next, p, reply, supply, rest);
      var later;
      later, t := RunPass(next, p, r, supply, rest);
      events := [e] + later;
      FirstEvent(s, e, later, t);
      RunsGrowOn(s, next, t, r);
      assert s.passes[p := next.passes[p]][p := t.passes[p]] == s.passes[p := t.passes[p]];
    }
  }

  lemma NamingStage(pc: Pc)
    ensures pc.Naming? ==> Stage(pc) >= 6
  {
  }

  lemma SameRunsGrow(s: State, t: State, r: RouteId)
    requires r in s.requests && t.runs == s.runs
    ensures RunsGrow(s, t, r)
  {
    hide SourceOf, ParseCandidates;
  }

  lemma RunsGrowOn(s: State, t: State, u: State, r: RouteId)
    requires r in s.requests && t.requests == s.requests && RunsGrow(s, t, r) && RunsGrow(t, u, r)
    ensures RunsGrow(s, u, r)
  {
    hide SourceOf, ParseCandidates, DraftsOf;
  }

  lemma OneEvent(s: State, e: Event, t: State)
    requires Enabled(s, e) && SoloEvent(s, e) && Next(s, e) == t
    ensures SoloRun(s, [e], t)
  {
    hide Enabled, Next;
    assert [e][1..] == [];
  }

  lemma FirstEvent(s: State, e: Event, later: seq<Event>, t: State)
    requires Enabled(s, e) && SoloEvent(s, e) && SoloRun(Next(s, e), later, t)
    ensures SoloRun(s, [e] + later, t)
  {
    hide Enabled, Next;
    assert ([e] + later)[1..] == later;
  }

  lemma StepsDown(s: State, p: PassId, reply: Reply)
    requires p in s.passes && Live(s.passes[p].pc) && Live(Served(s, p, reply).passes[p].pc)
    ensures var pc, next := s.passes[p].pc, Served(s, p, reply).passes[p].pc;
      Left(next) >= 0 && (Stage(next) < Stage(pc) || (Stage(next) == Stage(pc) && Left(next) < Left(pc)))
  {
    AnswersAdvance(s.passes[p].pc, reply);
    LiveNotEnded(Served(s, p, reply).passes[p].pc);
    hide Resume, TxAfter, WorldAfter, Stage, Left;
  }

  lemma StillFresh(s: State, t: State, p: PassId, reply: Reply, supply: seq<Uuid>, rest: set<Uuid>)
    requires p in s.passes && Live(s.passes[p].pc) && t == Served(s, p, reply) && p in t.passes && Live(t.passes[p].pc)
    requires t.issued == if s.passes[p].pc.Naming? && reply.Ids? then s.issued + set id | id in reply.ids else s.issued
    requires s.passes[p].pc.Naming? && reply.Ids? ==> forall id :: id in reply.ids ==> id in supply
    requires Stage(s.passes[p].pc) >= 6 ==> FreshFor(s, supply)
    requires Untouched(s, rest) && forall id :: id in supply ==> id !in rest
    ensures Stage(t.passes[p].pc) >= 6 ==> FreshFor(t, supply)
    ensures Untouched(t, rest)
  {
    StepsDown(s, p, reply);
    NamingLast(s.passes[p].pc);
    hide Resume, TxAfter, WorldAfter, Stage, Left, Live;
  }

  lemma NamingLast(pc: Pc)
    ensures pc.Naming? ==> Stage(pc) == 6 && Left(pc) == 0
  {
  }

  // ---------- one route after another ----------

  /** No pass runs and no transaction is open. */
  ghost predicate Settled(s: State) { forall p :: p in s.passes ==> Over(s.passes[p]) }

  lemma {:induction false} NewPassId(ids: set<PassId>) returns (p: PassId)
    ensures forall q :: q in ids ==> q < p
  {
    if ids == {} {
      p := 0;
    } else {
      var q :| q in ids;
      p := NewPassId(ids - {q});
      assert forall x :: x in ids ==> x == q || x in ids - {q};
      p := p + q + 1;
    }
  }

  lemma StartStep(s: State, p: PassId)
    requires Settled(s) && p !in s.passes
    ensures Enabled(s, Start(p)) && SoloEvent(s, Start(p))
    ensures Next(s, Start(p)) == s.(passes := s.passes[p := Pass(AskingRoutes, None)])
  {
  }

  lemma ListedStep(s: State, p: PassId, r: RouteId)
    requires p in s.passes && s.passes[p] == Pass(AskingRoutes, None) && Open(s, r)
    ensures Enabled(s, Serve(p, Routes([r])))
    ensures Next(s, Serve(p, Routes([r]))) == s.(passes := s.passes[p := Pass(Claiming(r), None)])
  {
    RoutesAnswer(s, p, r);
    hide Possible, Open;
  }

  lemma ClaimingMoves(s: State, p: PassId, r: RouteId)
    requires Inv(s) && Solo(s) && WellFormed(s) && Ready(s, r)
    requires p in s.passes && s.passes[p] == Pass(Claiming(r), None)
    requires forall q :: q in s.passes && q != p ==> Over(s.passes[q])
    ensures Moving(s, p, r)
  {
    hide Inv, Solo, WellFormed, Ready;
  }

  /** From a settled state, one pass completes any ready route. */
  lemma CompleteRoute(s: State, r: RouteId, supply: seq<Uuid>, rest: set<Uuid>)
    returns (events: seq<Event>, t: State)
    requires Inv(s) && Solo(s) && WellFormed(s) && Settled(s) && Open(s, r) && Ready(s, r) && FreshFor(s, supply)
    requires Untouched(s, rest) && forall id :: id in supply ==> id !in rest
    ensures SoloRun(s, events, t) && Faultless(events) && Untouched(t, rest)
    ensures Inv(t) && Solo(t) && WellFormed(t) && Settled(t)
    ensures r in s.requests && RunsGrow(s, t, r) && t.requests == s.requests && t.completed == s.completed + {r}
  {
    hide Inv, Solo, WellFormed, Ready, Enabled, Next, RunsGrow, Over, FreshFor, SoloEvent;
    var p := NewPassId(s.passes.Keys);
    ReadyRoute(s, r);
    StartStep(s, p);
    var s1 := Next(s, Start(p));
    StepKeepsInv(s, Start(p));
    SoloKept(s, Start(p));
    ListedStep(s1, p, r);
    var listed := Serve(p, Routes([r]));
    ServeIsSolo(s1, listed);
    var s2 := Next(s1, listed);
    StepKeepsInv(s1, listed);
    SoloKept(s1, listed);
    assert s2 == s.(passes := s.passes[p := Pass(Claiming(r), None)]);
    WellFormedSame(s, s2);
    SameRunsGrow(s, s2, r);
    ReadyAfter(s, s2, r);
    ClaimingMoves(s2, p, r);
    SameIssued(s, s2, supply);
    hide Settled;
    events, t := RunPass(s2, p, r, supply, rest);
    FirstEvent(s1, listed, events, t);
    FirstEvent(s, Start(p), [listed] + events, t);
    events := [Start(p)] + ([listed] + events);
    RunsGrowOn(s, s2, t, r);
    WellFormedSame(s, t);
    SettledAgain(s, t, p);
  }

  lemma ServeIsSolo(s: State, e: Event)
    requires e.Serve?
    ensures SoloEvent(s, e)
  {
  }

  lemma SameIssued(s: State, t: State, supply: seq<Uuid>)
    requires t.issued == s.issued
    ensures FreshFor(s, supply) ==> FreshFor(t, supply)
    ensures forall rest :: Untouched(s, rest) ==> Untouched(t, rest)
  {
  }

  lemma SettledAgain(s: State, t: State, p: PassId)
    requires Settled(s) && p in t.passes && Over(t.passes[p])
    requires t.passes.Keys == s.passes.Keys + {p} && forall q :: q in s.passes && q != p ==> t.passes[q] == s.passes[q]
    ensures Settled(t)
  {
    hide Over;
  }

  function OpenRoutes(s: State): set<RouteId> { s.requests.Keys - s.completed }

  /** A route whose candidates fit, and whose parse, if it is the first under
      its key, fits every other route with that key. */
  ghost predicate GoodNext(s: State, r: RouteId)
  {
    && Open(s, r) && Ready(s, r)
    && forall key :: NamesKey(s, r, key) && key !in s.runs ==>
         FitEverywhere(s, key, ParseCandidates(SourceOf(s.requests[r]).value.sourceText))
  }

  lemma PickRoute(s: State) returns (r: RouteId)
    requires Inv(s) && Deliverable(s) && OpenRoutes(s) != {}
    ensures GoodNext(s, r)
  {
    hide Inv, SourceOf, ParseCandidates, Fits, KeyDeliverable, FitEverywhere, StoredFits, DraftsOf;
    r :| r in OpenRoutes(s);
    if SourceOf(s.requests[r]).Some? {
      var source := SourceOf(s.requests[r]).value;
      var key := KeyOf(source, PARSER_VERSION);
      assert NamesKey(s, r, key);
      assert KeyDeliverable(s, key);
      if key in s.runs {
        StoredReady(s, r, key);
      } else {
        r := FirstOfKey(s, key);
      }
    } else {
      NoKey(s, r);
    }
  }

  lemma NoKey(s: State, r: RouteId)
    requires Open(s, r) && SourceOf(s.requests[r]).None?
    ensures GoodNext(s, r)
  {
    hide SourceOf, ParseCandidates, DraftsOf;
  }

  lemma StoredReady(s: State, r: RouteId, key: Key)
    requires Inv(s) && Open(s, r) && NamesKey(s, r, key) && key in s.runs && KeyDeliverable(s, key)
    ensures GoodNext(s, r)
  {
    InvParts(s);
    hide Inv, RowsOk, RunsOk, TxsOk, PassesOk, AcceptedOk, CompletedOk, SourceOf, ParseCandidates, DraftsOf,
         FitEverywhere, StoredFits, DraftsFit;
    StoredFitsIff(s, SourceOf(s.requests[r]).value);
  }

  lemma FirstOfKey(s: State, key: Key) returns (f: RouteId)
    requires Inv(s) && key !in s.runs && KeyDeliverable(s, key)
    ensures GoodNext(s, f)
  {
    InvParts(s);
    hide Inv, RowsOk, RunsOk, TxsOk, PassesOk, AcceptedOk, CompletedOk, SourceOf, ParseCandidates, DraftsOf,
         StoredFits, DraftsFit;
    f :| NamesKey(s, f, key)
         && FitEverywhere(s, key, ParseCandidates(SourceOf(s.requests[f]).value.sourceText));
    CompletedStored(s, f, key);
  }

  lemma CompletedStored(s: State, r: RouteId, key: Key)
    requires CompletedOk(s) && NamesKey(s, r, key)
    ensures r in s.completed ==> key in s.runs
  {
    NamesParse(s.requests[r]);
    hide SourceOf;
    assert r in s.completed ==> Delivered(s, r);
  }

  lemma NamesParse(request: RoutedRequest)
    ensures SourceOf(request).Some? ==> request.action == PARSE_ACTION
  {
    hide ParseInputScope;
  }

  /** Completing it leaves the rest deliverable. */
  lemma DeliverableAfter(s: State, t: State, r: RouteId)
    requires Inv(s) && Inv(t) && Deliverable(s) && GoodNext(s, r) && r in s.requests
    requires t.requests == s.requests && RunsGrow(s, t, r)
    ensures Deliverable(t)
  {
    InvParts(s);
    InvParts(t);
    hide Inv, RowsOk, RunsOk, TxsOk, PassesOk, AcceptedOk, CompletedOk, SourceOf, ParseCandidates, Ready, RunsGrow,
         KeyDeliverable;
    forall q, key | NamesKey(t, q, key) ensures KeyDeliverable(t, key) {
      assert NamesKey(s, q, key);
      KeyDeliverableAfter(s, t, r, key);
    }
  }

  lemma KeyDeliverableAfter(s: State, t: State, r: RouteId, key: Key)
    requires RowsOk(s) && RowsOk(t) && KeyDeliverable(s, key) && GoodNext(s, r) && r in s.requests
    requires t.requests == s.requests && RunsGrow(s, t, r)
    ensures KeyDeliverable(t, key)
  {
    hide RowsOk, SourceOf, ParseCandidates, Ready, StoredFits, DraftsFit, DraftsOf;
    if key in t.runs {
      forall q | NamesKey(t, q, key) ensures StoredFits(t, SourceOf(t.requests[q]).value) {
        var source := SourceOf(t.requests[q]).value;
        assert NamesKey(s, q, key);
        StoredFitsIff(t, source);
        if key in s.runs {
          StoredFitsIff(s, source);
        } else {
          assert NamesKey(s, r, key);
        }
      }
    } else {
      var f :| NamesKey(s, f, key)
               && FitEverywhere(s, key, ParseCandidates(SourceOf(s.requests[f]).value.sourceText));
      assert NamesKey(t, f, key);
      assert FitEverywhere(t, key, ParseCandidates(SourceOf(t.requests[f]).value.sourceText)) by {
        forall q | NamesKey(t, q, key)
          ensures DraftsFit(SourceOf(t.requests[q]).value, ParseCandidates(SourceOf(t.requests[f]).value.sourceText))
        {
          assert NamesKey(s, q, key);
        }
      }
    }
  }

  lemma {:induction false} SoloRunConcat(s: State, before: seq<Event>, t: State, after: seq<Event>, u: State)
    requires SoloRun(s, before, t) && SoloRun(t, after, u)
    ensures SoloRun(s, before + after, u)
    decreases |before|
  {
    hide Enabled, Next, SoloEvent;
    if before == [] {
      assert [] + after == after;
    } else {
      SoloRunConcat(Next(s, before[0]), before[1..], t, after, u);
      assert (before + after)[1..] == before[1..] + after;
    }
  }

  /** Enough ids for this many routes. */
  ghost predicate SupplyFor(s: State, supply: seq<Uuid>, routes: nat)
  {
    |supply| >= SCOPE_LIMIT * routes && NoDup(supply) && forall id :: id in supply ==> id !in s.issued
  }

  lemma SupplyParts(s: State, supply: seq<Uuid>, routes: nat)
    requires SupplyFor(s, supply, routes) && routes > 0
    ensures |supply| >= SCOPE_LIMIT && FreshFor(s, supply[..SCOPE_LIMIT])
    ensures var rest := set id | id in supply[SCOPE_LIMIT..];
      Untouched(s, rest) && forall id :: id in supply[..SCOPE_LIMIT] ==> id !in rest
  {
  }

  lemma SupplyLeft(s: State, t: State, supply: seq<Uuid>, routes: nat)
    requires SupplyFor(s, supply, routes) && routes > 0
    requires Untouched(t, set id | id in supply[SCOPE_LIMIT..])
    ensures SupplyFor(t, supply[SCOPE_LIMIT..], routes - 1)
  {
    var rest := supply[SCOPE_LIMIT..];
    assert forall id :: id in rest ==> id in (set x | x in rest);
  }

  /** From a settled state over deliverable requests, the worker completes every
      route without a fault. */
  lemma {:induction false} CompleteAll(s: State, supply: seq<Uuid>) returns (events: seq<Event>, t: State)
    requires Inv(s) && Solo(s) && WellFormed(s) && Settled(s) && Deliverable(s)
    requires SupplyFor(s, supply, |OpenRoutes(s)|)
    ensures SoloRun(s, events, t) && Faultless(events)
    ensures t.requests == s.requests && t.completed == s.requests.Keys
    decreases |OpenRoutes(s)|
  {
    hide Inv, Solo, WellFormed, Settled, Deliverable, RunsGrow, Enabled, Next, Ready, NamesKey, SupplyFor, FreshFor,
         Untouched;
    CompletedRequested(s);
    if OpenRoutes(s) == {} {
      events, t := [], s;
    } else {
      var r := PickRoute(s);
      SupplyParts(s, supply, |OpenRoutes(s)|);
      var first, next := CompleteRoute(s, r, supply[..SCOPE_LIMIT], set id | id in supply[SCOPE_LIMIT..]);
      SupplyLeft(s, next, supply, |OpenRoutes(s)|);
      DeliverableAfter(s, next, r);
      assert OpenRoutes(next) == OpenRoutes(s) - {r};
      var later;
      later, t := CompleteAll(next, supply[SCOPE_LIMIT..]);
      SoloRunConcat(s, first, next, later, t);
      events := first + later;
    }
  }

  // ---------- from any state ----------

  ghost function Loose(s: State): set<PassId> { set p | p in s.passes && s.passes[p].tx.Some? }

  /** Once no pass runs, the database can end every transaction left open. */
  lemma {:induction false} EndTransactions(s: State) returns (events: seq<Event>, t: State)
    requires Inv(s) && Solo(s) && forall p :: p in s.passes ==> s.passes[p].pc.Ended?
    ensures SoloRun(s, events, t) && Inv(t) && Solo(t) && Settled(t) && t == s.(passes := t.passes)
    decreases |Loose(s)|
  {
    hide Inv, Solo, Enabled, Next;
    if Loose(s) == {} {
      assert forall p :: p in s.passes ==> p !in Loose(s);
      events, t := [], s;
    } else {
      var p :| p in Loose(s);
      AbortStep(s, p);
      var next := Next(s, Abort(p));
      StepKeepsInv(s, Abort(p));
      SoloKept(s, Abort(p));
      assert Loose(next) == Loose(s) - {p};
      var later;
      later, t := EndTransactions(next);
      FirstEvent(s, Abort(p), later, t);
      events := [Abort(p)] + later;
    }
  }

  lemma AbortStep(s: State, p: PassId)
    requires p in s.passes && s.passes[p].tx.Some? && s.passes[p].pc.Ended?
    ensures Enabled(s, Abort(p)) && SoloEvent(s, Abort(p))
    ensures Next(s, Abort(p)) == s.(passes := s.passes[p := s.passes[p].(tx := None)])
  {
  }

  lemma CrashStep(s: State, p: PassId)
    requires p in s.passes
    ensures Enabled(s, Crash(p)) && SoloEvent(s, Crash(p))
    ensures Next(s, Crash(p)) == s.(passes := s.passes[p := s.passes[p].(pc := Ended(Err(Died)))])
  {
  }

  /** A worker that starts over settles, whatever it was doing. */
  lemma Settle(s: State) returns (events: seq<Event>, t: State)
    requires Inv(s) && Solo(s)
    ensures SoloRun(s, events, t) && Inv(t) && Solo(t) && Settled(t) && t == s.(passes := t.passes)
  {
    hide Inv, Enabled, Next, Alone, Live, Settled;
    if p :| p in s.passes && !s.passes[p].pc.Ended? {
      CrashStep(s, p);
      var next := Next(s, Crash(p));
      StepKeepsInv(s, Crash(p));
      SoloKept(s, Crash(p));
      hide Solo;
      events, t := EndTransactions(next);
      FirstEvent(s, Crash(p), events, t);
      events := [Crash(p)] + events;
    } else {
      events, t := EndTransactions(s);
    }
  }

  /** Some continuation of a lone worker, over the requests there are, completes every route. */
  ghost predicate Completable(s: State)
  {
    exists events, t :: SoloRun(s, events, t) && t.requests == s.requests && t.completed == s.requests.Keys
  }

  lemma DeliverableSame(s: State, t: State)
    requires Deliverable(s) && t == s.(passes := t.passes)
    ensures Deliverable(t)
  {
    hide SourceOf, ParseCandidates, StoredFor;
    forall r, key | NamesKey(t, r, key) ensures KeyDeliverable(t, key) {
      assert NamesKey(s, r, key);
      KeyDeliverableSame(s, t, key);
    }
  }

  lemma KeyDeliverableSame(s: State, t: State, key: Key)
    requires KeyDeliverable(s, key) && t == s.(passes := t.passes)
    ensures KeyDeliverable(t, key)
  {
    hide SourceOf, ParseCandidates, Fits, CandidateOf;
    assert forall r :: NamesKey(t, r, key) <==> NamesKey(s, r, key);
    assert StoredFor(t, key) == StoredFor(s, key);
    if key !in s.runs {
      var f :| NamesKey(s, f, key)
               && FitEverywhere(s, key, ParseCandidates(SourceOf(s.requests[f]).value.sourceText));
      assert FitEverywhere(t, key, ParseCandidates(SourceOf(t.requests[f]).value.sourceText));
    }
  }

  /** What has been completed was deliverable all along. */
  lemma CompletedWasDeliverable(s: State, events: seq<Event>, t: State)
    requires Inv(s) && Reachable(t) && Reaches(s, events, t)
    requires t.requests == s.requests && t.completed == s.requests.Keys
    ensures Deliverable(s)
  {
    hide Inv, Reachable, Reaches, SourceOf, KeyDeliverable, ParseCandidates;
    forall r, key | NamesKey(s, r, key) ensures KeyDeliverable(s, key) {
      CompletedKey(s, events, t, r, key);
    }
  }

  lemma CompletedKey(s: State, events: seq<Event>, t: State, r: RouteId, key: Key)
    requires Inv(s) && Reachable(t) && Reaches(s, events, t)
    requires t.requests == s.requests && t.completed == s.requests.Keys && NamesKey(s, r, key)
    ensures KeyDeliverable(s, key)
  {
    ReachableInv(t);
    InvParts(t);
    hide Inv, Reachable, Reaches, RowsOk, RunsOk, TxsOk, PassesOk, AcceptedOk, CompletedOk, SourceOf, ParseCandidates,
         StoredFor, Fits, DraftsFit, DraftsOf, DistinctIds, IsParse, CandidateOf;
    forall q | NamesKey(t, q, key) ensures StoredFits(t, SourceOf(t.requests[q]).value) && key in t.runs {
      NamesParse(t.requests[q]);
      NoLostHandoff(t, q);
      CompletedFits(t, q);
    }
    assert NamesKey(t, r, key);
    if key in s.runs {
      WriteOnce(s, events, t, key);
      SameStored(s, t, key);
    } else {
      RunFacts(t, key);
      var f := t.runs[key].routeId;
      assert NamesKey(s, f, key);
      forall q | NamesKey(s, q, key)
        ensures DraftsFit(SourceOf(s.requests[q]).value, ParseCandidates(SourceOf(s.requests[f]).value.sourceText))
      {
        assert NamesKey(t, q, key);
        StoredFitsIff(t, SourceOf(t.requests[q]).value);
      }
    }
  }

  lemma SameStored(s: State, t: State, key: Key)
    requires StoredFor(s, key) == StoredFor(t, key) && t.requests == s.requests && key in s.runs
    requires forall q :: NamesKey(t, q, key) ==> StoredFits(t, SourceOf(t.requests[q]).value)
    ensures KeyDeliverable(s, key)
  {
    hide SourceOf, Fits, StoredFor;
    forall q | NamesKey(s, q, key) ensures StoredFits(s, SourceOf(s.requests[q]).value) {
      assert NamesKey(t, q, key);
    }
  }

  /** The exact condition: at any moment of any run of a lone worker over
      well-formed requests, with ids enough for the open routes, some
      continuation completes every route if and only if every key is deliverable. */
  lemma CompletableIff(before: seq<Event>, s: State, supply: seq<Uuid>)
    requires SoloRun(Initial(), before, s) && WellFormed(s) && SupplyFor(s, supply, |OpenRoutes(s)|)
    ensures Completable(s) <==> Deliverable(s)
  {
    hide Inv, Solo, SoloRun, WellFormed, SupplyFor, Settled, Deliverable, Reaches, Reachable;
    InitialInv();
    InitialSolo();
    SoloRunKeeps(Initial(), before, s);
    if Deliverable(s) {
      var first, settled := Settle(s);
      WellFormedSame(s, settled);
      DeliverableSame(s, settled);
      SupplySame(s, settled, supply);
      var events, t := CompleteAll(settled, supply);
      SoloRunConcat(s, first, settled, events, t);
    }
    if Completable(s) {
      var events, t :| SoloRun(s, events, t) && t.requests == s.requests && t.completed == s.requests.Keys;
      SoloRunKeeps(s, events, t);
      SoloRunConcat(Initial(), before, s, events, t);
      SoloRunKeeps(Initial(), before + events, t);
      ReachableBy(before + events, t);
      CompletedWasDeliverable(s, events, t);
    }
  }

  lemma SupplySame(s: State, t: State, supply: seq<Uuid>)
    requires t == s.(passes := t.passes) && SupplyFor(s, supply, |OpenRoutes(s)|)
    ensures SupplyFor(t, supply, |OpenRoutes(t)|)
  {
    assert OpenRoutes(t) == OpenRoutes(s);
  }

  lemma ReachableBy(events: seq<Event>, t: State)
    requires Reaches(Initial(), events, t)
    ensures Reachable(t)
  {
    hide Reaches;
  }

  /** When a key names one text, every route must fit its own candidates. */
  lemma DeliverableByText(s: State)
    requires Inv(s)
    requires forall r, q, key :: NamesKey(s, r, key) && NamesKey(s, q, key) ==>
               SourceOf(s.requests[r]).value.sourceText == SourceOf(s.requests[q]).value.sourceText
    ensures Deliverable(s)
            <==> forall r, key :: NamesKey(s, r, key) ==>
                   DraftsFit(SourceOf(s.requests[r]).value,
                             ParseCandidates(SourceOf(s.requests[r]).value.sourceText))
  {
    InvParts(s);
    hide Inv, RowsOk, RunsOk, TxsOk, PassesOk, AcceptedOk, CompletedOk, SourceOf, ParseCandidates, StoredFits,
         DraftsFit, DraftsOf, DistinctIds;
    forall r, key | NamesKey(s, r, key)
      ensures KeyDeliverable(s, key)
              <==> FitEverywhere(s, key, ParseCandidates(SourceOf(s.requests[r]).value.sourceText))
    {
      if key in s.runs {
        RunFacts(s, key);
        assert NamesKey(s, s.runs[key].routeId, key);
        forall q | NamesKey(s, q, key)
          ensures StoredFits(s, SourceOf(s.requests[q]).value)
                  <==> DraftsFit(SourceOf(s.requests[q]).value,
                                 ParseCandidates(SourceOf(s.requests[r]).value.sourceText))
        {
          StoredFitsIff(s, SourceOf(s.requests[q]).value);
        }
      }
    }
    hide KeyDeliverable;
  }

  // ---------- a request no worker can complete ----------

  function LongName(): string { seq(60, _ => 'A') }

  function LongNameSource(): SourceReference
  {
    SourceReference(seq(32, _ => 0), 1, seq(32, _ => 0), "p", PrintBlock(LongNameBlock()))
  }

  function LongNameBlock(): Printed { Printed("Action", LongName(), None, None, None, None) }

  lemma LongNameParses()
    ensures PrintBlock(LongNameBlock()) == "Action\nName: " + LongName()
    ensures ParseCandidates(PrintBlock(LongNameBlock())) == [Meaning(LongNameBlock())]
  {
    var b := LongNameBlock();
    assert BlockLines(b) == ["Action", LabelLine("Name", LongName())];
    assert ["Action", LabelLine("Name", LongName())][1..] == [LabelLine("Name", LongName())];
    assert PrintBlock(b) == "Action\nName: " + LongName();
    LongNamePrintable();
    BlockDashes(b);
    hide PrintBlock, Meaning, ParseCandidates, Printable;
    BlocksReadBack([b]);
    assert Map(PrintBlock, [b]) == [PrintBlock(b)] && Map(Meaning, [b]) == [Meaning(b)];
  }

  lemma LongNamePrintable()
    ensures Printable(LongNameBlock()) && DashFree(LongNameBlock())
  {
    OccursOne('\n', LongName());
    OccursHead("---", LongName());
  }

  lemma LongNameLengths()
    ensures |PrintInputScope(LongNameSource())| <= SCOPE_LIMIT
    ensures !Fits(LongNameSource(), Meaning(LongNameBlock()))
  {
    LongNameParses();
    InputScopeLength(LongNameSource());
    PrintInt64Length(1);
    assert Meaning(LongNameBlock()).ruleType.AsStr() == "action";
    assert PrintInt(1) == "1";
    hide PrintInputScope, PrintInt, PrintBlock;
  }

  function LongNameRequest(): RoutedRequest
  {
    RoutedRequest(PARSE_ACTION, PrintInputScope(LongNameSource()))
  }

  lemma LongNameReads()
    ensures |LongNameRequest().scope| <= 200
    ensures SourceOf(LongNameRequest()) == Some(LongNameSource()) && Readable(LongNameRequest())
  {
    LongNameLengths();
    LongNameParses();
    InputScopeRoundTrip(LongNameSource());
    assert AcceptedLocation("p");
    hide ParseInputScope, PrintInputScope, Trim;
    TrimFacts(LongNameSource().sourceText);
    assert LongNameSource().sourceText[0] == 'A';
  }

  /** What is stored for a request whose one candidate does not fit does not fit. */
  lemma UnfitStored(s: State, request: RoutedRequest, source: SourceReference, draft: Draft)
    requires Inv(s) && s.requests == map["a" := request] && SourceOf(request) == Some(source)
    requires ParseCandidates(source.sourceText) == [draft] && !Fits(source, draft)
    requires KeyOf(source, PARSER_VERSION) in s.runs
    ensures !StoredFits(s, source)
  {
    hide Inv, RowsOk, RunsOk, TxsOk, PassesOk, AcceptedOk, CompletedOk, SourceOf, ParseCandidates, StoredFits, DraftsOf,
         DistinctIds, Fits;
    var key := KeyOf(source, PARSER_VERSION);
    InvParts(s);
    RunFacts(s, key);
    StoredFitsIff(s, source);
    var drafts := DraftsOf(s.runs[key].candidates);
    assert drafts == [draft] && drafts[0] in drafts;
  }

  lemma UnfitNeverCompleted(s: State, request: RoutedRequest, source: SourceReference, draft: Draft)
    requires Reachable(s) && s.requests == map["a" := request]
    requires SourceOf(request) == Some(source)
    requires ParseCandidates(source.sourceText) == [draft] && !Fits(source, draft)
    ensures "a" !in s.completed
  {
    NamesParse(request);
    hide Inv, Reachable, SourceOf, StoredFits, CompletedOk, IsParse, StoredFor, CandidateOf, ParseCandidates, Fits;
    ReachableInv(s);
    if "a" in s.completed {
      NoLostHandoff(s, "a");
      CompletedFits(s, "a");
      UnfitStored(s, request, source, draft);
      assert false;
    }
  }

  /** A short, well-formed request whose one candidate no admit scope can carry:
      the kernel takes the request, and never holds it as completed. */
  lemma NeverCompleted() returns (request: RoutedRequest)
    ensures request.action == "pf2e.parse" && |request.scope| <= 200 && Readable(request)
    ensures forall s: State :: Reachable(s) && s.requests == map["a" := request] ==> "a" !in s.completed
  {
    request := LongNameRequest();
    var source, draft := LongNameSource(), Meaning(LongNameBlock());
    LongNameReads();
    LongNameIsParse();
    LongNameParses();
    LongNameLengths();
    hide *;
    forall s: State | Reachable(s) && s.requests == map["a" := request] ensures "a" !in s.completed {
      UnfitNeverCompleted(s, request, source, draft);
    }
  }

  lemma LongNameIsParse()
    ensures LongNameRequest().action == "pf2e.parse"
    ensures LongNameSource().sourceText == PrintBlock(LongNameBlock())
  {
  }
}
