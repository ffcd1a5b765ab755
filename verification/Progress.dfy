/** How many passes it takes: every pass that is not idle completes a route or
    meets a fault. */
module Progress {
  import opened Sequences
  import opened Text
  import opened Domain
  import opened Parser
  import opened Scopes
  import opened Rows
  import opened Passes
  import opened Handoff
  import opened Safety
  import opened Guarantees

  /** Every routed `pf2e.parse` request has a readable scope and a text that is
      not blank, and no two give one document version two digests. */
  ghost predicate WellFormed(s: State)
  {
    && (forall r :: r in s.requests ==> Readable(s.requests[r]))
    && (forall r, q :: r in s.requests && q in s.requests
                       && SourceOf(s.requests[r]).Some? && SourceOf(s.requests[q]).Some? ==>
          Consistent(SourceOf(s.requests[r]).value, SourceOf(s.requests[q]).value))
  }

  predicate Readable(request: RoutedRequest)
  {
    request.action == PARSE_ACTION ==>
      SourceOf(request).Some? && Trim(SourceOf(request).value.sourceText) != ""
  }

  predicate Consistent(one: SourceReference, other: SourceReference)
  {
    one.documentId == other.documentId && one.documentVersion == other.documentVersion ==>
      one.contentDigest == other.contentDigest
  }

  /** The world's part of what can go wrong with a pass: an error or a lost
      answer, a lost or missing claim or request, a rejected submission, a
      fenced completion, a crash. */
  predicate IsFault(s: State, e: Event)
  {
    match e
    case Serve(_, reply) => FaultReply(reply)
    case Lose(_, _) => true
    case Crash(p) => p in s.passes && !s.passes[p].pc.Ended?
    case _ => false
  }

  predicate FaultReply(reply: Reply)
  {
    reply.Failed? || reply.AlreadyClaimed? || reply.RouteNotFound? || reply.RequestNotFound?
    || reply.NotAccepted? || reply.Fenced? || reply.ClaimNotFound?
  }

  predicate Idle(pc: Pc) { pc == Ended(Ok(NothingEligible)) }

  /** The event ends a pass that had something to do. */
  ghost predicate EndsBusy(s: State, e: Event)
    requires Enabled(s, e)
  {
    (e.Serve? || e.Lose? || e.Crash?)
    && !s.passes[e.pass].pc.Ended?
    && Next(s, e).passes[e.pass].pc.Ended? && !Idle(Next(s, e).passes[e.pass].pc)
  }

  ghost function Faults(s: State, events: seq<Event>, t: State): nat
    requires Reaches(s, events, t)
    decreases |events|
  {
    if events == [] then 0
    else (if IsFault(s, events[0]) then 1 else 0) + Faults(Next(s, events[0]), events[1..], t)
  }

  /** How many passes that were not idle have ended. */
  ghost function BusyPasses(s: State, events: seq<Event>, t: State): nat
    requires Reaches(s, events, t)
    decreases |events|
  {
    if events == [] then 0
    else (if EndsBusy(s, events[0]) then 1 else 0) + BusyPasses(Next(s, events[0]), events[1..], t)
  }

  // ---------- without a fault a pass runs to completion ----------

  lemma DigestsAgree(s: State, p: PassId, reply: Reply)
    requires Inv(s) && WellFormed(s)
    requires p in s.passes && s.passes[p].pc.CheckingDigests? && Possible(s, p, reply) && reply.Digests?
    ensures AfterDigests(s.passes[p].pc.job, reply).FindingRun?
  {
    hide RowsOk, TxsOk, HeldOk, ClaimsOk, AcceptedOk, CompletedOk, RunsOk, SourceOf, ParsedFor;
    var pass := s.passes[p];
    assert PassOk(s, pass);
    var source := pass.pc.job.source;
    assert DatabaseMay(s, p, pass.tx, FindDigests(source.documentId, source.documentVersion), reply);
    forall d | d in reply.digests ensures d == source.contentDigest {
      var key :| Sees(s, pass.tx.value, key) && key.documentId == source.documentId
                 && key.documentVersion == source.documentVersion && key.contentDigest == d;
      RunFacts(s, key);
      assert Consistent(SourceOf(s.requests[s.runs[key].routeId]).value, source);
      hide WellFormed, Readable;
    }
  }

  /** The reply a pass hopes for. */
  predicate Good(pc: Pc, reply: Reply)
  {
    match pc
    case AskingRoutes => reply.Routes?
    case Claiming(_) => reply.Claimed?
    case Reading(_, _) => reply.Found?
    case Opening(_) => reply.Done?
    case CheckingDigests(_) => reply.Digests?
    case FindingRun(_) => reply.RunFound?
    case Naming(_) => reply.Ids?
    case InsertingRun(_, _) => reply.Inserted?
    case InsertingRows(_, _, _) => reply.Done?
    case Loading(_) => reply.SelectedRows?
    case Committing(_, _, _) => reply.Done?
    case Submitting(_, _, _, _) => reply.Accepted?
    case Completing(_, _, _) => reply.Completed?
    case Ended(_) => false
  }

  lemma FaultlessIsGood(s: State, p: PassId, reply: Reply)
    requires p in s.passes && Live(s.passes[p].pc) && Possible(s, p, reply) && !IsFault(s, Serve(p, reply))
    ensures Good(s.passes[p].pc, reply)
  {
    hide RowOf, AdmitScopeFor, ParseCandidates, Locked, NoDup, Sees, Current;
  }

  /** A hoped-for answer ends a pass only when there was nothing to do, or by completing its route. */
  lemma GoodGoesOn(s: State, p: PassId, reply: Reply)
    requires Inv(s) && WellFormed(s)
    requires p in s.passes && Live(s.passes[p].pc) && Possible(s, p, reply) && Good(s.passes[p].pc, reply)
    ensures var pc := s.passes[p].pc;
      Resume(pc, reply).Ended? ==> (pc.AskingRoutes? && Idle(Resume(pc, reply))) || pc.Completing?
  {
    hide RowsOk, RunsOk, TxsOk, HeldOk, ClaimsOk, AcceptedOk, CompletedOk, SourceOf, PassOk, Meant, Possible,
         WellFormed, LoadCandidates, ParseCandidates, ParseInputScope, Trim, AfterDigests, Interpret;
    var pc := s.passes[p].pc;
    PossibleMeans(s, p, reply);
    assert Before(s, p, reply);
    match pc
    case Reading(_, _) => RequestReads(s, p, reply);
    case CheckingDigests(_) => DigestsAgree(s, p, reply);
    case Naming(_) => NamesFit(s, p, reply);
    case Loading(_) => RowsLoaded(s, p, reply);
    case _ =>
  }

  lemma RequestReads(s: State, p: PassId, reply: Reply)
    requires p in s.passes && s.passes[p].pc.Reading? && Meant(s, p, reply) && reply.Found? && WellFormed(s)
    ensures var next := Interpret(s.passes[p].pc.routeId, s.passes[p].pc.claim, reply.request);
      next.Opening? || next.Completing?
  {
    hide ParseInputScope, Trim;
    assert Readable(reply.request);
  }

  lemma NamesFit(s: State, p: PassId, reply: Reply)
    requires p in s.passes && s.passes[p].pc.Naming? && Meant(s, p, reply) && reply.Ids?
    ensures |reply.ids| == |ParseCandidates(s.passes[p].pc.job.source.sourceText)|
  {
    hide ParseCandidates;
  }

  /** A busy pass that ends in a faultless step completes a route that was open. */
  lemma BusyEndCompletes(s: State, e: Event)
    requires Inv(s) && WellFormed(s) && Enabled(s, e) && EndsBusy(s, e) && !IsFault(s, e)
    ensures |Next(s, e).completed| == |s.completed| + 1
  {
    hide Inv, WellFormed, Possible, Live, Resume, WorldAfter, TxAfter, Idle;
    var p, reply := e.pass, e.reply;
    FaultlessIsGood(s, p, reply);
    GoodGoesOn(s, p, reply);
    NotIdle(s, e);
    CompletionAdds(s, p, reply);
  }

  lemma NotIdle(s: State, e: Event)
    requires Enabled(s, e) && EndsBusy(s, e) && e.Serve?
    ensures Resume(s.passes[e.pass].pc, e.reply).Ended? && !Idle(Resume(s.passes[e.pass].pc, e.reply))
  {
    hide Resume, WorldAfter, TxAfter, Possible, Live;
  }

  lemma CompletionAdds(s: State, p: PassId, reply: Reply)
    requires p in s.passes && s.passes[p].pc.Completing? && Possible(s, p, reply) && reply.Completed?
    ensures |WorldAfter(s, s.passes[p], reply).completed| == |s.completed| + 1
  {
    PossibleMeans(s, p, reply);
    hide Possible;
  }

  lemma CompletedGrows(s: State, e: Event)
    requires Inv(s) && Enabled(s, e)
    ensures |s.completed| <= |Next(s, e).completed|
  {
    hide Enabled, Next, RunsOk, RowsOk, HeldOk, ClaimsOk, PassesOk, AcceptedOk, CompletedOk, TxsOk;
    NextExtends(s, e);
    SubsetSize(s.completed, Next(s, e).completed);
  }

  lemma {:induction false} SubsetSize<T>(xs: set<T>, ys: set<T>)
    requires xs <= ys
    ensures |xs| <= |ys|
  {
    if xs != {} {
      var x :| x in xs;
      SubsetSize(xs - {x}, ys - {x});
    }
  }

  lemma WellFormedBefore(s: State, e: Event)
    requires Inv(s) && Enabled(s, e) && WellFormed(Next(s, e))
    ensures WellFormed(s)
  {
    hide Enabled, Next, RunsOk, RowsOk, HeldOk, ClaimsOk, PassesOk, AcceptedOk, CompletedOk, TxsOk, Readable,
         Consistent, SourceOf;
    NextExtends(s, e);
    var t := Next(s, e);
    forall r | r in s.requests ensures Readable(s.requests[r]) && t.requests[r] == s.requests[r] && r in t.requests {
      ExtendsRequest(s, t, r);
    }
    hide Extends;
  }

  lemma ExtendsRequest(s: State, t: State, r: RouteId)
    requires Extends(s, t) && r in s.requests
    ensures r in t.requests && t.requests[r] == s.requests[r]
  {
  }

  lemma {:induction false} WellFormedFrom(s: State, events: seq<Event>, t: State)
    requires Inv(s) && Reaches(s, events, t) && WellFormed(t)
    ensures WellFormed(s)
    decreases |events|
  {
    hide Inv, Enabled, Next, WellFormed;
    if events != [] {
      StepKeepsInv(s, events[0]);
      WellFormedFrom(Next(s, events[0]), events[1..], t);
      WellFormedBefore(s, events[0]);
    }
  }

  /** Every busy pass that ended either completed a route or met a fault. */
  lemma {:induction false} BusyAccounted(s: State, events: seq<Event>, t: State)
    requires Inv(s) && Reaches(s, events, t) && WellFormed(t)
    ensures |s.completed| + BusyPasses(s, events, t) <= |t.completed| + Faults(s, events, t)
    decreases |events|
  {
    hide Inv, Enabled, Next, WellFormed, EndsBusy, IsFault;
    if events != [] {
      var e := events[0];
      WellFormedFrom(s, events, t);
      StepKeepsInv(s, e);
      CompletedGrows(s, e);
      if EndsBusy(s, e) && !IsFault(s, e) {
        BusyEndCompletes(s, e);
      }
      BusyAccounted(Next(s, e), events[1..], t);
    }
  }

  /** Progress: with R routed requests, all well formed, and at most F faults, no
      run of any number of passes has more than R + F busy ones; and once that
      many have ended, every route is completed. */
  lemma BoundedPasses(events: seq<Event>, t: State, faults: nat)
    requires Reaches(Initial(), events, t) && WellFormed(t) && Faults(Initial(), events, t) <= faults
    ensures BusyPasses(Initial(), events, t) <= |t.requests| + faults
    ensures BusyPasses(Initial(), events, t) == |t.requests| + faults ==> t.completed == t.requests.Keys
  {
    hide Inv, Reaches, WellFormed, BusyPasses, Faults;
    var s := Initial();
    InitialInv();
    ReachesInv(s, events, t);
    BusyAccounted(s, events, t);
    CompletedRequested(t);
    SubsetSize(t.completed, t.requests.Keys);
    if t.completed != t.requests.Keys {
      var r :| r in t.requests.Keys && r !in t.completed;
      SubsetSize(t.completed + {r}, t.requests.Keys);
    }
  }

  lemma CompletedRequested(s: State)
    requires Inv(s)
    ensures s.completed <= s.requests.Keys
  {
    hide RunsOk, RowsOk, HeldOk, PassesOk, AcceptedOk, CompletedOk, TxsOk;
  }
}
