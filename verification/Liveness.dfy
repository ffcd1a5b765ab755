/** A lone worker's pass can always go on, unless it submits a scope over the
    kernel's limit; and every answer takes it closer to its end. */
module Liveness {
  import opened Sequences
  import opened Text
  import opened Domain
  import opened Uuids
  import opened Parser
  import opened Scopes
  import opened Rows
  import opened Passes
  import opened Handoff
  import opened Safety
  import opened Guarantees
  import opened Progress

  // ---------- every answer is a step towards the end ----------

  function Stage(pc: Pc): nat
  {
    match pc
    case AskingRoutes => 12
    case Claiming(_) => 11
    case Reading(_, _) => 10
    case Opening(_) => 9
    case CheckingDigests(_) => 8
    case FindingRun(_) => 7
    case Naming(_) => 6
    case InsertingRun(_, _) => 5
    case InsertingRows(_, _, _) => 4
    case Loading(_) => 3
    case Committing(_, _, _) => 2
    case Submitting(_, _, _, _) => 1
    case Completing(_, _, _) => 0
    case Ended(_) => 0
  }

  /** Candidates the stage still has to deal with. */
  function Left(pc: Pc): int
  {
    if pc.InsertingRows? || pc.Submitting? then |pc.candidates| - pc.done else 0
  }

  /** Whatever the answer, the pass ends or goes down in (stage, candidates left). */
  lemma AnswersAdvance(pc: Pc, reply: Reply)
    requires Live(pc)
    ensures var next := Resume(pc, reply);
      || next.Ended?
      || (Live(next) && Left(next) >= 0
          && (Stage(next) < Stage(pc) || (Stage(next) == Stage(pc) && Left(next) < Left(pc))))
  {
    hide ParseCandidates, LoadCandidates, ParseInputScope, Trim, RowOf, WithIds;
  }

  // ---------- one worker ----------

  /** The steps of one worker that runs one pass after another. */
  ghost predicate SoloEvent(s: State, e: Event)
  {
    match e
    case Start(_) => forall p :: p in s.passes ==> s.passes[p].pc.Ended?
    case Abort(p) => p in s.passes && s.passes[p].pc.Ended?
    case _ => true
  }

  ghost predicate SoloRun(s: State, events: seq<Event>, t: State)
    decreases |events|
  {
    if events == [] then s == t
    else Enabled(s, events[0]) && SoloEvent(s, events[0]) && SoloRun(Next(s, events[0]), events[1..], t)
  }

  predicate Open(s: State, r: RouteId) { r in s.requests && r !in s.completed }

  /** The route is open and the claim is its latest. */
  predicate StillOurs(s: State, r: RouteId, claim: WorkClaim)
  {
    Open(s, r) && r in s.tokens && s.tokens[r] == claim.fencingToken
  }

  /** The route and claim a pass is working on. */
  function ClaimHeld(pc: Pc): Option<(RouteId, WorkClaim)>
  {
    match pc
    case Reading(r, claim) => Some((r, claim))
    case Completing(r, claim, _) => Some((r, claim))
    case AskingRoutes => None
    case Claiming(_) => None
    case Ended(_) => None
    case _ => Some((pc.job.routeId, pc.job.claim))
  }

  /** The pass is inside its transaction. */
  predicate InTransaction(pc: Pc) { 2 <= Stage(pc) <= 8 }

  /** What a running pass of a lone worker can rely on. */
  predicate Alone(s: State, pass: Pass)
  {
    && (pass.pc.Claiming? ==> Open(s, pass.pc.routeId))
    && (ClaimHeld(pass.pc).Some? ==> StillOurs(s, ClaimHeld(pass.pc).value.0, ClaimHeld(pass.pc).value.1))
    && (InTransaction(pass.pc) ==> pass.tx.Some?)
  }

  ghost predicate Solo(s: State)
  {
    && (forall p, q :: p in s.passes && q in s.passes && p != q ==> s.passes[p].pc.Ended? || s.passes[q].pc.Ended?)
    && (forall p :: p in s.passes ==> Alone(s, s.passes[p]) && (s.passes[p].pc.Ended? || Live(s.passes[p].pc)))
  }

  lemma HeldClaimAfter(pc: Pc, reply: Reply)
    requires Live(pc)
    ensures var next := Resume(pc, reply);
      || ClaimHeld(next).None?
      || ClaimHeld(next) == ClaimHeld(pc)
      || (pc.Claiming? && reply.Claimed? && ClaimHeld(next) == Some((pc.routeId, reply.claim)))
  {
    hide Resume, ClaimHeld, Live;
    if InTransaction(pc) || pc.Submitting? {
      JobKept(pc, reply);
      assert Resume(pc, reply).Ended? ==> ClaimHeld(Resume(pc, reply)).None? by { EndedHolds(Resume(pc, reply)); }
    } else {
      HeldClaimOutside(pc, reply);
    }
  }

  /** Inside its transaction, and while it submits, a pass works on one job. */
  lemma JobKept(pc: Pc, reply: Reply)
    requires Live(pc) && (InTransaction(pc) || pc.Submitting?)
    ensures ClaimHeld(pc) == Some((pc.job.routeId, pc.job.claim))
    ensures !Resume(pc, reply).Ended? ==> ClaimHeld(Resume(pc, reply)) == ClaimHeld(pc)
  {
    hide ParseCandidates, LoadCandidates, RowOf, WithIds, Interpret, AfterRoutes, AfterClaim, AfterRequest,
         AfterCompletion;
  }

  lemma HeldClaimOutside(pc: Pc, reply: Reply)
    requires Live(pc) && !InTransaction(pc) && !pc.Submitting?
    ensures var next := Resume(pc, reply);
      || ClaimHeld(next).None?
      || ClaimHeld(next) == ClaimHeld(pc)
      || (pc.Claiming? && reply.Claimed? && ClaimHeld(next) == Some((pc.routeId, reply.claim)))
  {
    hide ParseInputScope, Trim, AfterDigests, AfterFindRun, AfterIds, AfterInsertRun, AfterRows, AfterSubmit,
         NextSubmit, NextInsert;
  }

  lemma ClaimingAfter(pc: Pc, reply: Reply)
    requires Live(pc)
    ensures Resume(pc, reply).Claiming? ==>
              pc.AskingRoutes? && reply.Routes? && reply.routes != [] && Resume(pc, reply).routeId == reply.routes[0]
    ensures pc.Completing? ==> Resume(pc, reply).Ended?
  {
    hide ParseCandidates, LoadCandidates, ParseInputScope, Trim, RowOf, WithIds;
  }

  lemma TransactionAfter(pass: Pass, reply: Reply)
    requires Live(pass.pc) && (InTransaction(pass.pc) ==> pass.tx.Some?)
    ensures InTransaction(Resume(pass.pc, reply)) ==> TxAfter(pass, reply).Some?
  {
    hide ParseCandidates, LoadCandidates, ParseInputScope, Trim, RowOf, WithIds;
  }

  lemma OursAfter(s: State, pass: Pass, reply: Reply)
    requires Live(pass.pc)
    ensures var w := WorldAfter(s, pass, reply);
      && w.requests == s.requests
      && (!pass.pc.Completing? ==> w.completed == s.completed)
      && (!pass.pc.Claiming? ==> w.tokens == s.tokens)
      && (pass.pc.Claiming? && reply.Claimed? ==> w.tokens == s.tokens[pass.pc.routeId := reply.claim.fencingToken])
      && (pass.pc.Claiming? && !reply.Claimed? ==> w.tokens == s.tokens)
  {
  }

  lemma AloneAfter(s: State, p: PassId, reply: Reply, heard: Reply)
    requires p in s.passes && Live(s.passes[p].pc) && Possible(s, p, reply) && Alone(s, s.passes[p])
    requires heard == reply || heard.Failed?
    ensures var pass := s.passes[p];
      Alone(Answered(s, p, reply, heard), Pass(Resume(pass.pc, heard), TxAfter(pass, reply)))
  {
    var pass := s.passes[p];
    if pass.pc.AskingRoutes? && heard.Routes? {
      assert KernelMay(s, EligibleRoutes, reply);
    }
    hide Possible, WorldAfter, TxAfter, Resume, Live, ClaimHeld, InTransaction;
    FailedEnds(pass.pc);
    HeldClaimAfter(pass.pc, heard);
    ClaimingAfter(pass.pc, heard);
    TransactionAfter(pass, reply);
    OursAfter(s, pass, reply);
    EndedHolds(Resume(pass.pc, heard));
    StartHolds(pass.pc);
  }

  lemma EndedHolds(pc: Pc)
    ensures pc.Ended? ==> ClaimHeld(pc).None? && !InTransaction(pc)
  {
  }

  lemma StartHolds(pc: Pc)
    ensures pc.Claiming? || pc.AskingRoutes? ==> ClaimHeld(pc).None?
  {
  }

  /** A lone worker stays alone with its claim and its transaction. */
  lemma SoloKept(s: State, e: Event)
    requires Solo(s) && Enabled(s, e) && SoloEvent(s, e)
    ensures Solo(Next(s, e))
  {
    hide Possible, WorldAfter, TxAfter, Resume, Alone;
    var t := Next(s, e);
    match e
    case Serve(p, reply) => ServeSolo(s, p, reply, reply);
    case Lose(p, reply) => ServeSolo(s, p, reply, Failed);
    case Arrive(r, request) => ArriveAlone(s, t);
    case Start(p) => EndedAlone(s, t);
    case Crash(p) => EndedAlone(s, t);
    case Abort(p) => EndedAlone(s, t);
  }

  lemma ArriveAlone(s: State, t: State)
    requires t == s.(requests := t.requests) && Solo(s) && forall r :: r in s.requests ==> r in t.requests
    ensures Solo(t)
  {
    hide Live, ClaimHeld, InTransaction;
  }

  lemma EndedAlone(s: State, t: State)
    requires Solo(s) && t == s.(passes := t.passes)
    requires forall p :: p in s.passes ==> p in t.passes
    requires forall p :: p in t.passes ==>
      (p in s.passes && t.passes[p] == s.passes[p])
      || t.passes[p].pc.Ended?
      || (p !in s.passes && t.passes[p] == Pass(AskingRoutes, None)
          && forall q :: q in s.passes ==> s.passes[q].pc.Ended?)
    requires forall p, q :: p in t.passes && q in t.passes && p !in s.passes && q !in s.passes ==> p == q
    ensures Solo(t)
  {
    hide Live;
    forall p | p in t.passes ensures Alone(t, t.passes[p]) {
      EndedHolds(t.passes[p].pc);
      StartHolds(t.passes[p].pc);
    }
    StartLives();
    hide Alone;
  }

  lemma StartLives()
    ensures Live(AskingRoutes)
  {
  }

  lemma ServeSolo(s: State, p: PassId, reply: Reply, heard: Reply)
    requires Solo(s) && p in s.passes && Live(s.passes[p].pc) && Possible(s, p, reply)
    requires heard == reply || heard.Failed?
    ensures Solo(Answered(s, p, reply, heard))
  {
    hide Possible, WorldAfter, TxAfter, Resume, Stage, Left;
    var pass := s.passes[p];
    var t := Answered(s, p, reply, heard);
    AloneAfter(s, p, reply, heard);
    AnswersAdvance(pass.pc, heard);
    LiveNotEnded(pass.pc);
    hide Live, Alone;
    forall q | q in t.passes && q != p ensures Alone(t, t.passes[q]) {
      EndedAnyway(s, t, q);
    }
  }

  lemma LiveNotEnded(pc: Pc)
    requires Live(pc)
    ensures !pc.Ended?
  {
  }

  lemma EndedAnyway(s: State, t: State, q: PassId)
    requires q in s.passes && s.passes[q].pc.Ended? && q in t.passes && t.passes[q] == s.passes[q]
    ensures Alone(t, t.passes[q])
  {
  }

  // ---------- the answer a pass waits for is always possible ----------

  lemma {:induction false} Longer(words: set<string>) returns (n: nat)
    ensures forall w :: w in words ==> |w| < n
  {
    if words == {} {
      n := 0;
    } else {
      var w :| w in words;
      n := Longer(words - {w});
      n := n + |w| + 1;
    }
  }

  lemma NewClaimId(ids: set<ClaimId>) returns (id: ClaimId)
    ensures id !in ids
  {
    var n := Longer(ids);
    id := seq(n, _ => 'c');
  }

  /** This many fresh ids are still to be had. */
  ghost predicate Supply(s: State, count: nat)
  {
    exists ids: seq<Uuid> :: |ids| == count && NoDup(ids) && forall id :: id in ids ==> id !in s.issued
  }

  ghost predicate Answerable(s: State, p: PassId)
  {
    p in s.passes && exists reply :: Live(s.passes[p].pc) && Possible(s, p, reply) && Good(s.passes[p].pc, reply)
  }

  lemma RoutesAnswer(s: State, p: PassId, r: RouteId)
    requires p in s.passes && s.passes[p].pc.AskingRoutes? && Open(s, r)
    ensures Live(s.passes[p].pc) && Possible(s, p, Routes([r])) && Good(s.passes[p].pc, Routes([r]))
  {
    assert KernelMay(s, EligibleRoutes, Routes([r]));
  }

  lemma ClaimAnswer(s: State, p: PassId)
    requires p in s.passes && s.passes[p].pc.Claiming? && Alone(s, s.passes[p])
    ensures Answerable(s, p)
  {
    var r := s.passes[p].pc.routeId;
    var id := NewClaimId(s.claims.Keys);
    var reply := Claimed(WorkClaim(id, r, if r in s.tokens then s.tokens[r] + 1 else 1));
    assert KernelMay(s, ProposeClaim(r), reply);
    assert Possible(s, p, reply) && Good(s.passes[p].pc, reply);
  }

  lemma RequestAnswer(s: State, p: PassId)
    requires p in s.passes && s.passes[p].pc.Reading? && Alone(s, s.passes[p])
    ensures Answerable(s, p)
  {
    var r := s.passes[p].pc.routeId;
    assert KernelMay(s, GetRequest(r), Found(s.requests[r]));
    assert Possible(s, p, Found(s.requests[r])) && Good(s.passes[p].pc, Found(s.requests[r]));
  }

  lemma PlainAnswer(s: State, p: PassId)
    requires p in s.passes && Alone(s, s.passes[p])
    requires s.passes[p].pc.Opening? || s.passes[p].pc.Committing?
    ensures Answerable(s, p)
  {
    var pc := s.passes[p].pc;
    assert DatabaseMay(s, p, s.passes[p].tx, CallOf(pc), Done);
    assert Possible(s, p, Done) && Good(pc, Done);
  }

  /** What the pass submits next, if it submits, is within the kernel's limit. */
  predicate SubmissionFits(pc: Pc)
  {
    pc.Submitting? && pc.done < |pc.candidates| ==> Fits(pc.job.source, pc.candidates[pc.done].draft)
  }

  lemma SubmissionAnswer(s: State, p: PassId)
    requires p in s.passes && s.passes[p].pc.Submitting? && Live(s.passes[p].pc)
    ensures Answerable(s, p) <==> SubmissionFits(s.passes[p].pc)
  {
    var pc := s.passes[p].pc;
    FitsIff(pc.job.source, pc.candidates[pc.done]);
    hide AdmitScopeFor, Fits;
    if SubmissionFits(pc) {
      assert KernelMay(s, CallOf(pc), Accepted);
      assert Possible(s, p, Accepted) && Good(pc, Accepted);
    }
    if reply :| Possible(s, p, reply) && Good(pc, reply) {
      assert KernelMay(s, CallOf(pc), reply);
    }
  }

  lemma NothingAnswer(s: State, p: PassId)
    requires p in s.passes && s.passes[p].pc.AskingRoutes?
    ensures Answerable(s, p)
  {
    assert KernelMay(s, EligibleRoutes, Routes([]));
    assert Possible(s, p, Routes([])) && Good(s.passes[p].pc, Routes([]));
  }

  lemma CompletionAnswer(s: State, p: PassId)
    requires p in s.passes && s.passes[p].pc.Completing? && Alone(s, s.passes[p]) && PassOk(s, s.passes[p])
    ensures Answerable(s, p)
  {
    hide SourceOf, FromRun, AllAdmitted;
    var claim := s.passes[p].pc.claim;
    assert Current(s, claim.claimId, claim.fencingToken);
    assert KernelMay(s, CompleteClaim(claim.claimId, claim.fencingToken), Completed);
    assert Possible(s, p, Completed) && Good(s.passes[p].pc, Completed);
  }

  lemma DigestsAnswer(s: State, p: PassId)
    requires p in s.passes && s.passes[p].pc.CheckingDigests? && Alone(s, s.passes[p])
    requires Inv(s) && WellFormed(s)
    ensures Answerable(s, p)
  {
    hide RowsOk, TxsOk, HeldOk, ClaimsOk, AcceptedOk, CompletedOk, RunsOk, SourceOf, ParsedFor, WellFormed;
    var source := s.passes[p].pc.job.source;
    assert PassOk(s, s.passes[p]);
    var tx := s.passes[p].tx;
    var some := exists key :: key in s.runs && key.documentId == source.documentId
                              && key.documentVersion == source.documentVersion;
    var reply := Digests(if some then [source.contentDigest] else []);
    forall key | key in s.runs && key.documentId == source.documentId && key.documentVersion == source.documentVersion
      ensures key.contentDigest == source.contentDigest
    {
      SameVersionSameDigest(s, s.passes[p].pc.job, key);
    }
    assert forall key :: Sees(s, tx.value, key) <==> key in s.runs;
    if some {
      var key :| key in s.runs && key.documentId == source.documentId && key.documentVersion == source.documentVersion;
      assert Sees(s, tx.value, key) && key.contentDigest == source.contentDigest;
    }
    assert DatabaseMay(s, p, tx, FindDigests(source.documentId, source.documentVersion), reply);
    hide PassOk, DatabaseMay;
    assert Possible(s, p, reply) && Good(s.passes[p].pc, reply);
  }

  lemma SameVersionSameDigest(s: State, job: Job, key: Key)
    requires WellFormed(s) && RunsOk(s) && JobOk(s, job) && key in s.runs
    requires key.documentId == job.source.documentId && key.documentVersion == job.source.documentVersion
    ensures key.contentDigest == job.source.contentDigest
  {
    hide RunsOk, SourceOf, DistinctIds, DraftsOf, ParseCandidates, Trim;
    RunFacts(s, key);
    assert Readable(s.requests[job.routeId]) && Readable(s.requests[s.runs[key].routeId]);
  }

  lemma RunAnswer(s: State, p: PassId)
    requires p in s.passes && Alone(s, s.passes[p])
    requires s.passes[p].pc.FindingRun? || (s.passes[p].pc.InsertingRun? && !Locked(s, p, s.passes[p].pc.job.Key()))
    ensures Answerable(s, p)
  {
    hide Locked;
    var pc, tx := s.passes[p].pc, s.passes[p].tx.value;
    var sees := Sees(s, tx, pc.job.Key());
    var reply := if pc.FindingRun? then RunFound(sees) else Inserted(if sees then 0 else 1);
    assert DatabaseMay(s, p, s.passes[p].tx, CallOf(pc), reply);
    assert Possible(s, p, reply) && Good(pc, reply);
  }

  lemma IdsAnswer(s: State, p: PassId)
    requires p in s.passes && s.passes[p].pc.Naming?
    requires Supply(s, |ParseCandidates(s.passes[p].pc.job.source.sourceText)|)
    ensures Answerable(s, p)
  {
    hide ParseCandidates;
    var pc := s.passes[p].pc;
    var count := |ParseCandidates(pc.job.source.sourceText)|;
    var ids: seq<Uuid> :| |ids| == count && NoDup(ids) && forall id :: id in ids ==> id !in s.issued;
    assert FreshMay(s, FreshIds(count), Ids(ids));
    assert Possible(s, p, Ids(ids)) && Good(pc, Ids(ids));
  }

  /** A row's id is its candidate's. */
  lemma RowId(key: Key, c: Candidate, other: Key, d: Candidate)
    ensures RowOf(key, c).key == key
    ensures RowOf(key, c).candidateId == RowOf(other, d).candidateId ==> c.id == d.id
  {
    if RowOf(key, c).candidateId == RowOf(other, d).candidateId {
      PrintUuidInjective(c.id, d.id);
    }
  }

  lemma NoSuchRow(s: State, p: PassId)
    requires p in s.passes && s.passes[p].pc.InsertingRows? && Live(s.passes[p].pc) && s.passes[p].tx.Some?
    requires PassOk(s, s.passes[p]) && RowsOk(s) && HeldOk(s)
    ensures var pc, tx := s.passes[p].pc, s.passes[p].tx.value;
      && tx.run == Some(pc.job.Key())
      && forall r :: r in Visible(s, tx) ==> r.candidateId != RowOf(pc.job.Key(), pc.candidates[pc.done]).candidateId
  {
    hide ParsedFor, JobOk, RowsOk, HeldOk, RowOf;
    var pc, tx := s.passes[p].pc, s.passes[p].tx.value;
    var key := pc.job.Key();
    var c := pc.candidates[pc.done];
    assert c.id in Held(pc) by { assert c in pc.candidates; }
    hide Held, PassOk;
    forall r | r in Visible(s, tx) ensures r.candidateId != RowOf(key, c).candidateId {
      if r in s.rows {
        OtherRunsRow(s, p, r, key, c);
      } else {
        var d :| d in pc.candidates[..pc.done] && r == RowOf(key, d);
        EarlierRow(s, pc, d);
        RowId(key, c, key, d);
      }
    }
  }

  lemma InsertAnswer(s: State, p: PassId)
    requires p in s.passes && s.passes[p].pc.InsertingRows? && Live(s.passes[p].pc) && Alone(s, s.passes[p])
    requires PassOk(s, s.passes[p]) && RowsOk(s) && HeldOk(s)
    ensures Answerable(s, p)
  {
    hide PassOk, RowsOk, HeldOk, RowOf, Visible;
    var pc := s.passes[p].pc;
    var row := RowOf(pc.job.Key(), pc.candidates[pc.done]);
    NoSuchRow(s, p);
    RowId(pc.job.Key(), pc.candidates[pc.done], pc.job.Key(), pc.candidates[pc.done]);
    assert DatabaseMay(s, p, s.passes[p].tx, InsertRow(row), Done);
    hide DatabaseMay, Alone;
    assert Possible(s, p, Done) && Good(pc, Done);
  }

  lemma OtherRunsRow(s: State, p: PassId, r: CandidateRow, key: Key, c: Candidate)
    requires p in s.passes && RowsOk(s) && HeldOk(s) && r in s.rows && c.id in Held(s.passes[p].pc)
    ensures r.candidateId != RowOf(key, c).candidateId
  {
    hide Held;
    var d :| d in s.runs[r.key].candidates && r == RowOf(r.key, d);
    assert d.id in IdsOf(s.runs[r.key].candidates);
    RowId(key, c, r.key, d);
  }

  lemma EarlierRow(s: State, pc: Pc, d: Candidate)
    requires pc.InsertingRows? && Live(pc) && ParsedFor(s, pc.job.source, pc.candidates)
    requires d in pc.candidates[..pc.done]
    ensures d.id != pc.candidates[pc.done].id
  {
    hide DraftsOf, ParseCandidates;
  }

  lemma RowsAnswer(s: State, p: PassId)
    requires p in s.passes && s.passes[p].pc.Loading? && Alone(s, s.passes[p])
    requires PassOk(s, s.passes[p]) && RowsOk(s) && RunsOk(s)
    ensures Answerable(s, p)
  {
    hide RowOf, JobOk, RowsOk, RunsOk, DistinctIds;
    var pc, tx := s.passes[p].pc, s.passes[p].tx;
    var key := pc.job.Key();
    RunRows(s, key);
    var candidates := s.runs[key].candidates;
    var rows := RowsOf(key, candidates);
    DistinctRows(key, candidates);
    assert forall r :: r in Visible(s, tx.value) <==> r in s.rows;
    assert DatabaseMay(s, p, tx, SelectRows(key), SelectedRows(rows));
    hide DatabaseMay, PassOk;
    assert Possible(s, p, SelectedRows(rows)) && Good(pc, SelectedRows(rows));
  }

  lemma DistinctRows(key: Key, candidates: seq<Candidate>)
    requires DistinctIds(candidates)
    ensures NoDup(RowsOf(key, candidates))
    ensures forall r :: r in RowsOf(key, candidates) <==> r in RowSet(key, candidates)
  {
    var rows := RowsOf(key, candidates);
    forall i, j | 0 <= i < j < |rows| ensures rows[i] != rows[j] {
      RowId(key, candidates[i], key, candidates[j]);
    }
    hide RowOf;
    forall r | r in RowSet(key, candidates) ensures r in rows {
      var c :| c in candidates && r == RowOf(key, c);
      var i :| 0 <= i < |candidates| && candidates[i] == c;
      assert rows[i] == r;
    }
  }

  /** The pass waits for the database to end another transaction. */
  ghost predicate Waiting(s: State, p: PassId)
    requires p in s.passes
  {
    s.passes[p].pc.InsertingRun? && Locked(s, p, s.passes[p].pc.job.Key())
  }

  /** A running pass of a lone worker can be answered the way it hopes exactly
      when what it submits next, if it submits, is within the kernel's limit. */
  lemma NeverStuck(s: State, p: PassId)
    requires Inv(s) && WellFormed(s) && Solo(s) && p in s.passes && !s.passes[p].pc.Ended? && !Waiting(s, p)
    requires s.passes[p].pc.Naming? ==> Supply(s, |ParseCandidates(s.passes[p].pc.job.source.sourceText)|)
    ensures Answerable(s, p) <==> SubmissionFits(s.passes[p].pc)
  {
    hide Possible, Good, Locked, Alone, PassOk, WellFormed, RowsOk, RunsOk, HeldOk, TxsOk, ClaimsOk, AcceptedOk,
         CompletedOk, Live, Answerable, ParseCandidates, Supply, Job.Key, Fits;
    match s.passes[p].pc
    case AskingRoutes => NothingAnswer(s, p);
    case Claiming(_) => ClaimAnswer(s, p);
    case Reading(_, _) => RequestAnswer(s, p);
    case Opening(_) => PlainAnswer(s, p);
    case CheckingDigests(_) => DigestsAnswer(s, p);
    case FindingRun(_) => RunAnswer(s, p);
    case Naming(_) => IdsAnswer(s, p);
    case InsertingRun(_, _) => RunAnswer(s, p);
    case InsertingRows(_, _, _) => InsertAnswer(s, p);
    case Loading(_) => RowsAnswer(s, p);
    case Committing(_, _, _) => PlainAnswer(s, p);
    case Submitting(_, _, _, _) => SubmissionAnswer(s, p);
    case Completing(_, _, _) => CompletionAnswer(s, p);
  }

  lemma LockedByEnded(s: State, p: PassId, key: Key)
    requires Solo(s) && p in s.passes && !s.passes[p].pc.Ended? && Locked(s, p, key)
    ensures exists q :: Enabled(s, Abort(q)) && SoloEvent(s, Abort(q))
  {
    hide Alone, Live;
    var q :| q in s.passes && q != p && s.passes[q].tx.Some? && s.passes[q].tx.value.run == Some(key);
    assert Enabled(s, Abort(q)) && SoloEvent(s, Abort(q));
  }

  lemma {:induction false} SoloRunKeeps(s: State, events: seq<Event>, t: State)
    requires Inv(s) && Solo(s) && SoloRun(s, events, t)
    ensures Inv(t) && Solo(t) && Reaches(s, events, t)
    decreases |events|
  {
    hide Inv, Solo, Enabled, Next, SoloEvent;
    if events != [] {
      StepKeepsInv(s, events[0]);
      SoloKept(s, events[0]);
      SoloRunKeeps(Next(s, events[0]), events[1..], t);
    }
  }

  lemma InitialSolo()
    ensures Solo(Initial())
  {
  }

  /** At any moment of any run of a lone worker over well-formed requests, its
      pass can be answered the way it hopes, unless it submits a scope over the
      kernel's limit, or waits for the database to end the transaction of a pass
      that died; and the database can end that. */
  lemma LoneWorkerGoesOn(events: seq<Event>, s: State, p: PassId)
    requires SoloRun(Initial(), events, s) && WellFormed(s)
    requires p in s.passes && !s.passes[p].pc.Ended?
    requires s.passes[p].pc.Naming? ==> Supply(s, |ParseCandidates(s.passes[p].pc.job.source.sourceText)|)
    ensures Waiting(s, p) ==> exists q :: Enabled(s, Abort(q)) && SoloEvent(s, Abort(q))
    ensures !Waiting(s, p) ==> (Answerable(s, p) <==> SubmissionFits(s.passes[p].pc))
  {
    hide Inv, Solo, SoloRun, WellFormed, Supply, ParseCandidates, Answerable, Enabled, SoloEvent, Locked, Fits;
    InitialInv();
    InitialSolo();
    SoloRunKeeps(Initial(), events, s);
    if Waiting(s, p) {
      LockedByEnded(s, p, s.passes[p].pc.job.Key());
    } else {
      NeverStuck(s, p);
    }
  }
}
