/** What every interleaving of passes keeps, and the guarantees that rest on it. */
module Safety {
  import opened Sequences
  import opened Text
  import opened Domain
  import opened Parser
  import opened Scopes
  import opened Rows
  import opened Passes
  import opened Handoff

  // ---------- the invariant ----------

  /** The source a routed `pf2e.parse` request names. */
  function SourceOf(request: RoutedRequest): Option<SourceReference>
  {
    if request.action != PARSE_ACTION then None
    else match ParseInputScope(request.scope) case Err(_) => None case Ok(source) => Some(source)
  }

  ghost function IdsOf(candidates: seq<Candidate>): set<Uuid>
  {
    set c | c in candidates :: c.id
  }

  function DraftsOf(candidates: seq<Candidate>): (drafts: seq<Draft>)
    ensures |drafts| == |candidates| && forall i :: 0 <= i < |drafts| ==> drafts[i] == candidates[i].draft
  {
    seq(|candidates|, i requires 0 <= i < |candidates| => candidates[i].draft)
  }

  ghost predicate DistinctIds(candidates: seq<Candidate>)
  {
    forall i, j :: 0 <= i < j < |candidates| ==> candidates[i].id != candidates[j].id
  }

  /** The rows a run's candidates are stored as. */
  ghost function RowSet(key: Key, candidates: seq<Candidate>): set<CandidateRow>
  {
    set c | c in candidates :: RowOf(key, c)
  }

  ghost predicate Holds(s: State, routeId: RouteId, claim: WorkClaim)
  {
    && claim.claimId in s.claims && s.claims[claim.claimId] == claim && claim.routeId == routeId
    && routeId in s.requests
  }

  ghost predicate JobOk(s: State, job: Job)
  {
    Holds(s, job.routeId, job.claim) && SourceOf(s.requests[job.routeId]) == Some(job.source)
  }

  /** The candidates are this job's parse, under ids handed out for it. */
  ghost predicate ParsedFor(s: State, source: SourceReference, candidates: seq<Candidate>)
  {
    && DraftsOf(candidates) == ParseCandidates(source.sourceText)
    && DistinctIds(candidates)
    && IdsOf(candidates) <= s.issued
  }

  /** The candidates are those of the committed run for the key, in some order. */
  ghost predicate FromRun(s: State, key: Key, candidates: seq<Candidate>)
  {
    key in s.runs && multiset(candidates) == multiset(s.runs[key].candidates)
  }

  ghost predicate AllAdmitted(s: State, job: Job, candidates: seq<Candidate>)
  {
    forall c :: c in candidates ==> Admission(job.routeId, job.source, c) in s.accepted
  }

  predicate TxIs(tx: Option<Tx>, written: Tx) { tx.Some? ==> tx.value == written }

  ghost predicate PassOk(s: State, pass: Pass)
  {
    match pass.pc
    case AskingRoutes => true
    case Claiming(_) => true
    case Reading(routeId, claim) => Holds(s, routeId, claim)
    case Opening(job) => JobOk(s, job)
    case CheckingDigests(job) => JobOk(s, job) && TxIs(pass.tx, NOTHING_WRITTEN)
    case FindingRun(job) => JobOk(s, job) && TxIs(pass.tx, NOTHING_WRITTEN)
    case Naming(job) => JobOk(s, job) && TxIs(pass.tx, NOTHING_WRITTEN)
    case InsertingRun(job, candidates) =>
      JobOk(s, job) && TxIs(pass.tx, NOTHING_WRITTEN) && ParsedFor(s, job.source, candidates)
    case InsertingRows(job, candidates, done) =>
      && JobOk(s, job) && ParsedFor(s, job.source, candidates) && done < |candidates|
      && TxIs(pass.tx, Tx(Some(job.Key()), RowSet(job.Key(), candidates[..done])))
    case Loading(job) => JobOk(s, job) && TxIs(pass.tx, NOTHING_WRITTEN) && job.Key() in s.runs
    case Committing(job, candidates, wasAlreadyProcessed) =>
      && JobOk(s, job)
      && (wasAlreadyProcessed ==> FromRun(s, job.Key(), candidates) && TxIs(pass.tx, NOTHING_WRITTEN))
      && (!wasAlreadyProcessed ==>
            ParsedFor(s, job.source, candidates)
            && TxIs(pass.tx, Tx(Some(job.Key()), RowSet(job.Key(), candidates))))
    case Submitting(job, candidates, _, done) =>
      && JobOk(s, job) && FromRun(s, job.Key(), candidates) && done < |candidates|
      && AllAdmitted(s, job, candidates[..done])
    case Completing(routeId, claim, dispatched) =>
      && Holds(s, routeId, claim)
      && (match dispatched
          case Unknown(action) => s.requests[routeId].action == action != PARSE_ACTION
          case Parsed(job, candidates, _) =>
            && job.routeId == routeId && job.claim == claim && JobOk(s, job)
            && FromRun(s, job.Key(), candidates) && AllAdmitted(s, job, candidates))
    case Ended(_) => true
  }

  ghost predicate PassesOk(s: State)
  {
    forall p :: p in s.passes ==> PassOk(s, s.passes[p])
  }

  /** The ids a pass has been given and not yet committed. */
  ghost function Held(pc: Pc): set<Uuid>
  {
    if pc.InsertingRun? || pc.InsertingRows? || (pc.Committing? && !pc.wasAlreadyProcessed) then IdsOf(pc.candidates)
    else {}
  }

  ghost predicate HeldOk(s: State)
  {
    && (forall p :: p in s.passes ==> Held(s.passes[p].pc) <= s.issued)
    && (forall p, q :: p in s.passes && q in s.passes && p != q ==> Held(s.passes[p].pc) !! Held(s.passes[q].pc))
    && (forall p, key :: p in s.passes && key in s.runs ==> Held(s.passes[p].pc) !! IdsOf(s.runs[key].candidates))
  }

  /** The run a pass's open transaction has written. */
  function Writing(pass: Pass): Option<Key>
  {
    if pass.tx.None? then None else pass.tx.value.run
  }

  /** Runs written by open transactions are not committed, and no two open
      transactions write the same one. */
  ghost predicate TxsOk(s: State)
  {
    && (forall p :: p in s.passes && Writing(s.passes[p]).Some? ==> Writing(s.passes[p]).value !in s.runs)
    && (forall p, q :: p in s.passes && q in s.passes && p != q ==>
          Writing(s.passes[p]).None? || Writing(s.passes[p]) != Writing(s.passes[q]))
  }

  ghost predicate ClaimsOk(s: State)
  {
    && (forall id :: id in s.claims ==> s.claims[id].claimId == id && s.claims[id].routeId in s.requests)
    && (forall r :: r in s.completed ==> r in s.requests)
    && (forall r :: r in s.requests ==> |s.requests[r].scope| <= SCOPE_LIMIT)
  }

  /** The run was written for a routed request that names its key, and holds
      that request's parse under distinct ids. */
  ghost predicate RunOk(s: State, key: Key)
    requires key in s.runs
  {
    var run := s.runs[key];
    && run.routeId in s.requests && SourceOf(s.requests[run.routeId]).Some?
    && KeyOf(SourceOf(s.requests[run.routeId]).value, PARSER_VERSION) == key
    && ParsedFor(s, SourceOf(s.requests[run.routeId]).value, run.candidates)
  }

  ghost predicate RunsOk(s: State)
  {
    && (forall key :: key in s.runs ==> RunOk(s, key))
    && (forall key, other :: key in s.runs && other in s.runs && key != other ==>
          IdsOf(s.runs[key].candidates) !! IdsOf(s.runs[other].candidates))
  }

  /** The candidate rows are exactly those of the committed runs. */
  ghost predicate RowsOk(s: State)
  {
    forall row :: row in s.rows <==> row.key in s.runs && row in RowSet(row.key, s.runs[row.key].candidates)
  }

  ghost predicate AcceptedOk(s: State)
  {
    forall a :: a in s.accepted ==>
      && a.routeId in s.requests && SourceOf(s.requests[a.routeId]) == Some(a.source)
      && a.Key() in s.runs && a.candidate in s.runs[a.Key()].candidates
      && |a.Scope()| <= SCOPE_LIMIT
  }

  ghost predicate CompletedOk(s: State)
  {
    forall r :: r in s.completed && r in s.requests && s.requests[r].action == PARSE_ACTION ==> Delivered(s, r)
  }

  /** Every candidate of the committed run for the route's source was submitted
      for this route and accepted. */
  ghost predicate Delivered(s: State, r: RouteId)
    requires r in s.requests
  {
    match SourceOf(s.requests[r])
    case None => false
    case Some(source) =>
      var key := KeyOf(source, PARSER_VERSION);
      key in s.runs && forall c :: c in s.runs[key].candidates ==> Admission(r, source, c) in s.accepted
  }

  ghost predicate Inv(s: State)
  {
    && ClaimsOk(s) && RunsOk(s) && RowsOk(s) && TxsOk(s) && HeldOk(s)
    && PassesOk(s) && AcceptedOk(s) && CompletedOk(s)
  }

  // ---------- what only grows ----------

  /** Nothing recorded in `s` is changed or lost in `t`. */
  ghost predicate Extends(s: State, t: State)
  {
    && (forall r :: r in s.requests ==> r in t.requests && t.requests[r] == s.requests[r])
    && (forall id :: id in s.claims ==> id in t.claims && t.claims[id] == s.claims[id])
    && (forall key :: key in s.runs ==> key in t.runs && t.runs[key] == s.runs[key])
    && s.completed <= t.completed && s.accepted <= t.accepted && s.issued <= t.issued && s.rows <= t.rows
  }

  // ---------- what an answer tells ----------

  /** What the world's rules say of an answer, call by call. */
  ghost predicate Meant(s: State, p: PassId, reply: Reply)
    requires p in s.passes
  {
    var pass := s.passes[p];
    match pass.pc
    case Claiming(routeId) =>
      reply.Claimed? ==>
        && routeId in s.requests && reply.claim.routeId == routeId && reply.claim.claimId !in s.claims
        && (routeId in s.tokens ==> s.tokens[routeId] < reply.claim.fencingToken)
    case Reading(routeId, _) => reply.Found? ==> routeId in s.requests && reply.request == s.requests[routeId]
    case FindingRun(job) => reply.RunFound? ==> pass.tx.Some? && reply.found == Sees(s, pass.tx.value, job.Key())
    case Naming(job) =>
      reply.Ids? ==>
        && |reply.ids| == |ParseCandidates(job.source.sourceText)|
        && NoDup(reply.ids) && forall id :: id in reply.ids ==> id !in s.issued
    case InsertingRun(job, _) =>
      reply.Inserted? ==>
        && pass.tx.Some? && reply.count == (if Sees(s, pass.tx.value, job.Key()) then 0 else 1)
        && !(job.Key() !in s.runs && Locked(s, p, job.Key()))
    case Loading(job) =>
      reply.SelectedRows? ==>
        && pass.tx.Some? && NoDup(reply.rows)
        && forall r :: r in reply.rows <==> r in Visible(s, pass.tx.value) && r.key == job.Key()
    case Committing(_, _, _) => reply.Done? ==> pass.tx.Some?
    case Submitting(job, candidates, _, done) =>
      reply.Accepted? && done < |candidates| ==> |AdmitScopeFor(job.source, candidates[done])| <= SCOPE_LIMIT
    case Completing(_, claim, _) => reply.Completed? ==> Current(s, claim.claimId, claim.fencingToken)
    case _ => true
  }

  lemma PossibleMeans(s: State, p: PassId, reply: Reply)
    requires p in s.passes && Live(s.passes[p].pc) && Possible(s, p, reply)
    ensures Meant(s, p, reply)
  {
    hide RowOf, AdmitScopeFor, ParseCandidates, Locked, NoDup, Sees, Current;
  }

  lemma ClaimExtends(s: State, pass: Pass, reply: Reply)
    requires pass.pc.Claiming? && (reply.Claimed? ==> reply.claim.claimId !in s.claims)
    ensures Extends(s, WorldAfter(s, pass, reply))
  {
  }

  lemma CommitExtends(s: State, pass: Pass, reply: Reply)
    requires pass.pc.Committing? && (Writing(pass).Some? ==> Writing(pass).value !in s.runs)
    ensures Extends(s, WorldAfter(s, pass, reply))
  {
  }

  lemma OtherExtends(s: State, pass: Pass, reply: Reply)
    requires Live(pass.pc) && !pass.pc.Claiming? && !pass.pc.Committing?
    ensures Extends(s, WorldAfter(s, pass, reply))
  {
  }

  lemma WorldExtends(s: State, p: PassId, reply: Reply)
    requires p in s.passes && Live(s.passes[p].pc) && Meant(s, p, reply) && TxsOk(s)
    ensures Extends(s, WorldAfter(s, s.passes[p], reply))
  {
    hide Live, Locked, NoDup, Sees, Current, ParseCandidates, Extends, WorldAfter, Writing;
    var pass := s.passes[p];
    if pass.pc.Claiming? {
      ClaimExtends(s, pass, reply);
    } else if pass.pc.Committing? {
      CommitExtends(s, pass, reply);
    } else {
      OtherExtends(s, pass, reply);
    }
  }

  lemma NextExtends(s: State, e: Event)
    requires Enabled(s, e) && TxsOk(s)
    ensures Extends(s, Next(s, e))
  {
    hide Possible, WorldAfter, TxAfter, Resume, Live, TxsOk, Meant;
    match e
    case Serve(p, reply) => PossibleMeans(s, p, reply); WorldExtends(s, p, reply);
    case Lose(p, reply) => PossibleMeans(s, p, reply); WorldExtends(s, p, reply);
    case _ =>
  }

  /** What a pass knows stays true as the world grows. */
  lemma PassOkExtends(s: State, t: State, pass: Pass)
    requires PassOk(s, pass) && Extends(s, t)
    ensures PassOk(t, pass)
  {
    hide SourceOf, DraftsOf, DistinctIds, RowSet, ParseCandidates;
  }

  // ---------- the pass that is answered ----------

  lemma Named(s: State, job: Job, ids: seq<Uuid>)
    requires NoDup(ids) && |ids| == |ParseCandidates(job.source.sourceText)|
    requires forall id :: id in ids ==> id in s.issued
    ensures ParsedFor(s, job.source, WithIds(ids, ParseCandidates(job.source.sourceText)))
    ensures IdsOf(WithIds(ids, ParseCandidates(job.source.sourceText))) == set id | id in ids
  {
    hide ParseCandidates;
    var drafts := ParseCandidates(job.source.sourceText);
    var candidates := WithIds(ids, drafts);
    assert DraftsOf(candidates) == drafts;
    forall id | id in ids ensures id in IdsOf(candidates) {
      var i :| 0 <= i < |ids| && ids[i] == id;
      assert candidates[i] in candidates;
    }
  }

  lemma RowSetSnoc(key: Key, candidates: seq<Candidate>, n: nat)
    requires n < |candidates|
    ensures RowSet(key, candidates[..n + 1]) == RowSet(key, candidates[..n]) + {RowOf(key, candidates[n])}
  {
    hide RowOf;
    assert candidates[..n + 1] == candidates[..n] + [candidates[n]];
  }

  lemma {:induction false} NoDupCount<T>(xs: seq<T>, x: T)
    requires forall i, j :: 0 <= i < j < |xs| ==> xs[i] != xs[j]
    ensures multiset(xs)[x] == if x in xs then 1 else 0
  {
    if xs != [] {
      var front, last := xs[..|xs| - 1], xs[|xs| - 1];
      assert xs == front + [last];
      NoDupCount(front, x);
      assert x == last ==> x !in front;
    }
  }

  lemma NoDupMultisets<T>(xs: seq<T>, ys: seq<T>)
    requires forall i, j :: 0 <= i < j < |xs| ==> xs[i] != xs[j]
    requires forall i, j :: 0 <= i < j < |ys| ==> ys[i] != ys[j]
    requires forall x :: x in xs <==> x in ys
    ensures multiset(xs) == multiset(ys)
  {
    forall x | x in multiset(xs) || x in multiset(ys) ensures multiset(xs)[x] == multiset(ys)[x] {
      NoDupCount(xs, x);
      NoDupCount(ys, x);
    }
  }

  /** Rows that store some of `stored` load as those candidates. */
  lemma {:induction false} Loaded(key: Key, rows: seq<CandidateRow>, stored: seq<Candidate>)
    requires forall r :: r in rows ==> r in RowSet(key, stored)
    ensures LoadCandidates(rows).Some? && |LoadCandidates(rows).value| == |rows|
    ensures forall i :: 0 <= i < |rows| ==>
              LoadCandidates(rows).value[i] in stored && rows[i] == RowOf(key, LoadCandidates(rows).value[i])
  {
    hide RowOf, CandidateOf;
    if rows != [] {
      assert rows[0] in rows;
      var c :| c in stored && rows[0] == RowOf(key, c);
      RowRoundTrip(key, c);
      Loaded(key, rows[1..], stored);
      var later := LoadCandidates(rows[1..]).value;
      assert LoadCandidates(rows).value == [c] + later;
      forall i | 0 <= i < |rows|
        ensures LoadCandidates(rows).value[i] in stored && rows[i] == RowOf(key, LoadCandidates(rows).value[i])
      {
        if i > 0 {
          assert rows[i] == rows[1..][i - 1];
        }
      }
    }
  }

  /** Each stored row once, in any order, loads as the stored candidates in some order. */
  lemma Reloaded(key: Key, rows: seq<CandidateRow>, stored: seq<Candidate>)
    requires NoDup(rows) && DistinctIds(stored)
    requires forall r :: r in rows <==> r in RowSet(key, stored)
    ensures LoadCandidates(rows).Some? && multiset(LoadCandidates(rows).value) == multiset(stored)
  {
    Loaded(key, rows, stored);
    hide RowOf, CandidateOf, LoadCandidates;
    var loaded := LoadCandidates(rows).value;
    forall c | c in stored ensures c in loaded {
      assert RowOf(key, c) in rows;
      var i :| 0 <= i < |rows| && rows[i] == RowOf(key, c);
      RowRoundTrip(key, c);
      RowRoundTrip(key, loaded[i]);
    }
    NoDupMultisets(loaded, stored);
  }

  ghost predicate Before(s: State, p: PassId, reply: Reply)
  {
    p in s.passes && Live(s.passes[p].pc) && Meant(s, p, reply) && PassOk(s, s.passes[p])
  }

  ghost predicate StepKeeps(s: State, p: PassId, reply: Reply)
    requires p in s.passes && Live(s.passes[p].pc)
  {
    var pass := s.passes[p];
    PassOk(WorldAfter(s, pass, reply), Pass(Resume(pass.pc, reply), TxAfter(pass, reply)))
  }

  lemma EarlyStep(s: State, p: PassId, reply: Reply)
    requires Before(s, p, reply)
    requires s.passes[p].pc.AskingRoutes? || s.passes[p].pc.Opening? || s.passes[p].pc.CheckingDigests?
             || s.passes[p].pc.Completing?
    ensures StepKeeps(s, p, reply)
  {
    hide JobOk, SourceOf, FromRun, AllAdmitted;
  }

  lemma ClaimStep(s: State, p: PassId, reply: Reply)
    requires Before(s, p, reply) && s.passes[p].pc.Claiming?
    ensures StepKeeps(s, p, reply)
  {
    hide ParsedFor, RowSet, AllAdmitted, FromRun, JobOk;
  }

  lemma ReadStep(s: State, p: PassId, reply: Reply)
    requires Before(s, p, reply) && s.passes[p].pc.Reading?
    ensures StepKeeps(s, p, reply)
  {
    hide ParseInputScope, Trim;
  }

  lemma FindStep(s: State, p: PassId, reply: Reply)
    requires Before(s, p, reply) && s.passes[p].pc.FindingRun?
    ensures StepKeeps(s, p, reply)
  {
    hide JobOk;
  }

  lemma NameStep(s: State, p: PassId, reply: Reply)
    requires Before(s, p, reply) && s.passes[p].pc.Naming?
    ensures StepKeeps(s, p, reply)
  {
    hide SourceOf, ParseCandidates, ParsedFor;
    if reply.Ids? {
      Named(WorldAfter(s, s.passes[p], reply), s.passes[p].pc.job, reply.ids);
    }
  }

  lemma InsertRunStep(s: State, p: PassId, reply: Reply)
    requires Before(s, p, reply) && s.passes[p].pc.InsertingRun?
    ensures StepKeeps(s, p, reply)
  {
    hide JobOk, ParsedFor, RowOf, Locked;
    assert s.passes[p].pc.candidates[..0] == [];
  }

  lemma InsertRowStep(s: State, p: PassId, reply: Reply)
    requires Before(s, p, reply) && s.passes[p].pc.InsertingRows?
    ensures StepKeeps(s, p, reply)
  {
    hide JobOk, ParsedFor, RowOf, RowSet;
    var pc := s.passes[p].pc;
    RowSetSnoc(pc.job.Key(), pc.candidates, pc.done);
    assert pc.candidates[..|pc.candidates|] == pc.candidates;
  }

  lemma RunRows(s: State, key: Key)
    requires key in s.runs && RowsOk(s) && RunsOk(s)
    ensures DistinctIds(s.runs[key].candidates)
    ensures forall r :: r in s.rows && r.key == key <==> r in RowSet(key, s.runs[key].candidates)
  {
    assert RunOk(s, key);
    hide RunsOk, RunOk, RowOf;
  }

  lemma RowsLoaded(s: State, p: PassId, reply: Reply)
    requires Before(s, p, reply) && s.passes[p].pc.Loading? && reply.SelectedRows?
    requires RowsOk(s) && RunsOk(s)
    ensures LoadCandidates(reply.rows).Some?
    ensures FromRun(s, s.passes[p].pc.job.Key(), LoadCandidates(reply.rows).value)
  {
    hide RowsOk, RunsOk, LoadCandidates, RowSet, DistinctIds, NoDup, Job.Key, JobOk;
    var key := s.passes[p].pc.job.Key();
    RunRows(s, key);
    assert Visible(s, NOTHING_WRITTEN) == s.rows;
    Reloaded(key, reply.rows, s.runs[key].candidates);
  }

  lemma LoadedPc(s: State, pass: Pass, reply: Reply)
    requires pass.pc.Loading?
    ensures WorldAfter(s, pass, reply) == s && TxAfter(pass, reply) == pass.tx
    ensures Resume(pass.pc, reply).Committing? ==>
              && reply.SelectedRows? && LoadCandidates(reply.rows).Some?
              && Resume(pass.pc, reply) == Committing(pass.pc.job, LoadCandidates(reply.rows).value, true)
    ensures Resume(pass.pc, reply).Committing? || Resume(pass.pc, reply).Ended?
  {
    hide LoadCandidates;
  }

  lemma LoadedStep(s: State, p: PassId, reply: Reply)
    requires Before(s, p, reply) && s.passes[p].pc.Loading? && RowsOk(s) && RunsOk(s)
    ensures StepKeeps(s, p, reply)
  {
    hide RowsOk, RunsOk, JobOk, LoadCandidates, FromRun, Meant, WorldAfter, TxAfter, Resume, ParsedFor, RowSet,
         AllAdmitted, Holds;
    LoadedPc(s, s.passes[p], reply);
    if reply.SelectedRows? {
      RowsLoaded(s, p, reply);
    }
  }

  lemma CommitStep(s: State, p: PassId, reply: Reply)
    requires Before(s, p, reply) && s.passes[p].pc.Committing?
    ensures StepKeeps(s, p, reply)
  {
    hide ParsedFor, RowSet, SourceOf;
    assert s.passes[p].pc.candidates[..0] == [];
  }

  lemma SubmitStep(s: State, p: PassId, reply: Reply)
    requires Before(s, p, reply) && s.passes[p].pc.Submitting?
    ensures StepKeeps(s, p, reply)
  {
    hide SourceOf, Meant;
    var pc := s.passes[p].pc;
    assert pc.candidates[..pc.done + 1] == pc.candidates[..pc.done] + [pc.candidates[pc.done]];
    assert pc.candidates[..|pc.candidates|] == pc.candidates;
  }

  /** The answered pass keeps its invariant. */
  lemma AnsweredPassOk(s: State, p: PassId, reply: Reply)
    requires Before(s, p, reply) && RowsOk(s) && RunsOk(s)
    ensures StepKeeps(s, p, reply)
  {
    hide Meant, PassOk, RowsOk, RunsOk, StepKeeps;
    match s.passes[p].pc
    case AskingRoutes => EarlyStep(s, p, reply);
    case Claiming(_) => ClaimStep(s, p, reply);
    case Reading(_, _) => ReadStep(s, p, reply);
    case Opening(_) => EarlyStep(s, p, reply);
    case CheckingDigests(_) => EarlyStep(s, p, reply);
    case FindingRun(_) => FindStep(s, p, reply);
    case Naming(_) => NameStep(s, p, reply);
    case InsertingRun(_, _) => InsertRunStep(s, p, reply);
    case InsertingRows(_, _, _) => InsertRowStep(s, p, reply);
    case Loading(_) => LoadedStep(s, p, reply);
    case Committing(_, _, _) => CommitStep(s, p, reply);
    case Submitting(_, _, _, _) => SubmitStep(s, p, reply);
    case Completing(_, _, _) => EarlyStep(s, p, reply);
  }

  // ---------- the world it leaves ----------

  lemma ClaimsKept(s: State, p: PassId, reply: Reply)
    requires Before(s, p, reply) && ClaimsOk(s)
    ensures ClaimsOk(WorldAfter(s, s.passes[p], reply))
  {
    hide ParsedFor, RowSet, AllAdmitted, FromRun, SourceOf, NoDup, Locked, Sees;
  }

  /** What a pass about to commit a new run knows. */
  lemma NewRun(s: State, p: PassId, reply: Reply)
    requires Before(s, p, reply) && s.passes[p].pc.Committing? && reply.Done?
    requires Writing(s.passes[p]).Some?
    ensures var pc := s.passes[p].pc;
      && !pc.wasAlreadyProcessed && Writing(s.passes[p]) == Some(pc.job.Key())
      && JobOk(s, pc.job) && ParsedFor(s, pc.job.source, pc.candidates)
      && s.passes[p].tx.value.rows == RowSet(pc.job.Key(), pc.candidates)
  {
    hide JobOk, ParsedFor, RowSet, FromRun, AllAdmitted;
  }

  lemma CommitWithoutRun(s: State, pass: Pass, reply: Reply)
    requires pass.pc.Committing? && Writing(pass).None?
    ensures WorldAfter(s, pass, reply) == s
  {
  }

  lemma CommitOfRun(s: State, pass: Pass, reply: Reply)
    requires pass.pc.Committing? && reply.Done? && Writing(pass).Some?
    ensures WorldAfter(s, pass, reply)
            == s.(runs := s.runs[Writing(pass).value := Run(pass.pc.job.routeId, pass.pc.candidates)],
                  rows := s.rows + pass.tx.value.rows)
  {
  }

  lemma CommittedWorld(s: State, p: PassId, reply: Reply)
    requires Before(s, p, reply) && s.passes[p].pc.Committing? && reply.Done?
    ensures var pc, w := s.passes[p].pc, WorldAfter(s, s.passes[p], reply);
      w == if Writing(s.passes[p]).None? then s
           else s.(runs := s.runs[pc.job.Key() := Run(pc.job.routeId, pc.candidates)],
                   rows := s.rows + RowSet(pc.job.Key(), pc.candidates))
  {
    hide WorldAfter, Writing, Meant, PassOk, RowSet, JobOk, ParsedFor, Live;
    if Writing(s.passes[p]).Some? {
      NewRun(s, p, reply);
      CommitOfRun(s, s.passes[p], reply);
    } else {
      CommitWithoutRun(s, s.passes[p], reply);
    }
  }

  /** Only a commit that wrote a run changes the tables. */
  lemma OnlyCommitsWrite(s: State, pass: Pass, reply: Reply)
    requires Live(pass.pc) && !(pass.pc.Committing? && reply.Done?)
    ensures WorldAfter(s, pass, reply).runs == s.runs && WorldAfter(s, pass, reply).rows == s.rows
  {
  }

  lemma RunOkExtends(s: State, t: State, key: Key)
    requires key in s.runs && RunOk(s, key) && Extends(s, t)
    ensures RunOk(t, key)
  {
    hide SourceOf, DraftsOf, DistinctIds, IdsOf, ParseCandidates;
  }

  lemma RunsSame(s: State, t: State)
    requires RunsOk(s) && Extends(s, t) && t.runs == s.runs
    ensures RunsOk(t)
  {
    hide RunOk, IdsOf, Extends;
    forall key | key in t.runs ensures RunOk(t, key) {
      RunOkExtends(s, t, key);
    }
  }

  lemma RunAdded(s: State, t: State, job: Job, candidates: seq<Candidate>)
    requires RunsOk(s) && Extends(s, t) && JobOk(s, job) && ParsedFor(s, job.source, candidates)
    requires t.runs == s.runs[job.Key() := Run(job.routeId, candidates)]
    requires forall key :: key in s.runs ==> IdsOf(candidates) !! IdsOf(s.runs[key].candidates)
    ensures RunsOk(t)
  {
    hide IdsOf, DraftsOf, DistinctIds, SourceOf, ParseCandidates;
    assert RunOk(t, job.Key());
    hide Extends, JobOk, ParsedFor;
    forall key | key in s.runs && key != job.Key() ensures RunOk(t, key) {
      RunOkExtends(s, t, key);
    }
    hide RunOk;
  }

  lemma RunsKept(s: State, p: PassId, reply: Reply)
    requires Before(s, p, reply) && RunsOk(s) && TxsOk(s) && HeldOk(s)
    ensures RunsOk(WorldAfter(s, s.passes[p], reply))
  {
    hide WorldAfter, ParsedFor, TxsOk, PassOk, Meant, IdsOf, RowSet, RunsOk, Extends, JobOk, Writing;
    var pass := s.passes[p];
    var w := WorldAfter(s, pass, reply);
    WorldExtends(s, p, reply);
    if pass.pc.Committing? && reply.Done? {
      CommittedWorld(s, p, reply);
      if Writing(pass).Some? {
        NewRun(s, p, reply);
        assert Held(pass.pc) == IdsOf(pass.pc.candidates);
        RunAdded(s, w, pass.pc.job, pass.pc.candidates);
      }
    } else {
      OnlyCommitsWrite(s, pass, reply);
      RunsSame(s, w);
    }
  }

  lemma RowsKept(s: State, p: PassId, reply: Reply)
    requires Before(s, p, reply) && RowsOk(s) && TxsOk(s)
    ensures RowsOk(WorldAfter(s, s.passes[p], reply))
  {
    var pass := s.passes[p];
    if pass.pc.Committing? && reply.Done? {
      CommittedWorld(s, p, reply);
      if Writing(pass).Some? {
        NewRun(s, p, reply);
        assert pass.pc.job.Key() !in s.runs;
        RowSetKeys(pass.pc.job.Key(), pass.pc.candidates);
      }
    } else {
      OnlyCommitsWrite(s, pass, reply);
    }
    hide WorldAfter, ParsedFor, TxsOk, PassOk, Meant, RowSet;
  }

  lemma RowSetKeys(key: Key, candidates: seq<Candidate>)
    ensures forall row :: row in RowSet(key, candidates) ==> row.key == key
  {
  }

  lemma AcceptedFits(s: State, p: PassId, reply: Reply)
    requires Before(s, p, reply) && s.passes[p].pc.Submitting? && reply.Accepted?
    ensures var pc := s.passes[p].pc;
      |Admission(pc.job.routeId, pc.job.source, pc.candidates[pc.done]).Scope()| <= SCOPE_LIMIT
  {
    hide PassOk, AdmitScopeFor;
  }

  lemma AcceptedKept(s: State, p: PassId, reply: Reply)
    requires Before(s, p, reply) && AcceptedOk(s) && TxsOk(s)
    ensures AcceptedOk(WorldAfter(s, s.passes[p], reply))
  {
    hide Meant, TxsOk, Admission.Scope, SourceOf, ParsedFor, RowSet, AllAdmitted;
    WorldExtends(s, p, reply);
    if s.passes[p].pc.Submitting? && reply.Accepted? {
      var pc := s.passes[p].pc;
      var c := pc.candidates[pc.done];
      AcceptedFits(s, p, reply);
      assert c in multiset(pc.candidates);
      assert JobOk(s, pc.job) && c in s.runs[pc.job.Key()].candidates;
      hide PassOk;
    } else {
      OnlySubmitsAdmit(s, s.passes[p], reply);
      hide WorldAfter, PassOk;
    }
  }

  lemma OnlySubmitsAdmit(s: State, pass: Pass, reply: Reply)
    requires Live(pass.pc) && !(pass.pc.Submitting? && reply.Accepted?)
    ensures WorldAfter(s, pass, reply).accepted == s.accepted
  {
  }

  lemma OnlyCompletionsComplete(s: State, pass: Pass, reply: Reply)
    requires Live(pass.pc) && !(pass.pc.Completing? && reply.Completed?)
    ensures WorldAfter(s, pass, reply).completed == s.completed
  {
  }

  lemma DeliveredExtends(s: State, t: State, r: RouteId)
    requires r in s.requests && Delivered(s, r) && Extends(s, t)
    ensures r in t.requests && Delivered(t, r)
  {
    hide SourceOf;
  }

  /** A pass completes a parse route only with everything delivered. */
  lemma CompletionDelivers(s: State, p: PassId, reply: Reply)
    requires Before(s, p, reply) && s.passes[p].pc.Completing? && reply.Completed?
    ensures var r := s.passes[p].pc.routeId;
      && r in s.requests && s.passes[p].pc.claim.claimId in s.claims
      && s.claims[s.passes[p].pc.claim.claimId].routeId == r
      && (s.requests[r].action == PARSE_ACTION ==> Delivered(s, r))
  {
    hide ParsedFor, RowSet, SourceOf, Meant;
    var pc := s.passes[p].pc;
    if pc.dispatched.Parsed? {
      var job, candidates := pc.dispatched.job, pc.dispatched.candidates;
      forall c | c in s.runs[job.Key()].candidates ensures Admission(pc.routeId, job.source, c) in s.accepted {
        assert c in multiset(candidates);
      }
    }
  }

  lemma CompletedKept(s: State, p: PassId, reply: Reply)
    requires Before(s, p, reply) && CompletedOk(s) && ClaimsOk(s) && TxsOk(s)
    ensures CompletedOk(WorldAfter(s, s.passes[p], reply))
  {
    hide TxsOk, Delivered, Extends, WorldAfter, Meant, PassOk;
    var pass := s.passes[p];
    var w := WorldAfter(s, pass, reply);
    WorldExtends(s, p, reply);
    RequestsSame(s, pass, reply);
    if pass.pc.Completing? && reply.Completed? {
      CompletionDelivers(s, p, reply);
      CompletedWorld(s, p, reply);
    } else {
      OnlyCompletionsComplete(s, pass, reply);
    }
    forall r | r in w.completed && r in w.requests && w.requests[r].action == PARSE_ACTION ensures Delivered(w, r) {
      DeliveredExtends(s, w, r);
    }
  }

  lemma RequestsSame(s: State, pass: Pass, reply: Reply)
    requires Live(pass.pc)
    ensures WorldAfter(s, pass, reply).requests == s.requests
  {
  }

  lemma CompletedWorld(s: State, p: PassId, reply: Reply)
    requires p in s.passes && s.passes[p].pc.Completing? && reply.Completed?
    requires s.passes[p].pc.claim.claimId in s.claims
    ensures var claimId := s.passes[p].pc.claim.claimId;
      WorldAfter(s, s.passes[p], reply).completed == s.completed + {s.claims[claimId].routeId}
  {
  }

  // ---------- open transactions and uncommitted ids ----------

  lemma WritingAfter(s: State, p: PassId, reply: Reply, pc: Pc)
    requires Before(s, p, reply)
    ensures var pass := s.passes[p];
      var writing := Writing(Pass(pc, TxAfter(pass, reply)));
      || writing.None?
      || (writing == Writing(pass) && !(pass.pc.Committing? && reply.Done?))
      || (&& pass.pc.InsertingRun? && writing == Some(pass.pc.job.Key())
          && pass.pc.job.Key() !in s.runs && !Locked(s, p, pass.pc.job.Key()))
  {
    hide PassOk, Locked;
  }

  /** One pass's transaction writes nothing more, or a run no one else has; a
      run is committed only by the pass that wrote it. */
  ghost predicate TxShift(s: State, t: State, p: PassId, after: Pass, added: map<Key, Run>)
    requires p in s.passes
  {
    && t.passes == s.passes[p := after] && t.runs == s.runs + added
    && (forall key :: key in added ==> Writing(s.passes[p]) == Some(key) && Writing(after).None?)
    && (|| Writing(after).None?
        || Writing(after) == Writing(s.passes[p])
        || (Writing(after).value !in s.runs && !Locked(s, p, Writing(after).value)))
  }

  lemma TxShifted(s: State, t: State, p: PassId, after: Pass, added: map<Key, Run>)
    requires p in s.passes && TxsOk(s) && TxShift(s, t, p, after, added)
    ensures TxsOk(t)
  {
    forall q | q in s.passes && q != p ensures Writing(after).None? || Writing(after) != Writing(s.passes[q]) {
    }
    hide Writing, Locked;
  }

  /** What a commit adds to the runs. */
  ghost function Added(pass: Pass, reply: Reply): map<Key, Run>
  {
    if pass.pc.Committing? && reply.Done? && Writing(pass).Some? then
      map[pass.pc.job.Key() := Run(pass.pc.job.routeId, pass.pc.candidates)]
    else map[]
  }

  lemma AddedRuns(s: State, p: PassId, reply: Reply)
    requires Before(s, p, reply)
    ensures WorldAfter(s, s.passes[p], reply).runs == s.runs + Added(s.passes[p], reply)
  {
    hide Meant, PassOk, WorldAfter;
    if s.passes[p].pc.Committing? && reply.Done? {
      CommittedWorld(s, p, reply);
    } else {
      OnlyCommitsWrite(s, s.passes[p], reply);
    }
  }

  lemma TxsKept(s: State, p: PassId, reply: Reply, heard: Reply)
    requires Before(s, p, reply) && TxsOk(s)
    ensures TxsOk(Answered(s, p, reply, heard))
  {
    hide Meant, PassOk, TxAfter, WorldAfter, Resume, TxsOk, JobOk, ParsedFor, RowSet, Locked;
    var pass := s.passes[p];
    var after := Pass(Resume(pass.pc, heard), TxAfter(pass, reply));
    WritingAfter(s, p, reply, after.pc);
    AddedRuns(s, p, reply);
    if pass.pc.Committing? && reply.Done? && Writing(pass).Some? {
      NewRun(s, p, reply);
    }
    hide Writing, Before;
    TxShifted(s, Answered(s, p, reply, heard), p, after, Added(pass, reply));
  }

  lemma HeldNaming(s: State, p: PassId, reply: Reply, heard: Reply)
    requires Before(s, p, reply) && (heard == reply || heard.Failed?) && s.passes[p].pc.Naming?
    ensures var held := Held(Resume(s.passes[p].pc, heard));
      held == {} || (reply.Ids? && held <= WorldAfter(s, s.passes[p], reply).issued && held !! s.issued)
  {
    hide JobOk, ParseCandidates, ParsedFor, IdsOf;
    if reply.Ids? {
      Named(WorldAfter(s, s.passes[p], reply), s.passes[p].pc.job, reply.ids);
    }
  }

  /** No other call adds to what a pass holds. */
  lemma HeldShrinks(pc: Pc, heard: Reply)
    requires Live(pc) && !pc.Naming?
    ensures Held(Resume(pc, heard)) <= Held(pc)
    ensures pc.Committing? ==> Held(Resume(pc, heard)) == {}
  {
    hide IdsOf, LoadCandidates, ParseInputScope, Trim;
  }

  /** One pass's holdings shrink, become new ids, or become a new run's. */
  ghost predicate HeldShift(s: State, t: State, p: PassId, after: Pass, added: map<Key, Run>)
    requires p in s.passes
  {
    && t.passes == s.passes[p := after] && s.issued <= t.issued
    && (Held(after.pc) <= Held(s.passes[p].pc) || (Held(after.pc) <= t.issued && Held(after.pc) !! s.issued))
    && t.runs == s.runs + added
    && (forall key :: key in added ==> IdsOf(added[key].candidates) == Held(s.passes[p].pc) && Held(after.pc) == {})
  }

  lemma HeldShifted(s: State, t: State, p: PassId, after: Pass, added: map<Key, Run>)
    requires p in s.passes && HeldOk(s) && HeldShift(s, t, p, after, added)
    requires forall key :: key in s.runs ==> IdsOf(s.runs[key].candidates) <= s.issued
    ensures HeldOk(t)
  {
    hide Held, IdsOf;
  }

  lemma RunIdsIssued(s: State)
    requires RunsOk(s)
    ensures forall key :: key in s.runs ==> IdsOf(s.runs[key].candidates) <= s.issued
  {
    forall key | key in s.runs ensures IdsOf(s.runs[key].candidates) <= s.issued {
      assert RunOk(s, key);
    }
  }

  lemma HeldKept(s: State, p: PassId, reply: Reply, heard: Reply)
    requires Before(s, p, reply) && (heard == reply || heard.Failed?) && HeldOk(s) && RunsOk(s) && TxsOk(s)
    ensures HeldOk(Answered(s, p, reply, heard))
  {
    hide Meant, PassOk, TxAfter, WorldAfter, Resume, TxsOk, JobOk, ParsedFor, RowSet, IdsOf, RunsOk, HeldOk;
    var pass := s.passes[p];
    var after := Pass(Resume(pass.pc, heard), TxAfter(pass, reply));
    RunIdsIssued(s);
    WorldExtends(s, p, reply);
    AddedRuns(s, p, reply);
    if pass.pc.Naming? {
      HeldNaming(s, p, reply, heard);
    } else {
      HeldShrinks(pass.pc, heard);
      if pass.pc.Committing? && reply.Done? && Writing(pass).Some? {
        NewRun(s, p, reply);
        assert Held(pass.pc) == IdsOf(pass.pc.candidates);
      }
    }
    hide Before, Writing, Held;
    HeldShifted(s, Answered(s, p, reply, heard), p, after, Added(pass, reply));
  }

  // ---------- every step keeps the invariant ----------

  lemma FailedEnds(pc: Pc)
    requires Live(pc)
    ensures Resume(pc, Failed).Ended?
  {
  }

  /** The invariant reads only the world and the passes' own records. */
  lemma WorldOnly(w: State, t: State)
    requires t == w.(passes := t.passes)
    requires ClaimsOk(w) && RunsOk(w) && RowsOk(w) && AcceptedOk(w) && CompletedOk(w)
    ensures ClaimsOk(t) && RunsOk(t) && RowsOk(t) && AcceptedOk(t) && CompletedOk(t)
  {
    hide RowSet, SourceOf, RunsOk;
    RunsSame(w, t);
  }

  lemma PassesKept(s: State, t: State, p: PassId, after: Pass)
    requires PassesOk(s) && Extends(s, t) && t.passes == s.passes[p := after] && PassOk(t, after)
    ensures PassesOk(t)
  {
    hide Extends, PassOk;
    forall q | q in t.passes ensures PassOk(t, t.passes[q]) {
      if q != p {
        PassOkExtends(s, t, s.passes[q]);
      }
    }
  }

  lemma AnsweredKeeps(s: State, p: PassId, reply: Reply, heard: Reply)
    requires Inv(s) && p in s.passes && Live(s.passes[p].pc) && Possible(s, p, reply)
    requires heard == reply || heard.Failed?
    ensures Inv(Answered(s, p, reply, heard))
  {
    hide ClaimsOk, RunsOk, RowsOk, TxsOk, HeldOk, AcceptedOk, CompletedOk, WorldAfter, TxAfter, Resume, Live, PassOk,
         Possible, Meant, Extends;
    var pass := s.passes[p];
    var w, t := WorldAfter(s, pass, reply), Answered(s, p, reply, heard);
    var after := Pass(Resume(pass.pc, heard), TxAfter(pass, reply));
    PossibleMeans(s, p, reply);
    WorldExtends(s, p, reply);
    ClaimsKept(s, p, reply);
    RunsKept(s, p, reply);
    RowsKept(s, p, reply);
    AcceptedKept(s, p, reply);
    CompletedKept(s, p, reply);
    WorldOnly(w, t);
    TxsKept(s, p, reply, heard);
    HeldKept(s, p, reply, heard);
    AnsweredPassOk(s, p, reply);
    FailedEnds(pass.pc);
    SamePassOk(w, t, p, after, pass, reply);
    ExtendsPasses(s, w, t);
    PassesKept(s, t, p, after);
  }

  lemma ExtendsPasses(s: State, w: State, t: State)
    requires Extends(s, w) && t == w.(passes := t.passes)
    ensures Extends(s, t)
  {
  }

  lemma SamePassOk(w: State, t: State, p: PassId, after: Pass, pass: Pass, reply: Reply)
    requires Live(pass.pc) && t == w.(passes := t.passes)
    requires after == Pass(Resume(pass.pc, reply), TxAfter(pass, reply)) || after.pc.Ended?
    requires PassOk(w, Pass(Resume(pass.pc, reply), TxAfter(pass, reply)))
    ensures PassOk(t, after)
  {
    if !after.pc.Ended? {
      PassOkExtends(w, t, after);
    }
  }

  lemma CrashKeeps(s: State, p: PassId)
    requires Inv(s) && p in s.passes
    ensures Inv(Next(s, Crash(p)))
  {
    hide ClaimsOk, RowsOk, AcceptedOk, CompletedOk, RunsOk, TxsOk, HeldOk, Extends;
    var t := Next(s, Crash(p));
    var after := s.passes[p].(pc := Ended(Err(Died)));
    WorldOnly(s, t);
    ExtendsItself(s, t);
    PassesKept(s, t, p, after);
    TxShifted(s, t, p, after, map[]);
    RunIdsIssued(s);
    HeldShifted(s, t, p, after, map[]);
  }

  lemma ExtendsItself(s: State, t: State)
    requires t == s.(passes := t.passes)
    ensures Extends(s, t)
  {
  }

  lemma AbortKeeps(s: State, p: PassId)
    requires Inv(s) && p in s.passes && s.passes[p].tx.Some?
    ensures Inv(Next(s, Abort(p)))
  {
    hide ClaimsOk, RowsOk, AcceptedOk, CompletedOk, RunsOk, TxsOk, HeldOk, Extends, JobOk, ParsedFor, FromRun,
         AllAdmitted, Holds, RowSet;
    var t := Next(s, Abort(p));
    var after := s.passes[p].(tx := None);
    WorldOnly(s, t);
    ExtendsItself(s, t);
    UndonePassOk(s, p);
    ExtendsItself(s, t);
    PassOkExtends(s, t, after);
    PassesKept(s, t, p, after);
    TxShifted(s, t, p, after, map[]);
    RunIdsIssued(s);
    HeldShifted(s, t, p, after, map[]);
  }

  lemma UndonePassOk(s: State, p: PassId)
    requires p in s.passes && PassOk(s, s.passes[p])
    ensures PassOk(s, s.passes[p].(tx := None))
  {
    hide JobOk, ParsedFor, FromRun, AllAdmitted, Holds, RowSet;
  }

  lemma StartedPassOk(t: State)
    ensures PassOk(t, Pass(AskingRoutes, None))
  {
  }

  lemma StartedTxs(s: State, t: State, p: PassId)
    requires TxsOk(s) && p !in s.passes && t == s.(passes := s.passes[p := Pass(AskingRoutes, None)])
    ensures TxsOk(t)
  {
  }

  lemma StartedHeld(s: State, t: State, p: PassId)
    requires HeldOk(s) && p !in s.passes && t == s.(passes := s.passes[p := Pass(AskingRoutes, None)])
    ensures HeldOk(t)
  {
    assert Held(AskingRoutes) == {};
    hide Held, IdsOf;
  }

  lemma StartKeeps(s: State, p: PassId)
    requires Inv(s) && p !in s.passes
    ensures Inv(Next(s, Start(p)))
  {
    hide ClaimsOk, RowsOk, AcceptedOk, CompletedOk, RunsOk, TxsOk, HeldOk, Extends, PassOk, Possible, Live;
    var t := Next(s, Start(p));
    WorldOnly(s, t);
    ExtendsItself(s, t);
    StartedPassOk(t);
    StartedTxs(s, t, p);
    StartedHeld(s, t, p);
    forall q | q in s.passes ensures PassOk(t, s.passes[q]) {
      PassOkExtends(s, t, s.passes[q]);
    }
  }

  lemma ArriveKeeps(s: State, r: RouteId, request: RoutedRequest)
    requires Inv(s) && Enabled(s, Arrive(r, request))
    ensures Inv(Next(s, Arrive(r, request)))
  {
    hide Extends, PassOk, RunsOk, HeldOk, TxsOk, SourceOf, RowSet, Delivered;
    var t := Next(s, Arrive(r, request));
    ArriveExtends(s, r, request);
    forall q | q in s.passes ensures PassOk(t, s.passes[q]) {
      PassOkExtends(s, t, s.passes[q]);
    }
    RunsSame(s, t);
    TxsSame(s, t);
    HeldSame(s, t);
    forall c | c in s.completed && s.requests[c].action == PARSE_ACTION ensures Delivered(t, c) {
      DeliveredExtends(s, t, c);
    }
  }

  lemma ArriveExtends(s: State, r: RouteId, request: RoutedRequest)
    requires r !in s.requests
    ensures Extends(s, s.(requests := s.requests[r := request]))
  {
  }

  lemma TxsSame(s: State, t: State)
    requires TxsOk(s) && t.passes == s.passes && t.runs == s.runs
    ensures TxsOk(t)
  {
  }

  lemma HeldSame(s: State, t: State)
    requires HeldOk(s) && t.passes == s.passes && t.runs == s.runs && t.issued == s.issued
    ensures HeldOk(t)
  {
    hide Held, IdsOf;
  }

  /** The invariant holds in every reachable state. */
  lemma StepKeepsInv(s: State, e: Event)
    requires Inv(s) && Enabled(s, e)
    ensures Inv(Next(s, e))
  {
    hide Inv, Possible, Live, Answered;
    match e
    case Arrive(r, request) => ArriveKeeps(s, r, request);
    case Start(p) => StartKeeps(s, p);
    case Serve(p, reply) => AnsweredKeeps(s, p, reply, reply);
    case Lose(p, reply) => AnsweredKeeps(s, p, reply, Failed);
    case Crash(p) => CrashKeeps(s, p);
    case Abort(p) => AbortKeeps(s, p);
  }

  lemma InitialInv()
    ensures Inv(Initial())
  {
  }

  lemma {:induction false} ReachesInv(s: State, events: seq<Event>, t: State)
    requires Inv(s) && Reaches(s, events, t)
    ensures Inv(t)
    decreases |events|
  {
    hide Inv, Enabled, Next;
    if events != [] {
      StepKeepsInv(s, events[0]);
      ReachesInv(Next(s, events[0]), events[1..], t);
    }
  }
}
