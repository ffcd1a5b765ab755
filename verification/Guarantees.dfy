/** The guarantees the service documents about its hand-off, for every run of
    any number of passes. */
module Guarantees {
  import opened Sequences
  import opened Domain
  import opened Uuids
  import opened Parser
  import opened Scopes
  import opened Rows
  import opened Passes
  import opened Handoff
  import opened Safety

  ghost predicate Reachable(s: State)
  {
    exists events :: Reaches(Initial(), events, s)
  }

  lemma ReachableInv(s: State)
    requires Reachable(s)
    ensures Inv(s)
  {
    hide Inv, Reaches, Initial;
    var events :| Reaches(Initial(), events, s);
    InitialInv();
    ReachesInv(Initial(), events, s);
  }

  // ---------- the tables as a write-once map ----------

  ghost function SetOf(list: seq<Candidate>): set<Candidate> { set c | c in list }

  /** The candidates the rows with this key store. */
  ghost function StoredFor(s: State, key: Key): set<Candidate>
  {
    set row | row in s.rows && row.key == key && CandidateOf(row).Some? :: CandidateOf(row).value
  }

  /** The two tables, read as a map from keys to candidates. */
  ghost function Stored(s: State): map<Key, set<Candidate>>
  {
    map key | key in s.runs :: StoredFor(s, key)
  }

  lemma StoredIsRun(s: State, key: Key)
    requires RowsOk(s)
    ensures StoredFor(s, key) == if key in s.runs then SetOf(s.runs[key].candidates) else {}
    ensures forall row :: row in s.rows ==> row.key in s.runs && CandidateOf(row).Some?
  {
    hide RowOf, CandidateOf;
    forall row | row in s.rows
      ensures row.key in s.runs && CandidateOf(row).Some?
              && CandidateOf(row).value in s.runs[row.key].candidates
    {
      var c :| c in s.runs[row.key].candidates && row == RowOf(row.key, c);
      RowRoundTrip(row.key, c);
    }
    if key in s.runs {
      forall c | c in s.runs[key].candidates ensures c in StoredFor(s, key) {
        RowRoundTrip(key, c);
        RowKey(key, c);
        assert RowOf(key, c) in RowSet(key, s.runs[key].candidates);
        assert RowOf(key, c) in s.rows;
      }
    }
  }

  lemma RowKey(key: Key, c: Candidate)
    ensures RowOf(key, c).key == key
  {
  }

  /** The candidates are a source's parse: its drafts, block by block, each under its own id. */
  ghost predicate IsParse(candidates: set<Candidate>, text: string)
  {
    exists list: seq<Candidate> ::
      SetOf(list) == candidates && DistinctIds(list) && DraftsOf(list) == ParseCandidates(text)
  }

  /** The key is new, and the list is the parse of what route `r` asks for under that key. */
  ghost predicate FirstParse(s: State, key: Key, r: RouteId, list: seq<Candidate>)
  {
    && key !in s.runs && r in s.requests && SourceOf(s.requests[r]).Some?
    && KeyOf(SourceOf(s.requests[r]).value, PARSER_VERSION) == key
    && DistinctIds(list) && DraftsOf(list) == ParseCandidates(SourceOf(s.requests[r]).value.sourceText)
  }

  /** Refinement: every step leaves the map as it is or binds one new key, to the
      parse of a routed request that names that key. */
  lemma StepRefinesWriteOnceMap(s: State, e: Event)
    requires Inv(s) && Enabled(s, e)
    ensures var t := Next(s, e);
      || Stored(t) == Stored(s)
      || exists key, r ::
           && key !in Stored(s) && r in s.requests && SourceOf(s.requests[r]).Some?
           && KeyOf(SourceOf(s.requests[r]).value, PARSER_VERSION) == key
           && IsParse(StoredFor(t, key), SourceOf(s.requests[r]).value.sourceText)
           && Stored(t) == Stored(s)[key := StoredFor(t, key)]
  {
    hide Inv, Enabled, Next, Stored, StoredFor, RunsOk, RowsOk, TxsOk, PassesOk, AcceptedOk, CompletedOk, FirstParse,
         IsParse, SourceOf;
    var t := Next(s, e);
    StepKeepsInv(s, e);
    InvParts(s);
    InvParts(t);
    StepRuns(s, e);
    if t.runs == s.runs {
      StoredSame(s, t);
    } else {
      var key, r, list :| FirstParse(s, key, r, list) && t.runs == s.runs[key := Run(r, list)];
      StoredAdds(s, t, key, r, list);
    }
  }

  lemma StoredSame(s: State, t: State)
    requires RowsOk(s) && RowsOk(t) && t.runs == s.runs
    ensures Stored(t) == Stored(s)
  {
    hide RowsOk, StoredFor;
    forall key ensures StoredFor(t, key) == StoredFor(s, key) {
      StoredIsRun(s, key);
      StoredIsRun(t, key);
    }
  }

  lemma StoredAdds(s: State, t: State, key: Key, r: RouteId, list: seq<Candidate>)
    requires RowsOk(s) && RowsOk(t) && FirstParse(s, key, r, list) && t.runs == s.runs[key := Run(r, list)]
    ensures key !in Stored(s) && Stored(t) == Stored(s)[key := StoredFor(t, key)]
    ensures r in s.requests && SourceOf(s.requests[r]).Some?
    ensures KeyOf(SourceOf(s.requests[r]).value, PARSER_VERSION) == key
    ensures IsParse(StoredFor(t, key), SourceOf(s.requests[r]).value.sourceText)
  {
    hide RowsOk, StoredFor, SourceOf, DistinctIds, DraftsOf, ParseCandidates;
    forall k | k in s.runs ensures StoredFor(t, k) == StoredFor(s, k) {
      StoredIsRun(s, k);
      StoredIsRun(t, k);
    }
    StoredIsRun(t, key);
  }

  lemma InvParts(s: State)
    requires Inv(s)
    ensures RowsOk(s) && RunsOk(s) && TxsOk(s) && PassesOk(s) && AcceptedOk(s) && CompletedOk(s)
  {
    hide RunsOk, RowsOk, TxsOk, ClaimsOk, HeldOk, PassesOk, AcceptedOk, CompletedOk;
  }

  lemma StepRuns(s: State, e: Event)
    requires Inv(s) && Enabled(s, e)
    ensures var t := Next(s, e);
      t.runs == s.runs
      || exists key, r, list :: FirstParse(s, key, r, list) && t.runs == s.runs[key := Run(r, list)]
  {
    if e.Serve? || e.Lose? {
      AnsweredRuns(s, e.pass, e.reply);
    }
    hide Inv, Possible, Live, WorldAfter, TxAfter, Resume, FirstParse;
  }

  lemma AnsweredRuns(s: State, p: PassId, reply: Reply)
    requires Inv(s) && p in s.passes && Live(s.passes[p].pc) && Possible(s, p, reply)
    ensures var runs := WorldAfter(s, s.passes[p], reply).runs;
      runs == s.runs
      || exists key, r, list :: FirstParse(s, key, r, list) && runs == s.runs[key := Run(r, list)]
  {
    hide RunsOk, RowsOk, ClaimsOk, HeldOk, AcceptedOk, CompletedOk, PassOk, Meant, WorldAfter, Live, Possible,
         SourceOf, DistinctIds, DraftsOf, RowSet;
    var pass := s.passes[p];
    PossibleMeans(s, p, reply);
    AddedRuns(s, p, reply);
    if pass.pc.Committing? && reply.Done? && Writing(pass).Some? {
      NewRun(s, p, reply);
      var key, r, list := pass.pc.job.Key(), pass.pc.job.routeId, pass.pc.candidates;
      assert FirstParse(s, key, r, list);
      hide Before, TxsOk, Writing, FirstParse;
      assert s.runs + map[key := Run(r, list)] == s.runs[key := Run(r, list)];
    } else {
      assert s.runs + map[] == s.runs;
    }
  }

  /** Write-once over whole runs: once a key is bound, nothing that happens later changes what it is bound to. */
  lemma {:induction false} WriteOnce(s: State, events: seq<Event>, t: State, key: Key)
    requires Inv(s) && Reaches(s, events, t) && key in s.runs
    ensures key in t.runs && StoredFor(t, key) == StoredFor(s, key)
    decreases |events|
  {
    hide Inv, Enabled, Next, StoredFor, RowsOk, TxsOk, RunsOk, PassesOk, AcceptedOk, CompletedOk, Extends;
    if events != [] {
      var next := Next(s, events[0]);
      StepKeepsInv(s, events[0]);
      InvParts(s);
      InvParts(next);
      NextExtends(s, events[0]);
      ExtendsRun(s, next, key);
      StoredIsRun(s, key);
      StoredIsRun(next, key);
      WriteOnce(next, events[1..], t, key);
    }
  }

  lemma ExtendsRun(s: State, t: State, key: Key)
    requires Extends(s, t) && key in s.runs
    ensures key in t.runs && t.runs[key] == s.runs[key]
  {
  }

  /** Candidate rows exist only for committed runs; each reads back, and no two share an id. */
  lemma RowsBelongToRuns(s: State)
    requires Reachable(s)
    ensures forall row :: row in s.rows ==>
              row.key in s.runs && CandidateOf(row).Some? && CandidateOf(row).value in StoredFor(s, row.key)
    ensures forall row, other ::
      row in s.rows && other in s.rows && row.candidateId == other.candidateId ==> row == other
  {
    hide Reachable, Inv, RunsOk, RowsOk, TxsOk, PassesOk, AcceptedOk, CompletedOk, StoredFor, CandidateOf, RowOf;
    ReachableInv(s);
    InvParts(s);
    forall row | row in s.rows
      ensures row.key in s.runs && CandidateOf(row).Some? && CandidateOf(row).value in StoredFor(s, row.key)
    {
      StoredIsRun(s, row.key);
      StoredRow(s, row);
    }
    forall row, other | row in s.rows && other in s.rows && row.candidateId == other.candidateId ensures row == other {
      SameIdSameRow(s, row, other);
    }
  }

  lemma StoredRow(s: State, row: CandidateRow)
    requires row in s.rows && CandidateOf(row).Some?
    ensures CandidateOf(row).value in StoredFor(s, row.key)
  {
  }

  /** The candidate a row stores. */
  lemma RowOrigin(s: State, row: CandidateRow) returns (c: Candidate)
    requires RowsOk(s) && row in s.rows
    ensures row.key in s.runs && c in s.runs[row.key].candidates && row == RowOf(row.key, c)
    ensures row.candidateId == PrintUuid(c.id)
  {
    hide RowOf, PrintUuid;
    c :| c in s.runs[row.key].candidates && row == RowOf(row.key, c);
    RowIds(row.key, c);
  }

  /** Stored candidates with one id are one candidate of one key. */
  lemma SameIdSameStored(s: State, key: Key, c: Candidate, other: Key, d: Candidate)
    requires RunsOk(s) && key in s.runs && c in s.runs[key].candidates
    requires other in s.runs && d in s.runs[other].candidates && c.id == d.id
    ensures key == other && c == d
  {
    hide RunOk;
    assert c.id in IdsOf(s.runs[key].candidates) && d.id in IdsOf(s.runs[other].candidates);
    hide IdsOf;
    RunDistinct(s, key);
  }

  lemma SameIdSameRow(s: State, row: CandidateRow, other: CandidateRow)
    requires RowsOk(s) && RunsOk(s) && row in s.rows && other in s.rows && row.candidateId == other.candidateId
    ensures row == other
  {
    hide RowsOk, RunsOk, RowOf, PrintUuid;
    var c := RowOrigin(s, row);
    var d := RowOrigin(s, other);
    PrintUuidInjective(c.id, d.id);
    SameIdSameStored(s, row.key, c, other.key, d);
  }

  lemma RowIds(key: Key, c: Candidate)
    ensures RowOf(key, c).candidateId == PrintUuid(c.id)
  {
  }

  // ---------- what `parse_once` returns ----------

  /** The candidates a pass's `parse_once` returned to it, while it still has them. */
  function Returned(pc: Pc): Option<(Job, seq<Candidate>)>
  {
    match pc
    case Submitting(job, candidates, _, _) => Some((job, candidates))
    case Completing(_, _, Parsed(job, candidates, _)) => Some((job, candidates))
    case _ => None
  }

  lemma ReturnedIsRun(s: State, p: PassId)
    requires PassesOk(s) && p in s.passes && Returned(s.passes[p].pc).Some?
    ensures var (job, candidates) := Returned(s.passes[p].pc).value;
      JobOk(s, job) && FromRun(s, job.Key(), candidates)
  {
    assert PassOk(s, s.passes[p]);
    hide JobOk, FromRun, AllAdmitted, Holds;
  }

  /** `parse_once` returns what the map holds for its key, each candidate once. */
  lemma ParseOnceReturnsStored(s: State, p: PassId)
    requires Inv(s) && p in s.passes && Returned(s.passes[p].pc).Some?
    ensures var (job, candidates) := Returned(s.passes[p].pc).value;
      job.Key() in s.runs && DistinctIds(candidates) && SetOf(candidates) == StoredFor(s, job.Key())
  {
    hide RowsOk, RunsOk, TxsOk, PassesOk, AcceptedOk, CompletedOk, StoredFor, Inv;
    InvParts(s);
    ReturnedIsRun(s, p);
    var (job, candidates) := Returned(s.passes[p].pc).value;
    var key := job.Key();
    StoredIsRun(s, key);
    RunDistinct(s, key);
    hide Returned, JobOk, Job.Key;
    var run := s.runs[key].candidates;
    forall c ensures c in candidates <==> c in run {
      assert c in multiset(candidates) <==> c in multiset(run);
    }
    DistinctPermutation(run, candidates);
  }

  lemma RunDistinct(s: State, key: Key)
    requires RunsOk(s) && key in s.runs
    ensures DistinctIds(s.runs[key].candidates)
  {
    assert RunOk(s, key);
  }

  lemma DistinctPermutation(run: seq<Candidate>, candidates: seq<Candidate>)
    requires DistinctIds(run) && multiset(candidates) == multiset(run)
    ensures DistinctIds(candidates)
  {
    forall i, j | 0 <= i < j < |candidates| ensures candidates[i].id != candidates[j].id {
      var c, d := candidates[i], candidates[j];
      assert candidates == candidates[..j] + [d] + candidates[j + 1..];
      assert c in candidates[..j];
      if c == d {
        assert multiset(candidates)[c] >= 2;
        NoDupCount(run, c);
      } else {
        assert c in multiset(run) && d in multiset(run);
      }
    }
  }

  /** Any two passes, however far apart in a run or racing, that get candidates
      for one key get the same ones. */
  lemma ParsesAgree(s: State, events: seq<Event>, t: State, p: PassId, q: PassId)
    requires Reachable(s) && Reaches(s, events, t)
    requires p in s.passes && Returned(s.passes[p].pc).Some? && q in t.passes && Returned(t.passes[q].pc).Some?
    requires Returned(s.passes[p].pc).value.0.Key() == Returned(t.passes[q].pc).value.0.Key()
    ensures multiset(Returned(s.passes[p].pc).value.1) == multiset(Returned(t.passes[q].pc).value.1)
  {
    hide Reachable, Reaches, Inv, StoredFor, DistinctIds;
    ReachableInv(s);
    ReachesInv(s, events, t);
    ParseOnceReturnsStored(s, p);
    ParseOnceReturnsStored(t, q);
    var one, other := Returned(s.passes[p].pc).value, Returned(t.passes[q].pc).value;
    WriteOnce(s, events, t, one.0.Key());
    hide Returned;
    SameElements(one.1, other.1);
  }

  lemma SameElements(xs: seq<Candidate>, ys: seq<Candidate>)
    requires DistinctIds(xs) && DistinctIds(ys) && SetOf(xs) == SetOf(ys)
    ensures multiset(xs) == multiset(ys)
  {
    forall c ensures c in xs <==> c in ys {
      assert c in SetOf(xs) <==> c in SetOf(ys);
    }
    NoDupMultisets(xs, ys);
  }

  // ---------- no lost hand-off ----------

  /** This request names the key, and its text's parse is what is stored for the key. */
  ghost predicate StoredFrom(s: State, first: RouteId, key: Key)
  {
    && first in s.requests && SourceOf(s.requests[first]).Some?
    && KeyOf(SourceOf(s.requests[first]).value, PARSER_VERSION) == key
    && IsParse(StoredFor(s, key), SourceOf(s.requests[first]).value.sourceText)
  }

  /** A `pf2e.parse` route the kernel holds as completed has had every candidate
      stored for its key submitted for it and accepted, with its own source, and
      those candidates are a parse of a text received under that key. */
  lemma NoLostHandoff(s: State, r: RouteId)
    requires Reachable(s) && r in s.completed && r in s.requests && s.requests[r].action == PARSE_ACTION
    ensures SourceOf(s.requests[r]).Some?
    ensures var source := SourceOf(s.requests[r]).value;
      var key := KeyOf(source, PARSER_VERSION);
      && key in s.runs
      && (forall c :: c in StoredFor(s, key) ==> Admission(r, source, c) in s.accepted)
      && (forall row :: row in s.rows && row.key == key ==>
            CandidateOf(row).Some? && CandidateOf(row).value in StoredFor(s, key))
      && exists first :: StoredFrom(s, first, key)
  {
    hide Reachable, Inv, RunsOk, RowsOk, TxsOk, PassesOk, AcceptedOk, SourceOf, DistinctIds, DraftsOf,
         ParseCandidates, CandidateOf;
    ReachableInv(s);
    InvParts(s);
    assert Delivered(s, r);
    var key := KeyOf(SourceOf(s.requests[r]).value, PARSER_VERSION);
    StoredIsRun(s, key);
    StoredParse(s, key);
    hide IsParse;
  }

  lemma StoredParse(s: State, key: Key)
    requires RowsOk(s) && RunsOk(s) && key in s.runs
    ensures StoredFrom(s, s.runs[key].routeId, key)
  {
    hide RowsOk, RunsOk, SourceOf, DistinctIds, DraftsOf, ParseCandidates, StoredFor;
    StoredIsRun(s, key);
    RunFacts(s, key);
  }

  lemma RunFacts(s: State, key: Key)
    requires RunsOk(s) && key in s.runs
    ensures var run := s.runs[key];
      && run.routeId in s.requests && SourceOf(s.requests[run.routeId]).Some?
      && KeyOf(SourceOf(s.requests[run.routeId]).value, PARSER_VERSION) == key
      && DistinctIds(run.candidates)
      && DraftsOf(run.candidates) == ParseCandidates(SourceOf(s.requests[run.routeId]).value.sourceText)
  {
    assert RunOk(s, key);
    hide RunsOk, SourceOf, DistinctIds, DraftsOf;
  }

  /** Every candidate stored for the route's key can be printed for the route
      within the kernel's limit. */
  ghost predicate StoredFits(s: State, source: SourceReference)
  {
    forall c :: c in StoredFor(s, KeyOf(source, PARSER_VERSION)) ==> Fits(source, c.draft)
  }

  /** A route is never completed when a candidate of its key is over the limit. */
  lemma CompletedFits(s: State, r: RouteId)
    requires Reachable(s) && r in s.completed && r in s.requests && s.requests[r].action == PARSE_ACTION
    ensures SourceOf(s.requests[r]).Some? && StoredFits(s, SourceOf(s.requests[r]).value)
  {
    hide Reachable, Inv, RunsOk, RowsOk, TxsOk, PassesOk, SourceOf, StoredFor, IsParse, CandidateOf, Fits,
         CompletedOk;
    ReachableInv(s);
    InvParts(s);
    NoLostHandoff(s, r);
    var source := SourceOf(s.requests[r]).value;
    forall c | c in StoredFor(s, KeyOf(source, PARSER_VERSION)) ensures Fits(source, c.draft) {
      var a := Admission(r, source, c);
      assert a in s.accepted && |a.Scope()| <= SCOPE_LIMIT;
      FitsIff(source, c);
    }
  }

  // ---------- no duplicate rules ----------

  /** What a receiver reads of an admission. */
  function HeaderRead(a: Admission): AdmitHeader
  {
    AdmitScopeReads(a.source, a.candidate);
    ReadAdmitScope(a.Scope()).value.0
  }

  function KeyRead(h: AdmitHeader): Key
  {
    Key(h.documentId, h.documentVersion, h.contentDigest, h.parserVersion)
  }

  /** The ids of the rules a receiver that keeps one rule per `candidate_id` holds for a key. */
  ghost function RuleIds(s: State, key: Key): set<Uuid>
  {
    set a | a in s.accepted && KeyRead(HeaderRead(a)) == key :: HeaderRead(a).candidateId
  }

  ghost function StoredIds(s: State, key: Key): set<Uuid>
  {
    set c | c in StoredFor(s, key) :: c.id
  }

  lemma HeaderReadIs(a: Admission)
    ensures HeaderRead(a).candidateId == a.candidate.id && KeyRead(HeaderRead(a)) == a.Key()
    ensures HeaderRead(a) == HeaderOf(a.source, a.candidate)
  {
    AdmitScopeReads(a.source, a.candidate);
    hide ReadAdmitScope, AdmitScopeFor;
  }

  lemma AdmittedIsStored(s: State, a: Admission)
    requires Inv(s) && a in s.accepted
    ensures a.Key() in s.runs && a.candidate in StoredFor(s, a.Key())
  {
    hide Inv, RowsOk, RunsOk, TxsOk, PassesOk, CompletedOk, SourceOf, StoredFor;
    InvParts(s);
    StoredIsRun(s, a.Key());
  }

  /** The kernel holds a `pf2e.parse` route that names this key as completed. */
  predicate CompletedFor(s: State, r: RouteId, key: Key)
  {
    && r in s.completed && r in s.requests && s.requests[r].action == PARSE_ACTION
    && SourceOf(s.requests[r]).Some? && KeyOf(SourceOf(s.requests[r]).value, PARSER_VERSION) == key
  }

  /** All admissions ever accepted for a key draw from the one stored set; once a
      route with that key is completed the receiver holds exactly that set. */
  lemma ReceiverHoldsTheRun(s: State, key: Key)
    requires Reachable(s)
    ensures RuleIds(s, key) <= StoredIds(s, key)
    ensures (exists r :: CompletedFor(s, r, key)) ==> RuleIds(s, key) == StoredIds(s, key)
  {
    hide Reachable, Inv, HeaderRead, KeyRead, StoredFor, SourceOf, IsParse, CandidateOf;
    ReachableInv(s);
    forall a | a in s.accepted && KeyRead(HeaderRead(a)) == key ensures HeaderRead(a).candidateId in StoredIds(s, key) {
      HeaderReadIs(a);
      AdmittedIsStored(s, a);
    }
    if r :| CompletedFor(s, r, key) {
      NoLostHandoff(s, r);
      var source := SourceOf(s.requests[r]).value;
      forall c | c in StoredFor(s, key) ensures c.id in RuleIds(s, key) {
        var a := Admission(r, source, c);
        HeaderReadIs(a);
        assert a in s.accepted;
      }
    }
  }

  /** Keeping one rule per `candidate_id` merges only admissions of one and the
      same candidate of one key: they agree on everything but the location. */
  lemma SameIdSameCandidate(s: State, a: Admission, b: Admission)
    requires Reachable(s) && a in s.accepted && b in s.accepted
    requires HeaderRead(a).candidateId == HeaderRead(b).candidateId
    ensures a.candidate == b.candidate && a.Key() == b.Key() && HeaderRead(a) == HeaderRead(b)
  {
    hide Reachable, Inv, HeaderRead, KeyRead, RowsOk, TxsOk, PassesOk, CompletedOk, SourceOf, RunOk;
    ReachableInv(s);
    InvParts(s);
    HeaderReadIs(a);
    HeaderReadIs(b);
    assert a.candidate in s.runs[a.Key()].candidates && b.candidate in s.runs[b.Key()].candidates;
    assert a.candidate.id in IdsOf(s.runs[a.Key()].candidates) && b.candidate.id in IdsOf(s.runs[b.Key()].candidates);
    RunDistinct(s, a.Key());
  }

  lemma {:induction false} IdsCount(candidates: seq<Candidate>)
    requires DistinctIds(candidates)
    ensures |IdsOf(candidates)| == |candidates|
  {
    if candidates != [] {
      var front, last := candidates[..|candidates| - 1], candidates[|candidates| - 1];
      assert candidates == front + [last];
      IdsCount(front);
      assert last.id !in IdsOf(front);
      assert IdsOf(candidates) == IdsOf(front) + {last.id};
    }
  }

  /** So after completion there is one rule per block of the parsed text. */
  lemma OneRulePerBlock(s: State, r: RouteId)
    requires Reachable(s) && r in s.completed && r in s.requests && s.requests[r].action == PARSE_ACTION
    ensures SourceOf(s.requests[r]).Some?
    ensures var key := KeyOf(SourceOf(s.requests[r]).value, PARSER_VERSION);
      exists first :: first in s.requests && SourceOf(s.requests[first]).Some?
        && KeyOf(SourceOf(s.requests[first]).value, PARSER_VERSION) == key
        && |RuleIds(s, key)| == |Blocks(SourceOf(s.requests[first]).value.sourceText)|
  {
    hide Reachable, Inv, RunsOk, RowsOk, TxsOk, PassesOk, AcceptedOk, SourceOf, DistinctIds,
         StoredFor, RuleIds, IsParse, CandidateOf, Blocks, ReadBlock;
    ReachableInv(s);
    InvParts(s);
    NoLostHandoff(s, r);
    var key := KeyOf(SourceOf(s.requests[r]).value, PARSER_VERSION);
    assert CompletedFor(s, r, key);
    ReceiverHoldsTheRun(s, key);
    RunFacts(s, key);
    StoredIsRun(s, key);
    var run := s.runs[key];
    IdsCount(run.candidates);
    assert StoredIds(s, key) == IdsOf(run.candidates);
    assert |DraftsOf(run.candidates)| == |run.candidates|;
  }
}
