/** A run in which one document version gets two digests. */
module DigestRace {
  import opened Sequences
  import opened Text
  import opened Domain
  import opened Decimals
  import opened Parser
  import opened Scopes
  import opened Passes
  import opened Handoff
  import opened Safety
  import opened VersionDigests

  /** One answered call that changes nothing but the pass itself. */
  lemma Quiet(s: State, p: PassId, reply: Reply, after: Pass)
    requires p in s.passes && Live(s.passes[p].pc) && Possible(s, p, reply)
    requires WorldAfter(s, s.passes[p], reply) == s
    requires after == Pass(Resume(s.passes[p].pc, reply), TxAfter(s.passes[p], reply))
    ensures Enabled(s, Serve(p, reply)) && Next(s, Serve(p, reply)) == s.(passes := s.passes[p := after])
  {
    hide Possible, WorldAfter, Resume, TxAfter, Live;
  }

  lemma {:induction false} ReachesSnoc(s: State, events: seq<Event>, t: State, e: Event)
    requires Reaches(s, events, t) && Enabled(t, e)
    ensures Reaches(s, events + [e], Next(t, e))
    decreases |events|
  {
    hide Enabled, Next;
    var longer := events + [e];
    if events == [] {
      assert longer[1..] == [];
    } else {
      ReachesSnoc(Next(s, events[0]), events[1..], t, e);
      assert longer[1..] == events[1..] + [e];
    }
  }

  /** The state with this pass standing here. */
  function With(s: State, p: PassId, pc: Pc, tx: Option<Tx>): State
  {
    s.(passes := s.passes[p := Pass(pc, tx)])
  }

  lemma RoutesStep(s: State, p: PassId, r: RouteId)
    requires p in s.passes && s.passes[p] == Pass(AskingRoutes, None) && r in s.requests && r !in s.completed
    ensures Leads(s, Serve(p, Routes([r])), With(s, p, Claiming(r), None))
  {
    Quiet(s, p, Routes([r]), Pass(Claiming(r), None));
    hide *;
  }

  /** The state with this claim granted. */
  function Granted(s: State, claim: WorkClaim): State
  {
    s.(claims := s.claims[claim.claimId := claim], tokens := s.tokens[claim.routeId := claim.fencingToken])
  }

  lemma ClaimedStep(s: State, p: PassId, claim: WorkClaim)
    requires p in s.passes && s.passes[p] == Pass(Claiming(claim.routeId), None)
    requires claim.routeId in s.requests && claim.routeId !in s.completed
    requires claim.claimId !in s.claims && claim.routeId !in s.tokens
    ensures Leads(s, Serve(p, Claimed(claim)), With(Granted(s, claim), p, Reading(claim.routeId, claim), None))
  {
    assert KernelMay(s, ProposeClaim(claim.routeId), Claimed(claim));
  }

  lemma FoundStep(s: State, p: PassId, job: Job)
    requires p in s.passes && s.passes[p] == Pass(Reading(job.routeId, job.claim), None)
    requires job.routeId in s.requests && SourceOf(s.requests[job.routeId]) == Some(job.source)
    requires Trim(job.source.sourceText) != ""
    ensures Leads(s, Serve(p, Found(s.requests[job.routeId])), With(s, p, Opening(job), None))
  {
    hide Trim, ParseInputScope;
    Quiet(s, p, Found(s.requests[job.routeId]), Pass(Opening(job), None));
  }

  lemma BegunStep(s: State, p: PassId, job: Job)
    requires p in s.passes && s.passes[p] == Pass(Opening(job), None)
    ensures Leads(s, Serve(p, Done), With(s, p, CheckingDigests(job), Some(NOTHING_WRITTEN)))
  {
    Quiet(s, p, Done, Pass(CheckingDigests(job), Some(NOTHING_WRITTEN)));
    hide *;
  }

  lemma DigestsStep(s: State, p: PassId, job: Job)
    requires p in s.passes && s.passes[p] == Pass(CheckingDigests(job), Some(NOTHING_WRITTEN)) && s.runs == map[]
    ensures Leads(s, Serve(p, Digests([])), With(s, p, FindingRun(job), Some(NOTHING_WRITTEN)))
  {
    Quiet(s, p, Digests([]), Pass(FindingRun(job), Some(NOTHING_WRITTEN)));
    hide *;
  }

  lemma NotRunStep(s: State, p: PassId, job: Job)
    requires p in s.passes && s.passes[p] == Pass(FindingRun(job), Some(NOTHING_WRITTEN)) && s.runs == map[]
    ensures Leads(s, Serve(p, RunFound(false)), With(s, p, Naming(job), Some(NOTHING_WRITTEN)))
  {
    hide ParseCandidates;
    Quiet(s, p, RunFound(false), Pass(Naming(job), Some(NOTHING_WRITTEN)));
    hide *;
  }

  lemma NamedStep(s: State, p: PassId, job: Job)
    requires p in s.passes && s.passes[p] == Pass(Naming(job), Some(NOTHING_WRITTEN))
    requires ParseCandidates(job.source.sourceText) == []
    ensures Leads(s, Serve(p, Ids([])), With(s, p, InsertingRun(job, []), Some(NOTHING_WRITTEN)))
  {
    hide ParseCandidates;
    assert s.issued + (set id | id in []) == s.issued;
    assert WithIds([], []) == [];
    Quiet(s, p, Ids([]), Pass(InsertingRun(job, []), Some(NOTHING_WRITTEN)));
    hide *;
  }

  lemma InsertedStep(s: State, p: PassId, job: Job)
    requires p in s.passes && s.passes[p] == Pass(InsertingRun(job, []), Some(NOTHING_WRITTEN))
    requires job.Key() !in s.runs && !Locked(s, p, job.Key())
    ensures Leads(s, Serve(p, Inserted(1)), With(s, p, Committing(job, [], false), Some(Tx(Some(job.Key()), {}))))
  {
    hide Locked;
    Quiet(s, p, Inserted(1), Pass(Committing(job, [], false), Some(Tx(Some(job.Key()), {}))));
    hide *;
  }

  lemma CommittedStep(s: State, p: PassId, job: Job)
    requires p in s.passes && s.passes[p] == Pass(Committing(job, [], false), Some(Tx(Some(job.Key()), {})))
    ensures Leads(s, Serve(p, Done),
                  With(s.(runs := s.runs[job.Key() := Run(job.routeId, [])], rows := s.rows + {}),
                       p, Completing(job.routeId, job.claim, Parsed(job, [], false)), None))
  {
  }

  lemma Then(s: State, events: seq<Event>, t: State, e: Event, u: State) returns (longer: seq<Event>)
    requires Reaches(s, events, t) && Leads(t, e, u)
    ensures Reaches(s, longer, u)
  {
    hide Enabled, Next, Reaches;
    ReachesSnoc(s, events, t, e);
    longer := events + [e];
  }

  lemma WithTwice(s: State, p: PassId, pc: Pc, tx: Option<Tx>, pc': Pc, tx': Option<Tx>)
    ensures With(With(s, p, pc, tx), p, pc', tx') == With(s, p, pc', tx')
  {
    assert s.passes[p := Pass(pc, tx)][p := Pass(pc', tx')] == s.passes[p := Pass(pc', tx')];
  }

  ghost predicate Claimable(s: State, p: PassId, job: Job)
  {
    && p !in s.passes && job.routeId in s.requests && SourceOf(s.requests[job.routeId]) == Some(job.source)
    && job.routeId !in s.completed && job.routeId !in s.tokens
    && job.claim.routeId == job.routeId && job.claim.claimId !in s.claims
  }

  /** A new pass claims a route and reads its request. */
  lemma ToOpening(s0: State, before: seq<Event>, s: State, p: PassId, job: Job) returns (events: seq<Event>)
    requires Reaches(s0, before, s) && Claimable(s, p, job) && Trim(job.source.sourceText) != ""
    ensures Reaches(s0, events, With(Granted(s, job.claim), p, Opening(job), None))
  {
    hide Reaches, Enabled, Next, SourceOf, Trim;
    var r := job.routeId;
    var s1 := With(s, p, AskingRoutes, None);
    assert Leads(s, Start(p), s1) by { StartLeads(s, p); }
    hide Leads;
    events := Then(s0, before, s, Start(p), s1);
    var s2 := With(s, p, Claiming(r), None);
    RoutesStep(s1, p, r);
    WithTwice(s, p, AskingRoutes, None, Claiming(r), None);
    events := Then(s0, events, s1, Serve(p, Routes([r])), s2);
    var s3 := With(Granted(s, job.claim), p, Reading(r, job.claim), None);
    ClaimedStep(s2, p, job.claim);
    WithTwice(Granted(s, job.claim), p, Claiming(r), None, Reading(r, job.claim), None);
    assert Granted(s2, job.claim) == With(Granted(s, job.claim), p, Claiming(r), None);
    events := Then(s0, events, s2, Serve(p, Claimed(job.claim)), s3);
    FoundStep(s3, p, job);
    WithTwice(Granted(s, job.claim), p, Reading(r, job.claim), None, Opening(job), None);
    events := Then(s0, events, s3, Serve(p, Found(s.requests[r])), With(Granted(s, job.claim), p, Opening(job), None));
  }

  lemma StartLeads(s: State, p: PassId)
    requires p !in s.passes
    ensures Leads(s, Start(p), With(s, p, AskingRoutes, None))
  {
  }

  /** From there, with nothing recorded yet and a text without blocks, to its run insert. */
  lemma ToInserting(s0: State, before: seq<Event>, g: State, p: PassId, job: Job) returns (events: seq<Event>)
    requires Reaches(s0, before, With(g, p, Opening(job), None))
    requires g.runs == map[] && ParseCandidates(job.source.sourceText) == []
    ensures Reaches(s0, events, With(g, p, InsertingRun(job, []), Some(NOTHING_WRITTEN)))
  {
    hide Reaches, Leads, ParseCandidates;
    var tx := Some(NOTHING_WRITTEN);
    BegunStep(With(g, p, Opening(job), None), p, job);
    WithTwice(g, p, Opening(job), None, CheckingDigests(job), tx);
    events := Then(s0, before, With(g, p, Opening(job), None), Serve(p, Done), With(g, p, CheckingDigests(job), tx));
    DigestsStep(With(g, p, CheckingDigests(job), tx), p, job);
    WithTwice(g, p, CheckingDigests(job), tx, FindingRun(job), tx);
    events := Then(s0, events, With(g, p, CheckingDigests(job), tx), Serve(p, Digests([])),
                   With(g, p, FindingRun(job), tx));
    NotRunStep(With(g, p, FindingRun(job), tx), p, job);
    WithTwice(g, p, FindingRun(job), tx, Naming(job), tx);
    events := Then(s0, events, With(g, p, FindingRun(job), tx), Serve(p, RunFound(false)), With(g, p, Naming(job), tx));
    NamedStep(With(g, p, Naming(job), tx), p, job);
    WithTwice(g, p, Naming(job), tx, InsertingRun(job, []), tx);
    events := Then(s0, events, With(g, p, Naming(job), tx), Serve(p, Ids([])),
                   With(g, p, InsertingRun(job, []), tx));
  }

  /** A pass about to insert its run, which no one else is writing, commits it. */
  lemma ToCommitted(s0: State, before: seq<Event>, s: State, p: PassId, job: Job) returns (events: seq<Event>, t: State)
    requires Reaches(s0, before, s)
    requires p in s.passes && s.passes[p] == Pass(InsertingRun(job, []), Some(NOTHING_WRITTEN))
    requires job.Key() !in s.runs && !Locked(s, p, job.Key())
    ensures Reaches(s0, events, t) && t.runs == s.runs[job.Key() := Run(job.routeId, [])]
    ensures t.passes == s.passes[p := Pass(Completing(job.routeId, job.claim, Parsed(job, [], false)), None)]
  {
    hide Reaches, Leads, Locked;
    var pc, tx := Committing(job, [], false), Some(Tx(Some(job.Key()), {}));
    InsertedStep(s, p, job);
    events := Then(s0, before, s, Serve(p, Inserted(1)), With(s, p, pc, tx));
    CommittedStep(With(s, p, pc, tx), p, job);
    var committed := With(s, p, pc, tx).(runs := s.runs[job.Key() := Run(job.routeId, [])], rows := s.rows + {});
    t := With(committed, p, Completing(job.routeId, job.claim, Parsed(job, [], false)), None);
    events := Then(s0, events, With(s, p, pc, tx), Serve(p, Done), t);
  }

  /** A text that is only a separator: it is not blank, and it has no blocks. */
  lemma SeparatorAlone()
    ensures Trim("---") != "" && ParseCandidates("---") == []
  {
    assert Split("---", "---") == ["", ""];
    assert Map(Trim, ["", ""]) == ["", ""];
    assert Filter(NonEmpty, ["", ""]) == [];
  }

  function SourceWith(byte: Byte): SourceReference
  {
    SourceReference(seq(32, _ => 0), 1, seq(32, _ => byte), "p", "---")
  }

  lemma SourceIsRouted(byte: Byte)
    ensures SourceOf(RoutedRequest(PARSE_ACTION, PrintInputScope(SourceWith(byte)))) == Some(SourceWith(byte))
  {
    InputScopeRoundTrip(SourceWith(byte));
    assert AcceptedLocation("p");
    hide ParseInputScope, PrintInputScope;
  }

  lemma RaceScopesFit(byte: Byte)
    ensures |PrintInputScope(SourceWith(byte))| <= SCOPE_LIMIT
  {
    InputScopeLength(SourceWith(byte));
    PrintInt64Length(SourceWith(byte).documentVersion);
    hide PrintInputScope, PrintInt;
  }

  /** Two transactions open at once can record two digests for one document
      version: each looks for digests before the other has committed. */
  lemma ConcurrentDigests() returns (events: seq<Event>, t: State)
    ensures Reaches(Initial(), events, t) && !OneDigest(t)
  {
    hide Reaches, SourceOf, ParseCandidates, Trim, PrintInputScope;
    SeparatorAlone();
    var one := Job("a", WorkClaim("c", "a", 1), SourceWith(0));
    var two := Job("b", WorkClaim("d", "b", 1), SourceWith(1));
    var s0, s: State;
    s0 := Initial();
    events, s := TwoArrivals(one, two);
    events := ToOpening(s0, events, s, 0, one);
    events := ToInserting(s0, events, Granted(s, one.claim), 0, one);
    var s1 := With(Granted(s, one.claim), 0, InsertingRun(one, []), Some(NOTHING_WRITTEN));
    events := ToOpening(s0, events, s1, 1, two);
    events := ToInserting(s0, events, Granted(s1, two.claim), 1, two);
    var s2 := With(Granted(s1, two.claim), 1, InsertingRun(two, []), Some(NOTHING_WRITTEN));
    assert s2.passes[0] == Pass(InsertingRun(one, []), Some(NOTHING_WRITTEN));
    var s3;
    events, s3 := ToCommitted(s0, events, s2, 0, one);
    assert one.source.contentDigest[0] != two.source.contentDigest[0];
    assert one.Key() != two.Key();
    events, t := ToCommitted(s0, events, s3, 1, two);
    assert one.Key() in t.runs && two.Key() in t.runs;
  }

  lemma Arrives(s0: State, before: seq<Event>, s: State, r: RouteId, request: RoutedRequest)
    returns (events: seq<Event>)
    requires Reaches(s0, before, s) && r !in s.requests && |request.scope| <= SCOPE_LIMIT
    ensures Reaches(s0, events, s.(requests := s.requests[r := request]))
  {
    ArriveLeads(s, r, request);
    hide Reaches, Leads;
    events := Then(s0, before, s, Arrive(r, request), s.(requests := s.requests[r := request]));
  }

  lemma ArriveLeads(s: State, r: RouteId, request: RoutedRequest)
    requires r !in s.requests && |request.scope| <= SCOPE_LIMIT
    ensures Leads(s, Arrive(r, request), s.(requests := s.requests[r := request]))
  {
  }

  function RequestFor(source: SourceReference): RoutedRequest
  {
    RoutedRequest(PARSE_ACTION, PrintInputScope(source))
  }

  /** Both requests arrive. */
  lemma TwoArrivals(one: Job, two: Job) returns (events: seq<Event>, s: State)
    requires one == Job("a", WorkClaim("c", "a", 1), SourceWith(0))
    requires two == Job("b", WorkClaim("d", "b", 1), SourceWith(1))
    ensures Reaches(Initial(), events, s)
    ensures "a" in s.requests && SourceOf(s.requests["a"]) == Some(one.source)
    ensures "b" in s.requests && SourceOf(s.requests["b"]) == Some(two.source)
    ensures s == Initial().(requests := s.requests)
  {
    SourceIsRouted(0);
    SourceIsRouted(1);
    RaceScopesFit(0);
    RaceScopesFit(1);
    ReachesSelf(Initial());
    hide Reaches, SourceOf, PrintInputScope, SourceWith;
    var first, second := RequestFor(one.source), RequestFor(two.source);
    var s1 := Initial().(requests := Initial().requests["a" := first]);
    events := Arrives(Initial(), [], Initial(), "a", first);
    s := s1.(requests := s1.requests["b" := second]);
    events := Arrives(Initial(), events, s1, "b", second);
  }

  lemma ReachesSelf(s: State)
    ensures Reaches(s, [], s)
  {
  }
}
