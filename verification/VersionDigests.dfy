/** The digest check of `parse_once`: a document version gets two content
    digests exactly when a pass commits a run after a conflicting one was
    committed since its digest check. */
module VersionDigests {
  import opened Text
  import opened Domain
  import opened Parser
  import opened Scopes
  import opened Rows
  import opened Passes
  import opened Handoff
  import opened Safety

  predicate OfVersion(key: Key, documentId: Uuid, documentVersion: Int64)
  {
    key.documentId == documentId && key.documentVersion == documentVersion
  }

  ghost predicate OneDigest(s: State)
  {
    forall key, other ::
      key in s.runs && other in s.runs && OfVersion(key, other.documentId, other.documentVersion) ==>
        key.contentDigest == other.contentDigest
  }

  /** Two sources give one document version two digests. */
  predicate Conflicts(one: SourceReference, other: SourceReference)
  {
    one.documentId == other.documentId && one.documentVersion == other.documentVersion
    && one.contentDigest != other.contentDigest
  }

  /** Every run of this document version has this digest. */
  ghost predicate Agrees(s: State, source: SourceReference)
  {
    forall key :: key in s.runs && OfVersion(key, source.documentId, source.documentVersion) ==>
      key.contentDigest == source.contentDigest
  }

  /** The pass is past its digest check and may still write its run. */
  predicate PastCheck(pc: Pc)
  {
    pc.FindingRun? || pc.Naming? || pc.InsertingRun? || pc.InsertingRows?
    || (pc.Committing? && !pc.wasAlreadyProcessed)
  }

  /** The pass has a transaction open in which it may still write its run. */
  predicate MayCommit(pass: Pass) { pass.tx.Some? && PastCheck(pass.pc) }

  /** No two passes that may commit are about one version with two digests. */
  ghost predicate Calm(s: State)
  {
    forall p, q :: p in s.passes && q in s.passes && MayCommit(s.passes[p]) && MayCommit(s.passes[q]) ==>
      !Conflicts(s.passes[p].pc.job.source, s.passes[q].pc.job.source)
  }

  ghost predicate CalmRun(s: State, events: seq<Event>, t: State)
    decreases |events|
  {
    Calm(s)
    && if events == [] then s == t
       else Enabled(s, events[0]) && CalmRun(Next(s, events[0]), events[1..], t)
  }

  /** What its digest check told a pass still holds while its transaction is open. */
  ghost predicate CheckHolds(s: State)
  {
    forall p :: p in s.passes && MayCommit(s.passes[p]) ==> Agrees(s, s.passes[p].pc.job.source)
  }

  /** A pass is past its check with a transaction open only if it was before, or just passed it. */
  lemma PastCheckBefore(pass: Pass, reply: Reply, heard: Reply)
    requires Live(pass.pc)
    ensures var pc := Resume(pass.pc, heard);
      TxAfter(pass, reply).Some? && PastCheck(pc) ==>
        || (pass.pc.CheckingDigests? && heard.Digests? && AfterDigests(pass.pc.job, heard).FindingRun?
            && pc.job == pass.pc.job)
        || (PastCheck(pass.pc) && pass.tx.Some? && pc.job == pass.pc.job)
  {
    hide ParseCandidates, LoadCandidates, ParseInputScope, Trim, RowOf, WithIds;
  }

  lemma CheckedAfter(s: State, p: PassId, reply: Reply, heard: Reply)
    requires p in s.passes && Live(s.passes[p].pc) && Possible(s, p, reply) && CheckHolds(s)
    requires heard == reply || heard.Failed?
    ensures var pass := s.passes[p];
      var pc := Resume(pass.pc, heard);
      TxAfter(pass, reply).Some? && PastCheck(pc) ==> Agrees(s, pc.job.source)
  {
    hide Possible, Agrees, TxAfter, Resume, Live, AfterDigests;
    var pass := s.passes[p];
    PastCheckBefore(pass, reply, heard);
    if pass.pc.CheckingDigests? && heard.Digests? {
      DigestsSeen(s, p, reply);
    }
  }

  lemma DigestsSeen(s: State, p: PassId, reply: Reply)
    requires p in s.passes && s.passes[p].pc.CheckingDigests? && Possible(s, p, reply) && reply.Digests?
    ensures AfterDigests(s.passes[p].pc.job, reply).FindingRun? ==> Agrees(s, s.passes[p].pc.job.source)
  {
    var pass := s.passes[p];
    var source := pass.pc.job.source;
    assert DatabaseMay(s, p, pass.tx, FindDigests(source.documentId, source.documentVersion), reply);
    forall key | key in s.runs && OfVersion(key, source.documentId, source.documentVersion)
      ensures key.contentDigest in reply.digests
    {
      assert Sees(s, pass.tx.value, key);
    }
  }

  lemma AnsweredCalm(s: State, p: PassId, reply: Reply, heard: Reply)
    requires Inv(s) && OneDigest(s) && CheckHolds(s) && Calm(s)
    requires p in s.passes && Live(s.passes[p].pc) && Possible(s, p, reply) && (heard == reply || heard.Failed?)
    ensures OneDigest(Answered(s, p, reply, heard)) && CheckHolds(Answered(s, p, reply, heard))
  {
    hide PassOk, Meant, Possible, WorldAfter, TxAfter, Resume, RowsOk, RunsOk, TxsOk, HeldOk, ClaimsOk, AcceptedOk,
         CompletedOk, Live, Writing, JobOk, ParsedFor, RowSet, Agrees, OneDigest, CheckHolds, Calm;
    var pass := s.passes[p];
    PossibleMeans(s, p, reply);
    assert Before(s, p, reply);
    AddedRuns(s, p, reply);
    var t := Answered(s, p, reply, heard);
    if pass.pc.Committing? && reply.Done? && Writing(pass).Some? {
      NewRun(s, p, reply);
      CommitClosesTx(pass, reply);
      WritingIsOpen(pass);
      assert s.runs + map[pass.pc.job.Key() := Run(pass.pc.job.routeId, pass.pc.candidates)]
             == s.runs[pass.pc.job.Key() := Run(pass.pc.job.routeId, pass.pc.candidates)];
      CommitCalm(s, t, p, Run(pass.pc.job.routeId, pass.pc.candidates));
    } else {
      assert s.runs + map[] == s.runs;
      CheckedAfter(s, p, reply, heard);
      CheckSame(s, t, p, Pass(Resume(pass.pc, heard), TxAfter(pass, reply)));
    }
  }

  lemma CheckSame(s: State, t: State, p: PassId, after: Pass)
    requires OneDigest(s) && CheckHolds(s) && t.runs == s.runs && t.passes == s.passes[p := after]
    requires after.tx.Some? && PastCheck(after.pc) ==> Agrees(s, after.pc.job.source)
    ensures OneDigest(t) && CheckHolds(t)
  {
    AgreesSame(s, t);
    hide Agrees, OneDigest;
  }

  /** A committed run has the digest every other run of the version has, and
      that every other pass that may still commit will want. */
  lemma CommitCalm(s: State, t: State, p: PassId, run: Run)
    requires OneDigest(s) && CheckHolds(s) && Calm(s)
    requires p in s.passes && MayCommit(s.passes[p])
    requires t.runs == s.runs[s.passes[p].pc.job.Key() := run]
    requires p in t.passes && t.passes == s.passes[p := t.passes[p]] && t.passes[p].tx.None?
    ensures OneDigest(t) && CheckHolds(t)
  {
    var source := s.passes[p].pc.job.source;
    assert Agrees(s, source);
    forall q | q in t.passes && MayCommit(t.passes[q]) ensures Agrees(t, t.passes[q].pc.job.source) {
      assert Agrees(s, s.passes[q].pc.job.source) && !Conflicts(source, s.passes[q].pc.job.source);
    }
  }

  lemma AgreesSame(s: State, t: State)
    requires t.runs == s.runs
    ensures forall source :: Agrees(s, source) ==> Agrees(t, source)
    ensures OneDigest(s) ==> OneDigest(t)
  {
  }

  lemma CommitClosesTx(pass: Pass, reply: Reply)
    requires Live(pass.pc) && pass.pc.Committing? && reply.Done?
    ensures TxAfter(pass, reply).None?
  {
  }

  lemma WritingIsOpen(pass: Pass)
    ensures Writing(pass).Some? ==> pass.tx.Some?
  {
  }

  lemma StepCalm(s: State, e: Event)
    requires Inv(s) && OneDigest(s) && CheckHolds(s) && Calm(s) && Enabled(s, e)
    ensures OneDigest(Next(s, e)) && CheckHolds(Next(s, e))
  {
    hide Inv, Agrees, Possible, Live, Answered;
    match e
    case Serve(p, reply) => AnsweredCalm(s, p, reply, reply);
    case Lose(p, reply) => AnsweredCalm(s, p, reply, Failed);
    case _ => AgreesSame(s, Next(s, e));
  }

  lemma {:induction false} CalmKeeps(s: State, events: seq<Event>, t: State)
    requires Inv(s) && OneDigest(s) && CheckHolds(s) && CalmRun(s, events, t)
    ensures OneDigest(t)
    decreases |events|
  {
    hide Inv, Enabled, Next, OneDigest, CheckHolds, Calm;
    if events != [] {
      StepKeepsInv(s, events[0]);
      StepCalm(s, events[0]);
      CalmKeeps(Next(s, events[0]), events[1..], t);
    }
  }

  /** As long as no two passes that may commit conflict, a document version
      never gets two digests: whatever else runs at the same time. */
  lemma CalmOneDigest(events: seq<Event>, t: State)
    requires CalmRun(Initial(), events, t)
    ensures OneDigest(t)
  {
    hide Inv, CalmRun;
    InitialInv();
    CalmKeeps(Initial(), events, t);
  }

  /** No two passes have a transaction open at the same time. */
  ghost predicate OneTransaction(s: State)
  {
    forall p, q :: p in s.passes && q in s.passes && p != q ==> s.passes[p].tx.None? || s.passes[q].tx.None?
  }

  ghost predicate SerialRun(s: State, events: seq<Event>, t: State)
    decreases |events|
  {
    OneTransaction(s)
    && if events == [] then s == t
       else Enabled(s, events[0]) && SerialRun(Next(s, events[0]), events[1..], t)
  }

  lemma {:induction false} SerialIsCalm(s: State, events: seq<Event>, t: State)
    requires SerialRun(s, events, t)
    ensures CalmRun(s, events, t)
    decreases |events|
  {
    assert Calm(s);
    hide Enabled, Next, Calm, OneTransaction;
    if events != [] {
      SerialIsCalm(Next(s, events[0]), events[1..], t);
    }
  }

  /** In particular in serial histories. */
  lemma SerialOneDigest(events: seq<Event>, t: State)
    requires SerialRun(Initial(), events, t)
    ensures OneDigest(t)
  {
    hide CalmRun, SerialRun;
    SerialIsCalm(Initial(), events, t);
    CalmOneDigest(events, t);
  }

  // ---------- histories ----------

  /** The event leads from one state to the other. */
  ghost predicate Leads(s: State, e: Event, t: State) { Enabled(s, e) && Next(s, e) == t }

  /** A run with all its states, from the initial one. */
  ghost predicate History(states: seq<State>, events: seq<Event>)
  {
    && |states| == |events| + 1 && states[0] == Initial()
    && forall n :: 0 <= n < |events| ==> Leads(states[n], events[n], states[n + 1])
  }

  /** Every run has such a history. */
  lemma {:induction false} StatesOf(s: State, events: seq<Event>, t: State) returns (states: seq<State>)
    requires Reaches(s, events, t)
    ensures |states| == |events| + 1 && states[0] == s && states[|events|] == t
    ensures forall n :: 0 <= n < |events| ==> Leads(states[n], events[n], states[n + 1])
    decreases |events|
  {
    hide Enabled, Next;
    if events == [] {
      states := [s];
    } else {
      var later := StatesOf(Next(s, events[0]), events[1..], t);
      states := [s] + later;
      forall n | 0 <= n < |events| ensures Leads(states[n], events[n], states[n + 1]) {
        if n > 0 {
          assert events[n] == events[1..][n - 1] && states[n] == later[n - 1] && states[n + 1] == later[n];
        }
      }
    }
  }

  /** Pass `p`'s digest check lets it go on. */
  predicate Checks(s: State, e: Event, p: PassId)
  {
    && e.Serve? && e.pass == p && p in s.passes && s.passes[p].pc.CheckingDigests?
    && AfterDigests(s.passes[p].pc.job, e.reply).FindingRun?
  }

  /** Pass `p` commits a run it has written. */
  predicate Commits(s: State, e: Event, p: PassId)
  {
    && (e.Serve? || e.Lose?) && e.pass == p && p in s.passes && s.passes[p].pc.Committing?
    && e.reply.Done? && Writing(s.passes[p]).Some?
  }

  /** After `p`'s check at `i` and before its commit at `k`, `q` commits at `j` a
      run that conflicts with `p`'s. */
  ghost predicate Overtaken(states: seq<State>, events: seq<Event>, i: nat, j: nat, k: nat, p: PassId, q: PassId)
    requires |states| == |events| + 1
  {
    && i < j < k < |events|
    && Checks(states[i], events[i], p) && Commits(states[j], events[j], q) && Commits(states[k], events[k], p)
    && Conflicts(states[j].passes[q].pc.job.source, states[k].passes[p].pc.job.source)
  }

  lemma {:induction false} HistoryInv(states: seq<State>, events: seq<Event>, n: nat)
    requires History(states, events) && n <= |events|
    ensures Inv(states[n])
  {
    hide Inv, Enabled, Next;
    if n == 0 {
      InitialInv();
    } else {
      HistoryInv(states, events, n - 1);
      assert Leads(states[n - 1], events[n - 1], states[n]);
      StepKeepsInv(states[n - 1], events[n - 1]);
    }
  }

  function RunOf(pc: Pc): Run
    requires pc.Committing?
  {
    Run(pc.job.routeId, pc.candidates)
  }

  /** A step leaves the runs as they are, or commits the acting pass's run. */
  lemma RunsStep(s: State, e: Event) returns (p: PassId)
    requires Inv(s) && Enabled(s, e)
    ensures Next(s, e).runs == s.runs
            || (Commits(s, e, p) && MayCommit(s.passes[p])
                && Next(s, e).runs == s.runs[s.passes[p].pc.job.Key() := RunOf(s.passes[p].pc)])
  {
    p := 0;
    if e.Serve? || e.Lose? {
      p := e.pass;
      AnsweredRunsStep(s, p, e.reply);
    }
    hide Inv, Possible, Live, WorldAfter, TxAfter, Resume, Writing;
  }

  lemma AnsweredRunsStep(s: State, p: PassId, reply: Reply)
    requires Inv(s) && p in s.passes && Live(s.passes[p].pc) && Possible(s, p, reply)
    ensures var pass, w := s.passes[p], WorldAfter(s, s.passes[p], reply);
      if pass.pc.Committing? && reply.Done? && Writing(pass).Some? then
        MayCommit(pass) && w.runs == s.runs[pass.pc.job.Key() := Run(pass.pc.job.routeId, pass.pc.candidates)]
      else w.runs == s.runs
  {
    hide PassOk, Meant, Possible, WorldAfter, RowsOk, RunsOk, TxsOk, HeldOk, ClaimsOk, AcceptedOk, CompletedOk, Live,
         Writing, JobOk, ParsedFor, RowSet;
    var pass := s.passes[p];
    PossibleMeans(s, p, reply);
    assert Before(s, p, reply);
    AddedRuns(s, p, reply);
    if pass.pc.Committing? && reply.Done? && Writing(pass).Some? {
      NewRun(s, p, reply);
      WritingIsOpen(pass);
      var run := Run(pass.pc.job.routeId, pass.pc.candidates);
      assert s.runs + map[pass.pc.job.Key() := run] == s.runs[pass.pc.job.Key() := run];
    } else {
      assert s.runs + map[] == s.runs;
    }
  }

  /** A pass that may commit could before the step, on the same job, or has just passed its check. */
  lemma MayCommitStep(s: State, e: Event, p: PassId)
    requires Inv(s) && Enabled(s, e) && p in Next(s, e).passes && MayCommit(Next(s, e).passes[p])
    ensures p in s.passes
    ensures var job := Next(s, e).passes[p].pc.job;
      || (MayCommit(s.passes[p]) && s.passes[p].pc.job == job)
      || (Checks(s, e, p) && s.passes[p].pc.job == job && Agrees(s, job.source))
  {
    if (e.Serve? || e.Lose?) && e.pass == p {
      PastCheckBefore(s.passes[p], e.reply, if e.Serve? then e.reply else Failed);
      if s.passes[p].pc.CheckingDigests? && e.Serve? && e.reply.Digests? {
        DigestsSeen(s, p, e.reply);
      }
    }
    hide Inv, Possible, Live, WorldAfter, TxAfter, Resume, AfterDigests, Agrees;
  }

  /** Before a pass may commit it has passed its check, when every run agreed with its digest. */
  lemma {:induction false} CheckedBefore(states: seq<State>, events: seq<Event>, n: nat, p: PassId) returns (i: nat)
    requires History(states, events) && n <= |events|
    requires p in states[n].passes && MayCommit(states[n].passes[p])
    ensures i < n && Checks(states[i], events[i], p) && Agrees(states[i], states[n].passes[p].pc.job.source)
  {
    hide Inv, Enabled, Next, Agrees, Checks;
    assert n > 0;
    var s, e := states[n - 1], events[n - 1];
    assert Leads(s, e, states[n]);
    HistoryInv(states, events, n - 1);
    MayCommitStep(s, e, p);
    if MayCommit(s.passes[p]) && s.passes[p].pc.job == states[n].passes[p].pc.job {
      i := CheckedBefore(states, events, n - 1, p);
    } else {
      i := n - 1;
    }
  }

  /** Where runs stop agreeing with a digest, a conflicting run was committed. */
  lemma {:induction false} CommittedBetween(
      states: seq<State>, events: seq<Event>, i: nat, n: nat, source: SourceReference)
    returns (j: nat, q: PassId)
    requires History(states, events) && i <= n <= |events| && Agrees(states[i], source) && !Agrees(states[n], source)
    ensures i <= j < n && Commits(states[j], events[j], q)
    ensures Conflicts(states[j].passes[q].pc.job.source, source)
  {
    hide Inv, Enabled, Next;
    assert n > i;
    var s, e := states[n - 1], events[n - 1];
    assert Leads(s, e, states[n]);
    if Agrees(s, source) {
      HistoryInv(states, events, n - 1);
      j := n - 1;
      q := RunsStep(s, e);
    } else {
      j, q := CommittedBetween(states, events, i, n - 1, source);
    }
  }

  lemma {:induction false} RunsStay(states: seq<State>, events: seq<Event>, m: nat, n: nat, key: Key)
    requires History(states, events) && m <= n <= |events| && key in states[m].runs
    ensures key in states[n].runs
  {
    hide Inv, Enabled, Next;
    if m < n {
      RunsStay(states, events, m, n - 1, key);
      assert Leads(states[n - 1], events[n - 1], states[n]);
      HistoryInv(states, events, n - 1);
      StaysStored(states[n - 1], events[n - 1], key);
    }
  }

  lemma StaysStored(s: State, e: Event, key: Key)
    requires Inv(s) && Enabled(s, e) && key in s.runs
    ensures key in Next(s, e).runs
  {
    hide Enabled, Next, ClaimsOk, RunsOk, RowsOk, TxsOk, HeldOk, PassesOk, AcceptedOk, CompletedOk;
    NextExtends(s, e);
  }

  /** The step at which a version first gets a second digest. */
  lemma {:induction false} FirstConflict(states: seq<State>, events: seq<Event>, n: nat) returns (k: nat)
    requires History(states, events) && n <= |events| && !OneDigest(states[n])
    ensures k < n && OneDigest(states[k]) && !OneDigest(states[k + 1])
  {
    hide Leads;
    assert n > 0;
    if OneDigest(states[n - 1]) {
      k := n - 1;
    } else {
      k := FirstConflict(states, events, n - 1);
    }
  }

  /** A commit that gives a version a second digest conflicts with a run already there. */
  lemma ConflictingCommit(s: State, t: State, p: PassId, run: Run)
    requires p in s.passes && s.passes[p].pc.Committing? && OneDigest(s) && !OneDigest(t)
    requires t.runs == s.runs[s.passes[p].pc.job.Key() := run]
    ensures !Agrees(s, s.passes[p].pc.job.source)
  {
  }

  lemma CommitsItsKey(states: seq<State>, events: seq<Event>, n: nat, p: PassId)
    requires History(states, events) && n < |events| && Commits(states[n], events[n], p)
    ensures states[n].passes[p].pc.job.Key() in states[n + 1].runs
  {
    assert Leads(states[n], events[n], states[n + 1]);
    hide Inv;
    HistoryInv(states, events, n);
    AnsweredRunsStep(states[n], p, events[n].reply);
    hide Possible, Live, WorldAfter, TxAfter, Resume, Writing;
  }

  /** The exact condition, over every history: a document version gets two
      digests if and only if some pass commits a run after a conflicting one was
      committed between its digest check and its commit. */
  lemma TwoDigestsIff(states: seq<State>, events: seq<Event>)
    requires History(states, events)
    ensures !OneDigest(states[|events|]) <==> exists i, j, k, p, q :: Overtaken(states, events, i, j, k, p, q)
  {
    if !OneDigest(states[|events|]) {
      var i, j, k, p, q := OvertakenWhenTwo(states, events);
    }
    if i, j, k, p, q :| Overtaken(states, events, i, j, k, p, q) {
      TwoWhenOvertaken(states, events, i, j, k, p, q);
    }
  }

  lemma OvertakenWhenTwo(states: seq<State>, events: seq<Event>)
    returns (i: nat, j: nat, k: nat, p: PassId, q: PassId)
    requires History(states, events) && !OneDigest(states[|events|])
    ensures Overtaken(states, events, i, j, k, p, q)
  {
    hide Inv, Enabled, Next, Agrees, MayCommit;
    k := FirstConflict(states, events, |events|);
    var s, e := states[k], events[k];
    assert Leads(s, e, states[k + 1]);
    HistoryInv(states, events, k);
    p := RunsStep(s, e);
    RunsMatter(s, states[k + 1]);
    ConflictingCommit(s, states[k + 1], p, RunOf(s.passes[p].pc));
    i := CheckedBefore(states, events, k, p);
    j, q := CommittedBetween(states, events, i, k, s.passes[p].pc.job.source);
    CheckIsNoCommit(states[i], events[i], p, q);
  }

  lemma RunsMatter(s: State, t: State)
    ensures OneDigest(s) && !OneDigest(t) ==> t.runs != s.runs
  {
  }

  lemma CheckIsNoCommit(s: State, e: Event, p: PassId, q: PassId)
    ensures Checks(s, e, p) ==> !Commits(s, e, q)
  {
  }

  lemma TwoWhenOvertaken(states: seq<State>, events: seq<Event>, i: nat, j: nat, k: nat, p: PassId, q: PassId)
    requires History(states, events) && Overtaken(states, events, i, j, k, p, q)
    ensures !OneDigest(states[|events|])
  {
    hide Inv, Leads, Writing;
    CommitsItsKey(states, events, j, q);
    CommitsItsKey(states, events, k, p);
    var one, other := states[j].passes[q].pc.job, states[k].passes[p].pc.job;
    RunsStay(states, events, j + 1, |events|, one.Key());
    RunsStay(states, events, k + 1, |events|, other.Key());
  }
}
