/** The run loop's timed argument (`src/lib.rs`, `src/instance_lease.rs`):
    renewing the instance lease early enough that it never expires.

    Time is real; the clock the code reads is whole seconds, rounded down. */
module Leases {
  import opened Sequences

  const RENEWAL_MARGIN_SECONDS: int := 20

  datatype RenewedLease = RenewedLease(leaseExpiresAt: int, leaseRevision: int)

  /** What an `InstanceLease` holds. */
  datatype Lease = Lease(revision: int, expiresAt: int)

  /** One turn of the run loop: when its renewal check happens, and what the
      kernel answers if it is asked; `None` is any failure. */
  datatype Turn = Turn(at: real, answer: Option<RenewedLease>)

  function UnixTime(at: real): int { at.Floor }

  predicate Due(lease: Lease, now: int) { !(now < lease.expiresAt - RENEWAL_MARGIN_SECONDS) }

  /** The lease after a renewal check. */
  function AfterCheck(lease: Lease, turn: Turn): Lease
  {
    if Due(lease, UnixTime(turn.at)) && turn.answer.Some? then
      Lease(turn.answer.value.leaseRevision, turn.answer.value.leaseExpiresAt)
    else lease
  }

  /** The lease after every check. */
  function AfterChecks(lease: Lease, turns: seq<Turn>): Lease
    decreases |turns|
  {
    if turns == [] then lease else AfterChecks(AfterCheck(lease, turns[0]), turns[1..])
  }

  /** The revision a renewal check asks the kernel to renew, if it asks. */
  function Asked(held: Option<Lease>, turn: Turn): Option<int>
  {
    if held.Some? && Due(held.value, UnixTime(turn.at)) then Some(held.value.revision) else None
  }

  /** A check asks exactly when at most twenty whole seconds are left, and for
      the revision it holds; only a grant then changes the lease, to what was granted. */
  lemma AsksIff(lease: Lease, turn: Turn)
    ensures Asked(None, turn) == None
    ensures Asked(Some(lease), turn) == Some(lease.revision) <==> lease.expiresAt - turn.at.Floor <= 20
    ensures Asked(Some(lease), turn) in [None, Some(lease.revision)]
    ensures var held := AfterCheck(lease, turn);
      if lease.expiresAt - turn.at.Floor <= 20 && turn.answer.Some? then
        held.expiresAt == turn.answer.value.leaseExpiresAt && held.revision == turn.answer.value.leaseRevision
      else held == lease
  {
  }

  class InstanceLease {
    var revision: int
    var expiresAt: int

    constructor (revision: int, expiresAt: int)
      ensures Value() == Lease(revision, expiresAt)
    {
      this.revision, this.expiresAt := revision, expiresAt;
    }

    function Value(): Lease reads this { Lease(revision, expiresAt) }
  }

  /** `renew_lease_if_due`; `asked` is the revision it sent the kernel, if it asked. */
  method RenewLeaseIfDue(lease: InstanceLease?, turn: Turn) returns (asked: Option<int>)
    modifies lease
    ensures lease == null ==> asked == None
    ensures lease != null ==>
      && lease.Value() == AfterCheck(old(lease.Value()), turn)
      && asked == Asked(Some(old(lease.Value())), turn)
  {
    if lease == null {
      return None;
    }
    if UnixTime(turn.at) < lease.expiresAt - RENEWAL_MARGIN_SECONDS {
      return None;
    }
    asked := Some(lease.revision);
    if turn.answer.Some? {
      lease.revision := turn.answer.value.leaseRevision;
      lease.expiresAt := turn.answer.value.leaseExpiresAt;
    }
  }

  lemma {:induction false} AfterChecksSnoc(lease: Lease, turns: seq<Turn>, turn: Turn)
    ensures AfterChecks(lease, turns + [turn]) == AfterCheck(AfterChecks(lease, turns), turn)
    decreases |turns|
  {
    var longer := turns + [turn];
    if turns == [] {
      assert longer[1..] == [];
    } else {
      assert longer[1..] == turns[1..] + [turn];
      AfterChecksSnoc(AfterCheck(lease, turns[0]), turns[1..], turn);
    }
  }

  // ---------- safety ----------

  /** When the calls of the first turn's pass are over: at the next check. */
  function PassEnd(turns: seq<Turn>, gap: real): real
    requires turns != []
  {
    if |turns| > 1 then turns[1].at else turns[0].at + gap
  }

  /** How many renewals have failed in a row after a turn. */
  function FailedAfter(lease: Lease, failed: nat, turn: Turn): nat
  {
    if Due(lease, UnixTime(turn.at)) && turn.answer.None? then failed + 1 else 0
  }

  /** Checks are at most `gap` seconds apart; at most `retries` renewals fail in a
      row, `failed` of them so far; each granted lease has more than the margin left. */
  predicate Regular(lease: Lease, failed: nat, turns: seq<Turn>, gap: real, retries: nat)
    decreases |turns|
  {
    if turns == [] then true
    else
      var turn := turns[0];
      var due := Due(lease, UnixTime(turn.at));
      && turn.at <= PassEnd(turns, gap) <= turn.at + gap
      && (due && turn.answer.Some? ==>
            turn.answer.value.leaseExpiresAt as real > turn.at + 20.0)
      && (due && turn.answer.None? ==> failed < retries)
      && Regular(AfterCheck(lease, turn), FailedAfter(lease, failed, turn), turns[1..], gap, retries)
  }

  /** No call of any pass happens at or after the expiry of the lease held then. */
  ghost predicate Safe(lease: Lease, turns: seq<Turn>, gap: real)
    decreases |turns|
  {
    if turns == [] then true
    else
      var held := AfterCheck(lease, turns[0]);
      && (forall t: real :: turns[0].at <= t <= PassEnd(turns, gap) ==> Before(t, held))
      && Safe(held, turns[1..], gap)
  }

  predicate Before(t: real, lease: Lease) { t < lease.expiresAt as real }

  function Times(n: nat, gap: real): real { n as real * gap }

  lemma TimesNext(n: nat, gap: real)
    ensures Times(n + 1, gap) == Times(n, gap) + gap
  {
    assert (n + 1) as real == n as real + 1.0;
  }

  lemma {:induction false} TimesGrow(m: nat, n: nat, gap: real)
    requires m <= n && gap >= 0.0
    ensures Times(m, gap) <= Times(n, gap)
  {
    if m < n {
      TimesGrow(m, n - 1, gap);
      TimesNext(n - 1, gap);
    }
  }

  /** Each failed renewal costs one gap of the margin. */
  lemma MarginAfter(lease: Lease, failed: nat, turns: seq<Turn>, gap: real, retries: nat)
    requires turns != [] && Regular(lease, failed, turns, gap, retries)
    requires lease.expiresAt as real > turns[0].at + 20.0 - Times(failed + 1, gap)
    ensures AfterCheck(lease, turns[0]).expiresAt as real
            > turns[0].at + 20.0 - Times(FailedAfter(lease, failed, turns[0]), gap)
  {
    ZeroTimes(gap);
    hide Times;
  }

  lemma {:induction false} RegularIsSafe(lease: Lease, failed: nat, turns: seq<Turn>, gap: real, retries: nat)
    requires gap >= 0.0 && Times(retries + 1, gap) <= 20.0 && failed <= retries
    requires Regular(lease, failed, turns, gap, retries)
    requires turns != [] ==> lease.expiresAt as real > turns[0].at + 20.0 - Times(failed + 1, gap)
    ensures Safe(lease, turns, gap)
    decreases |turns|
  {
    if turns != [] {
      hide Times;
      var held, failed' := AfterCheck(lease, turns[0]), FailedAfter(lease, failed, turns[0]);
      assert failed' <= retries && Regular(held, failed', turns[1..], gap, retries);
      assert turns[0].at <= PassEnd(turns, gap) <= turns[0].at + gap;
      assert |turns| > 1 ==> turns[1..][0] == turns[1];
      MarginAfter(lease, failed, turns, gap, retries);
      hide Regular, AfterCheck, FailedAfter;
      TimesNext(failed', gap);
      TimesGrow(failed' + 1, retries + 1, gap);
      RegularIsSafe(held, failed', turns[1..], gap, retries);
    }
  }

  lemma ZeroTimes(gap: real)
    ensures Times(0, gap) == 0.0
  {
  }

  /** A lease with more than the margin left at the first check. */
  predicate Started(lease: Lease, turns: seq<Turn>)
  {
    turns != [] && lease.expiresAt as real > turns[0].at + 20.0
  }

  ghost predicate AlwaysSafe(gap: real, retries: nat)
  {
    forall lease, turns :: Started(lease, turns) && Regular(lease, 0, turns, gap, retries) ==> Safe(lease, turns, gap)
  }

  /** The run in which the lease was just not due, and then every renewal fails. */
  function FailingTurns(start: real, from: nat, retries: nat, gap: real): seq<Turn>
    requires from <= retries + 1
    decreases retries + 1 - from
  {
    if from == retries + 1 then []
    else [Turn(start + Times(from, gap), None)] + FailingTurns(start, from + 1, retries, gap)
  }

  lemma {:induction false} FailingIsRegular(lease: Lease, start: real, from: nat, retries: nat, gap: real)
    requires 1 <= from <= retries + 1 && gap > 0.0
    requires start + gap >= (lease.expiresAt - RENEWAL_MARGIN_SECONDS) as real
    ensures Regular(lease, from - 1, FailingTurns(start, from, retries, gap), gap, retries)
    ensures from <= retries ==> !Safe(lease, FailingTurns(start, from, retries, gap), gap)
                                || start + Times(retries + 1, gap) < lease.expiresAt as real
    decreases retries + 1 - from
  {
    if from <= retries {
      var turns := FailingTurns(start, from, retries, gap);
      var later := FailingTurns(start, from + 1, retries, gap);
      FailingIsRegular(lease, start, from + 1, retries, gap);
      TimesNext(from, gap);
      TimesNext(0, gap);
      TimesGrow(1, from, gap);
      ZeroTimes(gap);
      assert turns[1..] == later;
      assert from < retries ==> later[0].at == start + Times(from + 1, gap);
      hide Times;
      assert turns[0].at >= (lease.expiresAt - RENEWAL_MARGIN_SECONDS) as real;
      assert Due(lease, UnixTime(turns[0].at));
      assert AfterCheck(lease, turns[0]) == lease;
      if from == retries {
        assert Before(PassEnd(turns, gap), lease) || !Safe(lease, turns, gap);
      }
    }
  }

  /** A gap too long for the retries: a regular run from a good start that lets the lease expire. */
  lemma TooSlow(gap: real, retries: nat) returns (lease: Lease, turns: seq<Turn>)
    requires gap > 0.0 && Times(retries + 1, gap) > 20.0
    ensures Started(lease, turns) && Regular(lease, 0, turns, gap, retries) && !Safe(lease, turns, gap)
  {
    var over := Times(retries + 1, gap) - 20.0;
    var early := if gap < 1.0 then gap else 1.0;
    if over < early {
      early := over;
    }
    var start := 1.0 - early;
    lease := Lease(0, 21);
    turns := FailingTurns(start, 0, retries, gap);
    var later := FailingTurns(start, 1, retries, gap);
    FailingIsRegular(lease, start, 1, retries, gap);
    ZeroTimes(gap);
    TimesNext(0, gap);
    assert turns[1..] == later && turns[0].at == start;
    assert retries > 0 ==> later[0].at == start + gap;
    hide Times;
    assert start.Floor == 0;
    assert !Due(lease, UnixTime(start));
    assert AfterCheck(lease, turns[0]) == lease;
    if retries == 0 {
      assert !Before(PassEnd(turns, gap), lease);
    }
  }

  /** Lease safety with retry room: no regular run reaches the lease's expiry if
      and only if one more gap than there are retries fits in the margin. */
  lemma LeaseSafety(gap: real, retries: nat)
    requires gap > 0.0
    ensures AlwaysSafe(gap, retries) <==> (retries + 1) as real * gap <= 20.0
  {
    assert Times(retries + 1, gap) == (retries + 1) as real * gap;
    hide Times;
    if Times(retries + 1, gap) <= 20.0 {
      forall lease, turns | Started(lease, turns) && Regular(lease, 0, turns, gap, retries)
        ensures Safe(lease, turns, gap)
      {
        TimesNext(0, gap);
        ZeroTimes(gap);
        RegularIsSafe(lease, 0, turns, gap, retries);
      }
    } else {
      var lease, turns := TooSlow(gap, retries);
    }
  }

  // ---------- a lost answer ----------

  /** The lease a worker holds and the revision the kernel holds for it. */
  datatype Pair = Pair(lease: Lease, kernelRevision: int)

  /** A renewal check: whether a request would reach the kernel, whether its
      answer would come back, and the expiry a grant would carry. */
  datatype Attempt = Attempt(at: real, served: bool, heard: bool, grantedUntil: int)

  /** The kernel renews only for the revision it holds, and moves on to the next. */
  predicate Grants(p: Pair, a: Attempt)
  {
    Due(p.lease, UnixTime(a.at)) && a.served && p.lease.revision == p.kernelRevision
  }

  function TurnOf(p: Pair, a: Attempt): Turn
  {
    Turn(a.at, if Grants(p, a) && a.heard then Some(RenewedLease(a.grantedUntil, p.kernelRevision + 1)) else None)
  }

  function Attempted(p: Pair, a: Attempt): Pair
  {
    Pair(AfterCheck(p.lease, TurnOf(p, a)), if Grants(p, a) then p.kernelRevision + 1 else p.kernelRevision)
  }

  function AttemptedAll(p: Pair, attempts: seq<Attempt>): Pair
    decreases |attempts|
  {
    if attempts == [] then p else AttemptedAll(Attempted(p, attempts[0]), attempts[1..])
  }

  /** Some renewal was granted without its answer coming back. */
  predicate AnswerLost(p: Pair, attempts: seq<Attempt>)
    decreases |attempts|
  {
    attempts != []
    && ((Grants(p, attempts[0]) && !attempts[0].heard) || AnswerLost(Attempted(p, attempts[0]), attempts[1..]))
  }

  /** A worker keeps the kernel's revision exactly as long as no granted renewal's
      answer is lost; after one is, no later check ever changes its lease. */
  lemma {:induction false} LostAnswerIsFinal(p: Pair, attempts: seq<Attempt>)
    requires p.lease.revision <= p.kernelRevision
    ensures var q := AttemptedAll(p, attempts);
      && q.lease.revision <= q.kernelRevision
      && (p.lease.revision == p.kernelRevision ==>
            (q.lease.revision == q.kernelRevision <==> !AnswerLost(p, attempts)))
      && (p.lease.revision < p.kernelRevision ==> q == p)
    decreases |attempts|
  {
    if attempts != [] {
      LostAnswerIsFinal(Attempted(p, attempts[0]), attempts[1..]);
    }
  }
}
