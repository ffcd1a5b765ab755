/** `run` in `src/lib.rs`, for as many turns as there are: a renewal check, then a
    work pass. */
module RunLoop {
  import opened Sequences
  import opened Passes
  import opened Workers
  import opened Leases

  /** What a turn does, as it goes by. */
  datatype Entry = LeaseChecked(asked: Option<int>) | PassMade(result: PassResult)

  class Journal {
    var entries: seq<Entry>

    constructor ()
      ensures entries == []
    {
      entries := [];
    }

    method CheckLease(lease: InstanceLease?, turn: Turn)
      modifies this, lease
      ensures lease != null ==> lease.Value() == AfterCheck(old(lease.Value()), turn)
      ensures entries == old(entries) + [LeaseChecked(Asked(old(Held(lease)), turn))]
    {
      var asked := RenewLeaseIfDue(lease, turn);
      entries := entries + [LeaseChecked(asked)];
    }

    method MakePass(port: Port) returns (result: PassResult)
      requires port.pc == AskingRoutes
      modifies this, port
      ensures port.pc == Ended(result)
      ensures entries == old(entries) + [PassMade(result)]
    {
      result := WorkOnce(port);
      entries := entries + [PassMade(result)];
    }
  }

  /** The lease after the turns; a worker that enrolled some other way has none. */
  function LeaseAfter(enrolled: Option<Lease>, turns: seq<Turn>): Option<Lease>
  {
    match enrolled case None => None case Some(lease) => Some(AfterChecks(lease, turns))
  }

  function Held(lease: InstanceLease?): Option<Lease>
    reads lease
  {
    if lease == null then None else Some(lease.Value())
  }

  /** What `n` turns do: each checks the lease it finds and then makes its pass. */
  function Happened(enrolled: Option<Lease>, turns: seq<Turn>, results: seq<PassResult>, n: nat): seq<Entry>
    requires n <= |turns| && n <= |results|
  {
    if n == 0 then []
    else
      Happened(enrolled, turns, results, n - 1)
      + [LeaseChecked(Asked(LeaseAfter(enrolled, turns[..n - 1]), turns[n - 1])), PassMade(results[n - 1])]
  }

  /** Check and pass alternate, the check of a turn directly before its pass. */
  lemma {:induction false} CheckThenPass(
      enrolled: Option<Lease>, turns: seq<Turn>, results: seq<PassResult>, n: nat, k: nat)
    requires k < n <= |turns| && n <= |results|
    ensures var done := Happened(enrolled, turns, results, n);
      && |done| == 2 * n
      && done[2 * k] == LeaseChecked(Asked(LeaseAfter(enrolled, turns[..k]), turns[k]))
      && done[2 * k + 1] == PassMade(results[k])
  {
    if k < n - 1 {
      CheckThenPass(enrolled, turns, results, n - 1, k);
    } else {
      HappenedLength(enrolled, turns, results, n - 1);
    }
  }

  lemma {:induction false} HappenedLength(
      enrolled: Option<Lease>, turns: seq<Turn>, results: seq<PassResult>, n: nat)
    requires n <= |turns| && n <= |results|
    ensures |Happened(enrolled, turns, results, n)| == 2 * n
  {
    if n > 0 {
      HappenedLength(enrolled, turns, results, n - 1);
    }
  }

  lemma {:induction false} HappenedPrefix(
      enrolled: Option<Lease>, turns: seq<Turn>, results: seq<PassResult>, more: seq<PassResult>, n: nat)
    requires n <= |turns| && n <= |results|
    ensures Happened(enrolled, turns, results, n) == Happened(enrolled, turns, results + more, n)
  {
    if n > 0 {
      HappenedPrefix(enrolled, turns, results, more, n - 1);
    }
  }

  lemma LeaseAfterSnoc(enrolled: Option<Lease>, turns: seq<Turn>, i: nat)
    requires i < |turns|
    ensures LeaseAfter(enrolled, turns[..i + 1])
            == match LeaseAfter(enrolled, turns[..i]) case None => None case Some(l) => Some(AfterCheck(l, turns[i]))
  {
    assert turns[..i + 1] == turns[..i] + [turns[i]];
    if enrolled.Some? {
      AfterChecksSnoc(enrolled.value, turns[..i], turns[i]);
    }
  }

  lemma NoTurns(enrolled: Option<Lease>)
    ensures LeaseAfter(enrolled, []) == enrolled
  {
  }

  /** Every turn renews the lease if it is due and then makes one whole pass,
      whatever became of the renewal and of the passes before. */
  method Run(enrolled: Option<Lease>, turns: seq<Turn>, ports: seq<Port>)
    returns (held: Option<Lease>, results: seq<PassResult>, done: seq<Entry>)
    requires |ports| == |turns|
    requires forall i, j :: 0 <= i < j < |ports| ==> ports[i] != ports[j]
    requires forall i :: 0 <= i < |ports| ==> ports[i].pc == AskingRoutes
    modifies ports
    ensures held == LeaseAfter(enrolled, turns)
    ensures |results| == |turns| && forall i :: 0 <= i < |turns| ==> ports[i].pc == Ended(results[i])
    ensures done == Happened(enrolled, turns, results, |turns|)
  {
    hide AfterChecks, AfterCheck;
    var lease: InstanceLease? := null;
    if enrolled.Some? {
      lease := new InstanceLease(enrolled.value.revision, enrolled.value.expiresAt);
    }
    var journal := new Journal();
    results := [];
    NoTurns(enrolled);
    assert turns[..0] == [];
    for i := 0 to |turns|
      invariant fresh(journal) && (lease != null ==> fresh(lease))
      invariant Held(lease) == LeaseAfter(enrolled, turns[..i])
      invariant |results| == i && forall j :: 0 <= j < i ==> ports[j].pc == Ended(results[j])
      invariant forall j :: i <= j < |ports| ==> ports[j].pc == AskingRoutes
      invariant journal.entries == Happened(enrolled, turns, results, i)
    {
      LeaseAfterSnoc(enrolled, turns, i);
      journal.CheckLease(lease, turns[i]);
      var result := journal.MakePass(ports[i]);
      HappenedPrefix(enrolled, turns, results, [result], i);
      results := results + [result];
    }
    held := if lease == null then None else Some(lease.Value());
    done := journal.entries;
    assert turns[..|turns|] == turns;
  }
}
