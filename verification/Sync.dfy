/**
 One polling round follows the chain: it either stops, under exactly stated conditions, or leaves the confirmed records
 as the log up to the new confirmed head says, whatever was in the unconfirmed blocks seen before.
 */
module Sync {
  import opened Store
  import opened Accounts
  import opened EventLog
  import opened Handlers
  import opened Windows
  import opened Watcher
  import opened Passes

  // ---------------------------------------------------------------- what the log says

  predicate LiveAt(log: Log, cid: ChannelId, start: nat, head: nat) {
    Has(Creation, log, cid, start, head) && !Has(Settlement, log, cid, start, head)
  }

  function DepositAt(log: Log, cid: ChannelId, start: nat, head: nat): nat {
    TotalOf(Creation, log, cid, start, head) + TotalOf(TopUpKind, log, cid, start, head)
  }

  predicate ClosingAt(log: Log, cid: ChannelId, start: nat, head: nat) {
    Has(CloseKind, log, cid, start, head)
  }

  /** A record never claims more than was deposited. While it is not closed its deposit is exact, and while it has taken
      no payment both deposit and closed flag are exact. */
  predicate Tracks(rec: Record, deposit: nat, closing: bool) {
    && rec.deposit <= deposit
    && (!rec.IsClosed() ==> rec.deposit == deposit && (rec.lastSignature.None? ==> !closing))
    && (rec.lastSignature.None? ==> rec.deposit == deposit && (rec.IsClosed() <==> closing))
  }

  /** One channel's record follows the log up to the confirmed head. */
  predicate FollowsAt(r: Receiver, log: Log, start: nat, head: nat, m: Records, id: Id) {
    var cid := ChannelOf(r, id);
    && (Confirmed(m, id) <==> LiveAt(log, cid, start, head))
    && (Confirmed(m, id) ==> Tracks(m[id], DepositAt(log, cid, start, head), ClosingAt(log, cid, start, head)))
  }

  ghost predicate Follows(r: Receiver, log: Log, start: nat, head: nat, m: Records) {
    forall id: Id :: FollowsAt(r, log, start, head, m, id)
  }

  // ---------------------------------------------------------------- one round

  /** The confirmed window does not go back, and the records follow the log up to where it starts. */
  ghost predicate Ready(node: Node, log: Log, start: nat, plan: Plan, m: Records) {
    && ValidLog(log, start) && start <= plan.confirmedFrom <= plan.confirmedTo && ProofsMatch(m)
    && Follows(node.r, log, start, plan.confirmedFrom, m)
  }

  /** Entry j tops up, in the unconfirmed window, a channel that is not in the store and not created in either window.
      */
  predicate Orphan(node: Node, log: Log, plan: Plan, m: Records, j: int)
    requires 0 <= j < |log|
  {
    && Selected(node, UnconfirmedTopUps, log[j], plan.unconfirmedFrom, plan.unconfirmedTo)
    && IdOf(log[j]) !in m
    && !Has(Creation, log, EntryId(log[j]), plan.unconfirmedFrom, plan.unconfirmedTo)
    && !Has(Creation, log, EntryId(log[j]), plan.confirmedFrom, plan.confirmedTo)
  }

  /** Entry j asks, in the confirmed window, to close a paid channel that the chain has forgotten although the window
      does not settle it, and the receiver cannot pay for forcing it. */
  predicate Stranded(node: Node, log: Log, plan: Plan, m: Records, j: int)
    requires 0 <= j < |log|
  {
    && Selected(node, CloseRequests, log[j], plan.confirmedFrom, plan.confirmedTo)
    && Unpayable(node, m, IdOf(log[j]))
    && !Has(Settlement, log, EntryId(log[j]), plan.confirmedFrom, plan.confirmedTo)
  }

  ghost predicate AnyOrphan(node: Node, log: Log, plan: Plan, m: Records) {
    exists j {:trigger log[j]} :: 0 <= j < |log| && Orphan(node, log, plan, m, j)
  }

  ghost predicate AnyStranded(node: Node, log: Log, plan: Plan, m: Records) {
    exists j {:trigger log[j]} :: 0 <= j < |log| && Stranded(node, log, plan, m, j)
  }

  /** The records after both creation passes. */
  function AfterCreations(node: Node, plan: Plan, m: Records, log: Log): Progress {
    Then(node, Creations, plan.confirmedFrom, plan.confirmedTo,
         DeliverPass(node, UnconfirmedCreations, plan.unconfirmedFrom, plan.unconfirmedTo, m, log), log)
  }

  lemma CreationsDone(node: Node, log: Log, start: nat, plan: Plan, m: Records, id: Id)
    requires Ready(node, log, start, plan, m)
    ensures var p := AfterCreations(node, plan, m, log);
            var cid := ChannelOf(node.r, id);
            && p.Going?
            && (Confirmed(p.records, id) <==>
                  Confirmed(m, id) || Has(Creation, log, cid, plan.confirmedFrom, plan.confirmedTo))
            && (Confirmed(m, id) ==> p.records[id] == m[id])
            && (!Confirmed(m, id) && Confirmed(p.records, id) ==>
                  p.records[id] == NewRecord(TotalOf(Creation, log, cid, plan.confirmedFrom, plan.confirmedTo), true))
            && (id in p.records <==>
                  || id in m || Has(Creation, log, cid, plan.unconfirmedFrom, plan.unconfirmedTo)
                  || Has(Creation, log, cid, plan.confirmedFrom, plan.confirmedTo))
  {
    UnconfirmedCreationPass(node, plan.unconfirmedFrom, plan.unconfirmedTo, m, log, |log|, id);
    assert log[..|log|] == log;
    var m1 := DeliverPass(node, UnconfirmedCreations, plan.unconfirmedFrom, plan.unconfirmedTo, m, log).records;
    CreationPass(node, plan.confirmedFrom, plan.confirmedTo, m1, log, start, |log|, id);
  }

  /** The channel of a top-up or settlement in the confirmed window is confirmed by then. */
  lemma NamedIsConfirmed(node: Node, log: Log, start: nat, plan: Plan, m: Records, j: nat)
    requires Ready(node, log, start, plan, m) && j < |log|
    requires Selected(node, TopUps, log[j], plan.confirmedFrom, plan.confirmedTo)
             || Selected(node, Settlements, log[j], plan.confirmedFrom, plan.confirmedTo)
    ensures AfterCreations(node, plan, m, log).Going?
    ensures Confirmed(AfterCreations(node, plan, m, log).records, IdOf(log[j]))
  {
    var id := IdOf(log[j]);
    var cid := ChannelOf(node.r, id);
    assert cid == EntryId(log[j]);
    CreationsDone(node, log, start, plan, m, id);
    assert FollowsAt(node.r, log, start, plan.confirmedFrom, m, id);
    CreationBefore(log, start, j, plan.confirmedTo);
    NotBefore(log, start, Settlement, j, plan.confirmedFrom);
    SummarySplit(Creation, log, cid, start, plan.confirmedFrom, plan.confirmedTo);
  }

  /** The pass of unconfirmed top-ups fails exactly on an orphan. */
  lemma OrphanStops(node: Node, log: Log, start: nat, plan: Plan, m: Records)
    requires Ready(node, log, start, plan, m)
    ensures AfterCreations(node, plan, m, log).Going?
    ensures TopUpsKnown(node, plan.unconfirmedFrom, plan.unconfirmedTo, AfterCreations(node, plan, m, log).records,
                        log, |log|)
            <==> !AnyOrphan(node, log, plan, m)
  {
    CreationsDone(node, log, start, plan, m, Id(0, 0));
    var m2 := AfterCreations(node, plan, m, log).records;
    forall j {:trigger log[j]} | 0 <= j < |log| &&
                                 Selected(node, UnconfirmedTopUps, log[j], plan.unconfirmedFrom, plan.unconfirmedTo)
      ensures IdOf(log[j]) in m2 <==> !Orphan(node, log, plan, m, j)
    {
      assert ChannelOf(node.r, IdOf(log[j])) == EntryId(log[j]);
      CreationsDone(node, log, start, plan, m, IdOf(log[j]));
    }
    if AnyOrphan(node, log, plan, m) {
      var j :| 0 <= j < |log| && Orphan(node, log, plan, m, j);
      assert IdOf(log[j]) !in m2;
    }
  }

  /** Only an orphan fails an assertion on the way. */
  lemma SettlementsReached(node: Node, log: Log, start: nat, plan: Plan, m: Records)
    requires Ready(node, log, start, plan, m)
    ensures AfterCreations(node, plan, m, log).Going?
    ensures if AnyOrphan(node, log, plan, m) then BeforeCloseRequests(node, plan, m, log) == Stopped(AssertionError)
            else BeforeCloseRequests(node, plan, m, log).Going?
  {
    OrphanStops(node, log, start, plan, m);
    var m2 := AfterCreations(node, plan, m, log).records;
    assert log[..|log|] == log;
    UnconfirmedTopUpPassExact(node, plan.unconfirmedFrom, plan.unconfirmedTo, m2, log, |log|);
    if !AnyOrphan(node, log, plan, m) {
      LaterPassesGo(node, log, start, plan, m);
    }
  }

  lemma LaterPassesGo(node: Node, log: Log, start: nat, plan: Plan, m: Records)
    requires Ready(node, log, start, plan, m)
    requires AfterCreations(node, plan, m, log).Going?
    requires DeliverPass(node, UnconfirmedTopUps, plan.unconfirmedFrom, plan.unconfirmedTo,
                         AfterCreations(node, plan, m, log).records, log).Going?
    ensures BeforeCloseRequests(node, plan, m, log).Going?
  {
    var m2 := AfterCreations(node, plan, m, log).records;
    var m3 := DeliverPass(node, UnconfirmedTopUps, plan.unconfirmedFrom, plan.unconfirmedTo, m2, log).records;
    assert log[..|log|] == log;
    forall j {:trigger log[j]} | 0 <= j < |log| && Selected(node, TopUps, log[j], plan.confirmedFrom, plan.confirmedTo)
      ensures Confirmed(m3, IdOf(log[j]))
    {
      NamedIsConfirmed(node, log, start, plan, m, j);
      UnconfirmedTopUpPass(node, plan.unconfirmedFrom, plan.unconfirmedTo, m2, log, |log|, IdOf(log[j]));
    }
    TopUpPassGoes(node, plan.confirmedFrom, plan.confirmedTo, m3, log, |log|);
    var m4 := DeliverPass(node, TopUps, plan.confirmedFrom, plan.confirmedTo, m3, log).records;
    forall j {:trigger log[j]} | 0 <= j < |log|
                                 && Selected(node, Settlements, log[j], plan.confirmedFrom, plan.confirmedTo)
      ensures IdOf(log[j]) in m4
    {
      NamedIsConfirmed(node, log, start, plan, m, j);
      UnconfirmedTopUpPass(node, plan.unconfirmedFrom, plan.unconfirmedTo, m2, log, |log|, IdOf(log[j]));
      TopUpPass(node, plan.confirmedFrom, plan.confirmedTo, m3, log, |log|, IdOf(log[j]));
    }
    SettlementPassGoes(node, plan.confirmedFrom, plan.confirmedTo, m4, log, start, |log|);
  }

  /** One record before the close requests are delivered. */
  lemma SettlementsDone(node: Node, log: Log, start: nat, plan: Plan, m: Records, id: Id)
    requires Ready(node, log, start, plan, m) && !AnyOrphan(node, log, plan, m)
    ensures AfterCreations(node, plan, m, log).Going? && BeforeCloseRequests(node, plan, m, log).Going?
    ensures var m2 := AfterCreations(node, plan, m, log).records;
            var m5 := BeforeCloseRequests(node, plan, m, log).records;
            var cid := ChannelOf(node.r, id);
            && (id in m5 <==> id in m2 && !Has(Settlement, log, cid, plan.confirmedFrom, plan.confirmedTo))
            && (id in m5 ==>
                  m5[id] == m2[id].(topups := m5[id].topups,
                                    deposit := if m2[id].confirmed && m2[id].IsClosed() then m2[id].deposit
                                               else m2[id].deposit +
                                                    TotalOf(TopUpKind, log, cid, plan.confirmedFrom, plan.confirmedTo)))
  {
    SettlementsReached(node, log, start, plan, m);
    assert log[..|log|] == log;
    var m2 := AfterCreations(node, plan, m, log).records;
    UnconfirmedTopUpPass(node, plan.unconfirmedFrom, plan.unconfirmedTo, m2, log, |log|, id);
    var m3 := DeliverPass(node, UnconfirmedTopUps, plan.unconfirmedFrom, plan.unconfirmedTo, m2, log).records;
    TopUpPass(node, plan.confirmedFrom, plan.confirmedTo, m3, log, |log|, id);
    var m4 := DeliverPass(node, TopUps, plan.confirmedFrom, plan.confirmedTo, m3, log).records;
    SettlementPass(node, plan.confirmedFrom, plan.confirmedTo, m4, log, |log|, id);
  }

  /** What the log says about the window, put together with what it said before. */
  lemma LogAdvances(log: Log, start: nat, cid: ChannelId, from: nat, to: nat)
    requires ValidLog(log, start) && start <= from <= to
    ensures LiveAt(log, cid, start, to) <==>
              (LiveAt(log, cid, start, from) || Has(Creation, log, cid, from, to))
              && !Has(Settlement, log, cid, from, to)
    ensures Has(Creation, log, cid, from, to) ==>
              DepositAt(log, cid, start, from) == 0 && !ClosingAt(log, cid, start, from)
                                                  && !Has(Creation, log, cid, start, from)
    ensures !Has(Creation, log, cid, from, to) ==> TotalOf(Creation, log, cid, from, to) == 0
    ensures DepositAt(log, cid, start, to) ==
            DepositAt(log, cid, start, from) + TotalOf(Creation, log, cid, from, to)
            + TotalOf(TopUpKind, log, cid, from, to)
    ensures ClosingAt(log, cid, start, to) <==> ClosingAt(log, cid, start, from) || Has(CloseKind, log, cid, from, to)
    ensures ClosingAt(log, cid, start, from) ==> TotalOf(TopUpKind, log, cid, from, to) == 0
  {
    SummarySplit(Creation, log, cid, start, from, to);
    SummarySplit(TopUpKind, log, cid, start, from, to);
    SummarySplit(Settlement, log, cid, start, from, to);
    SummarySplit(CloseKind, log, cid, start, from, to);
    LifeBounds(log, start, cid, from, to);
    NothingToTotal(Creation, log, cid, from, to);
    NothingToTotal(Creation, log, cid, start, from);
    NothingToTotal(TopUpKind, log, cid, start, from);
    if ClosingAt(log, cid, start, from) {
      NoTopUpAfterRequest(log, start, cid, from, to);
    }
  }

  lemma RecordAdvances(node: Node, log: Log, start: nat, plan: Plan, m: Records, m': Records, id: Id)
    requires Ready(node, log, start, plan, m) && !AnyOrphan(node, log, plan, m)
    requires BeforeCloseRequests(node, plan, m, log).Going?
    requires CloseHandled(BeforeCloseRequests(node, plan, m, log).records, m', id,
                          Has(CloseKind, log, ChannelOf(node.r, id), plan.confirmedFrom, plan.confirmedTo))
    ensures FollowsAt(node.r, log, start, plan.confirmedTo, m', id)
  {
    var cid := ChannelOf(node.r, id);
    assert FollowsAt(node.r, log, start, plan.confirmedFrom, m, id);
    CreationsDone(node, log, start, plan, m, id);
    SettlementsDone(node, log, start, plan, m, id);
    LogAdvances(log, start, cid, plan.confirmedFrom, plan.confirmedTo);
    SummarySplit(Settlement, log, cid, start, plan.confirmedFrom, plan.confirmedTo);
  }

  lemma AfterSettlementsKeepsProofs(node: Node, log: Log, start: nat, plan: Plan, m: Records)
    requires Ready(node, log, start, plan, m) && !AnyOrphan(node, log, plan, m)
    ensures BeforeCloseRequests(node, plan, m, log).Going?
            && ProofsMatch(BeforeCloseRequests(node, plan, m, log).records)
  {
    SettlementsReached(node, log, start, plan, m);
    var m5 := BeforeCloseRequests(node, plan, m, log).records;
    forall id | id in m5 ensures m5[id].lastSignature.None? <==> m5[id].balance == 0 {
      SettlementsDone(node, log, start, plan, m, id);
      assert log[..|log|] == log;
      UnconfirmedCreationPass(node, plan.unconfirmedFrom, plan.unconfirmedTo, m, log, |log|, id);
      var m1 := DeliverPass(node, UnconfirmedCreations, plan.unconfirmedFrom, plan.unconfirmedTo, m, log).records;
      PassKeepsProof(node, UnconfirmedCreations, plan.unconfirmedFrom, plan.unconfirmedTo, m, log, id);
      PassKeepsProof(node, Creations, plan.confirmedFrom, plan.confirmedTo, m1, log, id);
    }
  }

  lemma {:induction false} PassKeepsProof(node: Node, pass: Pass, lo: nat, hi: nat, m: Records, log: Log, id: Id)
    requires pass.UnconfirmedCreations? || pass.Creations?
    requires id in m ==> (m[id].lastSignature.None? <==> m[id].balance == 0)
    ensures match DeliverPass(node, pass, lo, hi, m, log)
            case Stopped(_) => true
            case Going(m') => id in m' ==> (m'[id].lastSignature.None? <==> m'[id].balance == 0)
  {
    if log != [] {
      PassKeepsProof(node, pass, lo, hi, m, log[..|log| - 1], id);
    }
  }

  /** Whom the last pass cannot pay for, in terms of the records the round started from. */
  lemma StrandedIsUnpayable(node: Node, log: Log, start: nat, plan: Plan, m: Records)
    requires Ready(node, log, start, plan, m) && !AnyOrphan(node, log, plan, m)
    requires BeforeCloseRequests(node, plan, m, log).Going?
    ensures UnpayableAsked(node, plan.confirmedFrom, plan.confirmedTo, BeforeCloseRequests(node, plan, m, log).records,
                           log, |log|)
            <==> AnyStranded(node, log, plan, m)
  {
    var m5 := BeforeCloseRequests(node, plan, m, log).records;
    forall j {:trigger log[j]} | 0 <= j < |log|
                                 && Selected(node, CloseRequests, log[j], plan.confirmedFrom, plan.confirmedTo)
      ensures Unpayable(node, m5, IdOf(log[j])) <==> Stranded(node, log, plan, m, j)
    {
      assert ChannelOf(node.r, IdOf(log[j])) == EntryId(log[j]);
      CreationsDone(node, log, start, plan, m, IdOf(log[j]));
      SettlementsDone(node, log, start, plan, m, IdOf(log[j]));
    }
    if AnyStranded(node, log, plan, m) {
      var j :| 0 <= j < |log| && Stranded(node, log, plan, m, j);
      assert Unpayable(node, m5, IdOf(log[j]));
    }
  }

  /** One round: it fails an assertion if and only if some entry is an orphan, lacks ether if and only if otherwise some
      entry is stranded, and in every other case completes with the records following the log up to the new head. */
  lemma RoundFollows(node: Node, log: Log, start: nat, plan: Plan, m: Records)
    requires Ready(node, log, start, plan, m)
    ensures if AnyOrphan(node, log, plan, m) then DeliverRound(node, plan, m, log) == Stopped(AssertionError)
            else if AnyStranded(node, log, plan, m) then
              DeliverRound(node, plan, m, log) == Stopped(InsufficientBalance)
            else
              && DeliverRound(node, plan, m, log).Going?
              && ProofsMatch(DeliverRound(node, plan, m, log).records)
              && Follows(node.r, log, start, plan.confirmedTo, DeliverRound(node, plan, m, log).records)
  {
    SettlementsReached(node, log, start, plan, m);
    if !AnyOrphan(node, log, plan, m) {
      CloseRequestsFollow(node, log, start, plan, m);
    }
  }

  lemma CloseRequestsFollow(node: Node, log: Log, start: nat, plan: Plan, m: Records)
    requires Ready(node, log, start, plan, m) && !AnyOrphan(node, log, plan, m)
    ensures if AnyStranded(node, log, plan, m) then DeliverRound(node, plan, m, log) == Stopped(InsufficientBalance)
            else
              && DeliverRound(node, plan, m, log).Going?
              && ProofsMatch(DeliverRound(node, plan, m, log).records)
              && Follows(node.r, log, start, plan.confirmedTo, DeliverRound(node, plan, m, log).records)
  {
    AfterSettlementsKeepsProofs(node, log, start, plan, m);
    StrandedIsUnpayable(node, log, start, plan, m);
    var m5 := BeforeCloseRequests(node, plan, m, log).records;
    assert log[..|log|] == log;
    assert DeliverRound(node, plan, m, log) ==
             DeliverPass(node, CloseRequests, plan.confirmedFrom, plan.confirmedTo, m5, log);
    CloseRequestPass(node, plan.confirmedFrom, plan.confirmedTo, m5, log, |log|, Id(0, 0));
    var p := DeliverRound(node, plan, m, log);
    if p.Going? {
      forall id: Id ensures FollowsAt(node.r, log, start, plan.confirmedTo, p.records, id) {
        CloseRequestPass(node, plan.confirmedFrom, plan.confirmedTo, m5, log, |log|, id);
        RecordAdvances(node, log, start, plan, m, p.records, id);
      }
    }
  }

  // ---------------------------------------------------------------- closing transactions and pending closings

  /** Whatever a round sends, completed or not, is what was stored when it began, for a channel that the log says is
      closing by the new confirmed head. */
  lemma RoundSends(node: Node, log: Log, start: nat, plan: Plan, m: Records, tx: CloseTx)
    requires Ready(node, log, start, plan, m) && tx in RoundTxs(node, plan, m, log)
    ensures Carries(node.r, m, tx) && ClosingAt(log, ChannelOf(node.r, tx.id), start, plan.confirmedTo)
  {
    SettlementsReached(node, log, start, plan, m);
    AfterSettlementsKeepsProofs(node, log, start, plan, m);
    var m5 := BeforeCloseRequests(node, plan, m, log).records;
    assert log[..|log|] == log;
    PassSends(node, plan.confirmedFrom, plan.confirmedTo, m5, log, |log|, tx);
    CreationsDone(node, log, start, plan, m, tx.id);
    SettlementsDone(node, log, start, plan, m, tx.id);
    SummarySplit(CloseKind, log, ChannelOf(node.r, tx.id), start, plan.confirmedFrom, plan.confirmedTo);
  }

  /** A closing is pending only where the log says so. */
  predicate PendingIsAsked(r: Receiver, log: Log, start: nat, head: nat, m: Records, id: Id) {
    Confirmed(m, id) && m[id].state == CLOSE_PENDING ==> ClosingAt(log, ChannelOf(r, id), start, head)
  }

  lemma RoundPends(node: Node, log: Log, start: nat, plan: Plan, m: Records, id: Id)
    requires Ready(node, log, start, plan, m) && DeliverRound(node, plan, m, log).Going?
    requires PendingIsAsked(node.r, log, start, plan.confirmedFrom, m, id)
    ensures PendingIsAsked(node.r, log, start, plan.confirmedTo, DeliverRound(node, plan, m, log).records, id)
  {
    RoundFollows(node, log, start, plan, m);
    AfterSettlementsKeepsProofs(node, log, start, plan, m);
    CreationsDone(node, log, start, plan, m, id);
    SettlementsDone(node, log, start, plan, m, id);
    var m5 := BeforeCloseRequests(node, plan, m, log).records;
    assert log[..|log|] == log;
    CloseRequestPass(node, plan.confirmedFrom, plan.confirmedTo, m5, log, |log|, id);
    SummarySplit(CloseKind, log, ChannelOf(node.r, id), start, plan.confirmedFrom, plan.confirmedTo);
  }

  // ---------------------------------------------------------------- unconfirmed channels

  /** The channel was created up to the unconfirmed head and not settled up to the confirmed one. */
  predicate Current(r: Receiver, log: Log, start: nat, confirmed: nat, unconfirmed: nat, id: Id) {
    && Has(Creation, log, ChannelOf(r, id), start, unconfirmed)
    && !Has(Settlement, log, ChannelOf(r, id), start, confirmed)
  }

  /** Exactly those channels are in the store. */
  ghost predicate Knows(r: Receiver, log: Log, start: nat, confirmed: nat, unconfirmed: nat, m: Records) {
    forall id {:trigger id in m} :: id in m <==> Current(r, log, start, confirmed, unconfirmed, id)
  }

  /** Then no entry of the next windows is an orphan. */
  lemma KnownHasNoOrphan(node: Node, log: Log, start: nat, plan: Plan, m: Records)
    requires ValidLog(log, start) && start <= plan.confirmedFrom <= plan.unconfirmedFrom <= plan.unconfirmedTo
    requires Knows(node.r, log, start, plan.confirmedFrom, plan.unconfirmedFrom, m)
    ensures !AnyOrphan(node, log, plan, m)
  {
    if AnyOrphan(node, log, plan, m) {
      var j :| 0 <= j < |log| && Orphan(node, log, plan, m, j);
      var id := IdOf(log[j]);
      assert ChannelOf(node.r, id) == EntryId(log[j]);
      CreationBefore(log, start, j, plan.unconfirmedTo);
      NotBefore(log, start, Settlement, j, plan.confirmedFrom);
      SummarySplit(Creation, log, EntryId(log[j]), start, plan.unconfirmedFrom, plan.unconfirmedTo);
    }
  }

  lemma RoundKnowsAt(node: Node, log: Log, start: nat, plan: Plan, m: Records, id: Id)
    requires Ready(node, log, start, plan, m) && plan.confirmedFrom <= plan.unconfirmedFrom
    requires plan.confirmedTo <= plan.unconfirmedTo
    requires start <= plan.unconfirmedFrom <= plan.unconfirmedTo && DeliverRound(node, plan, m, log).Going?
    requires id in m <==> Current(node.r, log, start, plan.confirmedFrom, plan.unconfirmedFrom, id)
    ensures id in DeliverRound(node, plan, m, log).records <==>
              Current(node.r, log, start, plan.confirmedTo, plan.unconfirmedTo, id)
  {
    var cid := ChannelOf(node.r, id);
    RoundFollows(node, log, start, plan, m);
    AfterSettlementsKeepsProofs(node, log, start, plan, m);
    var m5 := BeforeCloseRequests(node, plan, m, log).records;
    assert log[..|log|] == log;
    CreationsDone(node, log, start, plan, m, id);
    SettlementsDone(node, log, start, plan, m, id);
    CloseRequestPass(node, plan.confirmedFrom, plan.confirmedTo, m5, log, |log|, id);
    SummarySplit(Creation, log, cid, start, plan.unconfirmedFrom, plan.unconfirmedTo);
    SummarySplit(Creation, log, cid, start, plan.confirmedTo, plan.unconfirmedTo);
    SummarySplit(Creation, log, cid, start, plan.confirmedFrom, plan.confirmedTo);
    SummarySplit(Creation, log, cid, plan.confirmedFrom, plan.unconfirmedFrom, plan.unconfirmedTo);
    SummarySplit(Settlement, log, cid, start, plan.confirmedFrom, plan.confirmedTo);
    LifeBounds(log, start, cid, plan.confirmedFrom, plan.confirmedTo);
    LifeBounds(log, start, cid, plan.confirmedFrom, plan.unconfirmedTo);
  }

  /** And a completed round knows the channels of its windows in turn. */
  lemma RoundKnows(node: Node, log: Log, start: nat, plan: Plan, m: Records)
    requires Ready(node, log, start, plan, m) && plan.confirmedFrom <= plan.unconfirmedFrom
    requires plan.confirmedTo <= plan.unconfirmedTo
    requires start <= plan.unconfirmedFrom <= plan.unconfirmedTo && DeliverRound(node, plan, m, log).Going?
    requires Knows(node.r, log, start, plan.confirmedFrom, plan.unconfirmedFrom, m)
    ensures Knows(node.r, log, start, plan.confirmedTo, plan.unconfirmedTo, DeliverRound(node, plan, m, log).records)
  {
    var m' := DeliverRound(node, plan, m, log).records;
    forall id {:trigger id in m'}
      ensures id in m' <==> Current(node.r, log, start, plan.confirmedTo, plan.unconfirmedTo, id)
    {
      assert id in m <==> Current(node.r, log, start, plan.confirmedFrom, plan.unconfirmedFrom, id);
      RoundKnowsAt(node, log, start, plan, m, id);
    }
  }
}
