/** What each pass of a polling round does to the record of one channel, in terms of what the log says about it. */
module Passes {
  import opened Escrow
  import opened Store
  import opened EventLog
  import opened Handlers
  import opened RecordInvariants
  import opened Windows
  import opened Watcher

  /** The records after a pass over the first n entries. */
  function After(node: Node, pass: Pass, lo: nat, hi: nat, m: Records, log: Log, n: nat): Progress
    requires n <= |log|
  {
    DeliverPass(node, pass, lo, hi, m, log[..n])
  }

  lemma AfterOneMore(node: Node, pass: Pass, lo: nat, hi: nat, m: Records, log: Log, n: nat, id: Id)
    requires n < |log|
    ensures After(node, pass, lo, hi, m, log, n + 1) ==
            match After(node, pass, lo, hi, m, log, n) {
              case Stopped(why) => Stopped(why)
              case Going(m') =>
                if Selected(node, pass, log[n], lo, hi) then Deliver(node, pass, m', log[n]) else Going(m')
            }
    ensures Has(PassKind(pass), log[..n + 1], ChannelOf(node.r, id), lo, hi) ==
            (Has(PassKind(pass), log[..n], ChannelOf(node.r, id), lo, hi)
             || (Selected(node, pass, log[n], lo, hi) && IdOf(log[n]) == id))
    ensures TotalOf(PassKind(pass), log[..n + 1], ChannelOf(node.r, id), lo, hi) ==
            TotalOf(PassKind(pass), log[..n], ChannelOf(node.r, id), lo, hi) +
            if Selected(node, pass, log[n], lo, hi) && IdOf(log[n]) == id then Amount(log[n].event) else 0
  {
    assert log[..n + 1] == log[..n] + [log[n]];
    SummarySnoc(PassKind(pass), log[..n], log[n], ChannelOf(node.r, id), lo, hi);
  }

  // ---------------------------------------------------------------- creations

  predicate SameConfirmed(m: Records, m': Records, id: Id) {
    (Confirmed(m, id) <==> Confirmed(m', id)) && (Confirmed(m, id) ==> m'[id] == m[id])
  }

  lemma {:induction false} UnconfirmedCreationPass(node: Node, lo: nat, hi: nat, m: Records, log: Log, n: nat, id: Id)
    requires n <= |log|
    ensures var p := After(node, UnconfirmedCreations, lo, hi, m, log, n);
            && p.Going?
            && SameConfirmed(m, p.records, id)
            && (id in p.records <==> id in m || Has(Creation, log[..n], ChannelOf(node.r, id), lo, hi))
  {
    if n > 0 {
      UnconfirmedCreationPass(node, lo, hi, m, log, n - 1, id);
      AfterOneMore(node, UnconfirmedCreations, lo, hi, m, log, n - 1, id);
    }
  }

  /** Channels that were created are confirmed with the deposit, others stay as they were. */
  predicate CreatedIn(m: Records, m': Records, id: Id, created: bool, deposit: nat) {
    && (id in m' <==> id in m || created)
    && (Confirmed(m', id) <==> Confirmed(m, id) || created)
    && (Confirmed(m, id) ==> m'[id] == m[id])
    && (!Confirmed(m, id) && Confirmed(m', id) ==> m'[id] == NewRecord(deposit, true))
  }

  /** Confirming a creation replaces an unconfirmed record and ignores a confirmed one. */
  lemma {:induction false} CreationPass(node: Node, lo: nat, hi: nat, m: Records, log: Log, start: nat, n: nat, id: Id)
    requires n <= |log| && ValidLog(log, start)
    ensures After(node, Creations, lo, hi, m, log, n).Going?
    ensures CreatedIn(m, After(node, Creations, lo, hi, m, log, n).records, id,
                      Has(Creation, log[..n], ChannelOf(node.r, id), lo, hi),
                      TotalOf(Creation, log[..n], ChannelOf(node.r, id), lo, hi))
  {
    if n > 0 {
      var e, cid := log[n - 1], ChannelOf(node.r, id);
      CreationPass(node, lo, hi, m, log, start, n - 1, id);
      AfterOneMore(node, Creations, lo, hi, m, log, n - 1, id);
      if Selected(node, Creations, e, lo, hi) {
        if IdOf(e) == id {
          CreatedOnce(log, start, n - 1, lo, hi);
        }
      }
    }
  }

  // ---------------------------------------------------------------- top-ups

  predicate SameButTopups(m: Records, m': Records, id: Id) {
    (id in m <==> id in m') && (id in m ==> m'[id] == m[id].(topups := m'[id].topups))
  }

  lemma {:induction false} UnconfirmedTopUpPass(node: Node, lo: nat, hi: nat, m: Records, log: Log, n: nat, id: Id)
    requires n <= |log|
    requires After(node, UnconfirmedTopUps, lo, hi, m, log, n).Going?
    ensures SameButTopups(m, After(node, UnconfirmedTopUps, lo, hi, m, log, n).records, id)
  {
    if n > 0 {
      AfterOneMore(node, UnconfirmedTopUps, lo, hi, m, log, n - 1, id);
      UnconfirmedTopUpPass(node, lo, hi, m, log, n - 1, id);
    }
  }

  /** Every channel an unconfirmed top-up among the first n entries names is known in some form. */
  ghost predicate TopUpsKnown(node: Node, lo: nat, hi: nat, m: Records, log: Log, n: nat)
    requires n <= |log|
  {
    forall j {:trigger log[j]} :: 0 <= j < n && Selected(node, UnconfirmedTopUps, log[j], lo, hi) ==> IdOf(log[j]) in m
  }

  /** The pass fails its assertion exactly on a top-up of an unknown channel. */
  lemma {:induction false} UnconfirmedTopUpPassExact(node: Node, lo: nat, hi: nat, m: Records, log: Log, n: nat)
    requires n <= |log|
    ensures var p := After(node, UnconfirmedTopUps, lo, hi, m, log, n);
            && (p.Going? <==> TopUpsKnown(node, lo, hi, m, log, n))
            && (p.Stopped? ==> p.why == AssertionError)
  {
    if n > 0 {
      var id := IdOf(log[n - 1]);
      UnconfirmedTopUpPassExact(node, lo, hi, m, log, n - 1);
      AfterOneMore(node, UnconfirmedTopUps, lo, hi, m, log, n - 1, id);
      if After(node, UnconfirmedTopUps, lo, hi, m, log, n - 1).Going? {
        UnconfirmedTopUpPass(node, lo, hi, m, log, n - 1, id);
      }
    }
  }

  /** A closed record ignores its top-ups; any other gains all of them. */
  predicate Raised(m: Records, m': Records, id: Id, added: nat) {
    && (id in m <==> id in m')
    && (id in m ==>
          m'[id] == m[id].(topups := m'[id].topups,
                           deposit := if m[id].confirmed && m[id].IsClosed() then m[id].deposit
                                      else m[id].deposit + added))
  }

  lemma {:induction false} TopUpPass(node: Node, lo: nat, hi: nat, m: Records, log: Log, n: nat, id: Id)
    requires n <= |log|
    requires After(node, TopUps, lo, hi, m, log, n).Going?
    ensures Raised(m, After(node, TopUps, lo, hi, m, log, n).records, id,
                   TotalOf(TopUpKind, log[..n], ChannelOf(node.r, id), lo, hi))
  {
    if n > 0 {
      AfterOneMore(node, TopUps, lo, hi, m, log, n - 1, id);
      TopUpPass(node, lo, hi, m, log, n - 1, id);
    }
  }

  ghost predicate TopUpsConfirmed(node: Node, lo: nat, hi: nat, m: Records, log: Log) {
    forall j {:trigger log[j]} :: 0 <= j < |log| && Selected(node, TopUps, log[j], lo, hi) ==>
      Confirmed(m, IdOf(log[j]))
  }

  lemma {:induction false} TopUpPassGoes(node: Node, lo: nat, hi: nat, m: Records, log: Log, n: nat)
    requires n <= |log| && TopUpsConfirmed(node, lo, hi, m, log)
    ensures After(node, TopUps, lo, hi, m, log, n).Going?
  {
    if n > 0 {
      var id := IdOf(log[n - 1]);
      TopUpPassGoes(node, lo, hi, m, log, n - 1);
      TopUpPass(node, lo, hi, m, log, n - 1, id);
      AfterOneMore(node, TopUps, lo, hi, m, log, n - 1, id);
    }
  }

  // ---------------------------------------------------------------- settlements

  lemma {:induction false} SettlementPass(node: Node, lo: nat, hi: nat, m: Records, log: Log, n: nat, id: Id)
    requires n <= |log|
    requires After(node, Settlements, lo, hi, m, log, n).Going?
    ensures var m' := After(node, Settlements, lo, hi, m, log, n).records;
            && (id in m' <==> id in m && !Has(Settlement, log[..n], ChannelOf(node.r, id), lo, hi))
            && (id in m' ==> m'[id] == m[id])
  {
    if n > 0 {
      AfterOneMore(node, Settlements, lo, hi, m, log, n - 1, id);
      SettlementPass(node, lo, hi, m, log, n - 1, id);
    }
  }

  ghost predicate SettledKnown(node: Node, lo: nat, hi: nat, m: Records, log: Log) {
    forall j {:trigger log[j]} :: 0 <= j < |log| && Selected(node, Settlements, log[j], lo, hi) ==> IdOf(log[j]) in m
  }

  lemma {:induction false} SettlementPassGoes(node: Node, lo: nat, hi: nat, m: Records, log: Log, start: nat, n: nat)
    requires n <= |log| && ValidLog(log, start) && SettledKnown(node, lo, hi, m, log)
    ensures After(node, Settlements, lo, hi, m, log, n).Going?
  {
    if n > 0 {
      var e := log[n - 1];
      var id := IdOf(e);
      SettlementPassGoes(node, lo, hi, m, log, start, n - 1);
      SettlementPass(node, lo, hi, m, log, n - 1, id);
      AfterOneMore(node, Settlements, lo, hi, m, log, n - 1, id);
      if Selected(node, Settlements, e, lo, hi) {
        NotBefore(log, start, Settlement, n - 1, lo);
      }
    }
  }

  // ---------------------------------------------------------------- close requests

  /** A close request closes a record that never took a payment, and never reopens or alters any other. */
  predicate CloseHandled(m: Records, m': Records, id: Id, requested: bool) {
    && (id in m <==> id in m')
    && (id in m ==>
          && m'[id].confirmed == m[id].confirmed && m'[id].deposit == m[id].deposit
          && m'[id].balance == m[id].balance && m'[id].lastSignature == m[id].lastSignature
          && (m[id].IsClosed() ==> m'[id].IsClosed())
          && (m[id].confirmed && requested && m[id].lastSignature.None? ==> m'[id].IsClosed())
          && (!requested ==> m'[id] == m[id]))
  }

  /** Records without a signature have paid nothing. */
  ghost predicate ProofsMatch(m: Records) {
    forall id {:trigger id in m} :: id in m ==> (m[id].lastSignature.None? <==> m[id].balance == 0)
  }

  /** A record whose forced closing the receiver would have to send and cannot pay for. */
  predicate Unpayable(node: Node, m: Records, id: Id) {
    Confirmed(m, id) && m[id].lastSignature.Some? && node.settleBlock(id).None? && !node.funded(id)
  }

  ghost predicate UnpayableAsked(node: Node, lo: nat, hi: nat, m: Records, log: Log, n: nat)
    requires n <= |log|
  {
    exists j {:trigger log[j]} ::
      0 <= j < n && Selected(node, CloseRequests, log[j], lo, hi) && Unpayable(node, m, IdOf(log[j]))
  }

  /** The pass stops exactly on a close request that has to be forced and cannot be paid for. */
  lemma {:induction false} CloseRequestPass(node: Node, lo: nat, hi: nat, m: Records, log: Log, n: nat, id: Id)
    requires n <= |log| && ProofsMatch(m)
    ensures match After(node, CloseRequests, lo, hi, m, log, n)
            case Stopped(why) => why == InsufficientBalance && UnpayableAsked(node, lo, hi, m, log, n)
            case Going(m') =>
              && !UnpayableAsked(node, lo, hi, m, log, n)
              && ProofsMatch(m')
              && CloseHandled(m, m', id, Has(CloseKind, log[..n], ChannelOf(node.r, id), lo, hi))
  {
    if n > 0 {
      AfterOneMore(node, CloseRequests, lo, hi, m, log, n - 1, id);
      CloseRequestPass(node, lo, hi, m, log, n - 1, id);
      var p := After(node, CloseRequests, lo, hi, m, log, n - 1);
      if p.Going? && Selected(node, CloseRequests, log[n - 1], lo, hi) {
        CloseRequestPass(node, lo, hi, m, log, n - 1, IdOf(log[n - 1]));
        OneCloseRequest(node, p.records, IdOf(log[n - 1]), log[n - 1].event.balance, id);
        assert Unpayable(node, p.records, IdOf(log[n - 1])) <==> Unpayable(node, m, IdOf(log[n - 1]));
      }
    }
  }

  /** Some entry asks to close this channel. */
  ghost predicate Asked(node: Node, lo: nat, hi: nat, log: Log, n: nat, id: Id)
    requires n <= |log|
  {
    Has(CloseKind, log[..n], ChannelOf(node.r, id), lo, hi)
  }

  /** A closing transaction carries what is stored of its channel. */
  predicate Carries(r: Receiver, m: Records, tx: CloseTx) {
    Confirmed(m, tx.id) && m[tx.id].lastSignature.Some? && tx == TxOf(r, m, tx.id)
  }

  /** Whatever the last pass sends is what was stored before it, for a channel whose closing was asked for. */
  lemma {:induction false} PassSends(node: Node, lo: nat, hi: nat, m: Records, log: Log, n: nat, tx: CloseTx)
    requires n <= |log| && ProofsMatch(m) && tx in PassTxs(node, CloseRequests, lo, hi, m, log[..n])
    ensures Carries(node.r, m, tx) && Asked(node, lo, hi, log, n, tx.id)
  {
    if n > 0 {
      var e := log[n - 1];
      assert log[..n][..n - 1] == log[..n - 1];
      AfterOneMore(node, CloseRequests, lo, hi, m, log, n - 1, tx.id);
      if tx in PassTxs(node, CloseRequests, lo, hi, m, log[..n - 1]) {
        PassSends(node, lo, hi, m, log, n - 1, tx);
      } else {
        CloseRequestPass(node, lo, hi, m, log, n - 1, tx.id);
      }
    }
  }

  lemma OneCloseRequest(node: Node, m: Records, at: Id, balance: nat, id: Id)
    requires ProofsMatch(m)
    ensures match DeliverCloseRequest(node, m, at, balance)
            case Stopped(why) => why == InsufficientBalance && Unpayable(node, m, at)
            case Going(m') => !Unpayable(node, m, at) && ProofsMatch(m') && CloseHandled(m, m', id, at == id)
  {
    assert at in m ==> (m[at].lastSignature.None? <==> m[at].balance == 0);
  }

  // ---------------------------------------------------------------- a round keeps the records in order

  /** The call on the manager that delivers an event. */
  function OpOf(node: Node, pass: Pass, e: LogEntry): Op
    requires KindOf(e.event) == PassKind(pass)
  {
    var id := IdOf(e);
    match pass
    case UnconfirmedCreations => OpUnconfirmedOpened(id, e.event.deposit)
    case Creations => OpOpened(id, e.event.deposit)
    case UnconfirmedTopUps => OpUnconfirmedTopup(id, node.txOf(e), e.event.added)
    case TopUps => OpTopup(id, node.txOf(e), e.event.added)
    case Settlements => OpSettled(id)
    case CloseRequests =>
      match node.settleBlock(id)
      case None => OpForceClose(id, node.funded(id))
      case Some(timeout) => OpCloseRequested(id, e.event.balance, timeout, node.funded(id))
  }

  lemma {:induction false} PassKeepsRecords(node: Node, pass: Pass, lo: nat, hi: nat, m: Records, log: Log)
    requires RecordsOk(node.r, m)
    ensures var d := DeliverPass(node, pass, lo, hi, m, log);
            d.Going? ==> RecordsOk(node.r, d.records)
  {
    if log != [] {
      var front, e := log[..|log| - 1], log[|log| - 1];
      PassKeepsRecords(node, pass, lo, hi, m, front);
      var d := DeliverPass(node, pass, lo, hi, m, front);
      if d.Going? && Selected(node, pass, e, lo, hi) {
        ApplyKeepsRecords(node.r, d.records, OpOf(node, pass, e));
      }
    }
  }

  lemma QuietPassesKeepRecords(node: Node, plan: Plan, m: Records, log: Log)
    requires RecordsOk(node.r, m) && BeforeCloseRequests(node, plan, m, log).Going?
    ensures RecordsOk(node.r, BeforeCloseRequests(node, plan, m, log).records)
  {
    PassKeepsRecords(node, UnconfirmedCreations, plan.unconfirmedFrom, plan.unconfirmedTo, m, log);
    var p1 := DeliverPass(node, UnconfirmedCreations, plan.unconfirmedFrom, plan.unconfirmedTo, m, log);
    if p1.Going? {
      PassKeepsRecords(node, Creations, plan.confirmedFrom, plan.confirmedTo, p1.records, log);
    }
    var p2 := Then(node, Creations, plan.confirmedFrom, plan.confirmedTo, p1, log);
    if p2.Going? {
      PassKeepsRecords(node, UnconfirmedTopUps, plan.unconfirmedFrom, plan.unconfirmedTo, p2.records, log);
    }
    var p3 := Then(node, UnconfirmedTopUps, plan.unconfirmedFrom, plan.unconfirmedTo, p2, log);
    if p3.Going? {
      PassKeepsRecords(node, TopUps, plan.confirmedFrom, plan.confirmedTo, p3.records, log);
    }
    var p4 := Then(node, TopUps, plan.confirmedFrom, plan.confirmedTo, p3, log);
    if p4.Going? {
      PassKeepsRecords(node, Settlements, plan.confirmedFrom, plan.confirmedTo, p4.records, log);
    }
  }

  lemma RoundKeepsRecords(node: Node, plan: Plan, m: Records, log: Log)
    requires RecordsOk(node.r, m)
    ensures DeliverRound(node, plan, m, log).Going? ==> RecordsOk(node.r, DeliverRound(node, plan, m, log).records)
  {
    if BeforeCloseRequests(node, plan, m, log).Going? {
      QuietPassesKeepRecords(node, plan, m, log);
      PassKeepsRecords(node, CloseRequests, plan.confirmedFrom, plan.confirmedTo,
                       BeforeCloseRequests(node, plan, m, log).records, log);
    }
  }
}
