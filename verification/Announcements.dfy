/** Which announced top-ups a round shows beside a channel's deposit. */
module Announcements {
  import opened Store
  import opened EventLog
  import opened Handlers
  import opened Windows
  import opened Watcher
  import opened Passes
  import opened Sync

  /** An entry of this kind of top-up pass among the first n, for this channel and transaction. */
  ghost predicate Names(node: Node, pass: Pass, lo: nat, hi: nat, log: Log, n: nat, id: Id, tx: Tx)
    requires n <= |log|
  {
    exists j :: 0 <= j < n && Selected(node, pass, log[j], lo, hi) && IdOf(log[j]) == id && node.txOf(log[j]) == tx
  }

  lemma NamesOneMore(node: Node, pass: Pass, lo: nat, hi: nat, log: Log, n: nat, id: Id, tx: Tx)
    requires n < |log|
    ensures Names(node, pass, lo, hi, log, n + 1, id, tx) <==>
              || Names(node, pass, lo, hi, log, n, id, tx)
              || (Selected(node, pass, log[n], lo, hi) && IdOf(log[n]) == id && node.txOf(log[n]) == tx)
  {
  }

  /** An announcement among the first n entries names this amount. */
  ghost predicate Announces(node: Node, lo: nat, hi: nat, log: Log, n: nat, id: Id, tx: Tx, amount: nat)
    requires n <= |log|
  {
    exists j :: 0 <= j < n && Selected(node, UnconfirmedTopUps, log[j], lo, hi) && IdOf(log[j]) == id
                && node.txOf(log[j]) == tx && log[j].event.added == amount
  }

  /** What is shown afterwards was shown before with the same amount, or comes with the amount an announcement names. */
  ghost predicate AmountKept(node: Node, lo: nat, hi: nat, m: Records, m': Records, log: Log, n: nat, id: Id, tx: Tx)
    requires n <= |log| && id in m'
  {
    tx in m'[id].topups ==>
      || (Confirmed(m, id) && tx in m[id].topups && m[id].topups[tx] == m'[id].topups[tx])
      || Announces(node, lo, hi, log, n, id, tx, m'[id].topups[tx])
  }

  /** Announcing adds to what is shown. */
  lemma {:induction false} AnnouncedPass(node: Node, lo: nat, hi: nat, m: Records, log: Log, n: nat, id: Id, tx: Tx)
    requires n <= |log| && After(node, UnconfirmedTopUps, lo, hi, m, log, n).Going? && Confirmed(m, id)
    ensures var m' := After(node, UnconfirmedTopUps, lo, hi, m, log, n).records;
            && Confirmed(m', id) && m'[id].IsClosed() == m[id].IsClosed()
            && (tx in m'[id].topups <==> tx in m[id].topups || Names(node, UnconfirmedTopUps, lo, hi, log, n, id, tx))
            && AmountKept(node, lo, hi, m, m', log, n, id, tx)
  {
    if n > 0 {
      AfterOneMore(node, UnconfirmedTopUps, lo, hi, m, log, n - 1, id);
      AnnouncedPass(node, lo, hi, m, log, n - 1, id, tx);
      NamesOneMore(node, UnconfirmedTopUps, lo, hi, log, n - 1, id, tx);
    }
  }

  /** Confirming takes away from it, unless the channel is closed. */
  lemma {:induction false} ConfirmedPass(node: Node, lo: nat, hi: nat, m: Records, log: Log, n: nat, id: Id, tx: Tx)
    requires n <= |log| && After(node, TopUps, lo, hi, m, log, n).Going? && Confirmed(m, id)
    ensures var m' := After(node, TopUps, lo, hi, m, log, n).records;
            && Confirmed(m', id) && m'[id].IsClosed() == m[id].IsClosed()
            && (tx in m'[id].topups <==>
                  tx in m[id].topups && (m[id].IsClosed() || !Names(node, TopUps, lo, hi, log, n, id, tx)))
            && (tx in m'[id].topups ==> m'[id].topups[tx] == m[id].topups[tx])
  {
    if n > 0 {
      AfterOneMore(node, TopUps, lo, hi, m, log, n - 1, id);
      ConfirmedPass(node, lo, hi, m, log, n - 1, id, tx);
      NamesOneMore(node, TopUps, lo, hi, log, n - 1, id, tx);
    }
  }

  lemma RequestKeepsShown(node: Node, m: Records, at: Id, balance: nat, id: Id)
    requires DeliverCloseRequest(node, m, at, balance).Going? && Confirmed(m, id)
    ensures Confirmed(DeliverCloseRequest(node, m, at, balance).records, id)
    ensures DeliverCloseRequest(node, m, at, balance).records[id].topups == m[id].topups
  {
  }

  lemma {:induction false} RequestsKeepShown(node: Node, lo: nat, hi: nat, m: Records, log: Log, n: nat, id: Id)
    requires n <= |log| && After(node, CloseRequests, lo, hi, m, log, n).Going? && Confirmed(m, id)
    ensures var m' := After(node, CloseRequests, lo, hi, m, log, n).records;
            Confirmed(m', id) && m'[id].topups == m[id].topups
  {
    if n > 0 {
      AfterOneMore(node, CloseRequests, lo, hi, m, log, n - 1, id);
      RequestsKeepShown(node, lo, hi, m, log, n - 1, id);
      if Selected(node, CloseRequests, log[n - 1], lo, hi) {
        RequestKeepsShown(node, After(node, CloseRequests, lo, hi, m, log, n - 1).records, IdOf(log[n - 1]),
                          log[n - 1].event.balance, id);
      }
    }
  }

  /** After a round a channel shows exactly the top-ups it showed before and those of the unconfirmed window, less those
      of the confirmed window unless it was closed. */
  lemma RoundShows(node: Node, log: Log, start: nat, plan: Plan, m: Records, id: Id, tx: Tx)
    requires Ready(node, log, start, plan, m) && DeliverRound(node, plan, m, log).Going?
    requires Confirmed(DeliverRound(node, plan, m, log).records, id)
    ensures var closed := Confirmed(m, id) && m[id].IsClosed();
            tx in DeliverRound(node, plan, m, log).records[id].topups <==>
              && (|| (Confirmed(m, id) && tx in m[id].topups)
                  || Names(node, UnconfirmedTopUps, plan.unconfirmedFrom, plan.unconfirmedTo, log, |log|, id, tx))
              && (closed || !Names(node, TopUps, plan.confirmedFrom, plan.confirmedTo, log, |log|, id, tx))
    ensures AmountKept(node, plan.unconfirmedFrom, plan.unconfirmedTo, m, DeliverRound(node, plan, m, log).records, log,
                       |log|, id, tx)
  {
    RoundFollows(node, log, start, plan, m);
    AfterSettlementsKeepsProofs(node, log, start, plan, m);
    CreationsDone(node, log, start, plan, m, id);
    SettlementsDone(node, log, start, plan, m, id);
    assert log[..|log|] == log;
    var m5 := BeforeCloseRequests(node, plan, m, log).records;
    CloseRequestPass(node, plan.confirmedFrom, plan.confirmedTo, m5, log, |log|, id);
    RequestsKeepShown(node, plan.confirmedFrom, plan.confirmedTo, m5, log, |log|, id);
    var m2 := AfterCreations(node, plan, m, log).records;
    AnnouncedPass(node, plan.unconfirmedFrom, plan.unconfirmedTo, m2, log, |log|, id, tx);
    var m3 := DeliverPass(node, UnconfirmedTopUps, plan.unconfirmedFrom, plan.unconfirmedTo, m2, log).records;
    ConfirmedPass(node, plan.confirmedFrom, plan.confirmedTo, m3, log, |log|, id, tx);
    var m4 := DeliverPass(node, TopUps, plan.confirmedFrom, plan.confirmedTo, m3, log).records;
    SettlementPass(node, plan.confirmedFrom, plan.confirmedTo, m4, log, |log|, id);
  }
}
