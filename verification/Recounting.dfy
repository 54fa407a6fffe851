/**
 What a confirmed head that goes back does to deposits. Rounds may go back freely here; what they take for confirmed is
 final. An open record's deposit exceeds the log's by exactly the top-ups that rounds went back over.
 */
module Recounting {
  import opened Prelude
  import opened Store
  import opened Accounts
  import opened EventLog
  import opened Handlers
  import opened RecordInvariants
  import opened Windows
  import opened Watcher
  import opened Passes
  import opened Sync
  import opened SyncRuns

  // ---------------------------------------------------------------- one round, whether it goes back or not

  /** A channel the window does not settle is confirmed if it was or the window creates it. A record that is open
      afterwards was open before and gains exactly the top-ups of the window. */
  predicate Gains(m: Records, m': Records, id: Id, created: bool, deposit: nat, added: nat) {
    && (Confirmed(m', id) <==> Confirmed(m, id) || created)
    && (Confirmed(m', id) && !m'[id].IsClosed() ==>
          && (Confirmed(m, id) ==> !m[id].IsClosed())
          && m'[id].deposit == (if Confirmed(m, id) then m[id].deposit else deposit) + added)
  }

  lemma QuietPassesGain(node: Node, log: Log, start: nat, plan: Plan, m: Records, id: Id)
    requires ValidLog(log, start) && BeforeCloseRequests(node, plan, m, log).Going?
    requires !Has(Settlement, log, ChannelOf(node.r, id), plan.confirmedFrom, plan.confirmedTo)
    ensures var cid := ChannelOf(node.r, id);
            Gains(m, BeforeCloseRequests(node, plan, m, log).records, id,
                  Has(Creation, log, cid, plan.confirmedFrom, plan.confirmedTo),
                  TotalOf(Creation, log, cid, plan.confirmedFrom, plan.confirmedTo),
                  TotalOf(TopUpKind, log, cid, plan.confirmedFrom, plan.confirmedTo))
  {
    assert log[..|log|] == log;
    UnconfirmedCreationPass(node, plan.unconfirmedFrom, plan.unconfirmedTo, m, log, |log|, id);
    var m1 := DeliverPass(node, UnconfirmedCreations, plan.unconfirmedFrom, plan.unconfirmedTo, m, log).records;
    CreationPass(node, plan.confirmedFrom, plan.confirmedTo, m1, log, start, |log|, id);
    var m2 := DeliverPass(node, Creations, plan.confirmedFrom, plan.confirmedTo, m1, log).records;
    UnconfirmedTopUpPass(node, plan.unconfirmedFrom, plan.unconfirmedTo, m2, log, |log|, id);
    var m3 := DeliverPass(node, UnconfirmedTopUps, plan.unconfirmedFrom, plan.unconfirmedTo, m2, log).records;
    TopUpPass(node, plan.confirmedFrom, plan.confirmedTo, m3, log, |log|, id);
    var m4 := DeliverPass(node, TopUps, plan.confirmedFrom, plan.confirmedTo, m3, log).records;
    SettlementPass(node, plan.confirmedFrom, plan.confirmedTo, m4, log, |log|, id);
  }

  lemma RoundGains(node: Node, log: Log, start: nat, plan: Plan, m: Records, id: Id)
    requires ValidLog(log, start) && RecordsOk(node.r, m) && DeliverRound(node, plan, m, log).Going?
    requires !Has(Settlement, log, ChannelOf(node.r, id), plan.confirmedFrom, plan.confirmedTo)
    ensures var cid := ChannelOf(node.r, id);
            Gains(m, DeliverRound(node, plan, m, log).records, id,
                  Has(Creation, log, cid, plan.confirmedFrom, plan.confirmedTo),
                  TotalOf(Creation, log, cid, plan.confirmedFrom, plan.confirmedTo),
                  TotalOf(TopUpKind, log, cid, plan.confirmedFrom, plan.confirmedTo))
  {
    QuietPassesKeepRecords(node, plan, m, log);
    QuietPassesGain(node, log, start, plan, m, id);
    var m5 := BeforeCloseRequests(node, plan, m, log).records;
    forall x | x in m5 ensures m5[x].lastSignature.None? <==> m5[x].balance == 0 {
      assert RecordOk(node.r, x, m5[x]);
    }
    assert log[..|log|] == log;
    CloseRequestPass(node, plan.confirmedFrom, plan.confirmedTo, m5, log, |log|, id);
  }

  // ---------------------------------------------------------------- runs that may go back

  /** Polls of valid logs that have, up to the head they confirm, the blocks of the final log; any heights. */
  ghost predicate SeesFinal(cfg: Config, r: Receiver, final: Log, w: Watch, h: Happening) {
    match h
    case Call(op) => op.OpPay? || op.OpSignClose? || op.OpClosePending?
    case Poll(view, node, log) =>
      var plan := PlanRound(cfg, w.heads, view);
      && node.r == r && ValidLog(log, cfg.start)
      && (Idle(plan) || UpTo(log, plan.confirmedTo) == UpTo(final, plan.confirmedTo))
  }

  ghost predicate AllSeeFinal(cfg: Config, r: Receiver, final: Log, hs: seq<Happening>) {
    hs != [] ==>
      && AllSeeFinal(cfg, r, final, hs[..|hs| - 1])
      && (Run(cfg, r, hs[..|hs| - 1]).Some? ==>
          SeesFinal(cfg, r, final, Run(cfg, r, hs[..|hs| - 1]).value, hs[|hs| - 1]))
  }

  /** The top-ups of a channel in the blocks that a round takes the confirmed head back over. */
  function WentBackOver(cfg: Config, final: Log, w: Watch, h: Happening, cid: ChannelId): nat {
    if !h.Poll? then 0
    else
      var plan := PlanRound(cfg, w.heads, h.view);
      if Idle(plan) then 0 else TotalOf(TopUpKind, final, cid, plan.confirmedTo, plan.confirmedFrom)
  }

  function Recounted(cfg: Config, r: Receiver, final: Log, hs: seq<Happening>, cid: ChannelId): nat {
    if hs == [] then 0
    else
      var front, last := hs[..|hs| - 1], hs[|hs| - 1];
      Recounted(cfg, r, final, front, cid) +
      match Run(cfg, r, front)
      case None => 0
      case Some(w) => WentBackOver(cfg, final, w, last, cid)
  }

  lemma {:induction false} EmptyRange(k: Kind, log: Log, cid: ChannelId, lo: nat, hi: nat)
    requires hi <= lo
    ensures !Has(k, log, cid, lo, hi) && TotalOf(k, log, cid, lo, hi) == 0
  {
    if log != [] {
      EmptyRange(k, log[..|log| - 1], cid, lo, hi);
    }
  }

  /** How totals move with the head, in either direction. */
  lemma TotalsMove(k: Kind, log: Log, cid: ChannelId, from: nat, head: nat)
    ensures TotalOf(k, log, cid, 0, from) + TotalOf(k, log, cid, from, head) ==
            TotalOf(k, log, cid, 0, head) + TotalOf(k, log, cid, head, from)
    ensures Has(k, log, cid, 0, head) ==> Has(k, log, cid, 0, from) || Has(k, log, cid, from, head)
    ensures Has(k, log, cid, from, head) ==> from <= head && Has(k, log, cid, 0, head)
  {
    if from <= head {
      SummarySplit(k, log, cid, 0, from, head);
      EmptyRange(k, log, cid, head, from);
    } else {
      SummarySplit(k, log, cid, 0, head, from);
      EmptyRange(k, log, cid, from, head);
    }
  }

  /** The only creation of a channel is the whole of what creations brought in. */
  lemma {:induction false} CreationTotal(log: Log, start: nat, j: nat, lo: nat, hi: nat, n: nat)
    requires ValidLog(log, start) && j < |log| && n <= |log| && log[j].event.Created?
    ensures TotalOf(Creation, log[..n], EntryId(log[j]), lo, hi) ==
            if j < n && lo < log[j].blockNumber <= hi then log[j].event.deposit else 0
  {
    if n > 0 {
      CreationTotal(log, start, j, lo, hi, n - 1);
      assert log[..n] == log[..n - 1] + [log[n - 1]];
      SummarySnoc(Creation, log[..n - 1], log[n - 1], EntryId(log[j]), lo, hi);
    }
  }

  /** What is invariant of a channel created by entry j of the final log. */
  predicate Tally(r: Receiver, final: Log, j: nat, head: nat, m: Records, id: Id, recounted: nat)
    requires j < |final| && final[j].event.Created?
  {
    var cid := ChannelOf(r, id);
    && (!Confirmed(m, id) ==> !Has(Creation, final, cid, 0, head) && recounted == 0)
    && (Confirmed(m, id) && !m[id].IsClosed() ==>
          m[id].deposit == final[j].event.deposit + TotalOf(TopUpKind, final, cid, 0, head) + recounted)
  }

  ghost predicate NeverSettled(final: Log, cid: ChannelId) {
    forall i {:trigger final[i]} :: 0 <= i < |final| && EntryId(final[i]) == cid ==> !final[i].event.Settled?
  }

  lemma {:induction false} NoSettlement(final: Log, cid: ChannelId, lo: nat, hi: nat)
    requires NeverSettled(final, cid)
    ensures !Has(Settlement, final, cid, lo, hi)
  {
    if Has(Settlement, final, cid, lo, hi) {
      var i := WhereHas(Settlement, final, cid, lo, hi);
    }
  }

  /** Nothing of a channel comes before its creation. */
  lemma NothingBeforeCreation(log: Log, start: nat, cid: ChannelId, head: nat)
    requires ValidLog(log, start) && !Has(Creation, log, cid, 0, head)
    ensures TotalOf(TopUpKind, log, cid, 0, head) == 0
  {
    NothingToTotal(TopUpKind, log, cid, 0, head);
    if Has(TopUpKind, log, cid, 0, head) {
      var j := WhereHas(TopUpKind, log, cid, 0, head);
      var i :| 0 <= i < j && EntryId(log[i]) == EntryId(log[j]) && log[i].event.Created?;
      HasAt(Creation, log, cid, 0, head, i);
    }
  }

  /** The arithmetic of one round. */
  lemma GainsTally(r: Receiver, final: Log, start: nat, j: nat, from: nat, head: nat, m: Records, m': Records, id: Id,
                   recounted: nat)
    requires ValidLog(final, start) && j < |final| && final[j].event.Created? && EntryId(final[j]) == ChannelOf(r, id)
    requires Tally(r, final, j, from, m, id, recounted)
    requires var cid := ChannelOf(r, id);
             Gains(m, m', id, Has(Creation, final, cid, from, head), TotalOf(Creation, final, cid, from, head),
                   TotalOf(TopUpKind, final, cid, from, head))
    ensures Tally(r, final, j, head, m', id,
                  recounted + TotalOf(TopUpKind, final, ChannelOf(r, id), head, from))
  {
    var cid := ChannelOf(r, id);
    TotalsMove(TopUpKind, final, cid, from, head);
    TotalsMove(Creation, final, cid, from, head);
    if !Confirmed(m, id) {
      NothingBeforeCreation(final, start, cid, from);
      if Has(Creation, final, cid, from, head) {
        CreatedWithin(final, start, j, from, head);
        EmptyRange(TopUpKind, final, cid, head, from);
      } else {
        NothingBeforeCreation(final, start, cid, head);
        EmptyRange(TopUpKind, final, cid, Max(from, head), Min(from, head));
      }
    }
  }

  lemma CreatedWithin(final: Log, start: nat, j: nat, lo: nat, hi: nat)
    requires ValidLog(final, start) && j < |final| && final[j].event.Created?
    requires Has(Creation, final, EntryId(final[j]), lo, hi)
    ensures TotalOf(Creation, final, EntryId(final[j]), lo, hi) == final[j].event.deposit
  {
    assert final[..|final|] == final;
    var i := WhereHas(Creation, final, EntryId(final[j]), lo, hi);
    CreationTotal(final, start, j, lo, hi, |final|);
  }

  lemma PollTallies(cfg: Config, r: Receiver, final: Log, w: Watch, h: Happening, w': Watch, j: nat, id: Id,
                    recounted: nat)
    requires ValidLog(final, cfg.start) && j < |final| && final[j].event.Created?
    requires EntryId(final[j]) == ChannelOf(r, id) && NeverSettled(final, ChannelOf(r, id))
    requires h.Poll? && SeesFinal(cfg, r, final, w, h) && Happen(cfg, r, w, h) == Some(w') && RecordsOk(r, w.records)
    requires Tally(r, final, j, w.heads.confirmed, w.records, id, recounted)
    ensures Tally(r, final, j, w'.heads.confirmed, w'.records, id,
                  recounted + WentBackOver(cfg, final, w, h, ChannelOf(r, id)))
  {
    var plan := PlanRound(cfg, w.heads, h.view);
    var m := RecordsFor(plan, w.records);
    var cid := ChannelOf(r, id);
    ApplyKeepsRecords(r, w.records, OpReset);
    if !Idle(plan) {
      SameSummaries(Creation, h.log, final, cid, plan.confirmedFrom, plan.confirmedTo, plan.confirmedTo);
      SameSummaries(TopUpKind, h.log, final, cid, plan.confirmedFrom, plan.confirmedTo, plan.confirmedTo);
      SameSummaries(Settlement, h.log, final, cid, plan.confirmedFrom, plan.confirmedTo, plan.confirmedTo);
      NoSettlement(final, cid, plan.confirmedFrom, plan.confirmedTo);
      RoundGains(h.node, h.log, cfg.start, plan, m, id);
      GainsTally(r, final, cfg.start, j, plan.confirmedFrom, plan.confirmedTo, m, w'.records, id, recounted);
    }
  }

  lemma CallTallies(r: Receiver, final: Log, j: nat, head: nat, m: Records, op: Op, id: Id, recounted: nat)
    requires j < |final| && final[j].event.Created? && (op.OpPay? || op.OpSignClose? || op.OpClosePending?)
    requires Tally(r, final, j, head, m, id, recounted)
    ensures Tally(r, final, j, head, Apply(r, m, op), id, recounted)
  {
  }

  lemma HappeningKeepsRecords(cfg: Config, r: Receiver, final: Log, w: Watch, h: Happening)
    requires RecordsOk(r, w.records) && SeesFinal(cfg, r, final, w, h) && Happen(cfg, r, w, h).Some?
    ensures RecordsOk(r, Happen(cfg, r, w, h).value.records)
  {
    if h.Poll? {
      ApplyKeepsRecords(r, w.records, OpReset);
      var plan := PlanRound(cfg, w.heads, h.view);
      RoundKeepsRecords(h.node, plan, RecordsFor(plan, w.records), h.log);
    } else {
      ApplyKeepsRecords(r, w.records, h.op);
    }
  }

  lemma {:induction false} RunTallies(cfg: Config, r: Receiver, final: Log, hs: seq<Happening>, w: Watch, j: nat,
                                      id: Id)
    requires ValidLog(final, cfg.start) && j < |final| && final[j].event.Created?
    requires EntryId(final[j]) == ChannelOf(r, id) && NeverSettled(final, ChannelOf(r, id))
    requires AllSeeFinal(cfg, r, final, hs) && Run(cfg, r, hs) == Some(w)
    ensures RecordsOk(r, w.records)
    ensures Tally(r, final, j, w.heads.confirmed, w.records, id, Recounted(cfg, r, final, hs, ChannelOf(r, id)))
  {
    if hs == [] {
      if Has(Creation, final, ChannelOf(r, id), 0, cfg.start) {
        var i := WhereHas(Creation, final, ChannelOf(r, id), 0, cfg.start);
      }
    } else {
      var front, last := hs[..|hs| - 1], hs[|hs| - 1];
      var before := Run(cfg, r, front).value;
      var recounted := Recounted(cfg, r, final, front, ChannelOf(r, id));
      RunTallies(cfg, r, final, front, before, j, id);
      HappeningKeepsRecords(cfg, r, final, before, last);
      if last.Poll? {
        PollTallies(cfg, r, final, before, last, w, j, id, recounted);
      } else {
        CallTallies(r, final, j, before.heads.confirmed, before.records, last.op, id, recounted);
      }
    }
  }

  /** Whatever the heights do: an open record of an unsettled channel claims exactly what was deposited up to the
      confirmed head, plus the top-ups in the blocks that rounds took that head back over. So its deposit is right if
      and only if no round went back over a top-up of the channel. */
  lemma DepositRightExactlyWhen(cfg: Config, r: Receiver, final: Log, hs: seq<Happening>, w: Watch, id: Id)
    requires ValidLog(final, cfg.start) && NeverSettled(final, ChannelOf(r, id))
    requires AllSeeFinal(cfg, r, final, hs) && Run(cfg, r, hs) == Some(w)
    requires Confirmed(w.records, id) && !w.records[id].IsClosed()
    requires LiveAt(final, ChannelOf(r, id), 0, w.heads.confirmed)
    ensures w.records[id].deposit ==
            DepositAt(final, ChannelOf(r, id), 0, w.heads.confirmed) + Recounted(cfg, r, final, hs, ChannelOf(r, id))
    ensures w.records[id].deposit == DepositAt(final, ChannelOf(r, id), 0, w.heads.confirmed) <==>
              forall n :: 0 <= n < |hs| ==> WentBackAt(cfg, r, final, hs, n, ChannelOf(r, id)) == 0
  {
    var cid := ChannelOf(r, id);
    var j := WhereHas(Creation, final, cid, 0, w.heads.confirmed);
    RunTallies(cfg, r, final, hs, w, j, id);
    CreatedWithin(final, cfg.start, j, 0, w.heads.confirmed);
    RecountedNothing(cfg, r, final, hs, cid);
  }

  /** The top-ups that happening n of a run goes back over. */
  function WentBackAt(cfg: Config, r: Receiver, final: Log, hs: seq<Happening>, n: int, cid: ChannelId): nat
    requires 0 <= n < |hs|
  {
    match Run(cfg, r, hs[..n])
    case None => 0
    case Some(w) => WentBackOver(cfg, final, w, hs[n], cid)
  }

  lemma {:induction false} RecountedNothing(cfg: Config, r: Receiver, final: Log, hs: seq<Happening>, cid: ChannelId)
    ensures Recounted(cfg, r, final, hs, cid) == 0 <==>
              forall n :: 0 <= n < |hs| ==> WentBackAt(cfg, r, final, hs, n, cid) == 0
  {
    if hs != [] {
      var k := |hs| - 1;
      RecountedNothing(cfg, r, final, hs[..k], cid);
      forall n | 0 <= n < k
        ensures WentBackAt(cfg, r, final, hs, n, cid) == WentBackAt(cfg, r, final, hs[..k], n, cid)
      {
        assert hs[..n] == hs[..k][..n];
      }
      assert Recounted(cfg, r, final, hs, cid) ==
             Recounted(cfg, r, final, hs[..k], cid) + WentBackAt(cfg, r, final, hs, k, cid);
    }
  }
}
