/** The polling object: it keeps the heads in the store and delivers the events of each round to the channel manager. */
module BlockchainWatcher {
  import opened Prelude
  import opened Escrow
  import opened Store
  import opened EventLog
  import opened Handlers
  import opened Manager
  import opened Windows
  import opened Watcher
  import opened SyncRuns

  /** The polled node: its height, the block hashes it knows, the hash of each block, and its event log. */
  datatype Provider = Provider(height: nat, knows: nat -> bool, hashOf: nat -> nat, node: Node, log: Log)

  /** The windows ahead of these heads. */
  function Ahead(cfg: Config, h: Heads, height: nat): Plan {
    var to := Min(h.unconfirmed + cfg.chunk, height);
    Plan(false, h.confirmed, Max(to - cfg.confirmations, 0), h.unconfirmed, to)
  }

  /** A round of the run model is a reset followed by the windows ahead. */
  lemma PollGoesAhead(cfg: Config, r: Receiver, w: Watch, view: View, node: Node, log: Log)
    ensures var reset := NeedsReset(w.heads, view);
            var h := if reset then w.heads.(unconfirmed := w.heads.confirmed) else w.heads;
            var m := if reset then Handlers.ResetUnconfirmed(w.records) else w.records;
            var plan := Ahead(cfg, h, view.height);
            Happen(cfg, r, w, Poll(view, node, log)) ==
            if Idle(plan) then Some(Watch(h, m, log))
            else
              match DeliverRound(node, plan, m, log)
              case Stopped(_) => None
              case Going(m') =>
                if HeadsAcceptable(plan) then
                  Some(Watch(Heads(plan.confirmedTo, plan.unconfirmedTo, h.synced || plan.unconfirmedTo == view.height),
                             m', log))
                else None
  {
    var plan := PlanRound(cfg, w.heads, view);
    var m := RecordsFor(plan, w.records);
    assert DeliverRound(node, plan, m, log) == DeliverRound(node, plan.(reset := false), m, log);
  }

  /** Likewise for what it sends. */
  lemma PollSendsAhead(cfg: Config, w: Watch, view: View, node: Node, log: Log)
    ensures var reset := NeedsReset(w.heads, view);
            var h := if reset then w.heads.(unconfirmed := w.heads.confirmed) else w.heads;
            var m := if reset then Handlers.ResetUnconfirmed(w.records) else w.records;
            var plan := Ahead(cfg, h, view.height);
            PollTxs(cfg, w, view, node, log) == if Idle(plan) then [] else RoundTxs(node, plan, m, log)
  {
    var plan := PlanRound(cfg, w.heads, view);
    var m := RecordsFor(plan, w.records);
    assert RoundTxs(node, plan, m, log) == RoundTxs(node, plan.(reset := false), m, log);
  }

  lemma Appended<T>(a: seq<T>, b: seq<T>, c: seq<T>)
    ensures a + b + c == a + (b + c)
  {
  }

  class Blockchain {
    const cfg: Config
    const cm: ChannelManager
    var waitSync: bool
    var insufficientBalance: bool
    ghost var seen: Log

    ghost predicate Valid()
      reads this, cm, cm.state
    {
      && cm.Valid()
      && (waitSync ==>
            && cm.state.confirmedHeadNumber.Some? && cm.state.unconfirmedHeadNumber.Some?
            && cm.state.confirmedHeadHash.Some? && cm.state.unconfirmedHeadHash.Some?)
    }

    function OrStart(head: Option<nat>): nat {
      if head.Some? then head.value else cfg.start
    }

    ghost function HeadsNow(): Heads
      reads this, cm, cm.state
    {
      Heads(OrStart(cm.state.confirmedHeadNumber), OrStart(cm.state.unconfirmedHeadNumber), waitSync)
    }

    /** The hashes stored for the confirmed and the unconfirmed head. */
    function HashesNow(): (Option<nat>, Option<nat>)
      reads this, cm, cm.state
    {
      (cm.state.confirmedHeadHash, cm.state.unconfirmedHeadHash)
    }

    /** They are those of the blocks that this node has at the heads. */
    ghost predicate HashesOf(n: Provider)
      reads this, cm, cm.state
    {
      HashesNow() == (Some(n.hashOf(HeadsNow().confirmed)), Some(n.hashOf(HeadsNow().unconfirmed)))
    }

    /** The object as a state of the run model. */
    ghost function Now(): Watch
      reads this, cm, cm.state
    {
      Watch(HeadsNow(), cm.state.records, seen)
    }

    ghost predicate HeadKnown(n: Provider)
      reads this, cm, cm.state
      requires Valid()
    {
      waitSync ==> n.knows(cm.state.unconfirmedHeadHash.value)
    }

    /** What the assertion on the confirmed head's hash demands of the node. */
    ghost predicate ConfirmedHeadKnown(n: Provider)
      reads this, cm, cm.state
      requires Valid()
    {
      waitSync ==> n.knows(cm.state.confirmedHeadHash.value)
    }

    constructor (cfg: Config, cm: ChannelManager)
      requires cm.Valid() && cm.state.records == map[]
      requires cm.state.confirmedHeadNumber == None && cm.state.unconfirmedHeadNumber == None
      ensures Valid() && this.cfg == cfg && this.cm == cm
      ensures Now() == Begin(cfg)
    {
      this.cfg, this.cm, waitSync, insufficientBalance, seen := cfg, cm, false, false, [];
    }

    /** Lack of ether is caught and remembered. */
    method RequestClose(node: Node, id: Id, balance: nat, timeout: nat) returns (failure: Option<Failure>)
      requires Valid()
      modifies this`insufficientBalance, cm`sent, cm.state`channels, cm.state`topups, cm.state`index, cm.state`records
      ensures Valid()
      ensures var e := OnCloseRequested(cm.r, old(cm.state.records), id, balance, timeout, node.funded(id));
              && cm.state.records == e.records && cm.sent == old(cm.sent) + Sent(e)
              && failure == (if e.failure == Some(InsufficientBalance) then None else e.failure)
              && insufficientBalance == (old(insufficientBalance) || e.failure == Some(InsufficientBalance))
    {
      failure := cm.EventChannelCloseRequested(id, balance, timeout, node.funded(id));
      if failure == Some(InsufficientBalance) {
        insufficientBalance := true;
        failure := None;
      }
    }

    /** The body of the loop over close requests. */
    method HandleCloseRequest(node: Node, id: Id, balance: nat) returns (failure: Option<Failure>)
      requires Valid() && node.r == cm.r && id.openBlock > 0
      modifies this`insufficientBalance, cm`sent, cm.state`channels, cm.state`topups, cm.state`index, cm.state`records
      ensures Valid()
      ensures match DeliverCloseRequest(node, old(cm.state.records), id, balance)
              case Going(m) => failure == None && cm.state.records == m
              case Stopped(why) => failure == Some(why)
      ensures cm.sent == old(cm.sent) + RequestTxs(node, old(cm.state.records), id, balance)
    {
      var channels := cm.state.GetChannels(true);
      if id !in channels { return None; }
      match node.settleBlock(id)
      case None =>
        failure := cm.ForceCloseChannel(id, node.funded(id));
      case Some(timeout) =>
        failure := RequestClose(node, id, balance, timeout);
    }

    /** One event of a pass, given to its handler. */
    method DeliverEvent(node: Node, pass: Pass, e: LogEntry) returns (failure: Option<Failure>)
      requires Valid() && node.r == cm.r && KindOf(e.event) == PassKind(pass) && IdOf(e).openBlock > 0
      modifies this`insufficientBalance, cm`sent, cm.state`channels, cm.state`topups, cm.state`index, cm.state`records
      ensures Valid()
      ensures match Deliver(node, pass, old(cm.state.records), e)
              case Going(m) => failure == None && cm.state.records == m
              case Stopped(why) => failure == Some(why)
      ensures cm.sent == old(cm.sent) + EventTxs(node, pass, old(cm.state.records), e)
    {
      var id := IdOf(e);
      if pass.CloseRequests? {
        failure := HandleCloseRequest(node, id, e.event.balance);
        return;
      }
      var ok := true;
      match pass {
        case UnconfirmedCreations => cm.UnconfirmedEventChannelOpened(id, e.event.deposit);
        case Creations => cm.EventChannelOpened(id, e.event.deposit);
        case UnconfirmedTopUps => ok := cm.UnconfirmedEventChannelTopup(id, node.txOf(e), e.event.added);
        case TopUps => ok := cm.EventChannelTopup(id, node.txOf(e), e.event.added);
        case Settlements => ok := cm.EventChannelSettled(id);
      }
      failure := if ok then None else Some(AssertionError);
    }

    /** One of the six loops of a round. */
    method DeliverAll(node: Node, pass: Pass, lo: nat, hi: nat, log: Log) returns (failure: Option<Failure>)
      requires Valid() && node.r == cm.r && forall e :: e in log ==> IdOf(e).openBlock > 0
      modifies this`insufficientBalance, cm`sent, cm.state`channels, cm.state`topups, cm.state`index, cm.state`records
      ensures Valid()
      ensures match DeliverPass(node, pass, lo, hi, old(cm.state.records), log)
              case Going(m) => failure == None && cm.state.records == m
              case Stopped(why) => failure == Some(why)
      ensures cm.sent == old(cm.sent) + PassTxs(node, pass, lo, hi, old(cm.state.records), log)
    {
      ghost var m, before := cm.state.records, cm.sent;
      ghost var sofar: seq<CloseTx> := [];
      assert log[..0] == [];
      failure := None;
      for i := 0 to |log|
        invariant Valid() && failure == None && cm.sent == before + sofar
        invariant DeliverPass(node, pass, lo, hi, m, log[..i]) == Going(cm.state.records)
        invariant PassTxs(node, pass, lo, hi, m, log[..i]) == sofar
      {
        if Selected(node, pass, log[i], lo, hi) {
          ghost var p, txs := PassDelivers(node, pass, lo, hi, m, log, i, cm.state.records);
          failure := DeliverEvent(node, pass, log[i]);
          Appended(before, sofar, txs);
          sofar := sofar + txs;
          if failure.Some? {
            PassStays(node, pass, lo, hi, m, log, i + 1);
            PassTxsStay(node, pass, lo, hi, m, log, i + 1);
            return;
          }
        } else {
          PassSkips(node, pass, lo, hi, m, log, i);
        }
      }
      assert log[..|log|] == log;
    }

    method DeliverQuietly(node: Node, pass: Pass, lo: nat, hi: nat, log: Log) returns (failure: Option<Failure>)
      requires Valid() && node.r == cm.r && !pass.CloseRequests? && forall e :: e in log ==> IdOf(e).openBlock > 0
      modifies this`insufficientBalance, cm`sent, cm.state`channels, cm.state`topups, cm.state`index, cm.state`records
      ensures Valid() && cm.sent == old(cm.sent)
      ensures match DeliverPass(node, pass, lo, hi, old(cm.state.records), log)
              case Going(m) => failure == None && cm.state.records == m
              case Stopped(why) => failure == Some(why)
    {
      QuietPass(node, pass, lo, hi, cm.state.records, log);
      failure := DeliverAll(node, pass, lo, hi, log);
    }

    /** The six loops, in the order of the original. */
    method DeliverEvents(node: Node, plan: Plan, log: Log) returns (failure: Option<Failure>)
      requires Valid() && node.r == cm.r && forall e :: e in log ==> IdOf(e).openBlock > 0
      modifies this`insufficientBalance, cm`sent, cm.state`channels, cm.state`topups, cm.state`index, cm.state`records
      ensures Valid()
      ensures match DeliverRound(node, plan, old(cm.state.records), log)
              case Going(m) => failure == None && cm.state.records == m
              case Stopped(why) => failure == Some(why)
      ensures cm.sent == old(cm.sent) + RoundTxs(node, plan, old(cm.state.records), log)
    {
      failure := DeliverQuiet(node, plan, log);
      if failure.Some? { return; }
      failure := DeliverAll(node, CloseRequests, plan.confirmedFrom, plan.confirmedTo, log);
    }

    /** The five loops that send nothing. */
    method DeliverQuiet(node: Node, plan: Plan, log: Log) returns (failure: Option<Failure>)
      requires Valid() && node.r == cm.r && forall e :: e in log ==> IdOf(e).openBlock > 0
      modifies this`insufficientBalance, cm`sent, cm.state`channels, cm.state`topups, cm.state`index, cm.state`records
      ensures Valid() && cm.sent == old(cm.sent)
      ensures match BeforeCloseRequests(node, plan, old(cm.state.records), log)
              case Going(m) => failure == None && cm.state.records == m
              case Stopped(why) => failure == Some(why)
    {
      failure := DeliverQuietly(node, UnconfirmedCreations, plan.unconfirmedFrom, plan.unconfirmedTo, log);
      if failure.Some? { return; }
      failure := DeliverQuietly(node, Creations, plan.confirmedFrom, plan.confirmedTo, log);
      if failure.Some? { return; }
      failure := DeliverQuietly(node, UnconfirmedTopUps, plan.unconfirmedFrom, plan.unconfirmedTo, log);
      if failure.Some? { return; }
      failure := DeliverQuietly(node, TopUps, plan.confirmedFrom, plan.confirmedTo, log);
      if failure.Some? { return; }
      failure := DeliverQuietly(node, Settlements, plan.confirmedFrom, plan.confirmedTo, log);
    }

    /** The checks for replaced blocks, on all but the first synchronisation. */
    method ResetIfReplaced(n: Provider) returns (ok: bool)
      requires Valid()
      modifies cm.state
      ensures Valid() && ok == old(ConfirmedHeadKnown(n))
      ensures cm.sent == old(cm.sent)
      ensures ok ==>
                var reset := NeedsReset(old(HeadsNow()), View(n.height, old(HeadKnown(n))));
                && cm.state.records ==
                     (if reset then Handlers.ResetUnconfirmed(old(cm.state.records)) else old(cm.state.records))
                && cm.state.confirmedHeadNumber == old(cm.state.confirmedHeadNumber)
                && cm.state.unconfirmedHeadNumber ==
                     (if reset then old(cm.state.confirmedHeadNumber) else old(cm.state.unconfirmedHeadNumber))
                && HashesNow() ==
                     if reset then (old(cm.state.confirmedHeadHash), old(cm.state.confirmedHeadHash))
                     else old(HashesNow())
    {
      if !waitSync { return true; }
      if n.height < cm.state.unconfirmedHeadNumber.value {
        cm.ResetUnconfirmed();
      }
      if !n.knows(cm.state.unconfirmedHeadHash.value) {
        cm.ResetUnconfirmed();
      }
      return n.knows(cm.state.confirmedHeadHash.value);
    }

    /** Heads that were never set start at the configured block. */
    method SetMissingHeads()
      requires Valid()
      modifies cm.state`confirmedHeadNumber, cm.state`unconfirmedHeadNumber, cm.state`confirmedHeadHash,
               cm.state`unconfirmedHeadHash
      ensures Valid() && HeadsNow() == old(HeadsNow()) && HashesNow() == old(HashesNow())
      ensures cm.state.confirmedHeadNumber.Some? && cm.state.unconfirmedHeadNumber.Some?
    {
      if cm.state.confirmedHeadNumber.None? {
        cm.state.UpdateSyncState(Some(cfg.start), None, None, None);
      }
      if cm.state.unconfirmedHeadNumber.None? {
        cm.state.UpdateSyncState(None, None, Some(cfg.start), None);
      }
    }

    /** A planned round: deliver the events, then set the new heads. */
    method Round(n: Provider, plan: Plan) returns (failure: Option<Failure>)
      requires Valid() && n.node.r == cm.r && forall e :: e in n.log ==> IdOf(e).openBlock > 0
      modifies this`waitSync, this`insufficientBalance, cm`sent, cm.state
      ensures Valid()
      ensures match DeliverRound(n.node, plan, old(cm.state.records), n.log)
              case Stopped(why) => failure == Some(why)
              case Going(m) =>
                && cm.state.records == m
                && failure == (if HeadsAcceptable(plan) then None else Some(AssertionError))
                && (failure == None ==>
                      HeadsNow() ==
                        Heads(plan.confirmedTo, plan.unconfirmedTo, old(waitSync) || plan.unconfirmedTo == n.height))
      ensures failure == None ==> HashesOf(n)
      ensures cm.sent == old(cm.sent) + RoundTxs(n.node, plan, old(cm.state.records), n.log)
    {
      failure := DeliverEvents(n.node, plan, n.log);
      if failure.Some? { return; }
      var ok := cm.SetHead(plan.unconfirmedTo, n.hashOf(plan.unconfirmedTo), plan.confirmedTo,
                           n.hashOf(plan.confirmedTo));
      if !ok { return Some(AssertionError); }
      if !waitSync && plan.unconfirmedTo == n.height {
        waitSync := true;
      }
    }

    /** The part of a round after the checks for replaced blocks. */
    method Proceed(n: Provider) returns (failure: Option<Failure>)
      requires Valid() && n.node.r == cm.r && forall e :: e in n.log ==> IdOf(e).openBlock > 0
      modifies this`waitSync, this`insufficientBalance, cm`sent, cm.state
      ensures Valid()
      ensures var plan := Ahead(cfg, old(HeadsNow()), n.height);
              if Idle(plan) then
                failure == None && cm.state.records == old(cm.state.records) && HeadsNow() == old(HeadsNow())
              else
                match DeliverRound(n.node, plan, old(cm.state.records), n.log)
                case Stopped(why) => failure == Some(why)
                case Going(m) =>
                  && cm.state.records == m
                  && failure == (if HeadsAcceptable(plan) then None else Some(AssertionError))
                  && (failure == None ==>
                        HeadsNow() ==
                          Heads(plan.confirmedTo, plan.unconfirmedTo, old(waitSync) || plan.unconfirmedTo == n.height))
      ensures failure == None ==>
                if Idle(Ahead(cfg, old(HeadsNow()), n.height)) then HashesNow() == old(HashesNow()) else HashesOf(n)
      ensures var plan := Ahead(cfg, old(HeadsNow()), n.height);
              cm.sent == old(cm.sent) + if Idle(plan) then [] else RoundTxs(n.node, plan, old(cm.state.records), n.log)
    {
      SetMissingHeads();
      var confirmed, unconfirmed := cm.state.confirmedHeadNumber.value, cm.state.unconfirmedHeadNumber.value;
      var newUnconfirmed := Min(unconfirmed + cfg.chunk, n.height);
      var newConfirmed := Max(newUnconfirmed - cfg.confirmations, 0);
      if confirmed >= newConfirmed && unconfirmed >= newUnconfirmed { return None; }
      failure := Round(n, Plan(false, confirmed, newConfirmed, unconfirmed, newUnconfirmed));
    }

    /** _update: one round. It completes exactly when the round of the run model does, with the same result. */
    method Update(n: Provider) returns (failure: Option<Failure>)
      requires Valid() && n.node.r == cm.r && forall e :: e in n.log ==> IdOf(e).openBlock > 0
      modifies this, cm`sent, cm.state
      ensures Valid()
      ensures !old(ConfirmedHeadKnown(n)) ==> failure == Some(AssertionError)
      ensures old(ConfirmedHeadKnown(n)) ==>
                match Happen(cfg, cm.r, old(Now()), Poll(View(n.height, old(HeadKnown(n))), n.node, n.log))
                case Some(w) => failure == None && Now() == w
                case None => failure.Some?
      ensures failure == None ==>
                var view := View(n.height, old(HeadKnown(n)));
                if !Idle(PlanRound(cfg, old(HeadsNow()), view)) then HashesOf(n)
                else if NeedsReset(old(HeadsNow()), view) then
                  HashesNow() == (old(cm.state.confirmedHeadHash), old(cm.state.confirmedHeadHash))
                else HashesNow() == old(HashesNow())
      ensures cm.sent ==
              old(cm.sent) + if old(ConfirmedHeadKnown(n))
                             then PollTxs(cfg, old(Now()), View(n.height, old(HeadKnown(n))), n.node, n.log) else []
    {
      ghost var before, view := Now(), View(n.height, HeadKnown(n));
      var ok := ResetIfReplaced(n);
      if !ok { return Some(AssertionError); }
      seen := n.log;
      PollGoesAhead(cfg, cm.r, before, view, n.node, n.log);
      PollSendsAhead(cfg, before, view, n.node, n.log);
      failure := Proceed(n);
    }
  }
}
