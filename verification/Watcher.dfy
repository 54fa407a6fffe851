/** One polling round as a function: six passes over the log, each delivering one kind of event to the handlers. */
module Watcher {
  import opened Prelude
  import opened Escrow
  import opened Store
  import opened Accounts
  import opened EventLog
  import opened Handlers
  import opened Windows

  /** What the handlers take from the node: transaction hashes, the settle block of a channel that still exists on
      chain, and whether the receiver's ether pays for a closing transaction. */
  datatype Node = Node(
    r: Receiver,
    txOf: LogEntry -> Tx,
    settleBlock: Id -> Option<nat>,
    funded: Id -> bool)

  /** The passes of a round. */
  datatype Pass =
    | UnconfirmedCreations
    | Creations
    | UnconfirmedTopUps
    | TopUps
    | Settlements
    | CloseRequests

  datatype Progress = Going(records: Records) | Stopped(why: Failure)

  function PassKind(pass: Pass): Kind {
    match pass
    case UnconfirmedCreations => Creation
    case Creations => Creation
    case UnconfirmedTopUps => TopUpKind
    case TopUps => TopUpKind
    case Settlements => Settlement
    case CloseRequests => CloseKind
  }

  function IdOf(e: LogEntry): Id {
    Id(EntryId(e).sender, EntryId(e).openBlock)
  }

  function ChannelOf(r: Receiver, id: Id): ChannelId {
    ChannelId(id.sender, r.address, id.openBlock)
  }

  /** get_logs for one event name, a block range, and this receiver. */
  predicate Selected(node: Node, pass: Pass, e: LogEntry, lo: nat, hi: nat) {
    EntryId(e).receiver == node.r.address && KindOf(e.event) == PassKind(pass) && lo < e.blockNumber <= hi
  }

  function OrAssert(r: Option<Records>): Progress {
    if r.Some? then Going(r.value) else Stopped(AssertionError)
  }

  /** A close request for a channel the chain has forgotten is forced; lack of ether is caught only otherwise. */
  function DeliverCloseRequest(node: Node, m: Records, id: Id, balance: nat): Progress {
    if !Confirmed(m, id) then Going(m)
    else
      match node.settleBlock(id)
      case None =>
        var e := ForceClose(node.r, m, id, node.funded(id));
        if e.failure.Some? then Stopped(e.failure.value) else Going(e.records)
      case Some(timeout) =>
        var e := OnCloseRequested(node.r, m, id, balance, timeout, node.funded(id));
        if e.failure.Some? && e.failure != Some(InsufficientBalance) then Stopped(e.failure.value) else Going(e.records)
  }

  function Deliver(node: Node, pass: Pass, m: Records, e: LogEntry): Progress
    requires KindOf(e.event) == PassKind(pass)
  {
    match pass
    case UnconfirmedCreations => Going(OnUnconfirmedOpened(m, IdOf(e), e.event.deposit))
    case Creations => Going(OnOpened(m, IdOf(e), e.event.deposit))
    case UnconfirmedTopUps => OrAssert(OnUnconfirmedTopup(m, IdOf(e), node.txOf(e), e.event.added))
    case TopUps => OrAssert(OnTopup(m, IdOf(e), node.txOf(e), e.event.added))
    case Settlements => OrAssert(OnSettled(m, IdOf(e)))
    case CloseRequests => DeliverCloseRequest(node, m, IdOf(e), e.event.balance)
  }

  /** One pass over the log in block order; it stops at the first handler that raises. */
  function DeliverPass(node: Node, pass: Pass, lo: nat, hi: nat, m: Records, log: Log): Progress {
    if log == [] then Going(m)
    else
      match DeliverPass(node, pass, lo, hi, m, log[..|log| - 1])
      case Stopped(why) => Stopped(why)
      case Going(m') =>
        var e := log[|log| - 1];
        if Selected(node, pass, e, lo, hi) then Deliver(node, pass, m', e) else Going(m')
  }

  function Then(node: Node, pass: Pass, lo: nat, hi: nat, p: Progress, log: Log): Progress {
    match p
    case Stopped(why) => Stopped(why)
    case Going(m) => DeliverPass(node, pass, lo, hi, m, log)
  }

  /** The six passes in the order of the original. */
  function DeliverRound(node: Node, plan: Plan, m: Records, log: Log): Progress {
    var p1 := DeliverPass(node, UnconfirmedCreations, plan.unconfirmedFrom, plan.unconfirmedTo, m, log);
    var p2 := Then(node, Creations, plan.confirmedFrom, plan.confirmedTo, p1, log);
    var p3 := Then(node, UnconfirmedTopUps, plan.unconfirmedFrom, plan.unconfirmedTo, p2, log);
    var p4 := Then(node, TopUps, plan.confirmedFrom, plan.confirmedTo, p3, log);
    var p5 := Then(node, Settlements, plan.confirmedFrom, plan.confirmedTo, p4, log);
    Then(node, CloseRequests, plan.confirmedFrom, plan.confirmedTo, p5, log)
  }

  // ---------------------------------------------------------------- the closing transactions of a round

  function Sent(e: Effect): seq<CloseTx> {
    if e.sent.Some? then [e.sent.value] else []
  }

  /** What goes out when a close request is delivered. */
  function RequestTxs(node: Node, m: Records, id: Id, balance: nat): seq<CloseTx> {
    if !Confirmed(m, id) then []
    else
      match node.settleBlock(id)
      case None => Sent(ForceClose(node.r, m, id, node.funded(id)))
      case Some(timeout) => Sent(OnCloseRequested(node.r, m, id, balance, timeout, node.funded(id)))
  }

  function EventTxs(node: Node, pass: Pass, m: Records, e: LogEntry): seq<CloseTx>
    requires KindOf(e.event) == PassKind(pass)
  {
    if pass.CloseRequests? then RequestTxs(node, m, IdOf(e), e.event.balance) else []
  }

  /** What a pass sends before it ends or stops. */
  function PassTxs(node: Node, pass: Pass, lo: nat, hi: nat, m: Records, log: Log): seq<CloseTx> {
    if log == [] then []
    else
      var front, e := log[..|log| - 1], log[|log| - 1];
      PassTxs(node, pass, lo, hi, m, front) +
      match DeliverPass(node, pass, lo, hi, m, front)
      case Stopped(_) => []
      case Going(m') => if Selected(node, pass, e, lo, hi) then EventTxs(node, pass, m', e) else []
  }

  function ThenTxs(node: Node, pass: Pass, lo: nat, hi: nat, p: Progress, log: Log): seq<CloseTx> {
    match p
    case Stopped(_) => []
    case Going(m) => PassTxs(node, pass, lo, hi, m, log)
  }

  /** The records before the last pass of a round. */
  function BeforeCloseRequests(node: Node, plan: Plan, m: Records, log: Log): Progress {
    var p1 := DeliverPass(node, UnconfirmedCreations, plan.unconfirmedFrom, plan.unconfirmedTo, m, log);
    var p2 := Then(node, Creations, plan.confirmedFrom, plan.confirmedTo, p1, log);
    var p3 := Then(node, UnconfirmedTopUps, plan.unconfirmedFrom, plan.unconfirmedTo, p2, log);
    var p4 := Then(node, TopUps, plan.confirmedFrom, plan.confirmedTo, p3, log);
    Then(node, Settlements, plan.confirmedFrom, plan.confirmedTo, p4, log)
  }

  /** What a round sends before it ends or stops; only the last pass sends anything. */
  function RoundTxs(node: Node, plan: Plan, m: Records, log: Log): seq<CloseTx> {
    ThenTxs(node, CloseRequests, plan.confirmedFrom, plan.confirmedTo, BeforeCloseRequests(node, plan, m, log), log)
  }

  /** One entry further on. */
  lemma PassSkips(node: Node, pass: Pass, lo: nat, hi: nat, m: Records, log: Log, n: nat)
    requires n < |log| && !Selected(node, pass, log[n], lo, hi)
    ensures DeliverPass(node, pass, lo, hi, m, log[..n + 1]) == DeliverPass(node, pass, lo, hi, m, log[..n])
    ensures PassTxs(node, pass, lo, hi, m, log[..n + 1]) == PassTxs(node, pass, lo, hi, m, log[..n])
  {
    assert log[..n + 1][..n] == log[..n];
  }

  lemma PassDelivers(node: Node, pass: Pass, lo: nat, hi: nat, m: Records, log: Log, n: nat, m': Records)
    returns (p: Progress, txs: seq<CloseTx>)
    requires n < |log| && Selected(node, pass, log[n], lo, hi)
    requires DeliverPass(node, pass, lo, hi, m, log[..n]) == Going(m')
    ensures DeliverPass(node, pass, lo, hi, m, log[..n + 1]) == p == Deliver(node, pass, m', log[n])
    ensures PassTxs(node, pass, lo, hi, m, log[..n + 1]) == PassTxs(node, pass, lo, hi, m, log[..n]) + txs
    ensures txs == EventTxs(node, pass, m', log[n])
  {
    assert log[..n + 1][..n] == log[..n];
    p, txs := Deliver(node, pass, m', log[n]), EventTxs(node, pass, m', log[n]);
  }

  /** A pass that stopped sends nothing more. */
  lemma {:induction false} PassTxsStay(node: Node, pass: Pass, lo: nat, hi: nat, m: Records, log: Log, n: nat)
    requires n <= |log| && DeliverPass(node, pass, lo, hi, m, log[..n]).Stopped?
    ensures PassTxs(node, pass, lo, hi, m, log) == PassTxs(node, pass, lo, hi, m, log[..n])
    decreases |log|
  {
    if n < |log| {
      var front := log[..|log| - 1];
      assert front[..n] == log[..n];
      PassStays(node, pass, lo, hi, m, front, n);
      PassTxsStay(node, pass, lo, hi, m, front, n);
    } else {
      assert log[..n] == log;
    }
  }

  lemma {:induction false} QuietPass(node: Node, pass: Pass, lo: nat, hi: nat, m: Records, log: Log)
    requires !pass.CloseRequests?
    ensures PassTxs(node, pass, lo, hi, m, log) == []
  {
    if log != [] {
      QuietPass(node, pass, lo, hi, m, log[..|log| - 1]);
    }
  }

  lemma {:induction false} PassStays(node: Node, pass: Pass, lo: nat, hi: nat, m: Records, log: Log, n: nat)
    requires n <= |log| && DeliverPass(node, pass, lo, hi, m, log[..n]).Stopped?
    ensures DeliverPass(node, pass, lo, hi, m, log) == DeliverPass(node, pass, lo, hi, m, log[..n])
    decreases |log|
  {
    if n < |log| {
      assert log[..|log| - 1][..n] == log[..n];
      PassStays(node, pass, lo, hi, m, log[..|log| - 1], n);
    } else {
      assert log[..n] == log;
    }
  }

  lemma {:induction false} PassSeesOwn(node: Node, pass: Pass, lo: nat, hi: nat, m: Records, log: Log)
    ensures DeliverPass(node, pass, lo, hi, m, Own(Receiving(node.r.address), log)) ==
            DeliverPass(node, pass, lo, hi, m, log)
  {
    if log != [] {
      var front, last := log[..|log| - 1], log[|log| - 1];
      PassSeesOwn(node, pass, lo, hi, m, front);
      assert Own(Receiving(node.r.address), front) + [] == Own(Receiving(node.r.address), front);
    }
  }

  /** A round depends on the events of this receiver's channels only. */
  lemma RoundSeesOwn(node: Node, plan: Plan, m: Records, log: Log)
    ensures DeliverRound(node, plan, m, Own(Receiving(node.r.address), log)) == DeliverRound(node, plan, m, log)
  {
    var own := Own(Receiving(node.r.address), log);
    PassSeesOwn(node, UnconfirmedCreations, plan.unconfirmedFrom, plan.unconfirmedTo, m, log);
    var p1 := DeliverPass(node, UnconfirmedCreations, plan.unconfirmedFrom, plan.unconfirmedTo, m, log);
    if p1.Going? {
      PassSeesOwn(node, Creations, plan.confirmedFrom, plan.confirmedTo, p1.records, log);
    }
    var p2 := Then(node, Creations, plan.confirmedFrom, plan.confirmedTo, p1, log);
    if p2.Going? {
      PassSeesOwn(node, UnconfirmedTopUps, plan.unconfirmedFrom, plan.unconfirmedTo, p2.records, log);
    }
    var p3 := Then(node, UnconfirmedTopUps, plan.unconfirmedFrom, plan.unconfirmedTo, p2, log);
    if p3.Going? {
      PassSeesOwn(node, TopUps, plan.confirmedFrom, plan.confirmedTo, p3.records, log);
    }
    var p4 := Then(node, TopUps, plan.confirmedFrom, plan.confirmedTo, p3, log);
    if p4.Going? {
      PassSeesOwn(node, Settlements, plan.confirmedFrom, plan.confirmedTo, p4.records, log);
    }
    var p5 := Then(node, Settlements, plan.confirmedFrom, plan.confirmedTo, p4, log);
    if p5.Going? {
      PassSeesOwn(node, CloseRequests, plan.confirmedFrom, plan.confirmedTo, p5.records, log);
    }
  }

}
