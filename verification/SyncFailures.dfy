/** Concrete runs in which a round stops, or goes back and counts a top-up twice. */
module SyncFailures {
  import opened Prelude
  import opened Escrow
  import opened Store
  import opened Accounts
  import opened EventLog
  import opened Handlers
  import opened RecordInvariants
  import opened Windows
  import opened Watcher
  import opened Passes
  import opened Sync
  import opened SyncRuns

  lemma OneEntry(node: Node, pass: Pass, lo: nat, hi: nat, m: Records, a: LogEntry)
    ensures DeliverPass(node, pass, lo, hi, m, [a]) ==
            if Selected(node, pass, a, lo, hi) then Deliver(node, pass, m, a) else Going(m)
  {
    assert [a][..0] == [];
  }

  lemma TwoEntries(node: Node, pass: Pass, lo: nat, hi: nat, m: Records, a: LogEntry, b: LogEntry)
    ensures DeliverPass(node, pass, lo, hi, m, [a, b]) ==
            match (if Selected(node, pass, a, lo, hi) then Deliver(node, pass, m, a) else Going(m)) {
              case Stopped(why) => Stopped(why)
              case Going(m') => if Selected(node, pass, b, lo, hi) then Deliver(node, pass, m', b) else Going(m')
            }
  {
    OneEntry(node, pass, lo, hi, m, a);
    assert [a, b] == [a] + [b];
  }

  /** A run that then meets an orphan or a stranded channel does not complete. */
  lemma RoundRaises(cfg: Config, r: Receiver, hs: seq<Happening>, w: Watch, h: Happening, plan: Plan, j: nat)
    requires ConfigOk(cfg) && AllAdmissible(cfg, r, hs) && Run(cfg, r, hs) == Some(w) && h.Poll?
             && Admissible(cfg, r, w, h)
    requires plan == PlanRound(cfg, w.heads, h.view) && !Idle(plan) && j < |h.log|
    requires || Orphan(h.node, h.log, plan, RecordsFor(plan, w.records), j)
             || Stranded(h.node, h.log, plan, RecordsFor(plan, w.records), j)
    ensures AllAdmissible(cfg, r, hs + [h]) && Run(cfg, r, hs + [h]) == None
  {
    RunKeepsStep(cfg, r, hs, w);
    PollExact(cfg, r, w, h);
  }

  // ---------------------------------------------------------------- a block replaced during the first synchronisation

  function CreatedAt(s: Address, r: Receiver, block: nat, deposit: uint192): LogEntry {
    LogEntry(block, Created(s, r.address, deposit))
  }

  /** Before the first synchronisation ends nothing resets the unconfirmed head. Block 6 is replaced by one that creates
      a channel, which is never delivered; its top-up in block 7 then fails the handler's assertion. */
  lemma ReplacedDuringFirstSync(r: Receiver, node: Node, s: Address)
    requires node.r == r
    ensures var cfg := Config(1, 2, 5);
            var log := [CreatedAt(s, r, 6, 10), LogEntry(7, ToppedUp(s, r.address, 6, 5))];
            var hs := [Poll(View(7, true), node, []), Poll(View(7, false), node, log)];
            AllAdmissible(cfg, r, hs) && Run(cfg, r, hs[..1]).Some? && Run(cfg, r, hs).None?
  {
    var cfg := Config(1, 2, 5);
    var log := [CreatedAt(s, r, 6, 10), LogEntry(7, ToppedUp(s, r.address, 6, 5))];
    var hs := [Poll(View(7, true), node, []), Poll(View(7, false), node, log)];
    var w := Watch(Heads(4, 6, false), map[], []);
    var none: seq<Happening> := [];
    assert none + [hs[0]] == hs[..1] && Happen(cfg, r, Begin(cfg), hs[0]) == Some(w);
    NothingOf(log, 1, 6, 7);
    NothingOf(log, 1, 4, 5);
    RoundRaises(cfg, r, hs[..1], w, hs[1], Plan(false, 4, 5, 6, 7), 1);
    assert hs[..1] + [hs[1]] == hs;
  }

  /** Of two entries, the first before the window and the second no creation, no creation lies in the window. */
  lemma NothingOf(log: Log, j: nat, lo: nat, hi: nat)
    requires |log| == 2 && j == 1 && (log[0].blockNumber <= lo || hi < log[0].blockNumber) && !log[1].event.Created?
    ensures !Has(Creation, log, EntryId(log[j]), lo, hi)
  {
    if Has(Creation, log, EntryId(log[j]), lo, hi) {
      var i := WhereHas(Creation, log, EntryId(log[j]), lo, hi);
    }
  }

  // ---------------------------------------------------------------- a forced close without ether

  /** A channel is created in block 2, confirmed, and paid 5. */
  function PaidChannel(r: Receiver, node: Node, s: Address, sig: Signature): seq<Happening> {
    [Poll(View(3, true), node, [CreatedAt(s, r, 2, 10)])] + [Call(OpPay(Id(s, 2), 5, sig))]
  }

  lemma CreatedChannelRuns(r: Receiver, node: Node, e: LogEntry)
    requires node.r == r && e.event.Created? && e.blockNumber == 2 && EntryId(e).receiver == r.address
    ensures var h := Poll(View(3, true), node, [e]);
            && AllAdmissible(Config(1, 1, 100), r, [h])
            && Run(Config(1, 1, 100), r, [h]) ==
                 Some(Watch(Heads(2, 3, true), map[IdOf(e) := NewRecord(e.event.deposit, true)], [e]))
  {
    var cfg := Config(1, 1, 100);
    var h, none: seq<Happening> := Poll(View(3, true), node, [e]), [];
    FirstCreation(cfg, r, node, e, View(3, true));
    assert none + [h] == [h];
  }

  lemma PaidChannelRuns(r: Receiver, node: Node, s: Address, sig: Signature)
    requires node.r == r && PyRecover(r.p, BalanceProof(r.address, 2, 5, r.p.self), sig) == Some(s)
    ensures var cfg := Config(1, 1, 100);
            var paid := NewRecord(10, true).(balance := 5, lastSignature := Some(sig));
            && AllAdmissible(cfg, r, PaidChannel(r, node, s, sig))
            && Run(cfg, r, PaidChannel(r, node, s, sig)) ==
                 Some(Watch(Heads(2, 3, true), map[Id(s, 2) := paid], [CreatedAt(s, r, 2, 10)]))
  {
    var cfg := Config(1, 1, 100);
    var e := CreatedAt(s, r, 2, 10);
    var w := Watch(Heads(2, 3, true), map[Id(s, 2) := NewRecord(10, true)], [e]);
    CreatedChannelRuns(r, node, e);
    AcceptedPayment(r, Id(s, 2), NewRecord(10, true), 5, sig);
  }

  /** The channel is closed on chain and forgotten there before its close request is confirmed; forcing the close fails
      for want of ether and stops the round. */
  lemma ForcedWithoutEther(r: Receiver, node: Node, s: Address, sig: Signature)
    requires node.r == r && node.settleBlock(Id(s, 2)) == None && !node.funded(Id(s, 2))
    requires PyRecover(r.p, BalanceProof(r.address, 2, 5, r.p.self), sig) == Some(s)
    ensures var cfg := Config(1, 1, 100);
            var log := [CreatedAt(s, r, 2, 10), LogEntry(3, CloseRequested(s, r.address, 2, 0))];
            var hs := PaidChannel(r, node, s, sig) + [Poll(View(4, true), node, log)];
            AllAdmissible(cfg, r, hs) && Run(cfg, r, PaidChannel(r, node, s, sig)).Some? && Run(cfg, r, hs).None?
  {
    var cfg := Config(1, 1, 100);
    var log := [CreatedAt(s, r, 2, 10), LogEntry(3, CloseRequested(s, r.address, 2, 0))];
    PaidChannelRuns(r, node, s, sig);
    CannotForce(cfg, r, node, PaidChannel(r, node, s, sig), Run(cfg, r, PaidChannel(r, node, s, sig)).value, log,
                Id(s, 2));
  }

  lemma CannotForce(cfg: Config, r: Receiver, node: Node, hs: seq<Happening>, w: Watch, log: Log, id: Id)
    requires cfg == Config(1, 1, 100) && node.r == r && AllAdmissible(cfg, r, hs) && Run(cfg, r, hs) == Some(w)
    requires |log| == 2 && ValidLog(log, 1) && log[0].blockNumber == 2 && log[1].blockNumber == 3
    requires log[1].event.CloseRequested? && EntryId(log[1]) == ChannelOf(r, id) && !log[0].event.Settled?
    requires w.heads == Heads(2, 3, true) && w.seen == [log[0]] && Unpayable(node, w.records, id)
    ensures var h := Poll(View(4, true), node, log);
            AllAdmissible(cfg, r, hs + [h]) && Run(cfg, r, hs + [h]) == None
  {
    assert log == [log[0], log[1]];
    if Has(Settlement, log, EntryId(log[1]), 2, 3) {
      var i := WhereHas(Settlement, log, EntryId(log[1]), 2, 3);
    }
    assert IdOf(log[1]) == id;
    RoundRaises(cfg, r, hs, w, Poll(View(4, true), node, log), Plan(false, 2, 3, 3, 4), 1);
  }

  /** The first round, over a log whose one entry creates a channel in block 2. */
  lemma FirstCreation(cfg: Config, r: Receiver, node: Node, e: LogEntry, view: View)
    requires node.r == r && e.event.Created? && e.blockNumber == 2 && EntryId(e).receiver == r.address
    requires cfg == Config(1, 1, 100) && view == View(3, true)
    ensures Happen(cfg, r, Begin(cfg), Poll(view, node, [e])) ==
            Some(Watch(Heads(2, 3, true), map[IdOf(e) := NewRecord(e.event.deposit, true)], [e]))
  {
    var id := IdOf(e);
    var m0, m := map[id := NewRecord(e.event.deposit, false)], map[id := NewRecord(e.event.deposit, true)];
    OneEntry(node, UnconfirmedCreations, 1, 3, map[], e);
    assert OnUnconfirmedOpened(map[], id, e.event.deposit) == m0;
    OneEntry(node, Creations, 1, 2, m0, e);
    assert OnOpened(m0, id, e.event.deposit) == m;
    OneEntry(node, UnconfirmedTopUps, 1, 3, m, e);
    OneEntry(node, TopUps, 1, 2, m, e);
    OneEntry(node, Settlements, 1, 2, m, e);
    OneEntry(node, CloseRequests, 1, 2, m, e);
    var plan := PlanRound(cfg, Windows.Initial(cfg), view);
    assert plan == Plan(false, 1, 2, 1, 3);
    assert DeliverRound(node, plan, map[], [e]) == Going(m);
  }

  // ---------------------------------------------------------------- a confirmed head that goes back

  /** A round over two entries that none of its windows contains. */
  lemma EmptyWindows(node: Node, plan: Plan, m: Records, a: LogEntry, b: LogEntry)
    requires forall e :: e == a || e == b ==>
               && !(plan.confirmedFrom < e.blockNumber <= plan.confirmedTo)
               && !(plan.unconfirmedFrom < e.blockNumber <= plan.unconfirmedTo)
    ensures DeliverRound(node, plan, m, [a, b]) == Going(m)
  {
    TwoEntries(node, UnconfirmedCreations, plan.unconfirmedFrom, plan.unconfirmedTo, m, a, b);
    TwoEntries(node, Creations, plan.confirmedFrom, plan.confirmedTo, m, a, b);
    TwoEntries(node, UnconfirmedTopUps, plan.unconfirmedFrom, plan.unconfirmedTo, m, a, b);
    TwoEntries(node, TopUps, plan.confirmedFrom, plan.confirmedTo, m, a, b);
    TwoEntries(node, Watcher.Settlements, plan.confirmedFrom, plan.confirmedTo, m, a, b);
    TwoEntries(node, CloseRequests, plan.confirmedFrom, plan.confirmedTo, m, a, b);
  }

  lemma OneTopUp(id: Id, tx: Tx, deposit: nat, added: nat, pending: bool)
    ensures var m := map[id := NewRecord(deposit, true)];
            var noted := map[id := NewRecord(deposit, true).(topups := map[tx := added])];
            && OnUnconfirmedTopup(m, id, tx, added) == Some(noted)
            && OnTopup(if pending then noted else m, id, tx, added) == Some(map[id := NewRecord(deposit + added, true)])
  {
    var m := map[id := NewRecord(deposit, true)];
    var noted := map[id := NewRecord(deposit, true).(topups := map[tx := added])];
    var before := if pending then noted else m;
    assert m[id].topups[tx := added] == map[tx := added];
    assert m[id := m[id].(topups := map[tx := added])] == noted;
    assert before[id].topups - {tx} == map[];
    assert before[id := NewRecord(deposit + added, true)] == map[id := NewRecord(deposit + added, true)];
  }

  /** A creation and its top-up delivered in one round. */
  lemma BothDelivered(node: Node, a: LogEntry, b: LogEntry)
    requires a.event.Created? && b.event.ToppedUp? && EntryId(b) == EntryId(a) && EntryId(a).receiver == node.r.address
    requires a.blockNumber == 2 && b.blockNumber == 6
    ensures DeliverRound(node, Plan(false, 1, 6, 1, 9), map[], [a, b]) ==
            Going(map[IdOf(a) := NewRecord(a.event.deposit + b.event.added, true)])
  {
    var id, tx := IdOf(a), node.txOf(b);
    var m1 := map[id := NewRecord(a.event.deposit, false)];
    var m2 := map[id := NewRecord(a.event.deposit, true)];
    var m3 := map[id := NewRecord(a.event.deposit, true).(topups := map[tx := b.event.added])];
    var m4 := map[id := NewRecord(a.event.deposit + b.event.added, true)];
    TwoEntries(node, UnconfirmedCreations, 1, 9, map[], a, b);
    assert OnUnconfirmedOpened(map[], id, a.event.deposit) == m1;
    TwoEntries(node, Creations, 1, 6, m1, a, b);
    assert OnOpened(m1, id, a.event.deposit) == m2;
    TwoEntries(node, UnconfirmedTopUps, 1, 9, m2, a, b);
    OneTopUp(id, tx, a.event.deposit, b.event.added, true);
    TwoEntries(node, TopUps, 1, 6, m3, a, b);
    TwoEntries(node, Watcher.Settlements, 1, 6, m4, a, b);
    TwoEntries(node, CloseRequests, 1, 6, m4, a, b);
  }

  lemma TopUpAgain(node: Node, deposit: nat, a: LogEntry, b: LogEntry)
    requires a.event.Created? && b.event.ToppedUp? && EntryId(b) == EntryId(a) && EntryId(a).receiver == node.r.address
    requires a.blockNumber == 2 && b.blockNumber == 6
    ensures DeliverRound(node, Plan(false, 4, 7, 7, 10), map[IdOf(a) := NewRecord(deposit, true)], [a, b]) ==
            Going(map[IdOf(a) := NewRecord(deposit + b.event.added, true)])
  {
    var id, tx := IdOf(a), node.txOf(b);
    var m, m' := map[id := NewRecord(deposit, true)], map[id := NewRecord(deposit + b.event.added, true)];
    TwoEntries(node, UnconfirmedCreations, 7, 10, m, a, b);
    TwoEntries(node, Creations, 4, 7, m, a, b);
    TwoEntries(node, UnconfirmedTopUps, 7, 10, m, a, b);
    TwoEntries(node, TopUps, 4, 7, m, a, b);
    OneTopUp(id, tx, deposit, b.event.added, false);
    TwoEntries(node, Watcher.Settlements, 4, 7, m', a, b);
    TwoEntries(node, CloseRequests, 4, 7, m', a, b);
  }

  /** The height falls by two between two rounds: the second round takes the confirmed head back from 6 to 4, and the
      third delivers the top-up in block 6 again. The record then claims 20 where 15 were deposited. */
  lemma GoingBackCountsTwice(r: Receiver, node: Node, s: Address)
    requires node.r == r
    ensures var cfg := Config(1, 3, 100);
            var log := [CreatedAt(s, r, 2, 10), LogEntry(6, ToppedUp(s, r.address, 2, 5))];
            var hs := [Poll(View(9, true), node, log), Poll(View(7, true), node, log), Poll(View(10, true), node, log)];
            && Run(cfg, r, hs) == Some(Watch(Heads(7, 10, true), map[Id(s, 2) := NewRecord(20, true)], log))
            && DepositAt(log, ChannelOf(r, Id(s, 2)), 1, 7) == 15
  {
    var cfg := Config(1, 3, 100);
    var a, b := CreatedAt(s, r, 2, 10), LogEntry(6, ToppedUp(s, r.address, 2, 5));
    var h1, h2 := Poll(View(9, true), node, [a, b]), Poll(View(7, true), node, [a, b]);
    var h3 := Poll(View(10, true), node, [a, b]);
    ThreeRounds(cfg, r, node, a, b, Id(s, 2), h1, h2, h3);
    assert [a] + [b] == [a, b] && [] + [a] == [a];
    SummarySnoc(Creation, [], a, ChannelOf(r, Id(s, 2)), 1, 7);
    SummarySnoc(Creation, [a], b, ChannelOf(r, Id(s, 2)), 1, 7);
    SummarySnoc(TopUpKind, [], a, ChannelOf(r, Id(s, 2)), 1, 7);
    SummarySnoc(TopUpKind, [a], b, ChannelOf(r, Id(s, 2)), 1, 7);
  }

  lemma ThreeRounds(cfg: Config, r: Receiver, node: Node, a: LogEntry, b: LogEntry, id: Id,
                    h1: Happening, h2: Happening, h3: Happening)
    requires cfg == Config(1, 3, 100) && h1 == Poll(View(9, true), node, [a, b])
    requires h2 == Poll(View(7, true), node, [a, b]) && h3 == Poll(View(10, true), node, [a, b])
    requires a.event.Created? && b.event.ToppedUp? && a.event.deposit == 10 && b.event.added == 5
    requires EntryId(b) == EntryId(a) == ChannelOf(node.r, id) && a.blockNumber == 2 && b.blockNumber == 6
    ensures Run(cfg, r, [h1, h2, h3]) == Some(Watch(Heads(7, 10, true), map[id := NewRecord(20, true)], [a, b]))
  {
    var m, m' := map[id := NewRecord(15, true)], map[id := NewRecord(20, true)];
    var w1, w2, w3 := Watch(Heads(6, 9, true), m, [a, b]), Watch(Heads(4, 7, true), m, [a, b]),
                      Watch(Heads(7, 10, true), m', [a, b]);
    assert IdOf(a) == id;
    assert Happen(cfg, r, Begin(cfg), h1) == Some(w1) by {
      BothDelivered(node, a, b);
      RoundTo(cfg, r, Begin(cfg), h1, Plan(false, 1, 6, 1, 9), m);
    }
    assert Happen(cfg, r, w1, h2) == Some(w2) by {
      assert ResetUnconfirmed(m) == m;
      EmptyWindows(node, Plan(true, 6, 4, 6, 7), m, a, b);
    }
    assert Happen(cfg, r, w2, h3) == Some(w3) by {
      TopUpAgain(node, 15, a, b);
      RoundTo(cfg, r, w2, h3, Plan(false, 4, 7, 7, 10), m');
    }
    RunOfThree(cfg, r, h1, h2, h3);
  }

  lemma RoundTo(cfg: Config, r: Receiver, w: Watch, h: Happening, plan: Plan, m: Records)
    requires h.Poll? && PlanRound(cfg, w.heads, h.view) == plan && !plan.reset && !Idle(plan)
    requires HeadsAcceptable(plan) && plan.unconfirmedTo == h.view.height
    requires DeliverRound(h.node, plan, w.records, h.log) == Going(m)
    ensures Happen(cfg, r, w, h) == Some(Watch(Heads(plan.confirmedTo, plan.unconfirmedTo, true), m, h.log))
  {
  }

  lemma RunOfThree(cfg: Config, r: Receiver, h1: Happening, h2: Happening, h3: Happening)
    ensures Run(cfg, r, [h1, h2, h3]) ==
            match Happen(cfg, r, Begin(cfg), h1) {
              case None => None
              case Some(w1) =>
                match Happen(cfg, r, w1, h2) {
                  case None => None
                  case Some(w2) => Happen(cfg, r, w2, h3)
                }
            }
  {
    assert [h1, h2, h3][..2] == [h1, h2] && [h1, h2][..1] == [h1] && [h1][..0] == [];
    assert Run(cfg, r, [h1]) == Happen(cfg, r, Begin(cfg), h1);
    assert Run(cfg, r, [h1, h2]) ==
           match Run(cfg, r, [h1]) { case None => None case Some(w1) => Happen(cfg, r, w1, h2) };
  }
}
