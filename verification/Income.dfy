/** From the paywall to the bank. In one run of chain, daemon and paywall, what a channel's receiver can collect is
    the sum of the prices of the requests it granted. */
module Income {
  import opened Prelude
  import opened Escrow
  import opened Accounts
  import opened Conservation
  import opened EventLog
  import opened Store
  import opened Handlers
  import opened RecordInvariants
  import opened Windows
  import opened Watcher
  import opened Passes
  import opened Sync
  import opened SyncRuns
  import opened Redeem
  import Paywall

  /** A step of chain or daemon, or a request at the paywall. */
  datatype ServedStep =
    | Other(s: JointStep)
    | Request(price: nat, data: Option<Paywall.Payment>)

  function Serve(p: Params, cfg: Config, r: Receiver, j: Joint, s: ServedStep): Option<Joint> {
    match s
    case Other(step) => Take(p, cfg, r, j, step)
    case Request(price, data) =>
      Some(j.(d := j.d.(records := Paywall.Check(r, j.d.records, price, data).records)))
  }

  function ServeAll(p: Params, cfg: Config, r: Receiver, j: Joint, steps: seq<ServedStep>): Option<Joint> {
    if steps == [] then Some(j)
    else
      match ServeAll(p, cfg, r, j, steps[..|steps| - 1])
      case None => None
      case Some(k) => Serve(p, cfg, r, k, steps[|steps| - 1])
  }

  /** Payments come through the paywall only. */
  ghost predicate Servable(p: Params, cfg: Config, r: Receiver, j: Joint, s: ServedStep) {
    match s
    case Other(step) => JointAdmissible(p, cfg, r, j, step) && !(step.OnDaemon? && step.h.Call? && step.h.op.OpPay?)
    case Request(price, _) => price > 0
  }

  ghost predicate AllServable(p: Params, cfg: Config, r: Receiver, j: Joint, steps: seq<ServedStep>) {
    steps != [] ==>
      && AllServable(p, cfg, r, j, steps[..|steps| - 1])
      && (ServeAll(p, cfg, r, j, steps[..|steps| - 1]).Some? ==>
            Servable(p, cfg, r, ServeAll(p, cfg, r, j, steps[..|steps| - 1]).value, steps[|steps| - 1]))
  }

  /** What one step grants on a channel. */
  function Price(r: Receiver, m: Records, s: ServedStep, id: Id): nat {
    if s.Request? && Paywall.GrantsTo(r, m, Paywall.Get(s.price, s.data), id) then s.price else 0
  }

  /** The prices of all requests granted on a channel. */
  function PricesGranted(p: Params, cfg: Config, r: Receiver, j: Joint, steps: seq<ServedStep>, id: Id): nat {
    if steps == [] then 0
    else
      var front, last := steps[..|steps| - 1], steps[|steps| - 1];
      PricesGranted(p, cfg, r, j, front, id) +
      match ServeAll(p, cfg, r, j, front)
      case None => 0
      case Some(k) => Price(r, k.d.records, last, id)
  }

  // ---------------------------------------------------------------- each step keeps the books

  /** The books of a channel that was never settled: the stored balance is what was granted. */
  predicate Booked(w: World, r: Receiver, m: Records, id: Id, granted: nat) {
    Conservation.Settlements(w.log, ChannelOf(r, id)) == 0 ==> granted == if Confirmed(m, id) then m[id].balance else 0
  }

  /** A granted request is a payment of the joint run, any other request changes nothing. */
  lemma RequestIsPayment(p: Params, cfg: Config, r: Receiver, j: Joint, s: ServedStep)
    requires s.Request? && s.price > 0
    ensures if Paywall.Granted(Paywall.Check(r, j.d.records, s.price, s.data)) then
              && s.data.Some?
              && Serve(p, cfg, r, j, s) ==
                   Take(p, cfg, r, j, OnDaemon(Call(OpPay(s.data.value.id, s.data.value.balance, s.data.value.sig))))
            else Serve(p, cfg, r, j, s) == Some(j)
  {
    Paywall.GrantedExactlyWhen(r, j.d.records, s.price, s.data);
  }

  lemma ServedKeepsJoint(p: Params, cfg: Config, r: Receiver, j: Joint, s: ServedStep)
    requires r.p == p && KeysDistinct(p) && ConfigOk(cfg) && ParamsOk(p)
    requires JointOk(p, cfg, r, j) && Servable(p, cfg, r, j, s) && Serve(p, cfg, r, j, s).Some?
    ensures JointOk(p, cfg, r, Serve(p, cfg, r, j, s).value)
  {
    if s.Other? {
      TakeExact(p, cfg, r, j, s.s);
    } else {
      RequestIsPayment(p, cfg, r, j, s);
      if Paywall.Granted(Paywall.Check(r, j.d.records, s.price, s.data)) {
        var pay := OnDaemon(Call(OpPay(s.data.value.id, s.data.value.balance, s.data.value.sig)));
        assert JointAdmissible(p, cfg, r, j, pay);
        TakeExact(p, cfg, r, j, pay);
      }
    }
  }

  lemma RequestKeepsBooks(w: World, r: Receiver, m: Records, s: ServedStep, id: Id, granted: nat)
    requires s.Request? && s.price > 0 && Booked(w, r, m, id, granted)
    ensures Booked(w, r, Paywall.Check(r, m, s.price, s.data).records, id, granted + Price(r, m, s, id))
  {
    Paywall.GrantedExactlyWhen(r, m, s.price, s.data);
  }

  lemma CallKeepsBooks(w: World, r: Receiver, m: Records, op: Op, id: Id, granted: nat)
    requires op.OpSignClose? || op.OpClosePending?
    requires Booked(w, r, m, id, granted)
    ensures Booked(w, r, Apply(r, m, op), id, granted)
  {
  }

  /** A record that a round confirms has taken no payment. */
  lemma NewRecordsUnpaid(node: Node, log: Log, start: nat, plan: Plan, m: Records, id: Id)
    requires Ready(node, log, start, plan, m) && DeliverRound(node, plan, m, log).Going?
    requires !Confirmed(m, id) && Confirmed(DeliverRound(node, plan, m, log).records, id)
    ensures DeliverRound(node, plan, m, log).records[id].balance == 0
  {
    RoundFollows(node, log, start, plan, m);
    AfterSettlementsKeepsProofs(node, log, start, plan, m);
    CreationsDone(node, log, start, plan, m, id);
    SettlementsDone(node, log, start, plan, m, id);
    var m5 := BeforeCloseRequests(node, plan, m, log).records;
    assert log[..|log|] == log;
    CloseRequestPass(node, plan.confirmedFrom, plan.confirmedTo, m5, log, |log|, id);
  }

  lemma PollKeepsBooks(p: Params, cfg: Config, r: Receiver, j: Joint, h: Happening, id: Id, granted: nat)
    requires ConfigOk(cfg) && JointOk(p, cfg, r, j) && JointAdmissible(p, cfg, r, j, OnDaemon(h)) && h.Poll?
    requires Happen(cfg, r, j.d, h).Some? && Booked(j.w, r, j.d.records, id, granted)
    ensures Booked(j.w, r, Happen(cfg, r, j.d, h).value.records, id, granted)
  {
    var d' := Happen(cfg, r, j.d, h).value;
    PollExact(cfg, r, j.d, h);
    PollKeepsBalances(cfg, r, j.d, h, id);
    if Conservation.Settlements(j.w.log, ChannelOf(r, id)) == 0 {
      if Confirmed(j.d.records, id) {
        StaysConfirmed(cfg, r, j.w, j.d, d', id);
      } else if Confirmed(d'.records, id) {
        ResumesReady(cfg, r, j.d, h.view, h.log);
        var plan := PlanRound(cfg, j.d.heads, h.view);
        NewRecordsUnpaid(h.node, h.log, cfg.start, plan, RecordsFor(plan, j.d.records), id);
      }
    }
  }

  lemma ChainKeepsBooks(p: Params, r: Receiver, w: World, a: Action, m: Records, id: Id, granted: nat)
    requires Booked(w, r, m, id, granted)
    ensures Booked(Step(p, w, a), r, m, id, granted)
  {
    LogGrowsByOne(p, w, a);
  }

  lemma StepKeepsBooks(p: Params, cfg: Config, r: Receiver, j: Joint, s: ServedStep, id: Id, granted: nat)
    requires r.p == p && KeysDistinct(p) && ConfigOk(cfg) && ParamsOk(p)
    requires JointOk(p, cfg, r, j) && Servable(p, cfg, r, j, s) && Serve(p, cfg, r, j, s).Some?
    requires Booked(j.w, r, j.d.records, id, granted)
    ensures var j' := Serve(p, cfg, r, j, s).value;
            Booked(j'.w, r, j'.d.records, id, granted + Price(r, j.d.records, s, id))
  {
    match s
    case Request(_, _) => RequestKeepsBooks(j.w, r, j.d.records, s, id, granted);
    case Other(OnChain(a)) => ChainKeepsBooks(p, r, j.w, a, j.d.records, id, granted);
    case Other(OnDaemon(h)) =>
      if h.Poll? {
        PollKeepsBooks(p, cfg, r, j, h, id, granted);
      } else {
        CallKeepsBooks(j.w, r, j.d.records, h.op, id, granted);
      }
  }

  lemma {:induction false} ServedRun(p: Params, cfg: Config, r: Receiver, j: Joint, steps: seq<ServedStep>, now: Joint,
                                     id: Id)
    requires JointInitial(p, cfg, r, j) && AllServable(p, cfg, r, j, steps)
    requires ServeAll(p, cfg, r, j, steps) == Some(now)
    ensures JointOk(p, cfg, r, now)
    ensures Booked(now.w, r, now.d.records, id, PricesGranted(p, cfg, r, j, steps, id))
  {
    if steps == [] {
      JointRun(p, cfg, r, j, [], j);
    } else {
      var front, last := steps[..|steps| - 1], steps[|steps| - 1];
      var before := ServeAll(p, cfg, r, j, front).value;
      ServedRun(p, cfg, r, j, front, before, id);
      ServedKeepsJoint(p, cfg, r, before, last);
      StepKeepsBooks(p, cfg, r, before, last, id, PricesGranted(p, cfg, r, j, front, id));
    }
  }

  // ---------------------------------------------------------------- what is granted is collected

  /** Over any run of chain, daemon and paywall: when the stored proof of an unsettled channel between ordinary
      accounts is presented, with a recovery byte the contract reads, the close commits; withdrawals and close
      together have then paid the receiver exactly the prices of all requests granted on the channel, and the sender
      gets all the rest. */
  lemma AccessIsCollected(p: Params, cfg: Config, r: Receiver, j: Joint, steps: seq<ServedStep>, now: Joint, id: Id,
                          agreement: Signature)
    requires JointInitial(p, cfg, r, j) && AllServable(p, cfg, r, j, steps)
    requires ServeAll(p, cfg, r, j, steps) == Some(now)
    requires Presentable(p, r, now, id, agreement) && OrdinaryPair(p, id.sender, r.address)
    requires ContractReadable(now.d.records[id].lastSignature.value)
    ensures var granted := PricesGranted(p, cfg, r, j, steps, id);
            && id.openBlock < TWO_32 && granted < TWO_192 && now.d.records[id].balance == granted
            && var cash := CooperativeClose(p, now.w, r.address, id.openBlock, granted,
                                            now.d.records[id].lastSignature.value, agreement);
            && cash.Some?
            && LifePaid(cash.value.log, ChannelOf(r, id)) == granted
            && cash.value.token.BalanceOf(r.address) ==
                 now.w.token.BalanceOf(r.address) + granted - LifePaid(now.w.log, ChannelOf(r, id))
            && cash.value.token.BalanceOf(id.sender) ==
                 now.w.token.BalanceOf(id.sender) + LifeDeposited(now.w.log, ChannelOf(r, id)) - granted
  {
    ServedRun(p, cfg, r, j, steps, now, id);
    PresentableCashesIn(p, cfg, r, now, id, agreement);
    RecordIsBacked(p, cfg, r, now, id);
    assert Agree(p, now.w, ChannelOf(r, id));
    AccountIsSums(now.w.log, ChannelOf(r, id));
    RecoveryAgrees(p, BalanceProof(r.address, id.openBlock, now.d.records[id].balance, p.self),
                   now.d.records[id].lastSignature.value);
    assert RecordOk(r, id, now.d.records[id]);
    SettlementLogs(p, now.w, ChannelOf(r, id), now.d.records[id].balance);
  }
}
