/**
 Chain and daemon together. Every stored balance proof can be cashed on chain until the channel is settled, and pays
 exactly what has not been withdrawn yet.
 */
module Redeem {
  import opened Prelude
  import opened Escrow
  import opened Solvency
  import opened Accounts
  import opened Conservation
  import opened EventLog
  import opened EscrowLogs
  import opened Store
  import opened Handlers
  import opened RecordInvariants
  import opened Windows
  import opened Watcher
  import opened Passes
  import opened Sync
  import opened SyncRuns

  /** The world as the canonical chain has it, and the daemon. */
  datatype Joint = Joint(w: World, d: Watch)

  datatype JointStep =
    | OnChain(a: Action)
    | OnDaemon(h: Happening)

  /** None where a polling round raises. */
  function Take(p: Params, cfg: Config, r: Receiver, j: Joint, s: JointStep): Option<Joint> {
    match s
    case OnChain(a) => Some(j.(w := Step(p, j.w, a)))
    case OnDaemon(h) =>
      match Happen(cfg, r, j.d, h)
      case None => None
      case Some(d) => Some(j.(d := d))
  }

  function TakeAll(p: Params, cfg: Config, r: Receiver, j: Joint, steps: seq<JointStep>): Option<Joint> {
    if steps == [] then Some(j)
    else
      match TakeAll(p, cfg, r, j, steps[..|steps| - 1])
      case None => None
      case Some(k) => Take(p, cfg, r, k, steps[|steps| - 1])
  }

  /** What the contract has logged about the receiver's channels. */
  function OwnLog(r: Receiver, w: World): Log {
    Own(Receiving(r.address), w.log)
  }

  /** The canonical chain has this block, and up to it the receiver's events that a log shows. */
  predicate FinalUpTo(r: Receiver, w: World, log: Log, block: nat) {
    block < |w.chain| && UpTo(log, block) == UpTo(OwnLog(r, w), block)
  }

  /** What the daemon took for confirmed is on the canonical chain. */
  predicate Canonical(r: Receiver, w: World, d: Watch) {
    FinalUpTo(r, w, d.seen, d.heads.confirmed)
  }

  /** The blocks a round takes for confirmed are final. */
  predicate DeliversFinal(cfg: Config, r: Receiver, w: World, d: Watch, h: Happening) {
    h.Poll? ==>
      var plan := PlanRound(cfg, d.heads, h.view);
      Idle(plan) || FinalUpTo(r, w, h.log, plan.confirmedTo)
  }

  /** The receiver withdraws only with a proof its store holds. */
  predicate FromStoredProof(p: Params, r: Receiver, m: Records, a: Action) {
    a.DoWithdraw? && a.caller == r.address ==>
      match EcVerify(p, BalanceProof(a.caller, a.openBlock, a.balance, p.self), a.proof)
      case None => true
      case Some(sender) => Confirmed(m, Id(sender, a.openBlock)) && a.balance == m[Id(sender, a.openBlock)].balance
  }

  ghost predicate JointAdmissible(p: Params, cfg: Config, r: Receiver, j: Joint, s: JointStep) {
    match s
    case OnChain(a) => FromStoredProof(p, r, j.d.records, a) && BlocksInRange(Step(p, j.w, a))
    case OnDaemon(h) => Admissible(cfg, r, j.d, h) && DeliversFinal(cfg, r, j.w, j.d, h)
  }

  ghost predicate AllJointAdmissible(p: Params, cfg: Config, r: Receiver, j: Joint, steps: seq<JointStep>) {
    steps != [] ==>
      && AllJointAdmissible(p, cfg, r, j, steps[..|steps| - 1])
      && (TakeAll(p, cfg, r, j, steps[..|steps| - 1]).Some? ==>
            JointAdmissible(p, cfg, r, TakeAll(p, cfg, r, j, steps[..|steps| - 1]).value, steps[|steps| - 1]))
  }

  /** A fresh deployment and an empty daemon that starts before it. */
  ghost predicate JointInitial(p: Params, cfg: Config, r: Receiver, j: Joint) {
    && r.p == p && KeysDistinct(p) && ConfigOk(cfg)
    && Escrow.Initial(p, j.w) && BlocksInRange(j.w) && cfg.start < |j.w.chain|
    && j.d == Begin(cfg)
  }

  // ---------------------------------------------------------------- withdrawals stay behind the stored balance

  /** Whatever a channel that was never settled has paid out is covered by the balance in the store. */
  predicate Backed(log: Log, r: Receiver, m: Records, id: Id) {
    match AccountOf(log, ChannelOf(r, id))
    case Live(_, x, _, _) =>
      x > 0 && Conservation.Settlements(log, ChannelOf(r, id)) == 0 ==> Confirmed(m, id) && x <= m[id].balance
    case _ => true
  }

  ghost predicate JointOk(p: Params, cfg: Config, r: Receiver, j: Joint) {
    && Funded(p, j.w) && BlocksInRange(j.w)
    && (forall cid: ChannelId :: Agree(p, j.w, cid))
    && InStep(cfg, r, j.d) && RecordsOk(r, j.d.records) && PendingsAsked(cfg, r, j.d)
    && Canonical(r, j.w, j.d)
    && (forall id: Id :: Backed(j.w.log, r, j.d.records, id))
  }

  lemma LaterOwnInvisible(party: Party, log: Log, e: LogEntry, block: nat)
    requires e.blockNumber > block
    ensures UpTo(Own(party, log + [e]), block) == UpTo(Own(party, log), block)
  {
    var own := Own(party, log);
    assert (log + [e])[..|log|] == log && (own + [e])[..|own|] == own && own + [] == own;
  }

  lemma StepKeepsCanonical(p: Params, r: Receiver, w: World, a: Action, d: Watch)
    requires Canonical(r, w, d)
    ensures Canonical(r, Step(p, w, a), d)
  {
    EntryAtHead(p, w, a);
    var w' := Step(p, w, a);
    if w'.log != w.log {
      var e :| w'.log == w.log + [e] && e.blockNumber == |w.chain|;
      LaterOwnInvisible(Receiving(r.address), w.log, e, d.heads.confirmed);
    }
  }

  /** Up to a final block, the log the daemon saw says of its channels what the whole contract log says. */
  lemma FinalSummaries(r: Receiver, w: World, log: Log, k: Kind, id: Id, lo: nat, block: nat)
    requires FinalUpTo(r, w, log, block)
    ensures Has(k, log, ChannelOf(r, id), lo, block) == Has(k, w.log, ChannelOf(r, id), lo, block)
    ensures TotalOf(k, log, ChannelOf(r, id), lo, block) == TotalOf(k, w.log, ChannelOf(r, id), lo, block)
  {
    SameSummaries(k, log, OwnLog(r, w), ChannelOf(r, id), lo, block, block);
    OwnSummaries(Receiving(r.address), k, w.log, ChannelOf(r, id), lo, block);
  }

  lemma BackedSnoc(log: Log, e: LogEntry, r: Receiver, m: Records, id: Id)
    requires Backed(log, r, m, id) && (EntryId(e) == ChannelOf(r, id) ==> !e.event.Withdrawn?)
    ensures Backed(log + [e], r, m, id)
  {
    AccountSnoc(log, e, ChannelOf(r, id));
    SumsSnoc(log, e, ChannelOf(r, id));
    if !AccountOf(log, ChannelOf(r, id)).Impossible? {
      AccountIsSums(log, ChannelOf(r, id));
    }
  }

  lemma ChainStepKeepsBacked(p: Params, r: Receiver, w: World, a: Action, m: Records, id: Id)
    requires KeysDistinct(p) && BlocksInRange(w) && Agree(p, w, ChannelOf(r, id))
    requires Backed(w.log, r, m, id) && FromStoredProof(p, r, m, a)
    ensures Backed(Step(p, w, a).log, r, m, id)
  {
    EntryAtHead(p, w, a);
    var w' := Step(p, w, a);
    if w'.log != w.log {
      var e :| w'.log == w.log + [e] && e.blockNumber == |w.chain|;
      if EntryId(e) == ChannelOf(r, id) && e.event.Withdrawn? {
        StepAgrees(p, w, a, ChannelOf(r, id));
        WithdrawalStep(p, w, a);
      } else {
        BackedSnoc(w.log, e, r, m, id);
      }
    }
  }

  // ---------------------------------------------------------------- a round keeps the balances

  /** A round leaves the balance of every confirmed record it keeps. */
  lemma RoundKeepsBalance(node: Node, log: Log, start: nat, plan: Plan, m: Records, id: Id)
    requires Ready(node, log, start, plan, m) && DeliverRound(node, plan, m, log).Going?
    ensures var m' := DeliverRound(node, plan, m, log).records;
            Confirmed(m, id) && id in m' ==> m'[id].balance == m[id].balance
  {
    RoundFollows(node, log, start, plan, m);
    CreationsDone(node, log, start, plan, m, id);
    SettlementsDone(node, log, start, plan, m, id);
    AfterSettlementsKeepsProofs(node, log, start, plan, m);
    var m5 := BeforeCloseRequests(node, plan, m, log).records;
    assert log[..|log|] == log;
    assert DeliverRound(node, plan, m, log) ==
             DeliverPass(node, CloseRequests, plan.confirmedFrom, plan.confirmedTo, m5, log);
    CloseRequestPass(node, plan.confirmedFrom, plan.confirmedTo, m5, log, |log|, id);
  }

  /** A completed poll keeps the balances of the records that stay, and the records themselves in order. */
  lemma PollKeepsBalances(cfg: Config, r: Receiver, d: Watch, h: Happening, id: Id)
    requires ConfigOk(cfg) && InStep(cfg, r, d) && RecordsOk(r, d.records) && h.Poll? && Admissible(cfg, r, d, h)
    requires Completes(cfg, d, h)
    ensures Happen(cfg, r, d, h).Some?
    ensures var d' := Happen(cfg, r, d, h).value;
            && d.heads.confirmed <= d'.heads.confirmed
            && RecordsOk(r, d'.records)
            && (Confirmed(d.records, id) && id in d'.records ==> d'.records[id].balance == d.records[id].balance)
  {
    PollExact(cfg, r, d, h);
    var plan := PlanRound(cfg, d.heads, h.view);
    var m := RecordsFor(plan, d.records);
    ResumesReady(cfg, r, d, h.view, h.log);
    ApplyKeepsRecords(r, d.records, OpReset);
    if !Idle(plan) {
      RoundKeepsRecords(h.node, plan, m, h.log);
      RoundFollows(h.node, h.log, cfg.start, plan, m);
      RoundKeepsBalance(h.node, h.log, cfg.start, plan, m, id);
    }
  }

  // ---------------------------------------------------------------- the joint invariant

  lemma {:induction false} LoggedInSums(log: Log, id: ChannelId, lo: nat, hi: nat)
    ensures Has(Settlement, log, id, lo, hi) ==> Conservation.Settlements(log, id) > 0
    ensures Has(Creation, log, id, lo, hi) ==> Conservation.Creations(log, id) > 0
  {
    if log != [] {
      LoggedInSums(log[..|log| - 1], id, lo, hi);
    }
  }

  /** A confirmed record of a channel never settled on chain is still there after a poll. */
  lemma StaysConfirmed(cfg: Config, r: Receiver, w: World, d: Watch, d': Watch, id: Id)
    requires InStep(cfg, r, d) && InStep(cfg, r, d') && Canonical(r, w, d) && Canonical(r, w, d')
    requires d.heads.confirmed <= d'.heads.confirmed
    requires Confirmed(d.records, id) && Conservation.Settlements(w.log, ChannelOf(r, id)) == 0
    ensures Confirmed(d'.records, id)
  {
    var cid := ChannelOf(r, id);
    var c, c' := d.heads.confirmed, d'.heads.confirmed;
    assert FollowsAt(r, d.seen, cfg.start, c, d.records, id);
    assert FollowsAt(r, d'.seen, cfg.start, c', d'.records, id);
    FinalSummaries(r, w, d.seen, Creation, id, cfg.start, c);
    FinalSummaries(r, w, d'.seen, Creation, id, cfg.start, c');
    FinalSummaries(r, w, d'.seen, Settlement, id, cfg.start, c');
    SummarySplit(Creation, w.log, cid, cfg.start, c, c');
    LoggedInSums(w.log, cid, cfg.start, c');
  }

  lemma PollKeepsBacked(cfg: Config, r: Receiver, w: World, d: Watch, h: Happening, id: Id)
    requires ConfigOk(cfg) && InStep(cfg, r, d) && RecordsOk(r, d.records) && h.Poll? && Admissible(cfg, r, d, h)
    requires Completes(cfg, d, h)
    requires Happen(cfg, r, d, h).Some? && InStep(cfg, r, Happen(cfg, r, d, h).value)
    requires Canonical(r, w, d) && Canonical(r, w, Happen(cfg, r, d, h).value)
    requires Backed(w.log, r, d.records, id)
    ensures Backed(w.log, r, Happen(cfg, r, d, h).value.records, id)
  {
    PollKeepsBalances(cfg, r, d, h, id);
    if Conservation.Settlements(w.log, ChannelOf(r, id)) == 0 && Confirmed(d.records, id) {
      StaysConfirmed(cfg, r, w, d, Happen(cfg, r, d, h).value, id);
    }
  }

  lemma CallKeepsBacked(r: Receiver, log: Log, m: Records, op: Op, id: Id)
    requires op.OpPay? || op.OpSignClose? || op.OpClosePending?
    requires Backed(log, r, m, id)
    ensures Backed(log, r, Apply(r, m, op), id)
  {
  }

  /** What decides whether a step of a joint run is completed. */
  ghost predicate StepCompletes(cfg: Config, j: Joint, s: JointStep) {
    s.OnDaemon? ==> Completes(cfg, j.d, s.h)
  }

  lemma TakeExact(p: Params, cfg: Config, r: Receiver, j: Joint, s: JointStep)
    requires r.p == p && KeysDistinct(p) && ConfigOk(cfg) && ParamsOk(p)
    requires JointOk(p, cfg, r, j) && JointAdmissible(p, cfg, r, j, s)
    ensures Take(p, cfg, r, j, s).Some? <==> StepCompletes(cfg, j, s)
    ensures StepCompletes(cfg, j, s) ==> JointOk(p, cfg, r, Take(p, cfg, r, j, s).value)
  {
    match s
    case OnChain(a) => ChainKeepsJoint(p, cfg, r, j, a);
    case OnDaemon(h) =>
      if h.Poll? {
        PollExact(cfg, r, j.d, h);
      }
      if Completes(cfg, j.d, h) {
        DaemonKeepsJoint(p, cfg, r, j, h);
      }
  }

  lemma ChainKeepsJoint(p: Params, cfg: Config, r: Receiver, j: Joint, a: Action)
    requires KeysDistinct(p)
    requires JointOk(p, cfg, r, j) && JointAdmissible(p, cfg, r, j, OnChain(a))
    ensures JointOk(p, cfg, r, j.(w := Step(p, j.w, a)))
  {
    StepKeepsFunded(p, j.w, a);
    StepKeepsCanonical(p, r, j.w, a, j.d);
    forall cid: ChannelId ensures Agree(p, Step(p, j.w, a), cid) {
      StepAgrees(p, j.w, a, cid);
    }
    forall id: Id ensures Backed(Step(p, j.w, a).log, r, j.d.records, id) {
      ChainStepKeepsBacked(p, r, j.w, a, j.d.records, id);
    }
  }

  lemma DaemonKeepsJoint(p: Params, cfg: Config, r: Receiver, j: Joint, h: Happening)
    requires ConfigOk(cfg) && Completes(cfg, j.d, h)
    requires JointOk(p, cfg, r, j) && JointAdmissible(p, cfg, r, j, OnDaemon(h))
    ensures Happen(cfg, r, j.d, h).Some? && JointOk(p, cfg, r, j.(d := Happen(cfg, r, j.d, h).value))
  {
    if h.Poll? {
      PollExact(cfg, r, j.d, h);
      HappeningPends(cfg, r, j.d, h, Happen(cfg, r, j.d, h).value);
      PollKeepsBalances(cfg, r, j.d, h, Id(0, 0));
      forall id: Id ensures Backed(j.w.log, r, Happen(cfg, r, j.d, h).value.records, id) {
        PollKeepsBacked(cfg, r, j.w, j.d, h, id);
      }
    } else {
      CallKeepsStep(cfg, r, j.d, h.op);
      HappeningPends(cfg, r, j.d, h, Happen(cfg, r, j.d, h).value);
      ApplyKeepsRecords(r, j.d.records, h.op);
      forall id: Id ensures Backed(j.w.log, r, Apply(r, j.d.records, h.op), id) {
        CallKeepsBacked(r, j.w.log, j.d.records, h.op, id);
      }
    }
  }

  /** Whatever an admissible joint run has reached satisfies the joint invariant. */
  lemma {:induction false} JointRun(p: Params, cfg: Config, r: Receiver, j: Joint, steps: seq<JointStep>, now: Joint)
    requires JointInitial(p, cfg, r, j) && AllJointAdmissible(p, cfg, r, j, steps)
    requires TakeAll(p, cfg, r, j, steps) == Some(now)
    ensures JointOk(p, cfg, r, now)
  {
    if steps == [] {
      Solvent(p, j.w, []);
    } else {
      var before := TakeAll(p, cfg, r, j, steps[..|steps| - 1]).value;
      JointRun(p, cfg, r, j, steps[..|steps| - 1], before);
      TakeExact(p, cfg, r, before, steps[|steps| - 1]);
    }
  }

  // ---------------------------------------------------------------- redeeming a stored proof

  /** What was deposited by a block is at most what was deposited at all. */
  lemma {:induction false} DepositedByBlock(log: Log, id: ChannelId, lo: nat, hi: nat)
    ensures DepositAt(log, id, lo, hi) <= Deposited(log, id)
  {
    if log != [] {
      DepositedByBlock(log[..|log| - 1], id, lo, hi);
    }
  }

  lemma {:induction false} OneLifeDeposits(log: Log, id: ChannelId)
    requires !AccountOf(log, id).Impossible? && Conservation.Creations(log, id) <= 1
    ensures Deposited(log, id) == LifeDeposited(log, id)
  {
    if log != [] {
      var front, last := log[..|log| - 1], log[|log| - 1];
      assert log == front + [last];
      AccountSnoc(front, last, id);
      SumsSnoc(front, last, id);
      OneLifeDeposits(front, id);
      AccountIsSums(front, id);
    }
  }

  /** A confirmed record of an unsettled channel: the channel is live on chain, and its deposit and withdrawals
      leave room for the stored balance. */
  lemma RecordIsBacked(p: Params, cfg: Config, r: Receiver, j: Joint, id: Id)
    requires JointOk(p, cfg, r, j) && Confirmed(j.d.records, id)
    requires Conservation.Settlements(j.w.log, ChannelOf(r, id)) == 0
    ensures var account := AccountOf(j.w.log, ChannelOf(r, id));
            account.Live? && account.inherited == 0 && account.withdrawn <= j.d.records[id].balance <= account.deposited
  {
    var cid := ChannelOf(r, id);
    var c := j.d.heads.confirmed;
    assert FollowsAt(r, j.d.seen, cfg.start, c, j.d.records, id);
    FinalSummaries(r, j.w, j.d.seen, Creation, id, cfg.start, c);
    FinalSummaries(r, j.w, j.d.seen, TopUpKind, id, cfg.start, c);
    LoggedInSums(j.w.log, cid, cfg.start, c);
    assert Agree(p, j.w, cid) && Backed(j.w.log, r, j.d.records, id);
    AccountIsSums(j.w.log, cid);
    OneLifeDeposits(j.w.log, cid);
    DepositedByBlock(j.w.log, cid, cfg.start, c);
    assert RecordOk(r, id, j.d.records[id]);
  }

  /** Two different parties that can hold tokens. */
  predicate OrdinaryPair(p: Params, sender: Address, receiver: Address) {
    && Payable(p, sender) && Payable(p, receiver)
    && p.self != sender && p.self != receiver && sender != receiver
  }

  /** A live channel, in any of its lives, and a proof of its sender that the server accepts: presented with the
      receiver's agreement it commits if and only if the contract can read its recovery byte and the withdrawals on
      record, inherited ones included, do not exceed it. */
  lemma CashableExactlyWhen(p: Params, w: World, r: Receiver, id: Id, balance: uint192, proof: Signature,
                            agreement: Signature)
    requires r.p == p && ParamsOk(p) && Funded(p, w) && OrdinaryPair(p, id.sender, r.address) && id.openBlock < TWO_32
    requires Agree(p, w, ChannelOf(r, id)) && AccountOf(w.log, ChannelOf(r, id)).Live?
    requires balance <= AccountOf(w.log, ChannelOf(r, id)).deposited
    requires PyRecover(p, BalanceProof(r.address, id.openBlock, balance, p.self), proof) == Some(id.sender)
    requires EcVerify(p, ClosingAgreement(id.sender, id.openBlock, balance, p.self), agreement) == Some(r.address)
    ensures var account := AccountOf(w.log, ChannelOf(r, id));
            var cash := CooperativeClose(p, w, r.address, id.openBlock, balance, proof, agreement);
            && (cash.Some? <==> ContractReadable(proof) && account.withdrawn <= balance)
            && (cash.Some? ==>
                  && cash.value.token.BalanceOf(r.address) == w.token.BalanceOf(r.address) + balance - account.withdrawn
                  && cash.value.token.BalanceOf(id.sender) ==
                       w.token.BalanceOf(id.sender) + account.deposited - balance)
  {
    RecoveryAgrees(p, BalanceProof(r.address, id.openBlock, balance, p.self), proof);
    SettlementCovered(p, w, id.sender, r.address, id.openBlock, balance);
  }

  /** A stored proof of a channel that has not been settled on chain, a close request pending or not, and a closing
      signature of the receiver for its balance. */
  predicate Presentable(p: Params, r: Receiver, now: Joint, id: Id, agreement: Signature) {
    && Confirmed(now.d.records, id) && now.d.records[id].lastSignature.Some?
    && Conservation.Settlements(now.w.log, ChannelOf(r, id)) == 0
    && EcVerify(p, ClosingAgreement(id.sender, id.openBlock, now.d.records[id].balance, p.self), agreement)
         == Some(r.address)
  }

  /** Presented to cooperativeClose, the proof commits only if the contract can read its recovery byte. Between two
      ordinary parties that is enough; the receiver then gets exactly the stored balance less its withdrawals, and the
      sender the rest of everything deposited. */
  predicate CashesIn(p: Params, r: Receiver, now: Joint, id: Id, agreement: Signature)
    requires Presentable(p, r, now, id, agreement)
  {
    var proof := now.d.records[id].lastSignature.value;
    var balance := now.d.records[id].balance;
    && id.openBlock < TWO_32 && balance < TWO_192
    && var cash := CooperativeClose(p, now.w, r.address, id.openBlock, balance, proof, agreement);
    && (cash.Some? ==> ContractReadable(proof))
    && (OrdinaryPair(p, id.sender, r.address) && ContractReadable(proof) ==>
          && cash.Some?
          && cash.value.token.BalanceOf(r.address) ==
               now.w.token.BalanceOf(r.address) + balance - LifePaid(now.w.log, ChannelOf(r, id))
          && cash.value.token.BalanceOf(id.sender) ==
               now.w.token.BalanceOf(id.sender) + LifeDeposited(now.w.log, ChannelOf(r, id)) - balance)
  }

  lemma PresentableCashesIn(p: Params, cfg: Config, r: Receiver, now: Joint, id: Id, agreement: Signature)
    requires r.p == p && ParamsOk(p) && JointOk(p, cfg, r, now) && Presentable(p, r, now, id, agreement)
    ensures CashesIn(p, r, now, id, agreement)
  {
    var cid := ChannelOf(r, id);
    var rec := now.d.records[id];
    RecordIsBacked(p, cfg, r, now, id);
    assert Agree(p, now.w, cid) && RecordOk(r, id, rec);
    AccountIsSums(now.w.log, cid);
    RecoveryAgrees(p, BalanceProof(r.address, id.openBlock, rec.balance, p.self), rec.lastSignature.value);
    if OrdinaryPair(p, id.sender, r.address) {
      CashableExactlyWhen(p, now.w, r, id, rec.balance, rec.lastSignature.value, agreement);
    }
  }

  /** Redeemability: in every state that any joint run reaches, every presentable proof can be cashed in. */
  lemma Redeemable(p: Params, cfg: Config, r: Receiver, j: Joint, steps: seq<JointStep>)
    requires JointInitial(p, cfg, r, j) && AllJointAdmissible(p, cfg, r, j, steps)
    requires TakeAll(p, cfg, r, j, steps).Some?
    ensures forall id, agreement :: Presentable(p, r, TakeAll(p, cfg, r, j, steps).value, id, agreement) ==>
              CashesIn(p, r, TakeAll(p, cfg, r, j, steps).value, id, agreement)
  {
    var now := TakeAll(p, cfg, r, j, steps).value;
    JointRun(p, cfg, r, j, steps, now);
    forall id, agreement | Presentable(p, r, now, id, agreement) ensures CashesIn(p, r, now, id, agreement) {
      PresentableCashesIn(p, cfg, r, now, id, agreement);
    }
  }
}
