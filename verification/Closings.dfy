/**
 What the manager's closing transactions are worth. A transaction sent in a dispute stays good until the channel is
 settled, and once it is mined nothing more can be had from the channel.
 */
module Closings {
  import opened Prelude
  import opened Escrow
  import opened Challenge
  import opened Solvency
  import opened Accounts
  import opened Conservation
  import opened EventLog
  import opened EscrowLogs
  import opened Store
  import opened Handlers
  import opened RecordInvariants
  import opened Windows
  import opened Watcher
  import opened Passes
  import opened Sync
  import opened SyncClosing
  import opened SyncRuns
  import opened Redeem

  // ---------------------------------------------------------------- closing and dead channels do not move

  lemma CountsGrow(p: Params, w: World, a: Action, id: ChannelId)
    ensures Conservation.Settlements(w.log, id) <= Conservation.Settlements(Step(p, w, a).log, id)
    ensures Conservation.Creations(w.log, id) <= Conservation.Creations(Step(p, w, a).log, id)
  {
    LogGrowsByOne(p, w, a);
  }

  /** The channel is closing and was not settled between two logs, or it is settled and was not opened again. */
  predicate AtRest(log: Log, later: Log, id: ChannelId) {
    match AccountOf(log, id)
    case Live(_, _, _, closing) =>
      closing.Some? && Conservation.Settlements(later, id) == Conservation.Settlements(log, id)
    case Dead(_, _, _, _) => Conservation.Creations(later, id) == Conservation.Creations(log, id)
    case _ => false
  }

  lemma RestingStep(p: Params, w: World, a: Action, id: ChannelId)
    requires KeysDistinct(p) && BlocksInRange(w) && Agree(p, w, id) && AtRest(w.log, Step(p, w, a).log, id)
    ensures AccountOf(Step(p, w, a).log, id) == AccountOf(w.log, id)
  {
    LogGrowsByOne(p, w, a);
    if Step(p, w, a).log != w.log {
      var e := Step(p, w, a).log[|w.log|];
      assert Step(p, w, a).log == w.log + [e];
      StepAgrees(p, w, a, id);
      AccountSnoc(w.log, e, id);
      SumsSnoc(w.log, e, id);
    }
  }

  /** Then its account is the same after any run. */
  lemma {:induction false} RestingRun(p: Params, w: World, run: seq<Action>, now: World, id: ChannelId)
    requires KeysDistinct(p) && BlocksInRange(w) && Agree(p, w, id)
    requires Exec(p, w, run) == now && BlocksInRange(now) && AtRest(w.log, now.log, id)
    ensures AccountOf(now.log, id) == AccountOf(w.log, id) && Agree(p, now, id)
  {
    if run != [] {
      var front, last := run[..|run| - 1], run[|run| - 1];
      var before := Exec(p, w, front);
      ChainGrows(p, before, last);
      ExecKeepsBlocks(p, w, front);
      CountsGrow(p, before, last, id);
      CountsGrowAlong(p, w, front, id);
      RestingRun(p, w, front, before, id);
      RestingStep(p, before, last, id);
      StepAgrees(p, before, last, id);
    }
  }

  lemma {:induction false} CountsGrowAlong(p: Params, w: World, run: seq<Action>, id: ChannelId)
    ensures Conservation.Settlements(w.log, id) <= Conservation.Settlements(Exec(p, w, run).log, id)
    ensures Conservation.Creations(w.log, id) <= Conservation.Creations(Exec(p, w, run).log, id)
  {
    if run != [] {
      CountsGrowAlong(p, w, run[..|run| - 1], id);
      CountsGrow(p, Exec(p, w, run[..|run| - 1]), run[|run| - 1], id);
    }
  }

  lemma {:induction false} RunKeepsFunded(p: Params, w: World, run: seq<Action>)
    requires Funded(p, w)
    ensures Funded(p, Exec(p, w, run))
  {
    if run != [] {
      RunKeepsFunded(p, w, run[..|run| - 1]);
      StepKeepsFunded(p, Exec(p, w, run[..|run| - 1]), run[|run| - 1]);
    }
  }

  // ---------------------------------------------------------------- a closing transaction stays good

  /** The receiver's key signs as its address, in a form the contract reads. */
  ghost predicate SignsAsReceiver(r: Receiver) {
    forall m: Message :: EcVerify(r.p, m, r.sign(m)) == Some(r.address)
  }

  /** Mined in this world, the transaction commits if and only if the contract can read the proof's recovery byte; the
      receiver then gets its balance less what was withdrawn, and the sender everything else. */
  predicate TxCashes(p: Params, r: Receiver, w: World, tx: CloseTx) {
    && tx.id.openBlock < TWO_32 && tx.balance < TWO_192
    && var cash := CooperativeClose(p, w, r.address, tx.id.openBlock, tx.balance, tx.proof, tx.agreement);
    && (cash.Some? <==> ContractReadable(tx.proof))
    && (cash.Some? ==>
          && cash.value.token.BalanceOf(r.address) ==
               w.token.BalanceOf(r.address) + tx.balance - LifePaid(w.log, ChannelOf(r, tx.id))
          && cash.value.token.BalanceOf(tx.id.sender) ==
               w.token.BalanceOf(tx.id.sender) + LifeDeposited(w.log, ChannelOf(r, tx.id)) - tx.balance)
  }

  lemma {:induction false} AskedIsClosing(log: Log, id: ChannelId, lo: nat, hi: nat)
    requires Has(CloseKind, log, id, lo, hi) && AccountOf(log, id).Live? && FirstLife(log, id)
    ensures AccountOf(log, id).closing.Some?
  {
    var j := WhereHas(CloseKind, log, id, lo, hi);
    AccountRemembers(log, id, j);
  }

  /** A transaction that is sent is for a live channel that is closing on chain, within its deposit and not below its
      withdrawals. */
  lemma SentIsBacked(p: Params, cfg: Config, r: Receiver, j: Joint, h: Happening, tx: CloseTx)
    requires r.p == p && ConfigOk(cfg) && JointOk(p, cfg, r, j) && JointAdmissible(p, cfg, r, j, OnDaemon(h))
    requires Sends(cfg, r, j.d, h, tx) && Conservation.Settlements(j.w.log, ChannelOf(r, tx.id)) == 0
    ensures Carries(r, j.d.records, tx)
    ensures var account := AccountOf(j.w.log, ChannelOf(r, tx.id));
            && account.Live? && account.inherited == 0 && account.closing.Some?
            && account.withdrawn <= tx.balance <= account.deposited
  {
    var cid := ChannelOf(r, tx.id);
    SentIsAsked(cfg, r, j.d, h, tx);
    RecordIsBacked(p, cfg, r, j, tx.id);
    FinalSummaries(r, j.w, LogWorkedOn(j.d, h), CloseKind, tx.id, cfg.start, HeadWorkedOn(cfg, j.d, h));
    AccountIsSums(j.w.log, cid);
    AskedIsClosing(j.w.log, cid, cfg.start, HeadWorkedOn(cfg, j.d, h));
  }

  /** The receiver's protection in the challenge period: a closing transaction that goes out in a round, be the round
      completed or not, or when pending closings are retried, can be cashed in every later state of the chain in which
      the channel has not been settled. */
  lemma SentStaysGood(p: Params, cfg: Config, r: Receiver, j: Joint, h: Happening, tx: CloseTx, run: seq<Action>,
                      now: World)
    requires r.p == p && ParamsOk(p) && KeysDistinct(p) && ConfigOk(cfg) && SignsAsReceiver(r)
    requires JointOk(p, cfg, r, j) && JointAdmissible(p, cfg, r, j, OnDaemon(h)) && Sends(cfg, r, j.d, h, tx)
    requires Exec(p, j.w, run) == now && BlocksInRange(now)
    requires Conservation.Settlements(now.log, ChannelOf(r, tx.id)) == 0 && OrdinaryPair(p, tx.id.sender, r.address)
    ensures TxCashes(p, r, now, tx)
  {
    var cid := ChannelOf(r, tx.id);
    CountsGrowAlong(p, j.w, run, cid);
    SentIsBacked(p, cfg, r, j, h, tx);
    assert Agree(p, j.w, cid) && RecordOk(r, tx.id, j.d.records[tx.id]);
    RestingRun(p, j.w, run, now, cid);
    RunKeepsFunded(p, j.w, run);
    AccountIsSums(now.log, cid);
    CashableExactlyWhen(p, now, r, tx.id, tx.balance, tx.proof, tx.agreement);
  }

  // ---------------------------------------------------------------- along a joint run

  /** What happens on chain during a joint run. */
  function ChainSteps(steps: seq<JointStep>): seq<Action> {
    if steps == [] then []
    else
      ChainSteps(steps[..|steps| - 1]) + if steps[|steps| - 1].OnChain? then [steps[|steps| - 1].a] else []
  }

  lemma {:induction false} WorldIsExec(p: Params, cfg: Config, r: Receiver, j: Joint, steps: seq<JointStep>)
    requires TakeAll(p, cfg, r, j, steps).Some?
    ensures TakeAll(p, cfg, r, j, steps).value.w == Exec(p, j.w, ChainSteps(steps))
  {
    if steps != [] {
      var front, last := steps[..|steps| - 1], steps[|steps| - 1];
      WorldIsExec(p, cfg, r, j, front);
      if last.OnDaemon? {
        assert ChainSteps(front) + [] == ChainSteps(front);
      }
    }
  }

  lemma {:induction false} TakenInTurn(p: Params, cfg: Config, r: Receiver, j: Joint, steps: seq<JointStep>, n: nat)
    requires n <= |steps| && TakeAll(p, cfg, r, j, steps).Some?
    ensures TakeAll(p, cfg, r, j, steps[..n]).Some?
    ensures TakeAll(p, cfg, r, TakeAll(p, cfg, r, j, steps[..n]).value, steps[n..]) == TakeAll(p, cfg, r, j, steps)
  {
    if n < |steps| {
      var front := steps[..|steps| - 1];
      TakenInTurn(p, cfg, r, j, front, n);
      assert front[..n] == steps[..n] && steps[n..][..|steps[n..]| - 1] == front[n..];
    } else {
      assert steps[..n] == steps && steps[n..] == [];
    }
  }

  lemma {:induction false} AdmissibleBefore(p: Params, cfg: Config, r: Receiver, j: Joint, steps: seq<JointStep>,
                                            n: nat)
    requires n <= |steps| && AllJointAdmissible(p, cfg, r, j, steps)
    ensures AllJointAdmissible(p, cfg, r, j, steps[..n])
  {
    if n < |steps| {
      assert steps[..|steps| - 1][..n] == steps[..n];
      AdmissibleBefore(p, cfg, r, j, steps[..|steps| - 1], n);
    } else {
      assert steps[..n] == steps;
    }
  }

  /** Step n of a joint run sends this closing transaction. */
  ghost predicate SendsAt(p: Params, cfg: Config, r: Receiver, j: Joint, steps: seq<JointStep>, n: int, tx: CloseTx)
    requires 0 <= n < |steps|
  {
    && steps[n].OnDaemon? && TakeAll(p, cfg, r, j, steps[..n]).Some?
    && Sends(cfg, r, TakeAll(p, cfg, r, j, steps[..n]).value.d, steps[n].h, tx)
  }

  /** Every closing transaction that any step of any joint run sends can be cashed in every state the run reaches before
      the channel is settled. */
  lemma ClosingTransactionCashes(p: Params, cfg: Config, r: Receiver, j: Joint, steps: seq<JointStep>, n: nat,
                                 tx: CloseTx, now: Joint)
    requires JointInitial(p, cfg, r, j) && AllJointAdmissible(p, cfg, r, j, steps) && SignsAsReceiver(r)
    requires TakeAll(p, cfg, r, j, steps) == Some(now) && n < |steps| && SendsAt(p, cfg, r, j, steps, n, tx)
    requires Conservation.Settlements(now.w.log, ChannelOf(r, tx.id)) == 0 && OrdinaryPair(p, tx.id.sender, r.address)
    ensures TxCashes(p, r, now.w, tx)
  {
    var before := TakeAll(p, cfg, r, j, steps[..n]).value;
    AdmissibleBefore(p, cfg, r, j, steps, n);
    AdmissibleBefore(p, cfg, r, j, steps, n + 1);
    assert steps[..n + 1][..n] == steps[..n];
    JointRun(p, cfg, r, j, steps[..n], before);
    JointRun(p, cfg, r, j, steps, now);
    TakenInTurn(p, cfg, r, j, steps, n);
    WorldIsExec(p, cfg, r, before, steps[n..]);
    SentStaysGood(p, cfg, r, before, steps[n].h, tx, ChainSteps(steps[n..]), now.w);
  }

  // ---------------------------------------------------------------- agreements of sign_close, and what they are worth

  /** The signature that goes with an agreement: what sign_close returns, or what a closing transaction carries. */
  function AgreementSig(r: Receiver, m: Records, op: Op, id: Id): Signature
    requires AgreementOf(r, m, op, id).Some?
  {
    match op
    case OpSignClose(_, b) => SignClose(r, m, id, b).agreement
    case OpCloseRequested(_, b, t, funded) => OnCloseRequested(r, m, id, b, t, funded).sent.value.agreement
    case OpForceClose(_, funded) => ForceClose(r, m, id, funded).sent.value.agreement
    case OpClosePending(_) => TxOf(r, m, id).agreement
  }

  /** Whatever agreement the manager hands out, the contract reads it as the receiver's on exactly the stored balance of
      this channel. */
  lemma AgreementsVerify(r: Receiver, m: Records, op: Op, id: Id)
    requires SignsAsReceiver(r) && AgreementOf(r, m, op, id).Some?
    ensures id in m && AgreementOf(r, m, op, id) == Some(m[id].balance)
    ensures EcVerify(r.p, ClosingAgreement(id.sender, id.openBlock, m[id].balance, r.p.self),
                     AgreementSig(r, m, op, id)) == Some(r.address)
  {
  }

  /** The record was signed off at this balance and stays so. */
  predicate SignedOff(m: Records, id: Id, balance: nat) {
    ClosedAt(m, id) && m[id].balance == balance
  }

  lemma StepKeepsSignedOff(p: Params, cfg: Config, r: Receiver, j: Joint, s: JointStep, j': Joint, id: Id, balance: nat)
    requires r.p == p && ParamsOk(p) && KeysDistinct(p) && ConfigOk(cfg)
    requires JointOk(p, cfg, r, j) && JointAdmissible(p, cfg, r, j, s) && Take(p, cfg, r, j, s) == Some(j')
    requires SignedOff(j.d.records, id, balance) && Conservation.Settlements(j'.w.log, ChannelOf(r, id)) == 0
    ensures SignedOff(j'.d.records, id, balance)
  {
    TakeExact(p, cfg, r, j, s);
    if s.OnDaemon? {
      if s.h.Poll? {
        PollKeepsBalances(cfg, r, j.d, s.h, id);
        StaysConfirmed(cfg, r, j.w, j.d, j'.d, id);
        PollLeavesClosed(cfg, r, j.d, s.h, j'.d, id);
      } else {
        ApplyKeepsClosed(r, j.d.records, s.h.op, id);
      }
    }
  }

  lemma {:induction false} StaysSignedOff(p: Params, cfg: Config, r: Receiver, j: Joint, steps: seq<JointStep>,
                                          now: Joint, n: nat, id: Id, balance: nat)
    requires JointInitial(p, cfg, r, j) && AllJointAdmissible(p, cfg, r, j, steps)
    requires TakeAll(p, cfg, r, j, steps) == Some(now) && n <= |steps|
    requires TakeAll(p, cfg, r, j, steps[..n]).Some?
    requires SignedOff(TakeAll(p, cfg, r, j, steps[..n]).value.d.records, id, balance)
    requires Conservation.Settlements(now.w.log, ChannelOf(r, id)) == 0
    ensures SignedOff(now.d.records, id, balance)
    decreases |steps|
  {
    if n == |steps| {
      assert steps[..n] == steps;
    } else {
      var front, last := steps[..|steps| - 1], steps[|steps| - 1];
      var before := TakeAll(p, cfg, r, j, front).value;
      assert front[..n] == steps[..n];
      if last.OnChain? {
        CountsGrow(p, before.w, last.a, ChannelOf(r, id));
      }
      StaysSignedOff(p, cfg, r, j, front, before, n, id, balance);
      JointRun(p, cfg, r, j, front, before);
      StepKeepsSignedOff(p, cfg, r, before, last, now, id, balance);
    }
  }

  /** Step n of a joint run is a sign_close that succeeds for this channel; tx is what the sender can then present: the
      stored proof, and the agreement that sign_close returned. */
  ghost predicate SignsOffAt(p: Params, cfg: Config, r: Receiver, j: Joint, steps: seq<JointStep>, n: int, tx: CloseTx)
    requires 0 <= n < |steps|
  {
    && TakeAll(p, cfg, r, j, steps[..n]).Some?
    && var m := TakeAll(p, cfg, r, j, steps[..n]).value.d.records;
       && steps[n] == OnDaemon(Call(OpSignClose(tx.id, tx.balance)))
       && SignClose(r, m, tx.id, tx.balance).Agreed?
       && m[tx.id].lastSignature == Some(tx.proof)
       && SignClose(r, m, tx.id, tx.balance).agreement == tx.agreement
  }

  /** The cooperative close that sign_close promises the sender: with the stored proof and the agreement that it
      returned cooperativeClose commits in every later state of the run in which the channel is unsettled, if and only
      if the contract can read the proof's recovery byte, and pays the agreed balance less what was withdrawn. */
  lemma SignedCloseCashes(p: Params, cfg: Config, r: Receiver, j: Joint, steps: seq<JointStep>, n: nat, tx: CloseTx,
                          now: Joint)
    requires JointInitial(p, cfg, r, j) && AllJointAdmissible(p, cfg, r, j, steps) && SignsAsReceiver(r)
    requires TakeAll(p, cfg, r, j, steps) == Some(now) && n < |steps| && SignsOffAt(p, cfg, r, j, steps, n, tx)
    requires Conservation.Settlements(now.w.log, ChannelOf(r, tx.id)) == 0 && OrdinaryPair(p, tx.id.sender, r.address)
    ensures TxCashes(p, r, now.w, tx)
  {
    var cid := ChannelOf(r, tx.id);
    var before := TakeAll(p, cfg, r, j, steps[..n]).value;
    AdmissibleBefore(p, cfg, r, j, steps, n);
    JointRun(p, cfg, r, j, steps[..n], before);
    SignedOffNow(r, before.d.records, tx);
    SignedOffAfter(p, cfg, r, j, steps, n, OpSignClose(tx.id, tx.balance), before);
    StaysSignedOff(p, cfg, r, j, steps, now, n + 1, tx.id, tx.balance);
    JointRun(p, cfg, r, j, steps, now);
    RecordIsBacked(p, cfg, r, now, tx.id);
    assert Agree(p, now.w, cid);
    AccountIsSums(now.w.log, cid);
    CashableExactlyWhen(p, now.w, r, tx.id, tx.balance, tx.proof, tx.agreement);
  }

  /** At the moment of the sign-off: the proof and the agreement are the two parties' on the stored balance. */
  lemma SignedOffNow(r: Receiver, m: Records, tx: CloseTx)
    requires RecordsOk(r, m) && SignsAsReceiver(r) && SignClose(r, m, tx.id, tx.balance).Agreed?
    requires m[tx.id].lastSignature == Some(tx.proof) && SignClose(r, m, tx.id, tx.balance).agreement == tx.agreement
    ensures SignedOff(Apply(r, m, OpSignClose(tx.id, tx.balance)), tx.id, tx.balance)
    ensures PyRecover(r.p, BalanceProof(r.address, tx.id.openBlock, tx.balance, r.p.self), tx.proof) ==
            Some(tx.id.sender)
    ensures EcVerify(r.p, ClosingAgreement(tx.id.sender, tx.id.openBlock, tx.balance, r.p.self), tx.agreement)
              == Some(r.address)
  {
    assert RecordOk(r, tx.id, m[tx.id]);
    AgreementsVerify(r, m, OpSignClose(tx.id, tx.balance), tx.id);
  }

  /** The record is closed with it. */
  lemma SignedOffAfter(p: Params, cfg: Config, r: Receiver, j: Joint, steps: seq<JointStep>, n: nat, op: Op,
                       before: Joint)
    requires n < |steps| && TakeAll(p, cfg, r, j, steps[..n]) == Some(before) && steps[n] == OnDaemon(Call(op))
    ensures TakeAll(p, cfg, r, j, steps[..n + 1]) ==
            Some(before.(d := before.d.(records := Apply(r, before.d.records, op))))
  {
    assert steps[..n + 1][..n] == steps[..n];
  }

  // ---------------------------------------------------------------- a mined closing is final

  /** The channel is settled, and no proof of it can be cashed in any way. */
  ghost predicate NothingToCash(p: Params, w: World, id: ChannelId)
    requires id.openBlock < TWO_32
  {
    forall b: uint192, proof, agreement ::
      EcVerify(p, BalanceProof(id.receiver, id.openBlock, b, p.self), proof) == Some(id.sender) ==>
        && CooperativeClose(p, w, id.receiver, id.openBlock, b, proof, agreement) == None
        && Withdraw(p, w, id.receiver, id.openBlock, b, proof) == None
  }

  /** A settled channel has nothing left, whatever is presented. */
  lemma DeadPaysNothing(p: Params, w: World, id: ChannelId)
    requires id.openBlock < TWO_32 && Agree(p, w, id) && AccountOf(w.log, id).Dead?
    ensures NothingToCash(p, w, id)
  {
    assert w.escrow.ChannelAt(KeyOf(p, id)).openBlock == 0;
    forall b: uint192, proof, agreement |
        EcVerify(p, BalanceProof(id.receiver, id.openBlock, b, p.self), proof) == Some(id.sender)
      ensures CooperativeClose(p, w, id.receiver, id.openBlock, b, proof, agreement) == None
      ensures Withdraw(p, w, id.receiver, id.openBlock, b, proof) == None
    {
      assert KeyOf(p, id) == p.keyOf(id.sender, id.receiver, id.openBlock);
      assert SettleChannel(p, w, id.sender, id.receiver, id.openBlock, b) == None;
    }
  }

  /** Mining a closing of a live channel settles it at the balance it names. */
  lemma ClosingSettles(p: Params, w: World, id: ChannelId, balance: uint192, proof: Signature, agreement: Signature)
    requires KeysDistinct(p) && Agree(p, w, id) && AccountOf(w.log, id).Live? && id.openBlock < TWO_32
    requires EcVerify(p, BalanceProof(id.receiver, id.openBlock, balance, p.self), proof) == Some(id.sender)
    requires CooperativeClose(p, w, id.receiver, id.openBlock, balance, proof, agreement).Some?
    ensures var mined := CooperativeClose(p, w, id.receiver, id.openBlock, balance, proof, agreement).value;
            var account := AccountOf(mined.log, id);
            && Agree(p, mined, id) && account.Dead? && account.balance == balance
            && account.inherited == AccountOf(w.log, id).inherited && mined.chain == w.chain
  {
    SettleAgrees(p, w, id.sender, id.receiver, id.openBlock, balance, id);
    var e := LogEntry(|w.chain|, Settled(id.sender, id.receiver, id.openBlock, balance,
                                         balance - w.escrow.WithdrawnAt(KeyOf(p, id))));
    AccountSnoc(w.log, e, id);
  }

  /** Once a closing transaction for some balance is mined, the channel has paid exactly that balance, now and for as
      long as its key is not opened again, and no proof of it can be cashed any more. So of a record that a dispute
      left open, the stored balance is redeemed in full if and only if it is still the disputed one. */
  lemma DisputedBalanceIsFinal(p: Params, cfg: Config, r: Receiver, j: Joint, id: Id, balance: uint192,
                               proof: Signature, agreement: Signature, run: seq<Action>, now: World)
    requires KeysDistinct(p) && JointOk(p, cfg, r, j) && Confirmed(j.d.records, id) && id.openBlock < TWO_32
    requires Conservation.Settlements(j.w.log, ChannelOf(r, id)) == 0
    requires EcVerify(p, BalanceProof(r.address, id.openBlock, balance, p.self), proof) == Some(id.sender)
    requires CooperativeClose(p, j.w, r.address, id.openBlock, balance, proof, agreement).Some?
    requires var mined := CooperativeClose(p, j.w, r.address, id.openBlock, balance, proof, agreement).value;
             && Exec(p, mined, run) == now && BlocksInRange(now)
             && Conservation.Creations(now.log, ChannelOf(r, id)) == Conservation.Creations(mined.log, ChannelOf(r, id))
    ensures LifePaid(now.log, ChannelOf(r, id)) == balance
    ensures LifePaid(now.log, ChannelOf(r, id)) == j.d.records[id].balance <==> balance == j.d.records[id].balance
    ensures NothingToCash(p, now, ChannelOf(r, id))
  {
    var cid := ChannelOf(r, id);
    assert Agree(p, j.w, cid) && AccountOf(j.w.log, cid).Live? && AccountOf(j.w.log, cid).inherited == 0 by {
      RecordIsBacked(p, cfg, r, j, id);
    }
    ClosingSettles(p, j.w, cid, balance, proof, agreement);
    var mined := CooperativeClose(p, j.w, r.address, id.openBlock, balance, proof, agreement).value;
    RestingRun(p, mined, run, now, cid);
    AccountIsSums(now.log, cid);
    DeadPaysNothing(p, now, cid);
  }

  // ---------------------------------------------------------------- the daemon's agreements come late enough

  /** Whatever the daemon agrees to close was opened in an earlier block, so its own agreements never let a key be
      opened again. */
  lemma AgreementsComeLater(p: Params, cfg: Config, r: Receiver, j: Joint, id: Id)
    requires JointOk(p, cfg, r, j) && Confirmed(j.d.records, id)
    ensures id.openBlock < |j.w.chain|
  {
    assert FollowsAt(r, j.d.seen, cfg.start, j.d.heads.confirmed, j.d.records, id);
    var i := WhereHas(Creation, j.d.seen, ChannelOf(r, id), cfg.start, j.d.heads.confirmed);
  }
}
