/** Keys that are opened again: only with the receiver's agreement in the creation block, and then to its loss. */
module Recreation {
  import opened Prelude
  import opened Token
  import opened Escrow
  import opened Solvency
  import opened Challenge
  import opened Accounts
  import opened Conservation
  import opened EscrowLogs

  /** The sender, the receiver, and the signatures the run uses. */
  datatype Parties = Parties(s: Address, r: Address, proof4: Signature, agreed4: Signature, proof6: Signature,
                             agreed6: Signature)

  ghost predicate CanSign(p: Params, block: nat, x: Parties) {
    && EcVerify(p, BalanceProof(x.r, block, 4, p.self), x.proof4) == Some(x.s)
    && EcVerify(p, ClosingAgreement(x.s, block, 4, p.self), x.agreed4) == Some(x.r)
    && EcVerify(p, BalanceProof(x.r, block, 6, p.self), x.proof6) == Some(x.s)
    && EcVerify(p, ClosingAgreement(x.s, block, 6, p.self), x.agreed6) == Some(x.r)
  }

  predicate Ordinary(p: Params, x: Parties) {
    && ParamsOk(p) && Payable(p, x.s) && Payable(p, x.r)
    && p.self != x.s && p.self != x.r && x.s != x.r
  }

  /** What the sender can still deposit. */
  predicate CanDeposit(p: Params, w: World, x: Parties, amount: nat) {
    amount <= w.token.BalanceOf(x.s) && amount <= w.token.Allowance(x.s, p.self)
  }

  lemma ExecOneMore(p: Params, w: World, run: seq<Action>, a: Action, now: World)
    requires Perform(p, Exec(p, w, run), a) == Some(now)
    ensures Exec(p, w, run + [a]) == now
  {
    assert (run + [a])[..|run|] == run;
  }

  lemma CreateStep(p: Params, w: World, x: Parties, more: nat) returns (w': World)
    requires Ordinary(p, x) && Funded(p, w) && CanDeposit(p, w, x, 10 + more) && |w.chain| < TWO_32
    requires var key := p.keyOf(x.s, x.r, |w.chain|);
             w.escrow.ChannelAt(key) == Channel(0, 0) && w.escrow.ClosingAt(key).settleBlock == 0
    ensures Perform(p, w, DoCreate(x.s, x.r, 10)) == Some(w')
    ensures var key := p.keyOf(x.s, x.r, |w.chain|);
            && Funded(p, w') && CanDeposit(p, w', x, more) && w'.chain == w.chain
            && w'.escrow == w.escrow.(channels := w.escrow.channels[key := Channel(10, |w.chain|)])
            && w'.log == w.log + [LogEntry(|w.chain|, Created(x.s, x.r, 10))]
  {
    TransferSucceeds(w.token, p.token, x.s, p.self, 10);
    TransferMoves(w.token, p.token, x.s, p.self, 10);
    w' := Perform(p, w, DoCreate(x.s, x.r, 10)).value;
    StepKeepsFunded(p, w, DoCreate(x.s, x.r, 10));
  }

  predicate Withdrawable(p: Params, w: World, x: Parties) {
    var key := p.keyOf(x.s, x.r, |w.chain|);
    && 0 < |w.chain| < TWO_32 && w.escrow.ChannelAt(key) == Channel(10, |w.chain|)
    && w.escrow.ClosingAt(key).settleBlock == 0 && w.escrow.WithdrawnAt(key) == 0
  }

  lemma WithdrawStep(p: Params, w: World, x: Parties, more: nat) returns (w': World)
    requires Ordinary(p, x) && Funded(p, w) && CanDeposit(p, w, x, more)
    requires Withdrawable(p, w, x) && CanSign(p, |w.chain|, x)
    ensures Perform(p, w, DoWithdraw(x.r, |w.chain|, 4, x.proof4)) == Some(w')
    ensures var key := p.keyOf(x.s, x.r, |w.chain|);
            && Funded(p, w') && CanDeposit(p, w', x, more) && w'.chain == w.chain
            && w'.escrow == w.escrow.(withdrawn := w.escrow.withdrawn[key := 4])
            && w'.log == w.log + [LogEntry(|w.chain|, Withdrawn(x.s, x.r, |w.chain|, 4))]
  {
    WithdrawalCovered(p, w, x.r, |w.chain|, 4, x.proof4);
    w' := Withdraw(p, w, x.r, |w.chain|, 4, x.proof4).value;
    WithdrawKeepsFunded(p, w, x.r, |w.chain|, 4, x.proof4);
  }

  predicate Closable(p: Params, w: World, x: Parties, balance: nat) {
    var key := p.keyOf(x.s, x.r, |w.chain|);
    && 0 < |w.chain| < TWO_32 && w.escrow.ChannelAt(key) == Channel(10, |w.chain|)
    && w.escrow.WithdrawnAt(key) == 4 <= balance <= 10
  }

  /** What the settlement leaves of ledger, storage and log. */
  lemma CloseSettles(p: Params, w: World, x: Parties, balance: uint192) returns (w': World)
    requires Ordinary(p, x) && Funded(p, w) && Closable(p, w, x, balance)
    ensures SettleChannel(p, w, x.s, x.r, |w.chain|, balance) == Some(w')
    ensures var key := p.keyOf(x.s, x.r, |w.chain|);
            && PayBoth(p, w.token, x.r, balance - 4, x.s, 10 - balance) == Some(w'.token) && w'.chain == w.chain
            && w'.escrow == w.escrow.(channels := w.escrow.channels - {key}, closing := w.escrow.closing - {key})
            && w'.log == w.log + [LogEntry(|w.chain|, Settled(x.s, x.r, |w.chain|, balance, balance - 4))]
  {
    SettlementCovered(p, w, x.s, x.r, |w.chain|, balance);
    w' := SettleChannel(p, w, x.s, x.r, |w.chain|, balance).value;
  }

  lemma CloseStep(p: Params, w: World, x: Parties, more: nat, balance: uint192, proof: Signature, agreed: Signature)
    returns (w': World)
    requires Ordinary(p, x) && Funded(p, w) && CanDeposit(p, w, x, more) && Closable(p, w, x, balance)
    requires EcVerify(p, BalanceProof(x.r, |w.chain|, balance, p.self), proof) == Some(x.s)
    requires EcVerify(p, ClosingAgreement(x.s, |w.chain|, balance, p.self), agreed) == Some(x.r)
    ensures Perform(p, w, DoCooperativeClose(x.s, x.r, |w.chain|, balance, proof, agreed)) == Some(w')
    ensures var key := p.keyOf(x.s, x.r, |w.chain|);
            && Funded(p, w') && CanDeposit(p, w', x, more) && w'.chain == w.chain
            && w'.escrow == w.escrow.(channels := w.escrow.channels - {key}, closing := w.escrow.closing - {key})
            && w'.log == w.log + [LogEntry(|w.chain|, Settled(x.s, x.r, |w.chain|, balance, balance - 4))]
  {
    w' := CloseSettles(p, w, x, balance);
    PayBothCosts(p, w.token, x.r, balance - 4, x.s, 10 - balance);
    SettleKeepsFunded(p, w, x.s, x.r, |w.chain|, balance);
  }

  function Twice(block: uint32, x: Parties): seq<Action> {
    [] + [DoCreate(x.s, x.r, 10)] + [DoWithdraw(x.r, block, 4, x.proof4)]
    + [DoCooperativeClose(x.s, x.r, block, 4, x.proof4, x.agreed4)] + [DoCreate(x.s, x.r, 10)]
    + [DoCooperativeClose(x.s, x.r, block, 6, x.proof6, x.agreed6)]
  }

  function TwiceLog(block: uint32, x: Parties): seq<LogEntry> {
    [] + [LogEntry(block, Created(x.s, x.r, 10))] + [LogEntry(block, Withdrawn(x.s, x.r, block, 4))]
    + [LogEntry(block, Settled(x.s, x.r, block, 4, 0))] + [LogEntry(block, Created(x.s, x.r, 10))]
    + [LogEntry(block, Settled(x.s, x.r, block, 6, 2))]
  }

  lemma TwiceRuns(p: Params, w: World, x: Parties)
    requires Initial(p, w) && Ordinary(p, x) && CanDeposit(p, w, x, 20)
    requires BlocksInRange(w) && CanSign(p, |w.chain|, x)
    ensures Exec(p, w, Twice(|w.chain|, x)).log == TwiceLog(|w.chain|, x)
  {
    Solvent(p, w, []);
    var n := |w.chain|;
    var w1 := CreateStep(p, w, x, 10);
    var w2 := WithdrawStep(p, w1, x, 10);
    var w3 := CloseStep(p, w2, x, 10, 4, x.proof4, x.agreed4);
    var w4 := CreateStep(p, w3, x, 0);
    var w5 := CloseStep(p, w4, x, 0, 6, x.proof6, x.agreed6);
    var none: seq<Action> := [];
    var r1 := none + [DoCreate(x.s, x.r, 10)];
    var r2 := r1 + [DoWithdraw(x.r, n, 4, x.proof4)];
    var r3 := r2 + [DoCooperativeClose(x.s, x.r, n, 4, x.proof4, x.agreed4)];
    var r4 := r3 + [DoCreate(x.s, x.r, 10)];
    ExecOneMore(p, w, none, DoCreate(x.s, x.r, 10), w1);
    ExecOneMore(p, w, r1, DoWithdraw(x.r, n, 4, x.proof4), w2);
    ExecOneMore(p, w, r2, DoCooperativeClose(x.s, x.r, n, 4, x.proof4, x.agreed4), w3);
    ExecOneMore(p, w, r3, DoCreate(x.s, x.r, 10), w4);
    ExecOneMore(p, w, r4, DoCooperativeClose(x.s, x.r, n, 6, x.proof6, x.agreed6), w5);
  }

  lemma TwiceSums(block: uint32, x: Parties)
    ensures var id := ChannelId(x.s, x.r, block);
            var log := TwiceLog(block, x);
            && Creations(log, id) == 2 && Settlements(log, id) == 2
            && LifePaid(log, id) == 2 && PaidOut(log, id) == 6 && Inherited(AccountOf(log, id)) == 4
  {
    var id := ChannelId(x.s, x.r, block);
    var l0: seq<LogEntry> := [];
    var e1, e2 := LogEntry(block, Created(x.s, x.r, 10)), LogEntry(block, Withdrawn(x.s, x.r, block, 4));
    var e3, e5 := LogEntry(block, Settled(x.s, x.r, block, 4, 0)), LogEntry(block, Settled(x.s, x.r, block, 6, 2));
    SumsSnoc(l0, e1, id);
    AccountSnoc(l0, e1, id);
    SumsSnoc(l0 + [e1], e2, id);
    AccountSnoc(l0 + [e1], e2, id);
    SumsSnoc(l0 + [e1] + [e2], e3, id);
    AccountSnoc(l0 + [e1] + [e2], e3, id);
    SumsSnoc(l0 + [e1] + [e2] + [e3], e1, id);
    AccountSnoc(l0 + [e1] + [e2] + [e3], e1, id);
    SumsSnoc(l0 + [e1] + [e2] + [e3] + [e1], e5, id);
    AccountSnoc(l0 + [e1] + [e2] + [e3] + [e1], e5, id);
  }

  /** From any deployment whose sender can deposit 20: a channel is opened, pays out 4 and is settled at 4; opened
      again in the same block with a fresh deposit, it is settled at 6, and the receiver gets 2 for this life. */
  lemma RecreatedKeyPaysLess(p: Params, w: World, x: Parties)
    requires Initial(p, w) && Ordinary(p, x) && CanDeposit(p, w, x, 20)
    requires BlocksInRange(w) && CanSign(p, |w.chain|, x)
    ensures var now := Exec(p, w, Twice(|w.chain|, x));
            var id := ChannelId(x.s, x.r, |w.chain|);
            && Settlements(now.log, id) == 2 && LifePaid(now.log, id) == 2 && Inherited(AccountOf(now.log, id)) == 4
  {
    TwiceRuns(p, w, x);
    TwiceSums(|w.chain|, x);
  }

  // ---------------------------------------------------------------- only by agreement, in the creation block

  /** Action i of a run committed a cooperative close of this channel in the block it was opened in. */
  ghost predicate AgreedAtOnce(p: Params, w: World, run: seq<Action>, i: int, id: ChannelId) {
    && 0 <= i < |run| && run[i].DoCooperativeClose? && Perform(p, Exec(p, w, run[..i]), run[i]).Some?
    && |Exec(p, w, run[..i]).chain| == id.openBlock == run[i].openBlock && run[i].receiver == id.receiver
    && EcVerify(p, BalanceProof(id.receiver, id.openBlock, run[i].balance, p.self), run[i].proof) == Some(id.sender)
    && EcVerify(p, ClosingAgreement(id.sender, id.openBlock, run[i].balance, p.self), run[i].agreement)
         == Some(id.receiver)
  }

  lemma AgreedLater(p: Params, w: World, front: seq<Action>, last: Action, i: int, id: ChannelId)
    requires AgreedAtOnce(p, w, front, i, id)
    ensures AgreedAtOnce(p, w, front + [last], i, id)
  {
    assert (front + [last])[..i] == front[..i];
  }

  /** A channel's block has been reached once anything of it is logged. */
  lemma LiveIsReached(p: Params, w: World, run: seq<Action>, id: ChannelId)
    requires w.log == [] && Creations(Exec(p, w, run).log, id) > 0
    ensures id.openBlock <= |Exec(p, w, run).chain|
  {
    RunIsOrdered(p, w, run);
    var i := WhereCreated(Exec(p, w, run).log, id);
  }

  /** An uncooperative close asked for after the creation cannot be settled in the creation block. */
  lemma SettleComesLater(p: Params, w: World, run: seq<Action>, now: World, id: ChannelId)
    requires KeysDistinct(p) && Initial(p, w) && 0 < |w.chain| && Exec(p, w, run) == now && BlocksInRange(now)
    requires Pending(now.escrow, KeyOf(p, id)) && |now.chain| > now.escrow.ClosingAt(KeyOf(p, id)).settleBlock
    ensures |now.chain| > id.openBlock
  {
    var i := RequestHasOrigin(p, w, run, now, KeyOf(p, id));
    var then' := Exec(p, w, run[..i]);
    ExecKeepsBlocks(p, w, run[..i]);
    RunAgrees(p, w, run[..i], id);
    assert KeyOf(p, ChannelId(run[i].caller, run[i].receiver, run[i].openBlock)) == KeyOf(p, id);
    AccountIsSums(then'.log, id);
    LiveIsReached(p, w, run[..i], id);
  }

  /** A channel settled by the end of its creation block was closed with both signatures. */
  lemma {:induction false} SettledAtOnce(p: Params, w: World, run: seq<Action>, now: World, id: ChannelId)
    returns (i: int)
    requires KeysDistinct(p) && Initial(p, w) && 0 < |w.chain| && Exec(p, w, run) == now && BlocksInRange(now)
    requires Settlements(now.log, id) > 0 && |now.chain| <= id.openBlock
    ensures AgreedAtOnce(p, w, run, i, id)
  {
    if run == [] {
      assert false;
    }
    var front, last := run[..|run| - 1], run[|run| - 1];
    var before := Exec(p, w, front);
    assert run == front + [last];
    ChainGrows(p, before, last);
    ExecKeepsBlocks(p, w, front);
    if Settlements(before.log, id) > 0 {
      i := SettledAtOnce(p, w, front, before, id);
      AgreedLater(p, w, front, last, i, id);
    } else {
      i := |front|;
      SettlingStep(p, w, front, before, last, id);
    }
  }

  lemma SettlementEntry(p: Params, w: World, a: Action, id: ChannelId) returns (e: LogEntry)
    requires Settlements(w.log, id) < Settlements(Step(p, w, a).log, id)
    ensures Step(p, w, a).log == w.log + [e] && EntryId(e) == id && e.event.Settled?
  {
    LogGrowsByOne(p, w, a);
    e := Step(p, w, a).log[|w.log|];
    assert Step(p, w, a).log == w.log + [e];
    SumsSnoc(w.log, e, id);
  }

  /** A cooperative close that commits carries both signatures. */
  lemma AgreedBy(p: Params, w: World, a: Action, e: LogEntry)
    requires Step(p, w, a).log == w.log + [e] && e.event.Settled? && a.DoCooperativeClose?
    ensures var id := EntryId(e);
            && Perform(p, w, a).Some? && id.openBlock == a.openBlock && a.receiver == id.receiver
            && EcVerify(p, BalanceProof(id.receiver, id.openBlock, a.balance, p.self), a.proof) == Some(id.sender)
            && EcVerify(p, ClosingAgreement(id.sender, id.openBlock, a.balance, p.self), a.agreement) ==
                 Some(id.receiver)
  {
    SettlementStep(p, w, a);
  }

  lemma SettlingStep(p: Params, w: World, run: seq<Action>, now: World, a: Action, id: ChannelId)
    requires KeysDistinct(p) && Initial(p, w) && 0 < |w.chain| && Exec(p, w, run) == now && BlocksInRange(now)
    requires Settlements(now.log, id) == 0 < Settlements(Step(p, now, a).log, id)
    requires |Step(p, now, a).chain| <= id.openBlock
    ensures AgreedAtOnce(p, w, run + [a], |run|, id)
  {
    assert (run + [a])[..|run|] == run;
    ChainGrows(p, now, a);
    var e := SettlementEntry(p, now, a, id);
    RunAgrees(p, w, run, id);
    StepAgrees(p, now, a, id);
    AccountSnoc(now.log, e, EntryId(e));
    RunAgrees(p, w, run, EntryId(e));
    AccountIsSums(now.log, EntryId(e));
    LiveIsReached(p, w, run, EntryId(e));
    SettlementStep(p, now, a);
    if a.DoSettle? {
      SettleIsOwn(p, now, a, e);
      SettleComesLater(p, w, run, now, id);
    } else {
      AgreedBy(p, now, a, e);
    }
  }

  lemma SettleIsOwn(p: Params, w: World, a: Action, e: LogEntry)
    requires Step(p, w, a).log == w.log + [e] && e.event.Settled? && a.DoSettle?
    ensures Pending(w.escrow, KeyOf(p, EntryId(e)))
    ensures w.escrow.ClosingAt(KeyOf(p, EntryId(e))).settleBlock < |w.chain|
  {
    SettlementStep(p, w, a);
  }

  /** A key is opened a second time only if both parties agreed to close its channel in the very block it was opened in:
      nobody can bring that about without the receiver's signature on a closing agreement. */
  lemma {:induction false} ReuseNeedsAgreement(p: Params, w: World, run: seq<Action>, now: World, id: ChannelId)
    returns (i: int)
    requires KeysDistinct(p) && Initial(p, w) && 0 < |w.chain| && Exec(p, w, run) == now && BlocksInRange(now)
    requires !FirstLife(now.log, id)
    ensures AgreedAtOnce(p, w, run, i, id)
  {
    if run == [] {
      assert false;
    }
    var front, last := run[..|run| - 1], run[|run| - 1];
    var before := Exec(p, w, front);
    assert run == front + [last];
    ChainGrows(p, before, last);
    ExecKeepsBlocks(p, w, front);
    if !FirstLife(before.log, id) {
      i := ReuseNeedsAgreement(p, w, front, before, id);
    } else {
      SecondCreation(p, w, front, before, last, id);
      i := SettledAtOnce(p, w, front, before, id);
    }
    AgreedLater(p, w, front, last, i, id);
  }

  lemma SecondCreation(p: Params, w: World, run: seq<Action>, now: World, a: Action, id: ChannelId)
    requires KeysDistinct(p) && Initial(p, w) && 0 < |w.chain| && Exec(p, w, run) == now && BlocksInRange(now)
    requires FirstLife(now.log, id) && !FirstLife(Step(p, now, a).log, id)
    ensures Settlements(now.log, id) > 0 && |now.chain| == id.openBlock
  {
    LogGrowsByOne(p, now, a);
    var e := Step(p, now, a).log[|now.log|];
    assert Step(p, now, a).log == now.log + [e];
    SumsSnoc(now.log, e, id);
    EntryNumber(p, now, a);
    RunAgrees(p, w, run, id);
    StepAgrees(p, now, a, id);
    AccountSnoc(now.log, e, id);
    AccountIsSums(now.log, id);
  }
}
