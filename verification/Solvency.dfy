/** In every reachable state the escrow holds enough tokens for all of its channels at once. */
module Solvency {
  import opened Prelude
  import opened Sums
  import opened Encoding
  import opened Token
  import opened Escrow

  /** What a channel can still pay out. A key that was settled and opened again in one block keeps its old
      withdrawals, which may exceed the new deposit. */
  function Remaining(s: Storage, k: Key): nat {
    Max(0, s.ChannelAt(k).deposit - s.WithdrawnAt(k))
  }

  function RemainingMap(s: Storage): map<Key, nat> {
    map k | k in s.channels :: Remaining(s, k)
  }

  ghost function Owed(s: Storage): nat {
    Sum(RemainingMap(s))
  }

  /** The escrow's balance covers every channel, the supply fits a word, and nobody may spend for the escrow. */
  ghost predicate Funded(p: Params, w: World) {
    && w.token.Supply() < TWO_256
    && w.token.NobodySpendsFor(p.self)
    && Owed(w.escrow) <= w.token.BalanceOf(p.self)
  }

  // ---------------------------------------------------------------- what the storage owes

  lemma CreateOwes(p: Params, w: World, sender: Address, receiver: Address, deposit: uint192)
    requires CreatePrivate(p, w, sender, receiver, deposit).Some?
    ensures var w' := CreatePrivate(p, w, sender, receiver, deposit).value;
            w'.token == w.token && Owed(w'.escrow) <= Owed(w.escrow) + deposit
  {
    var w' := CreatePrivate(p, w, sender, receiver, deposit).value;
    var key := p.keyOf(sender, receiver, w.BlockNumber() % TWO_32);
    SumUpdate(RemainingMap(w.escrow), key, Remaining(w'.escrow, key));
    assert RemainingMap(w'.escrow) == RemainingMap(w.escrow)[key := Remaining(w'.escrow, key)];
  }

  /** For all uint192 amounts: a top-up that commits stores the true sum, and the sum respects the limit. Neither
      the wrapping comparison nor the assertion after it would suffice alone. */
  lemma TopUpStoresTrueSum(p: Params, w: World, sender: Address, receiver: Address, openBlock: uint32, added: uint192)
    ensures var key := p.keyOf(sender, receiver, openBlock);
            var before := w.escrow.ChannelAt(key);
            match TopUpPrivate(p, w, sender, receiver, openBlock, added) {
              case Some(w') =>
                && w'.escrow.ChannelAt(key) == before.(deposit := before.deposit + added)
                && before.deposit + added <= DEPOSIT_LIMIT
              case None =>
                || added == 0 || openBlock == 0 || before.openBlock == 0 || w.escrow.ClosingAt(key).settleBlock != 0
                || before.deposit + added > DEPOSIT_LIMIT
            }
  {
  }

  lemma TopUpOwes(p: Params, w: World, sender: Address, receiver: Address, openBlock: uint32, added: uint192)
    requires TopUpPrivate(p, w, sender, receiver, openBlock, added).Some?
    ensures var w' := TopUpPrivate(p, w, sender, receiver, openBlock, added).value;
            w'.token == w.token && Owed(w'.escrow) <= Owed(w.escrow) + added
  {
    TopUpStoresTrueSum(p, w, sender, receiver, openBlock, added);
    var w' := TopUpPrivate(p, w, sender, receiver, openBlock, added).value;
    var key := p.keyOf(sender, receiver, openBlock);
    SumUpdate(RemainingMap(w.escrow), key, Remaining(w'.escrow, key));
    assert RemainingMap(w'.escrow) == RemainingMap(w.escrow)[key := Remaining(w'.escrow, key)];
  }

  lemma WithdrawOwes(s: Storage, key: Key, balance: uint192)
    requires s.ChannelAt(key).openBlock != 0 && s.WithdrawnAt(key) <= balance <= s.ChannelAt(key).deposit
    ensures Owed(s.(withdrawn := s.withdrawn[key := balance])) == Owed(s) - (balance - s.WithdrawnAt(key))
  {
    var s' := s.(withdrawn := s.withdrawn[key := balance]);
    SumUpdate(RemainingMap(s), key, Remaining(s', key));
    assert RemainingMap(s') == RemainingMap(s)[key := Remaining(s', key)];
  }

  lemma ForgetOwes(s: Storage, key: Key)
    requires s.ChannelAt(key).openBlock != 0
    ensures Owed(s.(channels := s.channels - {key}, closing := s.closing - {key})) == Owed(s) - Remaining(s, key)
  {
    var s' := s.(channels := s.channels - {key}, closing := s.closing - {key});
    SumRemove(RemainingMap(s), key);
    assert RemainingMap(s') == RemainingMap(s) - {key};
  }

  lemma RemainingCovered(s: Storage, key: Key)
    requires s.ChannelAt(key).openBlock != 0
    ensures Remaining(s, key) <= Owed(s)
  {
    ValueAtMostSum(RemainingMap(s), key);
  }

  // ---------------------------------------------------------------- what the ledger holds

  lemma SameAllowances(l: Ledger, l': Ledger, owner: Address)
    requires l.NobodySpendsFor(owner) && l'.allowed == l.allowed
    ensures l'.NobodySpendsFor(owner)
  {
    forall spender: Address ensures l'.Allowance(owner, spender) == 0 {
      assert l.Allowance(owner, spender) == 0;
    }
  }

  lemma OtherAllowance(l: Ledger, l': Ledger, owner: Address, from: Address, spender: Address, value: uint256)
    requires l.NobodySpendsFor(owner) && l'.allowed == l.allowed[(from, spender) := value]
    requires from == owner ==> value == 0
    ensures l'.NobodySpendsFor(owner)
  {
    forall s: Address ensures l'.Allowance(owner, s) == 0 {
      assert l.Allowance(owner, s) == 0;
    }
  }

  lemma PullBrings(p: Params, w: World, payer: Address, amount: uint192)
    requires payer != p.self
    requires PullDeposit(p, Some(w), payer, amount).Some?
    ensures var w' := PullDeposit(p, Some(w), payer, amount).value;
            && w'.escrow == w.escrow
            && w'.token.Supply() == w.token.Supply()
            && w'.token.BalanceOf(p.self) == w.token.BalanceOf(p.self) + amount
            && (w.token.NobodySpendsFor(p.self) ==> w'.token.NobodySpendsFor(p.self))
  {
    TransferMoves(w.token, p.token, payer, p.self, amount);
    if w.token.NobodySpendsFor(p.self) {
      OtherAllowance(w.token, PullDeposit(p, Some(w), payer, amount).value.token, p.self, payer, p.self,
                     w.token.Allowance(payer, p.self) - amount);
    }
  }

  lemma PayBothCosts(p: Params, l: Ledger, receiver: Address, owed: nat, sender: Address, rest: nat)
    requires PayBoth(p, l, receiver, owed, sender, rest).Some?
    ensures var l' := PayBoth(p, l, receiver, owed, sender, rest).value;
            && l'.Supply() == l.Supply() && l'.allowed == l.allowed
            && l'.BalanceOf(p.self) >= l.BalanceOf(p.self) - owed - rest
  {
    TransferMoves(l, p.token, p.self, receiver, owed);
    var mid := l.Transfer(p.token, p.self, receiver, owed).value;
    TransferMoves(mid, p.token, p.self, sender, rest);
  }

  // ---------------------------------------------------------------- every step keeps the escrow funded

  lemma CreateKeepsFunded(p: Params, w: World, payer: Address, sender: Address, receiver: Address, deposit: uint192)
    requires Funded(p, w) && payer != p.self
    requires PullDeposit(p, CreatePrivate(p, w, sender, receiver, deposit), payer, deposit).Some?
    ensures Funded(p, PullDeposit(p, CreatePrivate(p, w, sender, receiver, deposit), payer, deposit).value)
  {
    CreateOwes(p, w, sender, receiver, deposit);
    PullBrings(p, CreatePrivate(p, w, sender, receiver, deposit).value, payer, deposit);
  }

  lemma TopUpKeepsFunded(p: Params, w: World, payer: Address, sender: Address, receiver: Address, openBlock: uint32,
                         added: uint192)
    requires Funded(p, w) && payer != p.self
    requires PullDeposit(p, TopUpPrivate(p, w, sender, receiver, openBlock, added), payer, added).Some?
    ensures Funded(p, PullDeposit(p, TopUpPrivate(p, w, sender, receiver, openBlock, added), payer, added).value)
  {
    TopUpOwes(p, w, sender, receiver, openBlock, added);
    PullBrings(p, TopUpPrivate(p, w, sender, receiver, openBlock, added).value, payer, added);
  }

  lemma TransferWithDataKeepsFunded(p: Params, w: World, caller: Address, amount: uint256, data: Bytes)
    requires Funded(p, w) && caller != p.self
    requires TransferWithData(p, w, caller, amount, data).Some?
    ensures Funded(p, TransferWithData(p, w, caller, amount, data).value)
  {
    TransferMoves(w.token, p.token, caller, p.self, amount);
    var v := w.(token := w.token.Transfer(p.token, caller, p.self, amount).value);
    SameAllowances(w.token, v.token, p.self);
    match DecodePayload(data).value
    case OpenRequest(s, r) => CreateOwes(p, v, s, r, amount);
    case TopUpRequest(s, r, b) => TopUpOwes(p, v, s, r, b, amount);
  }

  lemma WithdrawKeepsFunded(p: Params, w: World, caller: Address, openBlock: uint32, balance: uint192, proof: Signature)
    requires Funded(p, w) && caller != p.self
    requires Withdraw(p, w, caller, openBlock, balance, proof).Some?
    ensures Funded(p, Withdraw(p, w, caller, openBlock, balance, proof).value)
  {
    var sender := EcVerify(p, BalanceProof(caller, openBlock, balance, p.self), proof).value;
    var key := p.keyOf(sender, caller, openBlock);
    WithdrawOwes(w.escrow, key, balance);
    TransferMoves(w.token, p.token, p.self, caller, balance - w.escrow.WithdrawnAt(key));
    SameAllowances(w.token, Withdraw(p, w, caller, openBlock, balance, proof).value.token, p.self);
  }

  lemma SettleKeepsFunded(p: Params, w: World, sender: Address, receiver: Address, openBlock: uint32, balance: uint192)
    requires Funded(p, w)
    requires SettleChannel(p, w, sender, receiver, openBlock, balance).Some?
    ensures Funded(p, SettleChannel(p, w, sender, receiver, openBlock, balance).value)
  {
    ForgetOwes(w.escrow, p.keyOf(sender, receiver, openBlock));
    PayBothCosts(p, w.token, receiver, balance - w.escrow.WithdrawnAt(p.keyOf(sender, receiver, openBlock)), sender,
                 w.escrow.ChannelAt(p.keyOf(sender, receiver, openBlock)).deposit - balance);
    SameAllowances(w.token, SettleChannel(p, w, sender, receiver, openBlock, balance).value.token, p.self);
  }

  lemma StrangerTransferKeepsFunded(p: Params, w: World, l: Ledger, c: Address, to: Address, d: nat)
    requires Funded(p, w) && c != p.self && w.token.Transfer(p.token, c, to, d) == Some(l)
    ensures Funded(p, w.(token := l))
  {
    TransferMoves(w.token, p.token, c, to, d);
    SameAllowances(w.token, l, p.self);
  }

  lemma StrangerTransferFromKeepsFunded(p: Params, w: World, l: Ledger, c: Address, from: Address, to: Address, d: nat)
    requires Funded(p, w) && c != p.self && w.token.TransferFrom(p.token, c, from, to, d) == Some(l)
    ensures Funded(p, w.(token := l))
  {
    TransferMoves(w.token, p.token, from, to, d);
    assert w.token.Allowance(p.self, c) == 0;
    OtherAllowance(w.token, l, p.self, from, c, w.token.Allowance(from, c) - d);
  }

  lemma StrangersKeepFunded(p: Params, w: World, a: Action)
    requires Funded(p, w) && Perform(p, w, a).Some?
    requires a.DoTokenTransfer? || a.DoTokenTransferFrom? || a.DoTokenApprove?
    ensures Funded(p, Perform(p, w, a).value)
  {
    var l := Perform(p, w, a).value.token;
    match a
    case DoTokenTransfer(c, to, d) => StrangerTransferKeepsFunded(p, w, l, c, to, d);
    case DoTokenTransferFrom(c, from, to, d) => StrangerTransferFromKeepsFunded(p, w, l, c, from, to, d);
    case DoTokenApprove(c, spender, d) => OtherAllowance(w.token, l, p.self, c, spender, d);
  }

  lemma DepositsKeepFunded(p: Params, w: World, a: Action)
    requires Funded(p, w) && Perform(p, w, a).Some?
    requires a.DoCreate? || a.DoCreateDelegate? || a.DoTopUp? || a.DoTopUpDelegate? || a.DoTransferWithData?
    ensures Funded(p, Perform(p, w, a).value)
  {
    match a
    case DoCreate(c, r, d) => CreateKeepsFunded(p, w, c, c, r, d);
    case DoCreateDelegate(c, s, r, d) => CreateKeepsFunded(p, w, c, s, r, d);
    case DoTopUp(c, r, b, d) => TopUpKeepsFunded(p, w, c, c, r, b, d);
    case DoTopUpDelegate(c, s, r, b, d) => TopUpKeepsFunded(p, w, c, s, r, b, d);
    case DoTransferWithData(c, d, data) => TransferWithDataKeepsFunded(p, w, c, d, data);
  }

  lemma SettleStepKeepsFunded(p: Params, w: World, a: Action)
    requires Funded(p, w) && a.DoSettle? && Perform(p, w, a).Some?
    ensures Funded(p, Perform(p, w, a).value)
  {
    var request := w.escrow.ClosingAt(p.keyOf(a.caller, a.receiver, a.openBlock));
    var v := w.(cache := Perform(p, w, a).value.cache);
    assert SettleChannel(p, v, a.caller, a.receiver, a.openBlock, request.balance) == Perform(p, w, a);
    SettleKeepsFunded(p, v, a.caller, a.receiver, a.openBlock, request.balance);
  }

  lemma StepKeepsFunded(p: Params, w: World, a: Action)
    requires Funded(p, w)
    ensures Funded(p, Step(p, w, a))
  {
    if Perform(p, w, a).Some? {
      match a
      case DoUncooperativeClose(c, r, b, x) => OwedIgnoresRequests(w.escrow, Perform(p, w, a).value.escrow);
      case DoAddTrusted(c, contracts) => OwedIgnoresRequests(w.escrow, Perform(p, w, a).value.escrow);
      case DoRemoveTrusted(c, contracts) => OwedIgnoresRequests(w.escrow, Perform(p, w, a).value.escrow);
      case DoReport(c, reference, gas, block) =>
      case Mine(block) =>
      case DoWithdraw(c, b, x, sig) => WithdrawKeepsFunded(p, w, c, b, x, sig);
      case DoCooperativeClose(c, r, b, x, sig, agreement) =>
        SettleKeepsFunded(p, w, EcVerify(p, BalanceProof(r, b, x, p.self), sig).value, r, b, x);
      case DoSettle(_, _, _, _) => SettleStepKeepsFunded(p, w, a);
      case DoTokenTransfer(_, _, _) => StrangersKeepFunded(p, w, a);
      case DoTokenTransferFrom(_, _, _, _) => StrangersKeepFunded(p, w, a);
      case DoTokenApprove(_, _, _) => StrangersKeepFunded(p, w, a);
      case _ => DepositsKeepFunded(p, w, a);
    }
  }

  lemma OwedIgnoresRequests(s: Storage, s': Storage)
    requires s.channels == s'.channels && s.withdrawn == s'.withdrawn
    ensures Owed(s) == Owed(s')
  {
    assert RemainingMap(s) == RemainingMap(s');
  }

  /** Solvency over every run of senders, receivers, delegates, token holders and reporters. */
  lemma {:induction false} Solvent(p: Params, w: World, run: seq<Action>)
    requires Initial(p, w)
    ensures Funded(p, Exec(p, w, run))
  {
    if run == [] {
      assert RemainingMap(w.escrow) == map[];
    } else {
      Solvent(p, w, run[..|run| - 1]);
      StepKeepsFunded(p, Exec(p, w, run[..|run| - 1]), run[|run| - 1]);
    }
  }

  // ---------------------------------------------------------------- the deposit limit

  /** Every channel's deposit is within the limit. */
  ghost predicate Limited(s: Storage) {
    forall k :: k in s.channels ==> s.channels[k].deposit <= DEPOSIT_LIMIT
  }

  lemma CreateKeepsLimit(p: Params, w: World, sender: Address, receiver: Address, deposit: uint192)
    requires Limited(w.escrow) && CreatePrivate(p, w, sender, receiver, deposit).Some?
    ensures Limited(CreatePrivate(p, w, sender, receiver, deposit).value.escrow)
  {
  }

  lemma TopUpKeepsLimit(p: Params, w: World, sender: Address, receiver: Address, openBlock: uint32, added: uint192)
    requires Limited(w.escrow) && TopUpPrivate(p, w, sender, receiver, openBlock, added).Some?
    ensures Limited(TopUpPrivate(p, w, sender, receiver, openBlock, added).value.escrow)
  {
  }

  lemma DepositKeepsLimit(p: Params, w: World, a: Action)
    requires Limited(w.escrow) && Perform(p, w, a).Some?
    requires a.DoCreate? || a.DoCreateDelegate? || a.DoTopUp? || a.DoTopUpDelegate? || a.DoTransferWithData?
    ensures Limited(Perform(p, w, a).value.escrow)
  {
    match a
    case DoCreate(c, r, d) => CreateKeepsLimit(p, w, c, r, d);
    case DoCreateDelegate(_, s, r, d) => CreateKeepsLimit(p, w, s, r, d);
    case DoTopUp(c, r, b, d) => TopUpKeepsLimit(p, w, c, r, b, d);
    case DoTopUpDelegate(_, s, r, b, d) => TopUpKeepsLimit(p, w, s, r, b, d);
    case DoTransferWithData(c, d, data) =>
      var v := w.(token := w.token.Transfer(p.token, c, p.self, d).value);
      match DecodePayload(data).value
      case OpenRequest(s, r) => CreateKeepsLimit(p, v, s, r, d);
      case TopUpRequest(s, r, b) => TopUpKeepsLimit(p, v, s, r, b, d);
  }

  lemma StepKeepsLimit(p: Params, w: World, a: Action)
    requires Limited(w.escrow)
    ensures Limited(Step(p, w, a).escrow)
  {
    if Perform(p, w, a).Some? {
      match a
      case DoCreate(_, _, _) => DepositKeepsLimit(p, w, a);
      case DoCreateDelegate(_, _, _, _) => DepositKeepsLimit(p, w, a);
      case DoTopUp(_, _, _, _) => DepositKeepsLimit(p, w, a);
      case DoTopUpDelegate(_, _, _, _, _) => DepositKeepsLimit(p, w, a);
      case DoTransferWithData(_, _, _) => DepositKeepsLimit(p, w, a);
      case _ =>
    }
  }

  /** In every reachable state no channel holds more than the limit, however it was opened and topped up. */
  lemma {:induction false} DepositsLimited(p: Params, w: World, run: seq<Action>)
    requires Initial(p, w)
    ensures Limited(Exec(p, w, run).escrow)
  {
    if run != [] {
      DepositsLimited(p, w, run[..|run| - 1]);
      StepKeepsLimit(p, Exec(p, w, run[..|run| - 1]), run[|run| - 1]);
    }
  }

  // ---------------------------------------------------------------- payouts never fail for want of tokens

  predicate Payable(p: Params, a: Address) {
    a != 0 && a != p.token
  }

  lemma PayBothSucceeds(p: Params, l: Ledger, receiver: Address, owed: nat, sender: Address, rest: nat)
    requires p.self != p.token && Payable(p, receiver) && Payable(p, sender)
    requires receiver != p.self && sender != p.self
    requires l.Supply() < TWO_256 && owed + rest <= l.BalanceOf(p.self)
    ensures PayBoth(p, l, receiver, owed, sender, rest).Some?
    ensures var l' := PayBoth(p, l, receiver, owed, sender, rest).value;
            && l'.BalanceOf(p.self) == l.BalanceOf(p.self) - owed - rest
            && (sender != receiver ==>
                  l'.BalanceOf(receiver) == l.BalanceOf(receiver) + owed
                  && l'.BalanceOf(sender) == l.BalanceOf(sender) + rest)
  {
    TransferSucceeds(l, p.token, p.self, receiver, owed);
    TransferMoves(l, p.token, p.self, receiver, owed);
    var mid := l.Transfer(p.token, p.self, receiver, owed).value;
    TransferSucceeds(mid, p.token, p.self, sender, rest);
    TransferMoves(mid, p.token, p.self, sender, rest);
  }

  /** In a funded state the contract's own conditions decide a settlement: the tokens are always there, and they
      end up exactly where they belong. */
  lemma SettlementCovered(p: Params, w: World, sender: Address, receiver: Address, openBlock: uint32, balance: uint192)
    requires ParamsOk(p) && Funded(p, w)
    requires Payable(p, receiver) && Payable(p, sender) && receiver != p.self && sender != p.self
    ensures var key := p.keyOf(sender, receiver, openBlock);
            var channel := w.escrow.ChannelAt(key);
            var before := w.escrow.WithdrawnAt(key);
            var done := SettleChannel(p, w, sender, receiver, openBlock, balance);
            && (done.Some? <==> channel.openBlock != 0 && before <= balance <= channel.deposit)
            && (done.Some? && sender != receiver ==>
                  && done.value.token.BalanceOf(receiver) == w.token.BalanceOf(receiver) + (balance - before)
                  && done.value.token.BalanceOf(sender) == w.token.BalanceOf(sender) + (channel.deposit - balance))
            && (done.Some? ==>
                  done.value.token.BalanceOf(p.self) == w.token.BalanceOf(p.self) - (channel.deposit - before))
  {
    var key := p.keyOf(sender, receiver, openBlock);
    var channel := w.escrow.ChannelAt(key);
    var before := w.escrow.WithdrawnAt(key);
    if channel.openBlock != 0 && before <= balance <= channel.deposit {
      RemainingCovered(w.escrow, key);
      PayBothSucceeds(p, w.token, receiver, balance - before, sender, channel.deposit - balance);
    }
  }

  lemma WithdrawalCovered(p: Params, w: World, caller: Address, openBlock: uint32, balance: uint192, proof: Signature)
    requires ParamsOk(p) && Funded(p, w) && Payable(p, caller) && caller != p.self
    ensures var signer := EcVerify(p, BalanceProof(caller, openBlock, balance, p.self), proof);
            var done := Withdraw(p, w, caller, openBlock, balance, proof);
            && (done.Some? <==>
                  && signer.Some?
                  && var key := p.keyOf(signer.value, caller, openBlock);
                  && w.escrow.ChannelAt(key).openBlock != 0 && w.escrow.ClosingAt(key).settleBlock == 0
                  && w.escrow.WithdrawnAt(key) < balance <= w.escrow.ChannelAt(key).deposit)
            && (done.Some? ==>
                  var before := w.escrow.WithdrawnAt(p.keyOf(signer.value, caller, openBlock));
                  done.value.token.BalanceOf(caller) == w.token.BalanceOf(caller) + (balance - before))
  {
    var signer := EcVerify(p, BalanceProof(caller, openBlock, balance, p.self), proof);
    if signer.Some? {
      var key := p.keyOf(signer.value, caller, openBlock);
      var before := w.escrow.WithdrawnAt(key);
      if w.escrow.ChannelAt(key).openBlock != 0 && before < balance <= w.escrow.ChannelAt(key).deposit {
        RemainingCovered(w.escrow, key);
        TransferSucceeds(w.token, p.token, p.self, caller, balance - before);
        TransferMoves(w.token, p.token, p.self, caller, balance - before);
      }
    }
  }
}
