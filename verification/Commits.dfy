/** When the contract's functions commit, stated of what the parties can check before: funds, allowances, the true sum
    of a deposit, and the block height. */
module Commits {
  import opened Prelude
  import opened Encoding
  import opened Token
  import opened Escrow
  import opened Solvency
  import opened Accounts

  /** The payer has the tokens and lets the contract take them. */
  predicate CanFund(p: Params, w: World, payer: Address, amount: nat) {
    payer != 0 && amount <= w.token.Allowance(payer, p.self) && amount <= w.token.BalanceOf(payer)
  }

  lemma PullExactlyWhen(p: Params, w: World, payer: Address, amount: uint192)
    requires ParamsOk(p) && w.token.Supply() < TWO_256 && payer != p.self
    ensures PullDeposit(p, Some(w), payer, amount).Some? <==> CanFund(p, w, payer, amount)
  {
    TransferExactlyWhen(w.token, p.token, payer, p.self, amount);
    SpendingExact(w.token, p.token, p.self, payer, p.self, amount);
  }

  /** The slot of a new channel is free, and the deposit within the limit. */
  predicate CanOpen(p: Params, w: World, sender: Address, receiver: Address, deposit: nat) {
    var key := p.keyOf(sender, receiver, w.BlockNumber() % TWO_32);
    && deposit <= DEPOSIT_LIMIT
    && w.escrow.ChannelAt(key) == Channel(0, 0) && w.escrow.ClosingAt(key).settleBlock == 0
  }

  /** The channel is there, nobody has asked to close it, and the true sum is within the limit. */
  predicate CanRaise(p: Params, w: World, sender: Address, receiver: Address, openBlock: uint32, added: nat) {
    var key := p.keyOf(sender, receiver, openBlock);
    && added > 0 && openBlock != 0
    && w.escrow.ChannelAt(key).openBlock != 0 && w.escrow.ClosingAt(key).settleBlock == 0
    && w.escrow.ChannelAt(key).deposit + added <= DEPOSIT_LIMIT
  }

  /** createChannel and createChannelDelegate. */
  lemma OpeningExactlyWhen(p: Params, w: World, caller: Address, sender: Address, receiver: Address, deposit: uint192)
    requires ParamsOk(p) && w.token.Supply() < TWO_256 && caller != p.self
    ensures CreateChannel(p, w, caller, receiver, deposit).Some? <==>
              CanOpen(p, w, caller, receiver, deposit) && CanFund(p, w, caller, deposit)
    ensures CreateChannelDelegate(p, w, caller, sender, receiver, deposit).Some? <==>
              caller in w.escrow.trusted && CanOpen(p, w, sender, receiver, deposit) && CanFund(p, w, caller, deposit)
  {
    if CreatePrivate(p, w, caller, receiver, deposit).Some? {
      PullExactlyWhen(p, CreatePrivate(p, w, caller, receiver, deposit).value, caller, deposit);
    }
    if CreatePrivate(p, w, sender, receiver, deposit).Some? {
      PullExactlyWhen(p, CreatePrivate(p, w, sender, receiver, deposit).value, caller, deposit);
    }
  }

  /** topUp and topUpDelegate. */
  lemma RaisingExactlyWhen(p: Params, w: World, caller: Address, sender: Address, receiver: Address, openBlock: uint32,
                           added: uint192)
    requires ParamsOk(p) && w.token.Supply() < TWO_256 && caller != p.self
    ensures TopUp(p, w, caller, receiver, openBlock, added).Some? <==>
              CanRaise(p, w, caller, receiver, openBlock, added) && CanFund(p, w, caller, added)
    ensures TopUpDelegate(p, w, caller, sender, receiver, openBlock, added).Some? <==>
              && caller in w.escrow.trusted && CanRaise(p, w, sender, receiver, openBlock, added)
              && CanFund(p, w, caller, added)
  {
    TopUpStoresTrueSum(p, w, caller, receiver, openBlock, added);
    TopUpStoresTrueSum(p, w, sender, receiver, openBlock, added);
    if TopUpPrivate(p, w, caller, receiver, openBlock, added).Some? {
      PullExactlyWhen(p, TopUpPrivate(p, w, caller, receiver, openBlock, added).value, caller, added);
    }
    if TopUpPrivate(p, w, sender, receiver, openBlock, added).Some? {
      PullExactlyWhen(p, TopUpPrivate(p, w, sender, receiver, openBlock, added).value, caller, added);
    }
  }

  /** The EIP-223 transfer: no allowance is needed, the payload says what is asked, and strangers must be trusted. */
  lemma TransferExactly(p: Params, w: World, caller: Address, amount: uint256, data: Bytes)
    requires ParamsOk(p) && w.token.Supply() < TWO_256 && caller != p.self
    ensures TransferWithData(p, w, caller, amount, data).Some? <==>
              && amount <= w.token.BalanceOf(caller) && amount < TWO_192
              && DecodePayload(data).Some?
              && (caller == DecodePayload(data).value.sender || caller in w.escrow.trusted)
              && match DecodePayload(data).value {
                   case OpenRequest(s, r) => CanOpen(p, w, s, r, amount)
                   case TopUpRequest(s, r, b) => CanRaise(p, w, s, r, b, amount)
                 }
  {
    TransferExactlyWhen(w.token, p.token, caller, p.self, amount);
    if amount < TWO_192 && DecodePayload(data).Some? && DecodePayload(data).value.TopUpRequest? {
      var request := DecodePayload(data).value;
      TopUpStoresTrueSum(p, w, request.sender, request.receiver, request.openBlock, amount);
    }
  }

  /** A sender can ask to close its channel exactly if it is live and unasked, for no more than the deposit, and as long
      as the end of the challenge period fits 32 bits. */
  lemma AskingExactlyWhen(p: Params, w: World, caller: Address, receiver: Address, openBlock: uint32, balance: uint192)
    requires ParamsOk(p)
    ensures var key := p.keyOf(caller, receiver, openBlock);
            UncooperativeClose(p, w, caller, receiver, openBlock, balance).Some? <==>
              && w.escrow.ChannelAt(key).openBlock != 0 && w.escrow.ClosingAt(key).settleBlock == 0
              && balance <= w.escrow.ChannelAt(key).deposit && w.BlockNumber() + p.challengePeriod < TWO_32
  {
  }

  /** Both parties can close cooperatively exactly with the sender's proof and the receiver's agreement on one balance
      between the withdrawals and the deposit, be a close request pending or not. */
  lemma ClosingExactlyWhen(p: Params, w: World, sender: Address, receiver: Address, openBlock: uint32, balance: uint192,
                           proof: Signature, agreement: Signature)
    requires ParamsOk(p) && Funded(p, w)
    requires Payable(p, sender) && Payable(p, receiver)
    requires p.self != sender && p.self != receiver && sender != receiver
    requires EcVerify(p, BalanceProof(receiver, openBlock, balance, p.self), proof) == Some(sender)
    ensures var key := p.keyOf(sender, receiver, openBlock);
            CooperativeClose(p, w, receiver, openBlock, balance, proof, agreement).Some? <==>
              && EcVerify(p, ClosingAgreement(sender, openBlock, balance, p.self), agreement) == Some(receiver)
              && w.escrow.ChannelAt(key).openBlock != 0
              && w.escrow.WithdrawnAt(key) <= balance <= w.escrow.ChannelAt(key).deposit
  {
    SettlementCovered(p, w, sender, receiver, openBlock, balance);
  }

  /** In reachable states: a channel can be opened exactly if it is not live already, and raised exactly while it is
      live and nobody has asked to close it. */
  lemma LiveDecides(p: Params, w: World, id: ChannelId, amount: nat)
    requires BlocksInRange(w) && Agree(p, w, id)
    ensures id.openBlock == |w.chain| ==>
              (CanOpen(p, w, id.sender, id.receiver, amount) <==>
               amount <= DEPOSIT_LIMIT && !AccountOf(w.log, id).Live?)
    ensures id.openBlock < TWO_32 ==>
              (CanRaise(p, w, id.sender, id.receiver, id.openBlock, amount) <==>
               var account := AccountOf(w.log, id);
               amount > 0 && account.Live? && account.closing.None? && account.deposited + amount <= DEPOSIT_LIMIT)
  {
  }
}
