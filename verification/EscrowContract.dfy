/** The escrow contract as an object, each external method proved against its step in Escrow. */
module EscrowContract {
  import opened Prelude
  import opened Encoding
  import opened Token
  import opened Congestion
  import opened Escrow

  /** A reverted call leaves everything as it was; a committed one reaches the specified state. */
  ghost predicate Outcome(ok: bool, before: World, after: World, spec: Option<World>) {
    match spec
    case None => !ok && after == before
    case Some(w) => ok && after == w
  }

  class RaidenMicroTransferChannels {
    const p: Params
    const token: StandardToken
    const congestionValidator: CongestionValidator
    var channels: map<Key, Channel>
    var closingRequests: map<Key, ClosingRequest>
    var withdrawnBalances: map<Key, uint192>
    var trustedContracts: set<Address>
    var log: seq<LogEntry>
    var notices: seq<TrustNotice>

    ghost predicate Valid() {
      token.address == p.token && congestionValidator.codec == p.codec && ParamsOk(p)
    }

    ghost function State(chain: seq<Block>): World
      reads this, token, congestionValidator
    {
      World(Storage(channels, closingRequests, withdrawnBalances, trustedContracts),
            token.State(), congestionValidator.reportedBlocks, chain, log, notices)
    }

    constructor (p: Params, token: StandardToken, congestionValidator: CongestionValidator)
      requires token.address == p.token && congestionValidator.codec == p.codec && ParamsOk(p)
      ensures Valid() && this.p == p && this.token == token && this.congestionValidator == congestionValidator
      ensures forall chain :: State(chain) ==
                World(Storage(map[], map[], map[], {}), token.State(), congestionValidator.reportedBlocks, chain, [],
                      [])
    {
      this.p, this.token, this.congestionValidator := p, token, congestionValidator;
      channels, closingRequests, withdrawnBalances, trustedContracts, log := map[], map[], map[], {}, [];
      notices := [];
    }

    function ChannelAt(k: Key): Channel
      reads this
    {
      if k in channels then channels[k] else Channel(0, 0)
    }

    function ClosingAt(k: Key): ClosingRequest
      reads this
    {
      if k in closingRequests then closingRequests[k] else ClosingRequest(0, 0)
    }

    function WithdrawnAt(k: Key): uint192
      reads this
    {
      if k in withdrawnBalances then withdrawnBalances[k] else 0
    }

    method Emit(chain: seq<Block>, e: Event)
      modifies this`log
      ensures State(chain) == old(State(chain)).Emit(e)
    {
      log := log + [LogEntry(|chain|, e)];
    }

    method CreateChannelPrivate(chain: seq<Block>, sender: Address, receiver: Address, deposit: uint192)
      returns (ok: bool)
      requires Valid()
      modifies this`channels, this`log
      ensures Outcome(ok, old(State(chain)), State(chain),
                      Escrow.CreatePrivate(p, old(State(chain)), sender, receiver, deposit))
    {
      if deposit > DEPOSIT_LIMIT { return false; }
      var openBlock := |chain| % TWO_32;
      var key := p.keyOf(sender, receiver, openBlock);
      if ChannelAt(key).deposit != 0 { return false; }
      if ChannelAt(key).openBlock != 0 { return false; }
      if ClosingAt(key).settleBlock != 0 { return false; }
      channels := channels[key := Channel(deposit, openBlock)];
      Emit(chain, Created(sender, receiver, deposit));
      return true;
    }

    method UpdateInternalBalanceStructs(chain: seq<Block>, sender: Address, receiver: Address, openBlock: uint32,
                                        added: uint192) returns (ok: bool)
      requires Valid()
      modifies this`channels, this`log
      ensures Outcome(ok, old(State(chain)), State(chain),
                      Escrow.TopUpPrivate(p, old(State(chain)), sender, receiver, openBlock, added))
    {
      if added == 0 || openBlock == 0 { return false; }
      var key := p.keyOf(sender, receiver, openBlock);
      if ChannelAt(key).openBlock == 0 { return false; }
      if ClosingAt(key).settleBlock != 0 { return false; }
      var channel := ChannelAt(key);
      if (channel.deposit + added) % TWO_192 > DEPOSIT_LIMIT { return false; }
      var deposit := (channel.deposit + added) % TWO_192;
      if deposit < added { return false; }
      channels := channels[key := channel.(deposit := deposit)];
      Emit(chain, ToppedUp(sender, receiver, openBlock, added));
      return true;
    }

    /** The transferFrom at the end of a creation or top-up; a failure undoes the caller's changes. */
    method PullDeposit(payer: Address, amount: uint192, savedChannels: map<Key, Channel>, savedLog: seq<LogEntry>)
      returns (ok: bool)
      requires Valid()
      modifies this`channels, this`log, token
      ensures match old(token.State()).TransferFrom(p.token, p.self, payer, p.self, amount)
              case None => !ok && token.State() == old(token.State()) && channels == savedChannels && log == savedLog
              case Some(l) => ok && token.State() == l && channels == old(channels) && log == old(log)
    {
      ok := token.TransferFrom(p.self, payer, p.self, amount);
      if !ok {
        channels, log := savedChannels, savedLog;
      }
    }

    method CreateChannel(chain: seq<Block>, caller: Address, receiver: Address, deposit: uint192) returns (ok: bool)
      requires Valid()
      modifies this, token
      ensures Outcome(ok, old(State(chain)), State(chain),
                      Escrow.CreateChannel(p, old(State(chain)), caller, receiver, deposit))
    {
      var savedChannels, savedLog := channels, log;
      ok := CreateChannelPrivate(chain, caller, receiver, deposit);
      if ok { ok := PullDeposit(caller, deposit, savedChannels, savedLog); }
    }

    method CreateChannelDelegate(chain: seq<Block>, caller: Address, sender: Address, receiver: Address,
                                 deposit: uint192)
      returns (ok: bool)
      requires Valid()
      modifies this, token
      ensures Outcome(ok, old(State(chain)), State(chain),
                      Escrow.CreateChannelDelegate(p, old(State(chain)), caller, sender, receiver, deposit))
    {
      if caller !in trustedContracts { return false; }
      var savedChannels, savedLog := channels, log;
      ok := CreateChannelPrivate(chain, sender, receiver, deposit);
      if ok { ok := PullDeposit(caller, deposit, savedChannels, savedLog); }
    }

    method TopUp(chain: seq<Block>, caller: Address, receiver: Address, openBlock: uint32, added: uint192)
      returns (ok: bool)
      requires Valid()
      modifies this, token
      ensures Outcome(ok, old(State(chain)), State(chain),
                      Escrow.TopUp(p, old(State(chain)), caller, receiver, openBlock, added))
    {
      var savedChannels, savedLog := channels, log;
      ok := UpdateInternalBalanceStructs(chain, caller, receiver, openBlock, added);
      if ok { ok := PullDeposit(caller, added, savedChannels, savedLog); }
    }

    method TopUpDelegate(chain: seq<Block>, caller: Address, sender: Address, receiver: Address, openBlock: uint32,
                         added: uint192) returns (ok: bool)
      requires Valid()
      modifies this, token
      ensures Outcome(ok, old(State(chain)), State(chain),
                      Escrow.TopUpDelegate(p, old(State(chain)), caller, sender, receiver, openBlock, added))
    {
      if caller !in trustedContracts { return false; }
      var savedChannels, savedLog := channels, log;
      ok := UpdateInternalBalanceStructs(chain, sender, receiver, openBlock, added);
      if ok { ok := PullDeposit(caller, added, savedChannels, savedLog); }
    }

    method TokenFallback(chain: seq<Block>, from: Address, amount: uint256, data: Bytes) returns (ok: bool)
      requires Valid()
      modifies this`channels, this`log
      ensures Outcome(ok, old(State(chain)), State(chain),
                      Escrow.TokenFallback(p, old(State(chain)), from, amount, data))
    {
      if amount >= TWO_192 { return false; }
      if |data| != 40 && |data| != 44 { return false; }
      var sender := AddressFromBytes(data, 0x20);
      if from != sender && from !in trustedContracts { return false; }
      var receiver := AddressFromBytes(data, 0x34);
      if |data| == 40 {
        ok := CreateChannelPrivate(chain, sender, receiver, amount);
      } else {
        var openBlock := BlockNumberFromBytes(data, 0x48);
        ok := UpdateInternalBalanceStructs(chain, sender, receiver, openBlock, amount);
      }
    }

    method Withdraw(chain: seq<Block>, caller: Address, openBlock: uint32, balance: uint192, proof: Signature)
      returns (ok: bool)
      requires Valid()
      modifies this, token
      ensures Outcome(ok, old(State(chain)), State(chain),
                      Escrow.Withdraw(p, old(State(chain)), caller, openBlock, balance, proof))
    {
      if balance == 0 { return false; }
      var signer := EcVerify(p, BalanceProof(caller, openBlock, balance, p.self), proof);
      if signer.None? { return false; }
      var key := p.keyOf(signer.value, caller, openBlock);
      if ChannelAt(key).openBlock == 0 { return false; }
      if ClosingAt(key).settleBlock != 0 { return false; }
      if balance > ChannelAt(key).deposit { return false; }
      var before := WithdrawnAt(key);
      if before >= balance { return false; }
      var remaining := balance - before;
      var saved := withdrawnBalances;
      withdrawnBalances := withdrawnBalances[key := balance];
      ok := token.Transfer(p.self, caller, remaining);
      if !ok {
        withdrawnBalances := saved;
        return false;
      }
      Emit(chain, Withdrawn(signer.value, caller, openBlock, remaining));
    }

    method PayBoth(receiver: Address, owed: nat, sender: Address, rest: nat) returns (ok: bool)
      requires Valid()
      modifies token
      ensures match Escrow.PayBoth(p, old(token.State()), receiver, owed, sender, rest)
              case None => !ok && token.State() == old(token.State())
              case Some(l) => ok && token.State() == l
    {
      var saved := token.balances;
      ok := token.Transfer(p.self, receiver, owed);
      if !ok { return false; }
      ok := token.Transfer(p.self, sender, rest);
      if !ok { token.balances := saved; }
    }

    /** State changes come before the transfers. */
    method ForgetAndPay(chain: seq<Block>, key: Key, receiver: Address, owed: nat, sender: Address, rest: nat)
      returns (ok: bool)
      requires Valid()
      modifies this, token
      ensures Outcome(ok, old(State(chain)), State(chain),
                      Escrow.ForgetAndPay(p, old(State(chain)), key, receiver, owed, sender, rest))
    {
      var savedChannels, savedClosing := channels, closingRequests;
      channels, closingRequests := channels - {key}, closingRequests - {key};
      ok := PayBoth(receiver, owed, sender, rest);
      if !ok {
        channels, closingRequests := savedChannels, savedClosing;
      }
    }

    method SettleChannel(chain: seq<Block>, sender: Address, receiver: Address, openBlock: uint32, balance: uint192)
      returns (ok: bool)
      requires Valid()
      modifies this, token
      ensures Outcome(ok, old(State(chain)), State(chain),
                      Escrow.SettleChannel(p, old(State(chain)), sender, receiver, openBlock, balance))
    {
      var key := p.keyOf(sender, receiver, openBlock);
      var channel, before := ReadChannel(chain, key);
      if channel.openBlock == 0 || balance > channel.deposit || before > balance { return false; }
      ghost var spec := Escrow.SettleChannel(p, State(chain), sender, receiver, openBlock, balance);
      ok := PayKnown(chain, key, balance - before, channel.deposit - balance,
                     Settled(sender, receiver, openBlock, balance, balance - before), spec);
    }

    /** The second half of settleChannel, for an outcome already known. */
    method PayKnown(chain: seq<Block>, key: Key, owed: nat, rest: nat, e: Event, ghost spec: Option<World>)
      returns (ok: bool)
      requires Valid() && e.Settled? && spec == Escrow.PayAndLog(p, State(chain), key, owed, rest, e)
      modifies this, token
      ensures Outcome(ok, old(State(chain)), State(chain), spec)
    {
      ok := PayAndLog(chain, key, owed, rest, e);
    }

    method ReadChannel(chain: seq<Block>, key: Key) returns (channel: Channel, before: uint192)
      ensures channel == State(chain).escrow.ChannelAt(key) && before == State(chain).escrow.WithdrawnAt(key)
    {
      channel, before := ChannelAt(key), WithdrawnAt(key);
    }

    /** The second half of settleChannel. */
    method PayAndLog(chain: seq<Block>, key: Key, owed: nat, rest: nat, e: Event) returns (ok: bool)
      requires Valid() && e.Settled?
      modifies this, token
      ensures Outcome(ok, old(State(chain)), State(chain), Escrow.PayAndLog(p, old(State(chain)), key, owed, rest, e))
    {
      ok := ForgetAndPay(chain, key, e.receiver, owed, e.sender, rest);
      if ok {
        Emit(chain, e);
      }
    }

    method CooperativeClose(chain: seq<Block>, receiver: Address, openBlock: uint32, balance: uint192,
                            proof: Signature, agreement: Signature) returns (ok: bool)
      requires Valid()
      modifies this, token
      ensures Outcome(ok, old(State(chain)), State(chain),
                      Escrow.CooperativeClose(p, old(State(chain)), receiver, openBlock, balance, proof, agreement))
    {
      var sender := EcVerify(p, BalanceProof(receiver, openBlock, balance, p.self), proof);
      if sender.None? { return false; }
      var signer := EcVerify(p, ClosingAgreement(sender.value, openBlock, balance, p.self), agreement);
      if signer.None? || signer.value != receiver { return false; }
      ok := SettleChannel(chain, sender.value, signer.value, openBlock, balance);
    }

    method UncooperativeClose(chain: seq<Block>, caller: Address, receiver: Address, openBlock: uint32,
                              balance: uint192)
      returns (ok: bool)
      requires Valid()
      modifies this
      ensures Outcome(ok, old(State(chain)), State(chain),
                      Escrow.UncooperativeClose(p, old(State(chain)), caller, receiver, openBlock, balance))
    {
      var key := p.keyOf(caller, receiver, openBlock);
      if ChannelAt(key).openBlock == 0 { return false; }
      if ClosingAt(key).settleBlock != 0 { return false; }
      if balance > ChannelAt(key).deposit { return false; }
      var settleBlock := (|chain| % TWO_32 + p.challengePeriod) % TWO_32;
      if settleBlock <= |chain| { return false; }
      closingRequests := closingRequests[key := ClosingRequest(balance, settleBlock)];
      Emit(chain, CloseRequested(caller, receiver, openBlock, balance));
      return true;
    }

    method Settle(chain: seq<Block>, caller: Address, receiver: Address, openBlock: uint32, reference: seq<Bytes>)
      returns (ok: bool)
      requires Valid()
      modifies this, token, congestionValidator
      ensures Outcome(ok, old(State(chain)), State(chain),
                      Escrow.Settle(p, old(State(chain)), caller, receiver, openBlock, reference))
    {
      var key := p.keyOf(caller, receiver, openBlock);
      var request := ClosingAt(key);
      if request.settleBlock == 0 { return false; }
      if |chain| <= request.settleBlock { return false; }
      var minBlock := (request.settleBlock - p.challengePeriod) % TWO_32;
      var saved := congestionValidator.reportedBlocks;
      var counted, count := congestionValidator.NumBlocksUncongested(chain, reference, p.minFreeGas, minBlock);
      if !counted { return false; }
      if count < p.minUncongested {
        congestionValidator.reportedBlocks := saved;
        return false;
      }
      ok := SettleChannel(chain, caller, receiver, openBlock, request.balance);
      if !ok { congestionValidator.reportedBlocks := saved; }
    }

    method AddTrustedContracts(chain: seq<Block>, caller: Address, contracts: seq<Address>) returns (ok: bool)
      requires Valid()
      modifies this`trustedContracts, this`notices
      ensures Outcome(ok, old(State(chain)), State(chain), Escrow.AddTrusted(p, old(State(chain)), caller, contracts))
    {
      if caller != p.owner { return false; }
      var i := 0;
      while i < |contracts|
        invariant 0 <= i <= |contracts|
        invariant trustedContracts == old(trustedContracts) + set a | a in contracts[..i] && p.hasCode(a)
        invariant notices == old(notices) + AddedNotices(p, contracts[..i], |chain|)
      {
        assert contracts[..i + 1][..i] == contracts[..i];
        if p.hasCode(contracts[i]) {
          trustedContracts := trustedContracts + {contracts[i]};
          notices := notices + [TrustedContract(|chain|, contracts[i], true)];
        }
        i := i + 1;
      }
      assert contracts[..i] == contracts;
      return true;
    }

    method RemoveTrustedContracts(chain: seq<Block>, caller: Address, contracts: seq<Address>) returns (ok: bool)
      requires Valid()
      modifies this`trustedContracts, this`notices
      ensures Outcome(ok, old(State(chain)), State(chain),
                      Escrow.RemoveTrusted(p, old(State(chain)), caller, contracts))
    {
      if caller != p.owner { return false; }
      var i := 0;
      while i < |contracts|
        invariant 0 <= i <= |contracts|
        invariant trustedContracts == old(trustedContracts) - set a | a in contracts[..i]
        invariant notices == old(notices) + RemovedNotices(old(trustedContracts), contracts[..i], |chain|)
      {
        assert contracts[..i + 1][..i] == contracts[..i];
        if contracts[i] in trustedContracts {
          trustedContracts := trustedContracts - {contracts[i]};
          notices := notices + [TrustedContract(|chain|, contracts[i], false)];
        }
        i := i + 1;
      }
      assert contracts[..i] == contracts;
      return true;
    }
  }
}
