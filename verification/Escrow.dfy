/**
 The escrow contract as a transition system. Every external function is one step that commits or reverts;
 the token ledger, the validator's cache, the mined chain and the event log are part of the state.
 */
module Escrow {
  import opened Prelude
  import opened Encoding
  import opened Token
  import opened Congestion

  type Key = nat

  datatype Channel = Channel(deposit: uint192, openBlock: uint32)

  datatype ClosingRequest = ClosingRequest(balance: uint192, settleBlock: uint32)

  datatype Storage = Storage(
    channels: map<Key, Channel>,
    closing: map<Key, ClosingRequest>,
    withdrawn: map<Key, uint192>,
    trusted: set<Address>)
  {
    // Solidity reads an unwritten slot as zero.

    function ChannelAt(k: Key): Channel {
      if k in channels then channels[k] else Channel(0, 0)
    }

    function ClosingAt(k: Key): ClosingRequest {
      if k in closing then closing[k] else ClosingRequest(0, 0)
    }

    function WithdrawnAt(k: Key): uint192 {
      if k in withdrawn then withdrawn[k] else 0
    }
  }

  datatype Event =
    | Created(sender: Address, receiver: Address, deposit: uint192)
    | ToppedUp(sender: Address, receiver: Address, openBlock: uint32, added: uint192)
    | CloseRequested(sender: Address, receiver: Address, openBlock: uint32, balance: uint192)
    | Settled(sender: Address, receiver: Address, openBlock: uint32, balance: uint192, receiverTokens: uint192)
    | Withdrawn(sender: Address, receiver: Address, openBlock: uint32, amount: uint192)

  datatype LogEntry = LogEntry(blockNumber: nat, event: Event)

  // ---------------------------------------------------------------- signatures

  /** The two messages of the protocol; taking one for the other would take a collision of the hash (see Encoding). */
  datatype Message =
    | BalanceProof(receiver: Address, openBlock: nat, balance: nat, escrow: Address)
    | ClosingAgreement(sender: Address, openBlock: nat, balance: nat, escrow: Address)

  /** A 65-byte signature: 64 bytes r and s, and the recovery byte v. */
  datatype Signature = Signature(rs: nat, v: Byte)

  /** Everything fixed at deployment, and the cryptographic primitives. */
  datatype Params = Params(
    self: Address,
    token: Address,
    owner: Address,
    challengePeriod: uint32,
    minUncongested: nat,
    minFreeGas: nat,
    codec: Codec,
    keyOf: (Address, Address, nat) -> Key,
    ecrecover: (Message, nat, nat) -> Address,
    hasCode: Address -> bool)

  predicate ParamsOk(p: Params) {
    p.challengePeriod >= 5 && p.self != 0 && p.self != p.token
  }

  /** ECVerify.ecverify; None is a revert. */
  function EcVerify(p: Params, m: Message, sig: Signature): Option<Address> {
    var v := if sig.v < 27 then sig.v + 27 else sig.v;
    if v != 27 && v != 28 then None
    else
      var signer := p.ecrecover(m, sig.rs, v - 27);
      if signer == 0 then None else Some(signer)
  }

  // ---------------------------------------------------------------- state

  /** The TrustedContract events; they concern no channel and are kept apart from the log. */
  datatype TrustNotice = TrustedContract(blockNumber: nat, contract: Address, status: bool)

  datatype World = World(
    escrow: Storage,
    token: Ledger,
    cache: Cache,
    chain: seq<Block>,
    log: seq<LogEntry>,
    notices: seq<TrustNotice>)
  {

    /** block.number of the block being executed. */
    function BlockNumber(): nat {
      |chain|
    }

    function Emit(e: Event): World {
      this.(log := log + [LogEntry(|chain|, e)])
    }
  }

  const DEPOSIT_LIMIT: nat := 100_000_000_000_000_000_000

  // ---------------------------------------------------------------- opening and topping up

  function CreatePrivate(p: Params, w: World, sender: Address, receiver: Address, deposit: uint192): Option<World> {
    var openBlock := w.BlockNumber() % TWO_32;
    var key := p.keyOf(sender, receiver, openBlock);
    if deposit > DEPOSIT_LIMIT then None
    else if w.escrow.ChannelAt(key) != Channel(0, 0) || w.escrow.ClosingAt(key).settleBlock != 0 then None
    else
      Some(w.(escrow := w.escrow.(channels := w.escrow.channels[key := Channel(deposit, openBlock)]))
            .Emit(Created(sender, receiver, deposit)))
  }

  /** updateInternalBalanceStructs, with the uint192 additions of the original. */
  function TopUpPrivate(p: Params, w: World, sender: Address, receiver: Address, openBlock: uint32, added: uint192)
    : Option<World>
  {
    var key := p.keyOf(sender, receiver, openBlock);
    var channel := w.escrow.ChannelAt(key);
    var sum := (channel.deposit + added) % TWO_192;
    if added == 0 || openBlock == 0 || channel.openBlock == 0 || w.escrow.ClosingAt(key).settleBlock != 0 then None
    else if sum > DEPOSIT_LIMIT then None
    else if sum < added then None
    else
      Some(w.(escrow := w.escrow.(channels := w.escrow.channels[key := channel.(deposit := sum)]))
            .Emit(ToppedUp(sender, receiver, openBlock, added)))
  }

  /** The transferFrom that pays for a creation or a top-up. */
  function PullDeposit(p: Params, w: Option<World>, payer: Address, amount: uint192): Option<World> {
    match w
    case None => None
    case Some(v) =>
      match v.token.TransferFrom(p.token, p.self, payer, p.self, amount)
      case None => None
      case Some(l) => Some(v.(token := l))
  }

  function CreateChannel(p: Params, w: World, caller: Address, receiver: Address, deposit: uint192): Option<World> {
    PullDeposit(p, CreatePrivate(p, w, caller, receiver, deposit), caller, deposit)
  }

  function CreateChannelDelegate(p: Params, w: World, caller: Address, sender: Address, receiver: Address,
                                 deposit: uint192)
    : Option<World>
  {
    if caller !in w.escrow.trusted then None
    else PullDeposit(p, CreatePrivate(p, w, sender, receiver, deposit), caller, deposit)
  }

  function TopUp(p: Params, w: World, caller: Address, receiver: Address, openBlock: uint32, added: uint192)
    : Option<World>
  {
    PullDeposit(p, TopUpPrivate(p, w, caller, receiver, openBlock, added), caller, added)
  }

  function TopUpDelegate(p: Params, w: World, caller: Address, sender: Address, receiver: Address, openBlock: uint32,
                         added: uint192): Option<World>
  {
    if caller !in w.escrow.trusted then None
    else PullDeposit(p, TopUpPrivate(p, w, sender, receiver, openBlock, added), caller, added)
  }

  /** tokenFallback, called by the token once it has credited the escrow. */
  function TokenFallback(p: Params, w: World, from: Address, amount: uint256, data: Bytes): Option<World> {
    if amount >= TWO_192 then None
    else
      match DecodePayload(data)
      case None => None
      case Some(r) =>
        if from != r.sender && from !in w.escrow.trusted then None
        else
          match r
          case OpenRequest(s, v) => CreatePrivate(p, w, s, v, amount)
          case TopUpRequest(s, v, b) => TopUpPrivate(p, w, s, v, b, amount)
  }

  /** The EIP-223 transfer with data to the escrow. */
  function TransferWithData(p: Params, w: World, caller: Address, amount: uint256, data: Bytes): Option<World> {
    match w.token.Transfer(p.token, caller, p.self, amount)
    case None => None
    case Some(l) => TokenFallback(p, w.(token := l), caller, amount, data)
  }

  // ---------------------------------------------------------------- paying out

  function Withdraw(p: Params, w: World, caller: Address, openBlock: uint32, balance: uint192, proof: Signature)
    : Option<World>
  {
    match EcVerify(p, BalanceProof(caller, openBlock, balance, p.self), proof)
    case None => None
    case Some(sender) =>
      var key := p.keyOf(sender, caller, openBlock);
      var before := w.escrow.WithdrawnAt(key);
      if balance == 0 || w.escrow.ChannelAt(key).openBlock == 0 || w.escrow.ClosingAt(key).settleBlock != 0 then None
      else if balance > w.escrow.ChannelAt(key).deposit || before >= balance then None
      else
        match w.token.Transfer(p.token, p.self, caller, balance - before)
        case None => None
        case Some(l) =>
          Some(w.(escrow := w.escrow.(withdrawn := w.escrow.withdrawn[key := balance]), token := l)
                .Emit(Withdrawn(sender, caller, openBlock, balance - before)))
  }

  /** The two transfers of a settlement: what the receiver is still owed, then the sender's remainder. */
  function PayBoth(p: Params, l: Ledger, receiver: Address, owed: nat, sender: Address, rest: nat): Option<Ledger> {
    match l.Transfer(p.token, p.self, receiver, owed)
    case None => None
    case Some(l') => l'.Transfer(p.token, p.self, sender, rest)
  }

  /** Deleting a channel and its closing request, and paying out. */
  function ForgetAndPay(p: Params, w: World, key: Key, receiver: Address, owed: nat, sender: Address, rest: nat)
    : Option<World>
  {
    match PayBoth(p, w.token, receiver, owed, sender, rest)
    case None => None
    case Some(l) =>
      Some(w.(escrow := w.escrow.(channels := w.escrow.channels - {key}, closing := w.escrow.closing - {key}),
              token := l))
  }

  function PayAndLog(p: Params, w: World, key: Key, owed: nat, rest: nat, e: Event): Option<World>
    requires e.Settled?
  {
    match ForgetAndPay(p, w, key, e.receiver, owed, e.sender, rest)
    case None => None
    case Some(v) => Some(v.Emit(e))
  }

  function SettleChannel(p: Params, w: World, sender: Address, receiver: Address, openBlock: uint32, balance: uint192)
    : Option<World>
  {
    var key := p.keyOf(sender, receiver, openBlock);
    var channel := w.escrow.ChannelAt(key);
    var before := w.escrow.WithdrawnAt(key);
    if channel.openBlock == 0 || balance > channel.deposit || before > balance then None
    else
      PayAndLog(p, w, key, balance - before, channel.deposit - balance,
                Settled(sender, receiver, openBlock, balance, balance - before))
  }

  function CooperativeClose(p: Params, w: World, receiver: Address, openBlock: uint32, balance: uint192,
                            proof: Signature, agreement: Signature): Option<World>
  {
    match EcVerify(p, BalanceProof(receiver, openBlock, balance, p.self), proof)
    case None => None
    case Some(sender) =>
      match EcVerify(p, ClosingAgreement(sender, openBlock, balance, p.self), agreement)
      case None => None
      case Some(signer) =>
        if signer != receiver then None else SettleChannel(p, w, sender, signer, openBlock, balance)
  }

  function UncooperativeClose(p: Params, w: World, caller: Address, receiver: Address, openBlock: uint32,
                              balance: uint192)
    : Option<World>
  {
    var key := p.keyOf(caller, receiver, openBlock);
    var settleBlock := (w.BlockNumber() % TWO_32 + p.challengePeriod) % TWO_32;
    if w.escrow.ChannelAt(key).openBlock == 0 || w.escrow.ClosingAt(key).settleBlock != 0 then None
    else if balance > w.escrow.ChannelAt(key).deposit then None
    else if settleBlock <= w.BlockNumber() then None
    else
      Some(w.(escrow := w.escrow.(closing := w.escrow.closing[key := ClosingRequest(balance, settleBlock)]))
            .Emit(CloseRequested(caller, receiver, openBlock, balance)))
  }

  function Settle(p: Params, w: World, caller: Address, receiver: Address, openBlock: uint32, reference: seq<Bytes>)
    : Option<World>
  {
    var key := p.keyOf(caller, receiver, openBlock);
    var request := w.escrow.ClosingAt(key);
    if request.settleBlock == 0 || w.BlockNumber() <= request.settleBlock then None
    else
      var minBlock := (request.settleBlock - p.challengePeriod) % TWO_32;
      match Uncongested(p.codec, w.chain, w.cache, reference, p.minFreeGas, minBlock)
      case None => None
      case Some((count, cache)) =>
        if count < p.minUncongested then None
        else SettleChannel(p, w.(cache := cache), caller, receiver, openBlock, request.balance)
  }

  // ---------------------------------------------------------------- steps and runs

  datatype Action =
    | DoCreate(caller: Address, receiver: Address, deposit: uint192)
    | DoCreateDelegate(caller: Address, sender: Address, receiver: Address, deposit: uint192)
    | DoTopUp(caller: Address, receiver: Address, openBlock: uint32, added: uint192)
    | DoTopUpDelegate(caller: Address, sender: Address, receiver: Address, openBlock: uint32, added: uint192)
    | DoTransferWithData(caller: Address, amount: uint256, data: Bytes)
    | DoWithdraw(caller: Address, openBlock: uint32, balance: uint192, proof: Signature)
    | DoCooperativeClose(caller: Address, receiver: Address, openBlock: uint32, balance: uint192,
                         proof: Signature, agreement: Signature)
    | DoUncooperativeClose(caller: Address, receiver: Address, openBlock: uint32, balance: uint192)
    | DoSettle(caller: Address, receiver: Address, openBlock: uint32, reference: seq<Bytes>)
    | DoAddTrusted(caller: Address, contracts: seq<Address>)
    | DoRemoveTrusted(caller: Address, contracts: seq<Address>)
    | DoReport(caller: Address, reference: seq<Bytes>, minGasFree: nat, minBlock: nat)
    | DoTokenTransfer(caller: Address, to: Address, amount: uint256)
    | DoTokenTransferFrom(caller: Address, from: Address, to: Address, amount: uint256)
    | DoTokenApprove(caller: Address, spender: Address, amount: uint256)
    | Mine(block: Block)

  function WithLedger(w: World, l: Option<Ledger>): Option<World> {
    match l
    case None => None
    case Some(ledger) => Some(w.(token := ledger))
  }

  /** One notice for every listed address that holds code. */
  function AddedNotices(p: Params, contracts: seq<Address>, block: nat): seq<TrustNotice> {
    if contracts == [] then []
    else
      var last := contracts[|contracts| - 1];
      AddedNotices(p, contracts[..|contracts| - 1], block) +
      if p.hasCode(last) then [TrustedContract(block, last, true)] else []
  }

  /** One notice for every listed address that is still trusted when its turn comes. */
  function RemovedNotices(trusted: set<Address>, contracts: seq<Address>, block: nat): seq<TrustNotice> {
    if contracts == [] then []
    else
      var front, last := contracts[..|contracts| - 1], contracts[|contracts| - 1];
      RemovedNotices(trusted, front, block) +
      if last in trusted && last !in front then [TrustedContract(block, last, false)] else []
  }

  /** addTrustedContracts keeps only addresses that hold code. */
  function AddTrusted(p: Params, w: World, caller: Address, contracts: seq<Address>): Option<World> {
    if caller != p.owner then None
    else
      Some(w.(escrow := w.escrow.(trusted := w.escrow.trusted + set a | a in contracts && p.hasCode(a)),
              notices := w.notices + AddedNotices(p, contracts, |w.chain|)))
  }

  function RemoveTrusted(p: Params, w: World, caller: Address, contracts: seq<Address>): Option<World> {
    if caller != p.owner then None
    else
      Some(w.(escrow := w.escrow.(trusted := w.escrow.trusted - set a | a in contracts),
              notices := w.notices + RemovedNotices(w.escrow.trusted, contracts, |w.chain|)))
  }

  /** Whom an observer of the notices takes for trusted. */
  function TrustedBy(notices: seq<TrustNotice>): set<Address> {
    if notices == [] then {}
    else
      var last := notices[|notices| - 1];
      var before := TrustedBy(notices[..|notices| - 1]);
      if last.status then before + {last.contract} else before - {last.contract}
  }

  /** One transaction, or one mined block; None is a revert. No transaction originates from the escrow itself. */
  function Perform(p: Params, w: World, a: Action): Option<World> {
    if a.Mine? then
      if WellFormed(p.codec, a.block, |w.chain|) then Some(w.(chain := w.chain + [a.block])) else None
    else if a.caller == p.self then None
    else
      match a
      case DoCreate(c, r, d) => CreateChannel(p, w, c, r, d)
      case DoCreateDelegate(c, s, r, d) => CreateChannelDelegate(p, w, c, s, r, d)
      case DoTopUp(c, r, b, d) => TopUp(p, w, c, r, b, d)
      case DoTopUpDelegate(c, s, r, b, d) => TopUpDelegate(p, w, c, s, r, b, d)
      case DoTransferWithData(c, d, data) => TransferWithData(p, w, c, d, data)
      case DoWithdraw(c, b, x, sig) => Withdraw(p, w, c, b, x, sig)
      case DoCooperativeClose(c, r, b, x, sig, agreement) => CooperativeClose(p, w, r, b, x, sig, agreement)
      case DoUncooperativeClose(c, r, b, x) => UncooperativeClose(p, w, c, r, b, x)
      case DoSettle(c, r, b, reference) => Settle(p, w, c, r, b, reference)
      case DoAddTrusted(c, contracts) => AddTrusted(p, w, c, contracts)
      case DoRemoveTrusted(c, contracts) => RemoveTrusted(p, w, c, contracts)
      case DoReport(c, reference, gas, block) =>
        (match Uncongested(p.codec, w.chain, w.cache, reference, gas, block)
         case None => None
         case Some((_, cache)) => Some(w.(cache := cache)))
      case DoTokenTransfer(c, to, d) => WithLedger(w, w.token.Transfer(p.token, c, to, d))
      case DoTokenTransferFrom(c, from, to, d) => WithLedger(w, w.token.TransferFrom(p.token, c, from, to, d))
      case DoTokenApprove(c, spender, d) => WithLedger(w, w.token.Approve(c, spender, d))
  }

  /** A reverted action leaves the state as it was. */
  function Step(p: Params, w: World, a: Action): World {
    match Perform(p, w, a)
    case None => w
    case Some(w') => w'
  }

  function Exec(p: Params, w: World, run: seq<Action>): World {
    if run == [] then w else Step(p, Exec(p, w, run[..|run| - 1]), run[|run| - 1])
  }

  /** Deployment: no channel yet, some chain, and any distribution of tokens outside the escrow. */
  ghost predicate Initial(p: Params, w: World) {
    && ParamsOk(p)
    && w.escrow.channels == map[] && w.escrow.closing == map[] && w.escrow.withdrawn == map[]
    && w.log == [] && w.cache == map[]
    && w.escrow.trusted == TrustedBy(w.notices)
    && ChainOk(p.codec, w.chain)
    && w.token.Supply() < TWO_256
    && w.token.NobodySpendsFor(p.self)
  }
}
