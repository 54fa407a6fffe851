/**
 The event log as a ledger of channel lives. Folding the log gives the account of a channel; in every reachable
 state the account and the contract's storage tell the same story, which makes conservation a fact about the log.
 */
module Accounts {
  import opened Prelude
  import opened Encoding
  import opened Escrow
  import opened Challenge
  import opened Solvency

  datatype ChannelId = ChannelId(sender: Address, receiver: Address, openBlock: nat)

  function KeyOf(p: Params, id: ChannelId): Key {
    p.keyOf(id.sender, id.receiver, id.openBlock)
  }

  ghost predicate KeysDistinct(p: Params) {
    forall id, jd {:trigger KeyOf(p, id), KeyOf(p, jd)} :: KeyOf(p, id) == KeyOf(p, jd) ==> id == jd
  }

  /** A creation event names no block; readers take the block it was mined in. */
  function EntryId(e: LogEntry): ChannelId {
    match e.event
    case Created(s, r, _) => ChannelId(s, r, e.blockNumber)
    case ToppedUp(s, r, b, _) => ChannelId(s, r, b)
    case CloseRequested(s, r, b, _) => ChannelId(s, r, b)
    case Settled(s, r, b, _, _) => ChannelId(s, r, b)
    case Withdrawn(s, r, b, _) => ChannelId(s, r, b)
  }

  // ---------------------------------------------------------------- the lives of one channel

  /** A live channel: what was deposited since its creation, the withdrawals on record, those already on record when it
      was created, and a pending closing balance. A dead one also keeps the balance it was settled at. */
  datatype Account =
    | Fresh
    | Live(deposited: nat, withdrawn: nat, inherited: nat, closing: Option<nat>)
    | Dead(deposited: nat, balance: nat, withdrawn: nat, inherited: nat)
    | Impossible

  /** The only order of events the contract should ever produce; everything else is Impossible. A key settled and opened
      again in one block starts with the withdrawals still on record. */
  function Advance(a: Account, e: Event): Account {
    match (a, e)
    case (Fresh, Created(_, _, d)) => Live(d, 0, 0, None)
    case (Dead(_, _, x, _), Created(_, _, d)) => Live(d, x, x, None)
    case (Live(d, x, i, c), ToppedUp(_, _, _, added)) => if c.None? then Live(d + added, x, i, None) else Impossible
    case (Live(d, x, i, c), Withdrawn(_, _, _, amount)) =>
      if c.None? && x + amount <= d then Live(d, x + amount, i, None) else Impossible
    case (Live(d, x, i, c), CloseRequested(_, _, _, b)) =>
      if c.None? && b <= d then Live(d, x, i, Some(b)) else Impossible
    case (Live(d, x, i, _), Settled(_, _, _, b, tokens)) =>
      if x + tokens == b <= d then Dead(d, b, x, i) else Impossible
    case _ => Impossible
  }

  function AccountOf(log: seq<LogEntry>, id: ChannelId): Account {
    if log == [] then Fresh
    else
      var last := log[|log| - 1];
      var before := AccountOf(log[..|log| - 1], id);
      if EntryId(last) == id then Advance(before, last.event) else before
  }

  lemma AccountSnoc(log: seq<LogEntry>, e: LogEntry, id: ChannelId)
    ensures AccountOf(log + [e], id) ==
            if EntryId(e) == id then Advance(AccountOf(log, id), e.event) else AccountOf(log, id)
  {
    assert (log + [e])[..|log|] == log;
  }

  /** Storage and account agree about a channel, in whichever of its lives. */
  ghost predicate Agree(p: Params, w: World, id: ChannelId) {
    var key := KeyOf(p, id);
    var s := w.escrow;
    match AccountOf(w.log, id)
    case Fresh => s.ChannelAt(key) == Channel(0, 0) && s.ClosingAt(key).settleBlock == 0 && s.WithdrawnAt(key) == 0
    case Live(d, x, i, c) =>
      && s.ChannelAt(key).deposit == d && s.ChannelAt(key).openBlock == id.openBlock != 0 && s.WithdrawnAt(key) == x
      && (c.None? <==> s.ClosingAt(key).settleBlock == 0) && (c.Some? ==> s.ClosingAt(key).balance == c.value)
    case Dead(_, _, x, _) =>
      s.ChannelAt(key) == Channel(0, 0) && s.ClosingAt(key).settleBlock == 0 && s.WithdrawnAt(key) == x
    case Impossible => false
  }

  /** Block numbers that fit the contract's 32 bits and are not zero, its mark for an absent channel. */
  predicate BlocksInRange(w: World) {
    0 < |w.chain| < TWO_32
  }

  /** Two channels with one key are one channel. */
  predicate Apart(p: Params, id: ChannelId, jd: ChannelId) {
    KeyOf(p, id) == KeyOf(p, jd) ==> id == jd
  }

  lemma OtherChannel(p: Params, w: World, w': World, e: LogEntry, id: ChannelId)
    requires Apart(p, id, EntryId(e)) && Agree(p, w, id) && EntryId(e) != id && w'.log == w.log + [e]
    requires KeyOf(p, id) != KeyOf(p, EntryId(e)) ==> SameSlot(w.escrow, w'.escrow, KeyOf(p, id))
    ensures Agree(p, w', id)
  {
    AccountSnoc(w.log, e, id);
  }

  lemma CreateAgrees(p: Params, w: World, sender: Address, receiver: Address, deposit: uint192, id: ChannelId)
    requires BlocksInRange(w) && Agree(p, w, id)
    requires Apart(p, id, ChannelId(sender, receiver, |w.chain|))
    requires CreatePrivate(p, w, sender, receiver, deposit).Some?
    ensures Agree(p, CreatePrivate(p, w, sender, receiver, deposit).value, id)
  {
    var w' := CreatePrivate(p, w, sender, receiver, deposit).value;
    var e := LogEntry(|w.chain|, Created(sender, receiver, deposit));
    assert KeyOf(p, EntryId(e)) == p.keyOf(sender, receiver, |w.chain|);
    if EntryId(e) == id { AccountSnoc(w.log, e, id); } else { OtherChannel(p, w, w', e, id); }
  }

  lemma TopUpAgrees(p: Params, w: World, sender: Address, receiver: Address, openBlock: uint32, added: uint192,
                    id: ChannelId)
    requires Agree(p, w, id) && Apart(p, id, ChannelId(sender, receiver, openBlock))
    requires TopUpPrivate(p, w, sender, receiver, openBlock, added).Some?
    ensures Agree(p, TopUpPrivate(p, w, sender, receiver, openBlock, added).value, id)
  {
    TopUpStoresTrueSum(p, w, sender, receiver, openBlock, added);
    var w' := TopUpPrivate(p, w, sender, receiver, openBlock, added).value;
    var e := LogEntry(|w.chain|, ToppedUp(sender, receiver, openBlock, added));
    if EntryId(e) == id { AccountSnoc(w.log, e, id); } else { OtherChannel(p, w, w', e, id); }
  }

  lemma WithdrawAgrees(p: Params, w: World, caller: Address, openBlock: uint32, balance: uint192, proof: Signature,
                       id: ChannelId)
    requires Agree(p, w, id)
    requires Withdraw(p, w, caller, openBlock, balance, proof).Some?
    requires Apart(p, id, ChannelId(EcVerify(p, BalanceProof(caller, openBlock, balance, p.self), proof).value,
                                    caller, openBlock))
    ensures Agree(p, Withdraw(p, w, caller, openBlock, balance, proof).value, id)
  {
    var sender := EcVerify(p, BalanceProof(caller, openBlock, balance, p.self), proof).value;
    var before := w.escrow.WithdrawnAt(p.keyOf(sender, caller, openBlock));
    var w' := Withdraw(p, w, caller, openBlock, balance, proof).value;
    var e := LogEntry(|w.chain|, Withdrawn(sender, caller, openBlock, balance - before));
    if EntryId(e) == id { AccountSnoc(w.log, e, id); } else { OtherChannel(p, w, w', e, id); }
  }

  lemma CloseAgrees(p: Params, w: World, caller: Address, receiver: Address, openBlock: uint32, balance: uint192,
                    id: ChannelId)
    requires Agree(p, w, id) && Apart(p, id, ChannelId(caller, receiver, openBlock))
    requires UncooperativeClose(p, w, caller, receiver, openBlock, balance).Some?
    ensures Agree(p, UncooperativeClose(p, w, caller, receiver, openBlock, balance).value, id)
  {
    var w' := UncooperativeClose(p, w, caller, receiver, openBlock, balance).value;
    var e := LogEntry(|w.chain|, CloseRequested(caller, receiver, openBlock, balance));
    if EntryId(e) == id { AccountSnoc(w.log, e, id); } else { OtherChannel(p, w, w', e, id); }
  }

  lemma SettleAgrees(p: Params, w: World, sender: Address, receiver: Address, openBlock: uint32, balance: uint192,
                     id: ChannelId)
    requires Agree(p, w, id) && Apart(p, id, ChannelId(sender, receiver, openBlock))
    requires SettleChannel(p, w, sender, receiver, openBlock, balance).Some?
    ensures Agree(p, SettleChannel(p, w, sender, receiver, openBlock, balance).value, id)
  {
    var before := w.escrow.WithdrawnAt(p.keyOf(sender, receiver, openBlock));
    var w' := SettleChannel(p, w, sender, receiver, openBlock, balance).value;
    var e := LogEntry(|w.chain|, Settled(sender, receiver, openBlock, balance, balance - before));
    if EntryId(e) == id { AccountSnoc(w.log, e, id); } else { OtherChannel(p, w, w', e, id); }
  }

  lemma PayloadAgrees(p: Params, w: World, caller: Address, amount: uint256, data: Bytes, id: ChannelId)
    requires KeysDistinct(p) && BlocksInRange(w) && Agree(p, w, id)
    requires TransferWithData(p, w, caller, amount, data).Some?
    ensures Agree(p, TransferWithData(p, w, caller, amount, data).value, id)
  {
    var v := w.(token := w.token.Transfer(p.token, caller, p.self, amount).value);
    match DecodePayload(data).value
    case OpenRequest(s, r) => CreateAgrees(p, v, s, r, amount, id);
    case TopUpRequest(s, r, b) => TopUpAgrees(p, v, s, r, b, amount, id);
  }

  lemma DepositStepAgrees(p: Params, w: World, a: Action, id: ChannelId)
    requires KeysDistinct(p) && BlocksInRange(w) && Agree(p, w, id) && Perform(p, w, a).Some?
    requires a.DoCreate? || a.DoCreateDelegate? || a.DoTopUp? || a.DoTopUpDelegate? || a.DoTransferWithData?
    ensures Agree(p, Perform(p, w, a).value, id)
  {
    var w' := Perform(p, w, a).value;
    match a
    case DoCreate(c, r, d) =>
      CreateAgrees(p, w, c, r, d, id);
    case DoCreateDelegate(c, s, r, d) =>
      CreateAgrees(p, w, s, r, d, id);
    case DoTopUp(c, r, b, d) =>
      TopUpAgrees(p, w, c, r, b, d, id);
    case DoTopUpDelegate(c, s, r, b, d) =>
      TopUpAgrees(p, w, s, r, b, d, id);
    case DoTransferWithData(c, d, data) => PayloadAgrees(p, w, c, d, data, id);
  }

  lemma SettleStepAgrees(p: Params, w: World, a: Action, id: ChannelId)
    requires KeysDistinct(p) && Agree(p, w, id) && a.DoSettle? && Perform(p, w, a).Some?
    ensures Agree(p, Perform(p, w, a).value, id)
  {
    var v := w.(cache := Perform(p, w, a).value.cache);
    var balance := w.escrow.ClosingAt(p.keyOf(a.caller, a.receiver, a.openBlock)).balance;
    assert Perform(p, w, a) == SettleChannel(p, v, a.caller, a.receiver, a.openBlock, balance);
    SettleAgrees(p, v, a.caller, a.receiver, a.openBlock, balance, id);
  }

  lemma StepAgrees(p: Params, w: World, a: Action, id: ChannelId)
    requires KeysDistinct(p) && BlocksInRange(w) && Agree(p, w, id)
    ensures Agree(p, Step(p, w, a), id)
  {
    if Perform(p, w, a).Some? {
      var w' := Perform(p, w, a).value;
      match a
      case DoCreate(_, _, _) => DepositStepAgrees(p, w, a, id);
      case DoCreateDelegate(_, _, _, _) => DepositStepAgrees(p, w, a, id);
      case DoTopUp(_, _, _, _) => DepositStepAgrees(p, w, a, id);
      case DoTopUpDelegate(_, _, _, _, _) => DepositStepAgrees(p, w, a, id);
      case DoTransferWithData(_, _, _) => DepositStepAgrees(p, w, a, id);
      case DoWithdraw(c, b, x, sig) => WithdrawAgrees(p, w, c, b, x, sig, id);
      case DoCooperativeClose(c, r, b, x, sig, agreement) =>
        SettleAgrees(p, w, EcVerify(p, BalanceProof(r, b, x, p.self), sig).value, r, b, x, id);
      case DoUncooperativeClose(c, r, b, x) => CloseAgrees(p, w, c, r, b, x, id);
      case DoSettle(_, _, _, _) => SettleStepAgrees(p, w, a, id);
      case _ =>
    }
  }

  /** In every reachable state the account of every channel matches the contract's storage; in particular no event
      sequence the contract can emit is Impossible. */
  lemma {:induction false} RunAgrees(p: Params, w: World, run: seq<Action>, id: ChannelId)
    requires KeysDistinct(p) && Initial(p, w) && 0 < |w.chain| && BlocksInRange(Exec(p, w, run))
    ensures Agree(p, Exec(p, w, run), id)
    ensures 0 < |Exec(p, w, run).chain|
  {
    if run != [] {
      var before := Exec(p, w, run[..|run| - 1]);
      ChainGrows(p, before, run[|run| - 1]);
      ExecKeepsBlocks(p, w, run[..|run| - 1]);
      RunAgrees(p, w, run[..|run| - 1], id);
      StepAgrees(p, before, run[|run| - 1], id);
    }
  }

  lemma {:induction false} ExecKeepsBlocks(p: Params, w: World, run: seq<Action>)
    ensures |w.chain| <= |Exec(p, w, run).chain|
  {
    if run != [] {
      ExecKeepsBlocks(p, w, run[..|run| - 1]);
      ChainGrows(p, Exec(p, w, run[..|run| - 1]), run[|run| - 1]);
    }
  }
}
