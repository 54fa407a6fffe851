/**
 What the receiver's channel manager does to its records: event handlers, payments and closing. Handlers are atomic.
 Reading the channels yields copies; writing one back replaces the stored record.
 */
module Handlers {
  import opened Prelude
  import opened Escrow
  import opened Store

  datatype Failure =
    | AssertionError
    | NoOpenChannel
    | InsufficientConfirmations
    | InvalidBalanceProof
    | InvalidBalanceAmount
    | NoBalanceProofReceived
    | MalformedSignature
    | InsufficientBalance

  /** The receiver's identity: the contract it serves, its address, and its signing key. */
  datatype Receiver = Receiver(p: Params, address: Address, sign: Message -> Signature)

  /** A cooperativeClose transaction the manager sends; it carries the manager's own closing agreement. */
  datatype CloseTx = CloseTx(id: Id, balance: nat, proof: Signature, agreement: Signature)

  /** sign_close of crypto.py, with the receiver's key. */
  function Agreement(r: Receiver, id: Id, balance: nat): Signature {
    r.sign(ClosingAgreement(id.sender, id.openBlock, balance, r.p.self))
  }

  // ---------------------------------------------------------------- signatures as the Python code reads them

  /** addr_from_sig: EIP 155 recovery bytes from 35 on, plain ones from 27 on, raw ones below. */
  function RecoveryId(v: Byte): nat {
    if v >= 35 then (v - 35) % 2 else if v >= 27 then v - 27 else v
  }

  /** None where the library rejects the signature. */
  function PyRecover(p: Params, m: Message, sig: Signature): Option<Address> {
    if RecoveryId(sig.v) > 3 then None
    else
      var signer := p.ecrecover(m, sig.rs, RecoveryId(sig.v));
      if signer == 0 then None else Some(signer)
  }

  predicate ContractReadable(sig: Signature) {
    sig.v == 0 || sig.v == 1 || sig.v == 27 || sig.v == 28
  }

  /** Server and contract recover the same signer from a signature exactly when its recovery byte is one of the four
      the contract knows; the server alone also reads others. */
  lemma RecoveryAgrees(p: Params, m: Message, sig: Signature)
    requires PyRecover(p, m, sig).Some?
    ensures EcVerify(p, m, sig) == PyRecover(p, m, sig) <==> ContractReadable(sig)
    ensures EcVerify(p, m, sig).Some? <==> ContractReadable(sig)
  {
  }

  /** The bytes the server reads, and the key it takes them to point at: 0 to 3, 27 to 30, and from 35 on, where odd
      bytes mean the first key and even ones the second. */
  lemma ServerReads(p: Params, m: Message, sig: Signature)
    requires forall rs, id :: p.ecrecover(m, rs, id) != 0
    ensures PyRecover(p, m, sig).Some? <==> sig.v <= 3 || 27 <= sig.v <= 30 || sig.v >= 35
    ensures PyRecover(p, m, sig).Some? ==>
              PyRecover(p, m, sig).value ==
              p.ecrecover(m, sig.rs, if sig.v <= 3 then sig.v else if sig.v <= 30 then sig.v - 27
                                     else if sig.v % 2 == 1 then 0 else 1)
  {
  }

  /** Neither side ever takes the zero address for a signer. */
  lemma NobodySignsAsZero(p: Params, m: Message, sig: Signature)
    ensures PyRecover(p, m, sig) != Some(0) && EcVerify(p, m, sig) != Some(0)
  {
  }

  /** For any signature the server reads with recovery byte 27 or 28, the same signature with the byte of a signed
      transaction, 37 or 38, is accepted as a payment just as well, and cannot be cashed in. */
  lemma UnreadableProof(r: Receiver, m: Records, id: Id, balance: uint192, rs: nat, v: Byte, w: World,
                        agreement: Signature)
    requires id.openBlock < TWO_32 && (v == 27 || v == 28)
    requires RegisterPayment(r, m, id, balance, Signature(rs, v)).Accepted?
    ensures RegisterPayment(r, m, id, balance, Signature(rs, v + 10)).Accepted?
    ensures CooperativeClose(r.p, w, r.address, id.openBlock, balance, Signature(rs, v + 10), agreement) == None
  {
    assert RecoveryId(v + 10) == RecoveryId(v);
  }

  // ---------------------------------------------------------------- handlers as functions

  predicate Confirmed(m: Records, id: Id) {
    id in m && m[id].confirmed
  }

  predicate Unconfirmed(m: Records, id: Id) {
    id in m && !m[id].confirmed
  }

  function NewRecord(deposit: nat, confirmed: bool): Record {
    Record(deposit, 0, None, -1, OPEN, confirmed, map[])
  }

  function OnOpened(m: Records, id: Id, deposit: nat): Records {
    if Confirmed(m, id) then m else m[id := NewRecord(deposit, true)]
  }

  function OnUnconfirmedOpened(m: Records, id: Id, deposit: nat): Records {
    if id in m then m else m[id := NewRecord(deposit, false)]
  }

  /** None is a failed assertion. */
  function OnUnconfirmedTopup(m: Records, id: Id, tx: Tx, added: nat): Option<Records> {
    if Confirmed(m, id) then Some(m[id := m[id].(topups := m[id].topups[tx := added])])
    else if Unconfirmed(m, id) then Some(m)
    else None
  }

  /** None is a failed assertion; a closed channel ignores the top-up. */
  function OnTopup(m: Records, id: Id, tx: Tx, added: nat): Option<Records> {
    if !Confirmed(m, id) then None
    else if m[id].IsClosed() then Some(m)
    else Some(m[id := m[id].(deposit := m[id].deposit + added, topups := m[id].topups - {tx})])
  }

  /** None is a failed assertion. */
  function OnSettled(m: Records, id: Id): Option<Records> {
    if id in m then Some(m - {id}) else None
  }

  /** The closing transaction for what is stored of a channel. */
  function TxOf(r: Receiver, m: Records, id: Id): CloseTx
    requires id in m && m[id].lastSignature.Some?
  {
    CloseTx(id, m[id].balance, m[id].lastSignature.value, Agreement(r, id, m[id].balance))
  }

  datatype Effect = Effect(records: Records, sent: Option<CloseTx>, failure: Option<Failure>)

  /** close_channel; funded says whether the receiver's ether pays for the transaction. */
  function CloseChannel(r: Receiver, m: Records, id: Id, funded: bool): Effect {
    if !Confirmed(m, id) then Effect(m, None, None)
    else
      var c := m[id];
      if c.lastSignature.None? then Effect(m, None, Some(NoBalanceProofReceived))
      else if funded then
        Effect(m[id := c.(state := CLOSED)], Some(TxOf(r, m, id)), None)
      else
        Effect(m[id := c.(state := CLOSE_PENDING)], None, Some(InsufficientBalance))
  }

  /** event_channel_close_requested. A dispute that could be sent ends with the copy read at the start. */
  function OnCloseRequested(r: Receiver, m: Records, id: Id, balance: nat, timeout: nat, funded: bool): Effect {
    if !Confirmed(m, id) then Effect(m, None, None)
    else
      var c := m[id];
      if c.balance > balance then
        var e := CloseChannel(r, m, id, funded);
        if e.failure.Some? then e else e.(records := e.records[id := c])
      else
        Effect(m[id := c.(settleTimeout := timeout, state := CLOSED, confirmed := true)], None, None)
  }

  function ForceClose(r: Receiver, m: Records, id: Id, funded: bool): Effect {
    var e := CloseChannel(r, m, id, funded);
    if e.failure == Some(NoBalanceProofReceived) then Effect(m[id := m[id].(state := CLOSED)], None, None) else e
  }

  datatype Verdict = Accepted(records: Records, received: nat) | Rejected(why: Failure)

  /** verify_balance_proof: the failure, or None when the proof is the sender's for an open confirmed channel. */
  function ProofFailure(r: Receiver, m: Records, id: Id, balance: nat, sig: Signature): Option<Failure> {
    if Unconfirmed(m, id) then Some(InsufficientConfirmations)
    else if id !in m || m[id].IsClosed() then Some(NoOpenChannel)
    else
      match PyRecover(r.p, BalanceProof(r.address, id.openBlock, balance, r.p.self), sig)
      case None => Some(MalformedSignature)
      case Some(signer) => if signer != id.sender then Some(InvalidBalanceProof) else None
  }

  function RegisterPayment(r: Receiver, m: Records, id: Id, balance: nat, sig: Signature): Verdict {
    var bad := ProofFailure(r, m, id, balance, sig);
    if bad.Some? then Rejected(bad.value)
    else if balance <= m[id].balance then Rejected(InvalidBalanceAmount)
    else if balance > m[id].deposit then Rejected(InvalidBalanceProof)
    else Accepted(m[id := m[id].(balance := balance, lastSignature := Some(sig))], balance - m[id].balance)
  }

  datatype Closing = Agreed(records: Records, agreement: Signature) | Refused(why: Failure)

  /** sign_close: on success the channel is closed and the agreement for its balance is signed. */
  function SignClose(r: Receiver, m: Records, id: Id, balance: nat): Closing {
    if !Confirmed(m, id) || m[id].IsClosed() then Refused(NoOpenChannel)
    else if m[id].lastSignature.None? then Refused(NoBalanceProofReceived)
    else if balance != m[id].balance then Refused(InvalidBalanceProof)
    else Agreed(m[id := m[id].(state := CLOSED)], Agreement(r, id, balance))
  }

  function ResetUnconfirmed(m: Records): Records {
    map id | id in m && m[id].confirmed :: m[id].(topups := map[])
  }

  /** A pending closing that close_channel can send, ether provided. */
  predicate PendingWithProof(m: Records, id: Id) {
    Confirmed(m, id) && m[id].state == CLOSE_PENDING && m[id].lastSignature.Some?
  }

  /** close_pending_channels after it went through these channels; a failure on the next one changes nothing more. */
  function ClosePending(m: Records, done: set<Id>): Records {
    map id | id in m :: if id in done && PendingWithProof(m, id) then m[id].(state := CLOSED) else m[id]
  }
}
