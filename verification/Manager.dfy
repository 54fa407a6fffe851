/** The channel manager as an object over the store, each method proved against its function in Handlers. */
module Manager {
  import opened Prelude
  import opened Escrow
  import opened Store
  import opened Handlers

  /** The records without their top-ups, except those still to do. */
  function ClearedBut(m: Records, todo: set<Id>): Records {
    map id | id in m :: if id in todo then m[id] else m[id].(topups := map[])
  }

  lemma ClearedButOne(m: Records, todo: set<Id>, id: Id)
    requires id in todo && id in m
    ensures ClearedBut(m, todo)[id := m[id].(topups := map[])] == ClearedBut(m, todo - {id})
  {
  }

  lemma ClearedIsReset(m: Records)
    ensures (map id | id in WithStatus(m, true) :: WithStatus(m, true)[id].(topups := map[])) ==
              Handlers.ResetUnconfirmed(m)
  {
  }

  lemma ClosePendingOne(m: Records, done: set<Id>, id: Id)
    requires id in m && m[id].state == CLOSE_PENDING && (m[id].confirmed ==> m[id].lastSignature.Some?)
    ensures ClosePending(m, done + {id}) ==
            if m[id].confirmed then ClosePending(m, done)[id := m[id].(state := CLOSED)] else ClosePending(m, done)
  {
  }

  /** Exactly one kind of transaction went out for each confirmed one of these channels, and no other. */
  ghost predicate SentFor(r: Receiver, m: Records, done: set<Id>, txs: seq<CloseTx>) {
    && (forall id {:trigger id in done} :: id in done && Confirmed(m, id) ==>
          m[id].lastSignature.Some? && TxOf(r, m, id) in txs)
    && (forall tx {:trigger tx in txs} :: tx in txs ==>
          tx.id in done && Confirmed(m, tx.id) && m[tx.id].lastSignature.Some? && tx == TxOf(r, m, tx.id))
  }

  /** Every confirmed pending closing has its proof, and the receiver can pay for it. */
  ghost predicate Sendable(m: Records, pending: set<Id>, funded: Id -> bool) {
    forall id {:trigger id in pending} :: id in pending && Confirmed(m, id) ==> funded(id) && m[id].lastSignature.Some?
  }

  class ChannelManager {
    const r: Receiver
    const state: ChannelManagerState
    var sent: seq<CloseTx>

    ghost predicate Valid()
      reads state
    {
      state.Valid()
    }

    constructor (r: Receiver, state: ChannelManagerState)
      requires state.Valid()
      ensures Valid() && this.r == r && this.state == state && sent == []
    {
      this.r, this.state, sent := r, state, [];
    }

    /** set_head; ok is false where one of its assertions fails. */
    method SetHead(unconfirmedNumber: nat, unconfirmedHash: nat, confirmedNumber: nat, confirmedHash: nat)
      returns (ok: bool)
      modifies state`confirmedHeadNumber, state`confirmedHeadHash, state`unconfirmedHeadNumber,
               state`unconfirmedHeadHash
      ensures ok <==> 0 < confirmedNumber < unconfirmedNumber
      ensures ok ==>
                && state.unconfirmedHeadNumber == Some(unconfirmedNumber)
                   && state.unconfirmedHeadHash == Some(unconfirmedHash)
                && state.confirmedHeadNumber == Some(confirmedNumber) && state.confirmedHeadHash == Some(confirmedHash)
      ensures !ok ==> unchanged(state)
    {
      if unconfirmedNumber == 0 || confirmedNumber == 0 || confirmedNumber >= unconfirmedNumber { return false; }
      state.UpdateSyncState(Some(confirmedNumber), Some(confirmedHash), Some(unconfirmedNumber), Some(unconfirmedHash));
      return true;
    }

    method EventChannelOpened(id: Id, deposit: nat)
      requires Valid() && id.openBlock > 0
      modifies state`channels, state`topups, state`index, state`records
      ensures Valid() && state.records == OnOpened(old(state.records), id, deposit)
    {
      var channels := state.GetChannels(true);
      if id in channels { return; }
      state.AddChannel(id, NewRecord(deposit, true));
    }

    method UnconfirmedEventChannelOpened(id: Id, deposit: nat)
      requires Valid() && id.openBlock > 0
      modifies state`channels, state`topups, state`index, state`records
      ensures Valid() && state.records == OnUnconfirmedOpened(old(state.records), id, deposit)
    {
      var unconfirmed := state.GetChannels(false);
      var channels := state.GetChannels(true);
      if id in unconfirmed || id in channels { return; }
      state.AddChannel(id, NewRecord(deposit, false));
    }

    method UnconfirmedEventChannelTopup(id: Id, tx: Tx, added: nat) returns (ok: bool)
      requires Valid()
      modifies state`channels, state`topups, state`index, state`records
      ensures Valid()
      ensures match OnUnconfirmedTopup(old(state.records), id, tx, added)
              case None => !ok && state.records == old(state.records)
              case Some(m) => ok && state.records == m
    {
      var channels := state.GetChannels(true);
      if id !in channels {
        var unconfirmed := state.GetChannels(false);
        return id in unconfirmed;
      }
      var c := channels[id];
      c := c.(topups := c.topups[tx := added]);
      state.AddChannel(id, c);
      return true;
    }

    method EventChannelTopup(id: Id, tx: Tx, added: nat) returns (ok: bool)
      requires Valid()
      modifies state`channels, state`topups, state`index, state`records
      ensures Valid()
      ensures match OnTopup(old(state.records), id, tx, added)
              case None => !ok && state.records == old(state.records)
              case Some(m) => ok && state.records == m
    {
      var channels := state.GetChannels(true);
      if id !in channels { return false; }
      var c := channels[id];
      if c.IsClosed() { return true; }
      c := c.(deposit := c.deposit + added);
      c := c.(topups := c.topups - {tx});
      state.AddChannel(id, c);
      return true;
    }

    method EventChannelSettled(id: Id) returns (ok: bool)
      requires Valid()
      modifies state`channels, state`topups, state`index, state`records
      ensures Valid()
      ensures match OnSettled(old(state.records), id)
              case None => !ok && state.records == old(state.records)
              case Some(m) => ok && state.records == m
    {
      ok := state.DelChannel(id);
    }

    method CloseChannel(id: Id, funded: bool) returns (failure: Option<Failure>)
      requires Valid()
      modifies this`sent, state`channels, state`topups, state`index, state`records
      ensures Valid()
      ensures var e := Handlers.CloseChannel(r, old(state.records), id, funded);
              && state.records == e.records && failure == e.failure
              && sent == if e.sent.Some? then old(sent) + [e.sent.value] else old(sent)
    {
      var channels := state.GetChannels(true);
      if id !in channels { return None; }
      var c := channels[id];
      if c.lastSignature.None? { return Some(NoBalanceProofReceived); }
      var closingSig := Agreement(r, id, c.balance);
      var tx := CloseTx(id, c.balance, c.lastSignature.value, closingSig);
      c := c.(state := CLOSED);
      state.AddChannel(id, c);
      if funded {
        sent := sent + [tx];
        return None;
      }
      c := c.(state := CLOSE_PENDING);
      state.AddChannel(id, c);
      return Some(InsufficientBalance);
    }

    method EventChannelCloseRequested(id: Id, balance: nat, timeout: nat, funded: bool)
      returns (failure: Option<Failure>)
      requires Valid()
      modifies this`sent, state`channels, state`topups, state`index, state`records
      ensures Valid()
      ensures var e := OnCloseRequested(r, old(state.records), id, balance, timeout, funded);
              && state.records == e.records && failure == e.failure
              && sent == if e.sent.Some? then old(sent) + [e.sent.value] else old(sent)
    {
      var channels := state.GetChannels(true);
      if id !in channels { return None; }
      var c := channels[id];
      if c.balance > balance {
        failure := CloseChannel(id, funded);
        if failure.Some? { return; }
      } else {
        c := c.(settleTimeout := timeout, state := CLOSED, confirmed := true);
      }
      state.AddChannel(id, c);
      return None;
    }

    method ForceCloseChannel(id: Id, funded: bool) returns (failure: Option<Failure>)
      requires Valid()
      modifies this`sent, state`channels, state`topups, state`index, state`records
      ensures Valid()
      ensures var e := ForceClose(r, old(state.records), id, funded);
              && state.records == e.records && failure == e.failure
              && sent == if e.sent.Some? then old(sent) + [e.sent.value] else old(sent)
    {
      failure := CloseChannel(id, funded);
      if failure == Some(NoBalanceProofReceived) {
        var channels := state.GetChannels(true);
        var c := channels[id];
        c := c.(state := CLOSED);
        state.AddChannel(id, c);
        failure := None;
      }
    }

    /** The agreement is the receiver's signature on the closing message. */
    method SignClose(id: Id, balance: nat) returns (failure: Option<Failure>, agreement: Option<Signature>)
      requires Valid()
      modifies state`channels, state`topups, state`index, state`records
      ensures Valid()
      ensures match Handlers.SignClose(r, old(state.records), id, balance)
              case Refused(why) => failure == Some(why) && agreement == None && state.records == old(state.records)
              case Agreed(m, sig) => failure == None && agreement == Some(sig) && state.records == m
    {
      var channels := state.GetChannels(true);
      if id !in channels { return Some(NoOpenChannel), None; }
      var c := channels[id];
      if c.IsClosed() { return Some(NoOpenChannel), None; }
      if c.lastSignature.None? { return Some(NoBalanceProofReceived), None; }
      if balance != c.balance { return Some(InvalidBalanceProof), None; }
      c := c.(state := CLOSED);
      var receiverSig := Agreement(r, id, c.balance);
      state.AddChannel(id, c);
      return None, Some(receiverSig);
    }

    method VerifyBalanceProof(id: Id, balance: nat, sig: Signature)
      returns (failure: Option<Failure>, channel: Option<Record>)
      requires Valid()
      ensures failure == ProofFailure(r, state.records, id, balance, sig)
      ensures channel == if failure.None? then Some(state.records[id]) else None
    {
      var unconfirmed := state.GetChannels(false);
      if id in unconfirmed { return Some(InsufficientConfirmations), None; }
      var channels := state.GetChannels(true);
      if id !in channels { return Some(NoOpenChannel), None; }
      var c := channels[id];
      if c.IsClosed() { return Some(NoOpenChannel), None; }
      var signer := PyRecover(r.p, BalanceProof(r.address, id.openBlock, balance, r.p.self), sig);
      if signer.None? { return Some(MalformedSignature), None; }
      if signer.value != id.sender { return Some(InvalidBalanceProof), None; }
      return None, Some(c);
    }

    method RegisterPayment(id: Id, balance: nat, sig: Signature) returns (failure: Option<Failure>, received: nat)
      requires Valid()
      modifies state`channels, state`topups, state`index, state`records
      ensures Valid()
      ensures match Handlers.RegisterPayment(r, old(state.records), id, balance, sig)
              case Rejected(why) => failure == Some(why) && state.records == old(state.records)
              case Accepted(m, amount) => failure == None && received == amount && state.records == m
    {
      var bad, channel := VerifyBalanceProof(id, balance, sig);
      if bad.Some? { return bad, 0; }
      var c := channel.value;
      if balance <= c.balance { return Some(InvalidBalanceAmount), 0; }
      if balance > c.deposit { return Some(InvalidBalanceProof), 0; }
      received := balance - c.balance;
      c := c.(balance := balance, lastSignature := Some(sig));
      state.AddChannel(id, c);
      failure := None;
    }

    /** The loop over the confirmed channels, each rewritten without its unconfirmed top-ups. */
    method ClearTopups()
      requires Valid() && forall id :: id in state.records ==> state.records[id].confirmed
      modifies state`channels, state`topups, state`index, state`records
      ensures Valid()
      ensures state.records == map id | id in old(state.records) :: old(state.records)[id].(topups := map[])
    {
      var channels := state.GetChannels(true);
      assert channels == state.records == ClearedBut(channels, channels.Keys);
      var todo := channels.Keys;
      while todo != {}
        invariant Valid() && todo <= channels.Keys
        invariant state.records == ClearedBut(channels, todo)
      {
        var id :| id in todo;
        ClearedButOne(channels, todo, id);
        var channel := channels[id].(topups := map[]);
        state.AddChannel(id, channel);
        todo := todo - {id};
      }
    }

    /** The body of the loop over pending channels. A failure leaves everything as it was. */
    method ClosePendingChannel(id: Id, funded: bool, ghost m: Records, ghost done: set<Id>)
      returns (failure: Option<Failure>)
      requires Valid() && id in m && m[id].state == CLOSE_PENDING && id !in done
      requires state.records == ClosePending(m, done)
      modifies this`sent, state`channels, state`topups, state`index, state`records
      ensures Valid()
      ensures failure == None <==> (Confirmed(m, id) ==> funded && m[id].lastSignature.Some?)
      ensures failure != None ==> state.records == old(state.records) && sent == old(sent)
      ensures failure == None ==>
                && state.records == ClosePending(m, done + {id})
                && sent == old(sent) + if m[id].confirmed then [TxOf(r, m, id)] else []
    {
      failure := CloseChannel(id, funded);
      if failure == None {
        ClosePendingOne(m, done, id);
      } else {
        assert state.records == ClosePending(m, done);
      }
    }

    /** close_pending_channels. It stops at the first closing transaction that cannot be sent; those before it are out,
        and their records closed. */
    method ClosePendingChannels(funded: Id -> bool)
      returns (failure: Option<Failure>, ghost done: set<Id>, ghost txs: seq<CloseTx>)
      requires Valid()
      modifies this`sent, state`channels, state`topups, state`index, state`records
      ensures Valid() && done <= PendingIds(old(state.records))
      ensures state.records == ClosePending(old(state.records), done)
      ensures sent == old(sent) + txs && SentFor(r, old(state.records), done, txs)
      ensures failure == None ==> done == PendingIds(old(state.records))
      ensures failure == None <==> Sendable(old(state.records), PendingIds(old(state.records)), funded)
    {
      ghost var m := state.records;
      var pending := state.GetPending();
      failure, done, txs := CloseEach(pending, funded, m);
    }

    /** The loop over pending channels. */
    method CloseEach(pending: set<Id>, funded: Id -> bool, ghost m: Records)
      returns (failure: Option<Failure>, ghost done: set<Id>, ghost txs: seq<CloseTx>)
      requires Valid() && pending == PendingIds(m) && state.records == ClosePending(m, {})
      modifies this`sent, state`channels, state`topups, state`index, state`records
      ensures Valid() && done <= pending && state.records == ClosePending(m, done)
      ensures sent == old(sent) + txs && SentFor(r, m, done, txs)
      ensures failure == None ==> done == pending
      ensures failure == None <==> Sendable(m, pending, funded)
    {
      var todo := pending;
      failure, done, txs := None, {}, [];
      while todo != {}
        invariant Valid() && todo <= pending && done == pending - todo
        invariant state.records == ClosePending(m, done)
        invariant sent == old(sent) + txs && SentFor(r, m, done, txs)
        invariant failure == None && Sendable(m, done, funded)
      {
        var id :| id in todo;
        assert id in PendingIds(m);
        failure := ClosePendingChannel(id, funded(id), m, done);
        if failure.Some? { return; }
        txs := txs + if m[id].confirmed then [TxOf(r, m, id)] else [];
        todo, done := todo - {id}, done + {id};
      }
      assert done == pending;
    }

    /** The unconfirmed head is moved back to the confirmed one. */
    method ResetUnconfirmed()
      requires Valid()
      modifies state
      ensures Valid() && state.records == Handlers.ResetUnconfirmed(old(state.records))
      ensures state.confirmedHeadNumber == old(state.confirmedHeadNumber)
      ensures state.unconfirmedHeadNumber ==
              if state.confirmedHeadNumber.Some? then state.confirmedHeadNumber else old(state.unconfirmedHeadNumber)
      ensures state.confirmedHeadHash == old(state.confirmedHeadHash)
      ensures state.unconfirmedHeadHash ==
              if state.confirmedHeadHash.Some? then state.confirmedHeadHash else old(state.unconfirmedHeadHash)
    {
      ClearedIsReset(state.records);
      state.DelUnconfirmedChannels();
      ClearTopups();
      state.UpdateSyncState(None, None, state.confirmedHeadNumber, None);
      state.UpdateSyncState(None, None, None, state.confirmedHeadHash);
    }
  }
}
