/** What holds of the receiver's records over every interleaving of handlers and payments. */
module RecordInvariants {
  import opened Prelude
  import opened Escrow
  import opened Store
  import opened Handlers

  /** One atomic call on the manager. Closing what is pending names the channels it went through before it ended or
      failed. */
  datatype Op =
    | OpOpened(id: Id, deposit: nat)
    | OpUnconfirmedOpened(id: Id, deposit: nat)
    | OpUnconfirmedTopup(id: Id, tx: Tx, added: nat)
    | OpTopup(id: Id, tx: Tx, added: nat)
    | OpSettled(id: Id)
    | OpCloseRequested(id: Id, balance: nat, timeout: nat, funded: bool)
    | OpForceClose(id: Id, funded: bool)
    | OpPay(id: Id, balance: nat, sig: Signature)
    | OpSignClose(id: Id, balance: nat)
    | OpReset
    | OpClosePending(done: set<Id>)

  function OrSame(m: Records, r: Option<Records>): Records {
    if r.Some? then r.value else m
  }

  function OrRejected(m: Records, v: Verdict): Records {
    if v.Accepted? then v.records else m
  }

  /** The records after a call; a call that raises leaves what it had stored. */
  function Apply(r: Receiver, m: Records, op: Op): Records {
    match op
    case OpOpened(id, d) => OnOpened(m, id, d)
    case OpUnconfirmedOpened(id, d) => OnUnconfirmedOpened(m, id, d)
    case OpUnconfirmedTopup(id, tx, d) => OrSame(m, OnUnconfirmedTopup(m, id, tx, d))
    case OpTopup(id, tx, d) => OrSame(m, OnTopup(m, id, tx, d))
    case OpSettled(id) => OrSame(m, OnSettled(m, id))
    case OpCloseRequested(id, b, t, funded) => OnCloseRequested(r, m, id, b, t, funded).records
    case OpForceClose(id, funded) => ForceClose(r, m, id, funded).records
    case OpPay(id, b, sig) => OrRejected(m, RegisterPayment(r, m, id, b, sig))
    case OpSignClose(id, b) => (match SignClose(r, m, id, b) case Refused(_) => m case Agreed(m', _) => m')
    case OpReset => ResetUnconfirmed(m)
    case OpClosePending(done) => ClosePending(m, done)
  }

  function ApplyAll(r: Receiver, m: Records, ops: seq<Op>): Records {
    if ops == [] then m else Apply(r, ApplyAll(r, m, ops[..|ops| - 1]), ops[|ops| - 1])
  }

  /** The records before call n of a run. */
  function Before(r: Receiver, m: Records, ops: seq<Op>, n: nat): Records
    requires n <= |ops|
  {
    ApplyAll(r, m, ops[..n])
  }

  lemma BeforeNext(r: Receiver, m: Records, ops: seq<Op>, n: nat)
    requires n < |ops|
    ensures Before(r, m, ops, n + 1) == Apply(r, Before(r, m, ops, n), ops[n])
  {
    assert ops[..n + 1][..n] == ops[..n];
  }

  predicate ClosedAt(m: Records, id: Id) {
    Confirmed(m, id) && m[id].IsClosed()
  }

  // ---------------------------------------------------------------- the record invariant

  /** A stored balance is within the deposit, and it is zero exactly when there is no signature; otherwise the
      signature is the sender's on exactly this balance. Unconfirmed channels carry no payment, and a pending closing
      has its proof. */
  predicate RecordOk(r: Receiver, id: Id, rec: Record) {
    && rec.balance <= rec.deposit
    && (rec.lastSignature.None? <==> rec.balance == 0)
    && (rec.lastSignature.Some? ==>
          PyRecover(r.p, BalanceProof(r.address, id.openBlock, rec.balance, r.p.self), rec.lastSignature.value) ==
            Some(id.sender))
    && (!rec.confirmed ==> rec.balance == 0 && rec.state == OPEN)
    && (rec.state == CLOSE_PENDING ==> rec.lastSignature.Some?)
  }

  ghost predicate RecordsOk(r: Receiver, m: Records) {
    forall id {:trigger id in m} :: id in m ==> RecordOk(r, id, m[id])
  }

  lemma ApplyKeepsRecords(r: Receiver, m: Records, op: Op)
    requires RecordsOk(r, m)
    ensures RecordsOk(r, Apply(r, m, op))
  {
    var m' := Apply(r, m, op);
    forall id | id in m' ensures RecordOk(r, id, m'[id]) {
      if id in m {
        assert RecordOk(r, id, m[id]);
      }
    }
  }

  lemma {:induction false} RunKeepsRecords(r: Receiver, m: Records, ops: seq<Op>)
    requires RecordsOk(r, m)
    ensures RecordsOk(r, ApplyAll(r, m, ops))
  {
    if ops != [] {
      RunKeepsRecords(r, m, ops[..|ops| - 1]);
      ApplyKeepsRecords(r, ApplyAll(r, m, ops[..|ops| - 1]), ops[|ops| - 1]);
    }
  }

  /** A close request below the stored balance is always disputed with the stored proof: the receiver never lacks
      one, so with ether the closing transaction goes out, for the stored balance and the sender's signature on it. */
  lemma DisputeHasProof(r: Receiver, ops: seq<Op>, m: Records, id: Id, balance: nat, timeout: nat, funded: bool)
    requires ApplyAll(r, map[], ops) == m
    ensures var e := OnCloseRequested(r, m, id, balance, timeout, funded);
            && e.failure != Some(NoBalanceProofReceived)
            && (Confirmed(m, id) && m[id].balance > balance && funded ==>
                  && e.sent.Some? && e.sent.value.balance == m[id].balance
                  && PyRecover(r.p, BalanceProof(r.address, id.openBlock, m[id].balance, r.p.self), e.sent.value.proof)
                       == Some(id.sender)
                  && e.records == m)
  {
    RunKeepsRecords(r, map[], ops);
    if id in m {
      assert RecordOk(r, id, m[id]);
      assert m[id := m[id]] == m;
    }
  }

  // ---------------------------------------------------------------- laws of the handlers

  /** A creation counts once. Repeating either event changes nothing, whatever deposit it names; an unconfirmed creation
      leaves no trace once the confirmed one came, or if that came first. Until then the channel is shown with the
      deposit announced and nothing paid. */
  lemma CreationLaws(m: Records, id: Id, deposit: nat, other: nat)
    ensures OnUnconfirmedOpened(OnUnconfirmedOpened(m, id, deposit), id, other) == OnUnconfirmedOpened(m, id, deposit)
    ensures OnOpened(OnOpened(m, id, deposit), id, other) == OnOpened(m, id, deposit)
    ensures OnUnconfirmedOpened(OnOpened(m, id, deposit), id, other) == OnOpened(m, id, deposit)
    ensures OnOpened(OnUnconfirmedOpened(m, id, other), id, deposit) == OnOpened(m, id, deposit)
    ensures id !in m ==>
              var c := OnUnconfirmedOpened(m, id, deposit)[id];
              !c.confirmed && c.deposit == deposit && c.balance == 0 && c.lastSignature == None && c.topups == map[]
  {
    if id !in m {
      assert m[id := NewRecord(other, false)][id := NewRecord(deposit, true)] == m[id := NewRecord(deposit, true)];
    }
  }

  /** An announced top-up is shown beside the deposit, never in it; confirming it takes it out of the one and into the
      other, exactly as if it had not been announced. A closed channel is deaf to the confirmation. */
  lemma TopUpLaws(m: Records, id: Id, tx: Tx, added: nat)
    requires Confirmed(m, id)
    ensures var announced := OnUnconfirmedTopup(m, id, tx, added);
            && announced.Some?
            && announced.value == m[id := m[id].(topups := m[id].topups[tx := added])]
            && (!m[id].IsClosed() ==>
                  && OnTopup(announced.value, id, tx, added) == OnTopup(m, id, tx, added)
                  && OnTopup(m, id, tx, added).Some?
                  && tx !in OnTopup(m, id, tx, added).value[id].topups
                  && OnTopup(m, id, tx, added).value[id].deposit == m[id].deposit + added)
            && (m[id].IsClosed() ==> OnTopup(announced.value, id, tx, added) == announced)
  {
    var c := m[id];
    assert c.topups[tx := added] - {tx} == c.topups - {tx};
    assert m[id := c.(topups := c.topups[tx := added])]
             [id := c.(deposit := c.deposit + added, topups := c.topups - {tx})] ==
           m[id := c.(deposit := c.deposit + added, topups := c.topups - {tx})];
  }

  /** A reset takes back whatever was announced and nothing else: it undoes unconfirmed creations and top-ups, keeps
      every confirmed record but for its announcements, and a second one changes nothing. */
  lemma ResetLaws(m: Records, id: Id, tx: Tx, amount: nat)
    ensures id !in m ==> ResetUnconfirmed(OnUnconfirmedOpened(m, id, amount)) == ResetUnconfirmed(m)
    ensures OnUnconfirmedTopup(m, id, tx, amount).Some? ==>
              ResetUnconfirmed(OnUnconfirmedTopup(m, id, tx, amount).value) == ResetUnconfirmed(m)
    ensures ResetUnconfirmed(ResetUnconfirmed(m)) == ResetUnconfirmed(m)
    ensures id in ResetUnconfirmed(m) <==> Confirmed(m, id)
    ensures Confirmed(m, id) ==>
              ResetUnconfirmed(m)[id].topups == map[] && ResetUnconfirmed(m)[id].(topups := m[id].topups) == m[id]
  {
  }

  /** A payment is taken exactly if the channel is confirmed and open, the sender signed it, and it raises the balance
      within the deposit; what is reported as received is the increase. A refusal names its reason. */
  lemma PaymentOutcome(r: Receiver, m: Records, id: Id, balance: nat, sig: Signature)
    ensures var served := Confirmed(m, id) && !m[id].IsClosed();
            var signer := PyRecover(r.p, BalanceProof(r.address, id.openBlock, balance, r.p.self), sig);
            match RegisterPayment(r, m, id, balance, sig) {
              case Accepted(m', received) =>
                && served && signer == Some(id.sender) && m[id].balance < balance <= m[id].deposit
                && m[id].balance + received == balance
                && m'.Keys == m.Keys && m'[id].balance == balance && m'[id].lastSignature == Some(sig)
              case Rejected(why) =>
                && (why == InsufficientConfirmations <==> Unconfirmed(m, id))
                && (why == NoOpenChannel <==> !Unconfirmed(m, id) && !served)
                && (why == MalformedSignature <==> served && signer == None)
                && (why == InvalidBalanceProof <==>
                      && served && signer.Some?
                      && (signer.value != id.sender || balance > Max(m[id].balance, m[id].deposit)))
                && (why == InvalidBalanceAmount <==> served && signer == Some(id.sender) && balance <= m[id].balance)
            }
  {
  }

  /** sign_close agrees exactly to the stored balance of a confirmed open channel that has a proof, and names the reason
      of a refusal. */
  lemma SignCloseOutcome(r: Receiver, m: Records, id: Id, balance: nat)
    ensures var served := Confirmed(m, id) && !m[id].IsClosed();
            match SignClose(r, m, id, balance) {
              case Agreed(m', _) =>
                served && m[id].lastSignature.Some? && balance == m[id].balance && ClosedAt(m', id)
                && m'[id].balance == balance
              case Refused(why) =>
                && (why == NoOpenChannel <==> !served)
                && (why == NoBalanceProofReceived <==> served && m[id].lastSignature.None?)
                && (why == InvalidBalanceProof <==>
                      served && m[id].lastSignature.Some? && balance != m[id].balance)
            }
  {
  }

  // ---------------------------------------------------------------- closings that could not be paid for

  /** The call should send a closing transaction for this channel and cannot pay for it. */
  predicate FailsToSend(m: Records, op: Op, id: Id) {
    && Confirmed(m, id) && m[id].lastSignature.Some?
    && match op
       case OpCloseRequested(x, b, _, funded) => x == id && !funded && m[id].balance > b
       case OpForceClose(x, funded) => x == id && !funded
       case _ => false
  }

  /** The call ends what is due: pending closings are retried, the close is forced with ether, a close request is
      conceded, or the channel is settled. */
  predicate Discharges(m: Records, op: Op, id: Id) {
    match op
    case OpClosePending(done) => id in done
    case OpForceClose(x, funded) => x == id && funded
    case OpCloseRequested(x, b, _, _) => x == id && id in m && m[id].balance <= b
    case OpSettled(x) => x == id
    case _ => false
  }

  lemma DueStep(r: Receiver, m: Records, op: Op, id: Id)
    requires RecordsOk(r, m)
    ensures PendingWithProof(Apply(r, m, op), id) <==>
              FailsToSend(m, op, id) || (PendingWithProof(m, id) && !Discharges(m, op, id))
  {
    if id in m {
      assert RecordOk(r, id, m[id]);
    }
  }

  /** Call k before call n could not be paid for, and nothing since has discharged it. */
  ghost predicate DueSince(r: Receiver, ops: seq<Op>, n: nat, id: Id, k: int)
    requires n <= |ops|
  {
    && 0 <= k < n && FailsToSend(Before(r, map[], ops, k), ops[k], id)
    && forall i :: k < i < n ==> !Discharges(Before(r, map[], ops, i), ops[i], id)
  }

  ghost predicate Due(r: Receiver, ops: seq<Op>, n: nat, id: Id)
    requires n <= |ops|
  {
    exists k :: DueSince(r, ops, n, id, k)
  }

  lemma DueNext(r: Receiver, ops: seq<Op>, n: nat, id: Id)
    requires n < |ops|
    ensures var m := Before(r, map[], ops, n);
            Due(r, ops, n + 1, id) <==>
              FailsToSend(m, ops[n], id) || (Due(r, ops, n, id) && !Discharges(m, ops[n], id))
  {
    var m := Before(r, map[], ops, n);
    if FailsToSend(m, ops[n], id) {
      assert DueSince(r, ops, n + 1, id, n);
    }
    if Due(r, ops, n, id) && !Discharges(m, ops[n], id) {
      var k :| DueSince(r, ops, n, id, k);
      assert DueSince(r, ops, n + 1, id, k);
    }
    if Due(r, ops, n + 1, id) {
      var k :| DueSince(r, ops, n + 1, id, k);
      if k < n {
        assert DueSince(r, ops, n, id, k);
      }
    }
  }

  /** A closing that could not be paid for is never forgotten: over every run exactly those channels are pending, with
      their proof, whose closing failed for lack of ether and was not discharged since; close_pending_channels retries
      them. */
  lemma {:induction false} PendingExactlyWhen(r: Receiver, ops: seq<Op>, n: nat, id: Id)
    requires n <= |ops|
    ensures PendingWithProof(Before(r, map[], ops, n), id) <==> Due(r, ops, n, id)
    ensures PendingWithProof(Before(r, map[], ops, n), id) <==> id in PendingIds(Before(r, map[], ops, n))
  {
    RunKeepsRecords(r, map[], ops[..n]);
    if id in Before(r, map[], ops, n) {
      assert RecordOk(r, id, Before(r, map[], ops, n)[id]);
    }
    if n > 0 {
      PendingExactlyWhen(r, ops, n - 1, id);
      BeforeNext(r, map[], ops, n - 1);
      RunKeepsRecords(r, map[], ops[..n - 1]);
      DueStep(r, Before(r, map[], ops, n - 1), ops[n - 1], id);
      DueNext(r, ops, n - 1, id);
    }
  }

  // ---------------------------------------------------------------- closed stays closed

  predicate Deletes(op: Op, id: Id) {
    op.OpSettled? && op.id == id
  }

  lemma ApplyKeepsClosed(r: Receiver, m: Records, op: Op, id: Id)
    requires ClosedAt(m, id) && !Deletes(op, id)
    ensures ClosedAt(Apply(r, m, op), id)
    ensures Apply(r, m, op)[id].balance == m[id].balance && Apply(r, m, op)[id].lastSignature == m[id].lastSignature
    ensures Apply(r, m, op)[id].deposit == m[id].deposit
  {
  }

  /** Until it is deleted, a closed record keeps its balance, its signature and its deposit. */
  lemma {:induction false} ClosedStaysClosed(r: Receiver, m: Records, ops: seq<Op>, id: Id)
    requires ClosedAt(m, id) && forall op :: op in ops ==> !Deletes(op, id)
    ensures ClosedAt(ApplyAll(r, m, ops), id)
    ensures ApplyAll(r, m, ops)[id].balance == m[id].balance
    ensures ApplyAll(r, m, ops)[id].lastSignature == m[id].lastSignature
    ensures ApplyAll(r, m, ops)[id].deposit == m[id].deposit
  {
    if ops != [] {
      var front := ops[..|ops| - 1];
      ClosedStaysClosed(r, m, front, id);
      ApplyKeepsClosed(r, ApplyAll(r, m, front), ops[|ops| - 1], id);
    }
  }

  // ---------------------------------------------------------------- closing agreements

  function SentBalance(e: Effect): Option<nat> {
    if e.sent.Some? then Some(e.sent.value.balance) else None
  }

  /** The balance of the closing agreement a call hands out for a channel: sign_close returns one, and every closing
      transaction carries one. */
  function AgreementOf(r: Receiver, m: Records, op: Op, id: Id): Option<nat> {
    match op
    case OpSignClose(x, b) => if x == id && SignClose(r, m, id, b).Agreed? then Some(b) else None
    case OpCloseRequested(x, b, t, funded) =>
      if x == id then SentBalance(OnCloseRequested(r, m, id, b, t, funded)) else None
    case OpForceClose(x, funded) => if x == id then SentBalance(ForceClose(r, m, id, funded)) else None
    case OpClosePending(done) => if id in done && PendingWithProof(m, id) then Some(m[id].balance) else None
    case _ => None
  }

  /** Call i hands out an agreement for this balance. */
  predicate AgreesAt(r: Receiver, m: Records, ops: seq<Op>, id: Id, i: int, balance: nat)
    requires 0 <= i < |ops|
  {
    AgreementOf(r, Before(r, m, ops, i), ops[i], id) == Some(balance)
  }

  /** Call k is a payment on the channel that is accepted. */
  predicate PaysAt(r: Receiver, m: Records, ops: seq<Op>, id: Id, k: int)
    requires 0 <= k < |ops|
  {
    ops[k].OpPay? && ops[k].id == id
    && RegisterPayment(r, Before(r, m, ops, k), id, ops[k].balance, ops[k].sig).Accepted?
  }

  lemma OneCallBalance(r: Receiver, m: Records, op: Op, id: Id)
    requires Confirmed(m, id) && !Deletes(op, id)
    ensures Confirmed(Apply(r, m, op), id)
    ensures if op.OpPay? && op.id == id && RegisterPayment(r, m, id, op.balance, op.sig).Accepted?
            then m[id].balance < Apply(r, m, op)[id].balance
            else m[id].balance == Apply(r, m, op)[id].balance
  {
  }

  /** Between two points of a record's life its balance is the same if and only if no payment was accepted. */
  lemma {:induction false} BalanceMovesByPayments(r: Receiver, m: Records, ops: seq<Op>, id: Id, i: nat, j: nat)
    requires i <= j <= |ops| && Confirmed(Before(r, m, ops, i), id)
    requires forall k :: i <= k < j ==> !Deletes(ops[k], id)
    ensures Confirmed(Before(r, m, ops, j), id)
    ensures Before(r, m, ops, i)[id].balance <= Before(r, m, ops, j)[id].balance
    ensures Before(r, m, ops, i)[id].balance == Before(r, m, ops, j)[id].balance <==>
              forall k :: i <= k < j ==> !PaysAt(r, m, ops, id, k)
    decreases j - i
  {
    if i < j {
      BalanceMovesByPayments(r, m, ops, id, i, j - 1);
      BeforeNext(r, m, ops, j - 1);
      OneCallBalance(r, Before(r, m, ops, j - 1), ops[j - 1], id);
      assert PaysAt(r, m, ops, id, j - 1) <==>
             Before(r, m, ops, j - 1)[id].balance < Before(r, m, ops, j)[id].balance;
    }
  }

  lemma {:induction false} AppliedInTurn(r: Receiver, m: Records, first: seq<Op>, then': seq<Op>)
    ensures ApplyAll(r, m, first + then') == ApplyAll(r, ApplyAll(r, m, first), then')
  {
    if then' == [] {
      assert first + then' == first;
    } else {
      assert (first + then')[..|first + then'| - 1] == first + then'[..|then'| - 1];
      AppliedInTurn(r, m, first, then'[..|then'| - 1]);
    }
  }

  /** After an agreement that no dispute carried, the record is closed and takes no payment. */
  lemma OnlyDisputesStayOpen(r: Receiver, m: Records, ops: seq<Op>, id: Id, i: nat, a: nat, k: nat)
    requires i < k < |ops| && AgreesAt(r, m, ops, id, i, a) && !ops[i].OpCloseRequested?
    requires forall n :: i <= n < k ==> !Deletes(ops[n], id)
    ensures ClosedAt(Before(r, m, ops, k), id) && !PaysAt(r, m, ops, id, k)
  {
    BeforeNext(r, m, ops, i);
    assert ops[..k] == ops[..i + 1] + ops[i + 1..k];
    AppliedInTurn(r, m, ops[..i + 1], ops[i + 1..k]);
    ClosedStaysClosed(r, Before(r, m, ops, i + 1), ops[i + 1..k], id);
  }

  /** Two agreements for one record differ if and only if a payment was accepted between them; and then the first one
      went out with a dispute, the only call that leaves the record open. */
  lemma AgreementsDifferExactlyWhen(r: Receiver, m: Records, ops: seq<Op>, id: Id, i: nat, a: nat, j: nat, b: nat)
    requires i < j < |ops| && AgreesAt(r, m, ops, id, i, a) && AgreesAt(r, m, ops, id, j, b)
    requires forall k :: i <= k < j ==> !Deletes(ops[k], id)
    ensures a != b <==> exists k :: i < k < j && PaysAt(r, m, ops, id, k)
    ensures a != b ==> a < b && ops[i].OpCloseRequested?
  {
    BalanceMovesByPayments(r, m, ops, id, i, j);
    if k :| i < k < j && PaysAt(r, m, ops, id, k) {
      if !ops[i].OpCloseRequested? {
        OnlyDisputesStayOpen(r, m, ops, id, i, a, k);
      }
    }
  }

  /** A payment is accepted after one agreement and before another. */
  ghost predicate PaidBetween(r: Receiver, m: Records, ops: seq<Op>, id: Id, i: int, k: int, j: int)
  {
    && 0 <= i < k < j < |ops|
    && (exists a :: AgreesAt(r, m, ops, id, i, a))
    && PaysAt(r, m, ops, id, k)
    && (exists b :: AgreesAt(r, m, ops, id, j, b))
  }

  /** All agreements handed out during the life of a record name one balance if and only if no payment is accepted
      between two of them. */
  lemma OneBalanceExactlyWhen(r: Receiver, m: Records, ops: seq<Op>, id: Id)
    requires forall op :: op in ops ==> !Deletes(op, id)
    ensures (forall i, a, j, b ::
               0 <= i < j < |ops| && AgreesAt(r, m, ops, id, i, a) && AgreesAt(r, m, ops, id, j, b) ==> a == b) <==>
            !exists i, k, j :: PaidBetween(r, m, ops, id, i, k, j)
  {
    forall i, a, j, b | 0 <= i < j < |ops| && AgreesAt(r, m, ops, id, i, a) && AgreesAt(r, m, ops, id, j, b)
      ensures a == b <==> !exists k :: i < k < j && PaysAt(r, m, ops, id, k)
    {
      AgreementsDifferExactlyWhen(r, m, ops, id, i, a, j, b);
    }
    if i, k, j :| PaidBetween(r, m, ops, id, i, k, j) {
      var a :| AgreesAt(r, m, ops, id, i, a);
      var b :| AgreesAt(r, m, ops, id, j, b);
      assert a != b;
    }
    if i, a, j, b :| 0 <= i < j < |ops| && AgreesAt(r, m, ops, id, i, a) && AgreesAt(r, m, ops, id, j, b) && a != b {
      var k :| i < k < j && PaysAt(r, m, ops, id, k);
      assert PaidBetween(r, m, ops, id, i, k, j);
    }
  }

  lemma AcceptedPayment(r: Receiver, id: Id, rec: Record, balance: nat, sig: Signature)
    requires rec.confirmed && !rec.IsClosed() && rec.balance < balance <= rec.deposit
    requires PyRecover(r.p, BalanceProof(r.address, id.openBlock, balance, r.p.self), sig) == Some(id.sender)
    ensures Apply(r, map[id := rec], OpPay(id, balance, sig)) ==
            map[id := rec.(balance := balance, lastSignature := Some(sig))]
  {
    var m := map[id := rec];
    assert m[id := rec.(balance := balance, lastSignature := Some(sig))] ==
           map[id := rec.(balance := balance, lastSignature := Some(sig))];
  }

  function PaidRecord(balance: nat, sig: Signature): Record {
    NewRecord(100, true).(balance := balance, lastSignature := Some(sig))
  }

  lemma OpenPayDisputePay(r: Receiver, id: Id, ops: seq<Op>, s10: Signature, s20: Signature)
    requires PyRecover(r.p, BalanceProof(r.address, id.openBlock, 10, r.p.self), s10) == Some(id.sender)
    requires PyRecover(r.p, BalanceProof(r.address, id.openBlock, 20, r.p.self), s20) == Some(id.sender)
    requires |ops| >= 4 && ops[0] == OpOpened(id, 100) && ops[1] == OpPay(id, 10, s10)
    requires ops[2] == OpCloseRequested(id, 0, 1, true) && ops[3] == OpPay(id, 20, s20)
    ensures Before(r, map[], ops, 2) == map[id := PaidRecord(10, s10)]
    ensures Before(r, map[], ops, 4) == map[id := PaidRecord(20, s20)]
  {
    BeforeNext(r, map[], ops, 0);
    BeforeNext(r, map[], ops, 1);
    BeforeNext(r, map[], ops, 2);
    BeforeNext(r, map[], ops, 3);
    AcceptedPayment(r, id, NewRecord(100, true), 10, s10);
    AcceptedPayment(r, id, PaidRecord(10, s10), 20, s20);
  }

  /** A run with two agreements: a dispute sends one for 10 and leaves the record open, a payment raises the balance to
      20, and sign_close hands out one for 20. */
  lemma TwoAgreements(r: Receiver, id: Id, s10: Signature, s20: Signature)
    requires PyRecover(r.p, BalanceProof(r.address, id.openBlock, 10, r.p.self), s10) == Some(id.sender)
    requires PyRecover(r.p, BalanceProof(r.address, id.openBlock, 20, r.p.self), s20) == Some(id.sender)
    ensures var ops := [OpOpened(id, 100), OpPay(id, 10, s10), OpCloseRequested(id, 0, 1, true), OpPay(id, 20, s20),
                        OpSignClose(id, 20)];
            AgreesAt(r, map[], ops, id, 2, 10) && AgreesAt(r, map[], ops, id, 4, 20)
  {
    var ops := [OpOpened(id, 100), OpPay(id, 10, s10), OpCloseRequested(id, 0, 1, true), OpPay(id, 20, s20),
                OpSignClose(id, 20)];
    OpenPayDisputePay(r, id, ops, s10, s20);
  }

  /** The agreements sign_close hands out for a channel along a run, by balance. */
  function SignedCloses(r: Receiver, m: Records, ops: seq<Op>, id: Id): seq<nat> {
    if ops == [] then []
    else
      var front, last := ops[..|ops| - 1], ops[|ops| - 1];
      var before := ApplyAll(r, m, front);
      SignedCloses(r, m, front, id) +
      if last.OpSignClose? && last.id == id && SignClose(r, before, id, last.balance).Agreed? then [last.balance]
      else []
  }

  /** For the life of a record sign_close succeeds at most once. If it did, the channel is closed from then on with
      exactly that balance, takes no further payment, and any later agreement is for the same balance. */
  lemma {:induction false} OneSignedClose(r: Receiver, m: Records, ops: seq<Op>, id: Id)
    requires forall op :: op in ops ==> !Deletes(op, id)
    ensures |SignedCloses(r, m, ops, id)| <= 1
    ensures |SignedCloses(r, m, ops, id)| == 1 ==>
              var m' := ApplyAll(r, m, ops);
              && ClosedAt(m', id) && m'[id].balance == SignedCloses(r, m, ops, id)[0]
              && (forall b, sig :: RegisterPayment(r, m', id, b, sig) == Rejected(NoOpenChannel))
              && (forall b :: SignClose(r, m', id, b) == Refused(NoOpenChannel))
              && (forall op, b :: AgreementOf(r, m', op, id) == Some(b) ==> b == SignedCloses(r, m, ops, id)[0])
  {
    if ops != [] {
      var front, last := ops[..|ops| - 1], ops[|ops| - 1];
      var before := ApplyAll(r, m, front);
      OneSignedClose(r, m, front, id);
      if |SignedCloses(r, m, front, id)| == 1 {
        ApplyKeepsClosed(r, before, last, id);
      }
    }
  }
}
