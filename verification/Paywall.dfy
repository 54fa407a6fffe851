/** The paywall: which requests get the resource, what the reply tells the client, and what is on the books
    afterwards. */
module Paywall {
  import opened Prelude
  import opened Escrow
  import opened Store
  import opened Handlers
  import opened RecordInvariants
  import opened Manager

  /** The payment headers of a request; a request without a signature carries none. */
  datatype Payment = Payment(id: Id, balance: nat, sig: Signature)

  /** The reply headers the protocol reads. */
  datatype Headers = Headers(
    receiver: Address,
    contract: Address,
    price: nat,
    insufConfs: bool,
    nonexisting: bool,
    invalidProof: bool,
    invalidAmount: bool,
    sender: Option<Address>,
    senderBalance: Option<nat>,
    signature: Option<Signature>)

  /** Raised stands for an exception the paywall does not catch; the web server answers it with an error status. */
  datatype Reply = Reply(paywalled: bool, headers: Headers) | Raised(why: Failure)

  datatype Checked = Checked(reply: Reply, records: Records, received: nat)

  function GenerateHeaders(r: Receiver, price: nat): Headers {
    Headers(r.address, r.p.self, price, false, false, false, false, None, None, None)
  }

  /** The headers for a failed verification; None where the failure is not caught. */
  function FailureHeaders(h: Headers, why: Failure): Option<Headers> {
    match why
    case InsufficientConfirmations => Some(h.(insufConfs := true))
    case NoOpenChannel => Some(h.(nonexisting := true))
    case InvalidBalanceAmount => Some(h.(invalidProof := true))
    case InvalidBalanceProof => Some(h.(invalidProof := true))
    case _ => None
  }

  function ChannelHeaders(h: Headers, id: Id, c: Record): Headers {
    h.(sender := Some(id.sender), senderBalance := Some(c.balance), signature := c.lastSignature)
  }

  function Check(r: Receiver, m: Records, price: nat, data: Option<Payment>): Checked {
    var h := GenerateHeaders(r, price);
    match data
    case None => Checked(Reply(true, h), m, 0)
    case Some(Payment(id, balance, sig)) =>
      match ProofFailure(r, m, id, balance, sig)
      case Some(why) =>
        (match FailureHeaders(h, why)
         case Some(h') => Checked(Reply(true, h'), m, 0)
         case None => Checked(Raised(why), m, 0))
      case None =>
        var h' := ChannelHeaders(h, id, m[id]);
        var sent := balance - m[id].balance;
        if sent != 0 && sent != price then Checked(Reply(true, h'.(invalidAmount := true)), m, 0)
        else
          match RegisterPayment(r, m, id, balance, sig)
          case Rejected(_) => Checked(Reply(true, h'), m, 0)
          case Accepted(m', received) => Checked(Reply(false, h'), m', received)
  }

  predicate Granted(c: Checked) {
    c.reply.Reply? && !c.reply.paywalled
  }

  /** Access is granted exactly for a valid proof on the stored balance plus the price, within the deposit; only then
      do the books change, and by exactly the price. */
  lemma GrantedExactlyWhen(r: Receiver, m: Records, price: nat, data: Option<Payment>)
    requires price > 0
    ensures var c := Check(r, m, price, data);
            && (Granted(c) <==>
                  && data.Some?
                  && ProofFailure(r, m, data.value.id, data.value.balance, data.value.sig) == None
                  && data.value.balance == m[data.value.id].balance + price <= m[data.value.id].deposit)
            && (Granted(c) ==>
                  && c.received == price
                  && c.records == m[data.value.id := m[data.value.id].(balance := m[data.value.id].balance + price,
                                                                       lastSignature := Some(data.value.sig))])
            && (!Granted(c) ==> c.records == m && c.received == 0)
  {
  }

  /** The signature is the sender's on this balance, for a channel that is confirmed and open. */
  predicate ValidProof(r: Receiver, m: Records, pay: Payment) {
    && Confirmed(m, pay.id) && !m[pay.id].IsClosed()
    && PyRecover(r.p, BalanceProof(r.address, pay.id.openBlock, pay.balance, r.p.self), pay.sig) == Some(pay.id.sender)
  }

  /** What a client is told. Only an unreadable signature gets no reply; otherwise every flag means exactly one thing,
      no two are raised at once, and the stored balance with its proof is shown to whoever proved to be the sender. */
  lemma ReplyExact(r: Receiver, m: Records, price: nat, pay: Payment)
    ensures var reply := Check(r, m, price, Some(pay)).reply;
            var id := pay.id;
            var served := Confirmed(m, id) && !m[id].IsClosed();
            var signer := PyRecover(r.p, BalanceProof(r.address, id.openBlock, pay.balance, r.p.self), pay.sig);
            && (reply.Raised? <==> served && signer == None)
            && (reply.Reply? ==>
                  var h := reply.headers;
                  && (h.insufConfs <==> Unconfirmed(m, id))
                  && (h.nonexisting <==> id !in m || (Confirmed(m, id) && m[id].IsClosed()))
                  && (h.invalidProof <==> served && signer.value != id.sender)
                  && (h.invalidAmount <==> ValidProof(r, m, pay) && pay.balance != m[id].balance
                                           && pay.balance != m[id].balance + price)
                  && h.receiver == r.address && h.contract == r.p.self && h.price == price
                  && (if ValidProof(r, m, pay)
                      then h.sender == Some(id.sender) && h.senderBalance == Some(m[id].balance)
                           && h.signature == m[id].lastSignature
                      else h.sender == None && h.senderBalance == None && h.signature == None))
  {
  }

  /** A request without a payment is told the price, to whom it is due, and nothing else. */
  lemma InvoiceExact(r: Receiver, m: Records, price: nat)
    ensures Check(r, m, price, None) ==
            Checked(Reply(true, Headers(r.address, r.p.self, price, false, false, false, false, None, None, None)),
                    m, 0)
  {
  }

  // ---------------------------------------------------------------- runs of requests

  /** A request at the paywall, or any other call on the manager. */
  datatype Visit =
    | Get(price: nat, data: Option<Payment>)
    | Call(op: Op)

  predicate VisitOk(v: Visit) {
    if v.Get? then v.price > 0 else !v.op.OpPay?
  }

  function After(r: Receiver, m: Records, v: Visit): Records {
    match v
    case Get(price, data) => Check(r, m, price, data).records
    case Call(op) => Apply(r, m, op)
  }

  function AfterAll(r: Receiver, visits: seq<Visit>): Records {
    if visits == [] then map[] else After(r, AfterAll(r, visits[..|visits| - 1]), visits[|visits| - 1])
  }

  predicate GrantsTo(r: Receiver, m: Records, v: Visit, id: Id) {
    v.Get? && Granted(Check(r, m, v.price, v.data)) && v.data.value.id == id
  }

  /** The prices of the requests granted on a channel since its record was made. */
  function PricesGranted(r: Receiver, visits: seq<Visit>, id: Id): nat {
    if visits == [] then 0
    else
      var front, last := visits[..|visits| - 1], visits[|visits| - 1];
      if id !in AfterAll(r, visits) then 0
      else PricesGranted(r, front, id) + if GrantsTo(r, AfterAll(r, front), last, id) then last.price else 0
  }

  /** What register_payment reported as received for a channel since its record was made. */
  function Received(r: Receiver, visits: seq<Visit>, id: Id): nat {
    if visits == [] then 0
    else
      var front, last := visits[..|visits| - 1], visits[|visits| - 1];
      if id !in AfterAll(r, visits) then 0
      else
        Received(r, front, id) +
        if last.Get? && last.data.Some? && last.data.value.id == id
        then Check(r, AfterAll(r, front), last.price, last.data).received else 0
  }

  lemma VisitKeepsRecords(r: Receiver, m: Records, v: Visit)
    requires RecordsOk(r, m)
    ensures RecordsOk(r, After(r, m, v))
  {
    if v.Get? && v.data.Some? {
      ApplyKeepsRecords(r, m, OpPay(v.data.value.id, v.data.value.balance, v.data.value.sig));
    } else if v.Call? {
      ApplyKeepsRecords(r, m, v.op);
    }
  }

  lemma {:induction false} RunsKeepRecords(r: Receiver, visits: seq<Visit>)
    ensures RecordsOk(r, AfterAll(r, visits))
  {
    if visits != [] {
      RunsKeepRecords(r, visits[..|visits| - 1]);
      VisitKeepsRecords(r, AfterAll(r, visits[..|visits| - 1]), visits[|visits| - 1]);
    }
  }

  /** What one visit does to a stored balance. */
  lemma VisitBalance(r: Receiver, m: Records, v: Visit, id: Id)
    requires VisitOk(v) && (id in m ==> RecordOk(r, id, m[id]))
    ensures var m' := After(r, m, v);
            id in m' ==>
              m'[id].balance == (if id in m then m[id].balance else 0) + if GrantsTo(r, m, v, id) then v.price else 0
  {
    match v
    case Get(price, data) => GrantedExactlyWhen(r, m, price, data);
    case Call(op) =>
      match op {
        case OpReset =>
        case OpClosePending(_) =>
        case OpOpened(x, _) =>
        case _ =>
      }
  }

  /** Paid access is conserved: over any run of requests and other calls, the balance stored for a channel is the sum
      of the prices of the requests granted on it, and the sum of what was reported as received. */
  lemma {:induction false} AccessIsPaid(r: Receiver, visits: seq<Visit>, id: Id)
    requires forall v :: v in visits ==> VisitOk(v)
    ensures id in AfterAll(r, visits) ==>
              AfterAll(r, visits)[id].balance == PricesGranted(r, visits, id) == Received(r, visits, id)
    ensures id !in AfterAll(r, visits) ==> PricesGranted(r, visits, id) == Received(r, visits, id) == 0
  {
    if visits != [] {
      var front, last := visits[..|visits| - 1], visits[|visits| - 1];
      AccessIsPaid(r, front, id);
      RunsKeepRecords(r, front);
      VisitBalance(r, AfterAll(r, front), last, id);
      if last.Get? {
        GrantedExactlyWhen(r, AfterAll(r, front), last.price, last.data);
      }
    }
  }

  // ---------------------------------------------------------------- a proof is worth one access

  function Continue(r: Receiver, m: Records, visits: seq<Visit>): Records {
    if visits == [] then m else After(r, Continue(r, m, visits[..|visits| - 1]), visits[|visits| - 1])
  }

  predicate Forgets(v: Visit, id: Id) {
    v.Call? && Deletes(v.op, id)
  }

  lemma VisitKeepsChannel(r: Receiver, m: Records, v: Visit, id: Id)
    requires VisitOk(v) && !Forgets(v, id) && Confirmed(m, id) && RecordOk(r, id, m[id])
    ensures Confirmed(After(r, m, v), id) && m[id].balance <= After(r, m, v)[id].balance
  {
    VisitBalance(r, m, v, id);
    match v
    case Get(price, data) => GrantedExactlyWhen(r, m, price, data);
    case Call(op) =>
  }

  lemma {:induction false} BalanceOnlyGrows(r: Receiver, m: Records, visits: seq<Visit>, id: Id)
    requires RecordsOk(r, m) && Confirmed(m, id)
    requires forall v :: v in visits ==> VisitOk(v) && !Forgets(v, id)
    ensures RecordsOk(r, Continue(r, m, visits))
    ensures Confirmed(Continue(r, m, visits), id) && m[id].balance <= Continue(r, m, visits)[id].balance
  {
    if visits != [] {
      var front, last := visits[..|visits| - 1], visits[|visits| - 1];
      BalanceOnlyGrows(r, m, front, id);
      VisitKeepsRecords(r, Continue(r, m, front), last);
      assert RecordOk(r, id, Continue(r, m, front)[id]);
      VisitKeepsChannel(r, Continue(r, m, front), last, id);
    }
  }

  /** A proof for a balance a confirmed channel has reached never buys access again, whatever the price and whatever
      happens in between, resets included, until the channel is settled. */
  lemma OldProofNeverGranted(r: Receiver, m: Records, visits: seq<Visit>, price: nat, old': Payment)
    requires RecordsOk(r, m) && price > 0
    requires Confirmed(m, old'.id) && old'.balance <= m[old'.id].balance
    requires forall v :: v in visits ==> VisitOk(v) && !Forgets(v, old'.id)
    ensures !Granted(Check(r, Continue(r, m, visits), price, Some(old')))
  {
    BalanceOnlyGrows(r, m, visits, old'.id);
    GrantedExactlyWhen(r, Continue(r, m, visits), price, Some(old'));
  }

  // ---------------------------------------------------------------- the object

  class PaywallResource {
    const channelManager: ChannelManager

    ghost predicate Valid()
      reads channelManager, channelManager.state
    {
      channelManager.Valid()
    }

    constructor (channelManager: ChannelManager)
      requires channelManager.Valid()
      ensures Valid() && this.channelManager == channelManager
    {
      this.channelManager := channelManager;
    }

    method PaywallCheck(price: nat, data: Option<Payment>) returns (reply: Reply)
      requires Valid() && price > 0
      modifies channelManager.state`channels, channelManager.state`topups, channelManager.state`index,
               channelManager.state`records
      ensures Valid()
      ensures var c := Check(channelManager.r, old(channelManager.state.records), price, data);
              reply == c.reply && channelManager.state.records == c.records
    {
      var r := channelManager.r;
      var headers := GenerateHeaders(r, price);
      if data.None? { return Reply(true, headers); }
      var Payment(id, balance, sig) := data.value;
      var why, channel := channelManager.VerifyBalanceProof(id, balance, sig);
      if why.Some? {
        match why.value {
          case InsufficientConfirmations => headers := headers.(insufConfs := true);
          case NoOpenChannel => headers := headers.(nonexisting := true);
          case InvalidBalanceAmount => headers := headers.(invalidProof := true);
          case InvalidBalanceProof => headers := headers.(invalidProof := true);
          case _ => return Raised(why.value);
        }
        return Reply(true, headers);
      }
      var c := channel.value;
      headers := headers.(sender := Some(id.sender), senderBalance := Some(c.balance));
      if c.lastSignature.Some? {
        headers := headers.(signature := c.lastSignature);
      }
      var amountSent := balance - c.balance;
      if amountSent != 0 && amountSent != price {
        headers := headers.(invalidAmount := true);
        return Reply(true, headers);
      }
      var refused, received := channelManager.RegisterPayment(id, balance, sig);
      if refused.Some? { return Reply(true, headers); }
      return Reply(false, headers);
    }
  }
}
