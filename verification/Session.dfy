/**
 The payment session on values: how a client reacts to a paywall's replies, and why client and server agree on a
 balance after few requests whatever the client has lost.
 */
module Session {
  import opened Prelude
  import opened Escrow
  import opened Store
  import opened Handlers
  import opened RecordInvariants
  import opened Paywall

  datatype Phase = Open | Settling | Closed

  /** The client's identity: its address, the escrow it trusts, and its signing key. */
  datatype Context = Context(p: Params, address: Address, sign: Message -> Signature)

  /** A channel as its sender holds it. Its balance signature is always the sender's on this very balance. */
  datatype Held = Held(sender: Address, receiver: Address, block: nat, deposit: nat, balance: nat, phase: Phase)
  {
    predicate IsSuitable(value: nat) {
      deposit - balance >= value
    }

    function HeldId(): Id {
      Id(sender, block)
    }

    /** create_transfer: nothing changes where funds are short or the channel is closed. */
    function Transferred(value: nat): Held {
      if value > deposit - balance || phase.Closed? then this else this.(balance := balance + value)
    }
  }

  function SignBalance(ctx: Context, h: Held): Signature {
    ctx.sign(BalanceProof(h.receiver, h.block, h.balance, ctx.p.self))
  }

  /** The payment headers a session with this channel sends. */
  function PaymentOf(ctx: Context, channel: Option<Held>): Option<Payment> {
    match channel
    case None => None
    case Some(h) => Some(Payment(h.HeldId(), h.balance, SignBalance(ctx, h)))
  }

  /** What the chain grants a client while it handles one reply: the channel get_suitable_channel comes up with, and
      how much a top-up of the session's own channel adds, zero where it fails. */
  datatype Luck = Luck(chosen: Option<Held>, added: nat)

  datatype Stop =
    | Success
    | HttpError
    | WrongContract
    | Disguise
    | NoChannel
    | Crash

  datatype Reaction = Again(channel: Option<Held>) | Done(channel: Option<Held>, why: Stop)

  function OnPaymentRequested(channel: Option<Held>, price: nat, luck: Luck): Reaction {
    if price == 0 then Done(channel, Crash)
    else if channel.None? || channel.value.phase != Open then
      (match luck.chosen
       case None => Done(None, NoChannel)
       case Some(h) => Again(Some(h.Transferred(price))))
    else if !channel.value.IsSuitable(price) then
      Again(Some(channel.value.(deposit := channel.value.deposit + luck.added).Transferred(price)))
    else Again(Some(channel.value.Transferred(price)))
  }

  /** Whether the server's proof for a balance is the client's own signature; None where reading it raises. */
  function Verified(ctx: Context, h: Held, balance: nat, sig: Option<Signature>): Option<bool> {
    match sig
    case None => Some(false)
    case Some(s) =>
      match PyRecover(ctx.p, BalanceProof(h.receiver, h.block, balance, ctx.p.self), s)
      case None => None
      case Some(signer) => Some(signer == h.sender)
  }

  function OnInvalidAmount(ctx: Context, channel: Option<Held>, headers: Headers, luck: Luck): Reaction {
    if channel.None? || headers.senderBalance.None? then Done(channel, Crash)
    else
      var h, last := channel.value, headers.senderBalance.value;
      match Verified(ctx, h, last, headers.signature)
      case None => Done(channel, Crash)
      case Some(true) =>
        if last == h.balance then Done(channel, Disguise)
        else OnPaymentRequested(Some(h.(balance := last)), headers.price, luck)
      case Some(false) => OnPaymentRequested(Some(h.(balance := 0)), headers.price, luck)
  }

  predicate HoldsOpen(channel: Option<Held>) {
    channel.Some? && channel.value.phase == Open
  }

  /** on_invalid_amount gets as far as paying. */
  predicate Corrects(ctx: Context, channel: Option<Held>, headers: Headers) {
    && channel.Some? && headers.senderBalance.Some?
    && match Verified(ctx, channel.value, headers.senderBalance.value, headers.signature)
       case None => false
       case Some(verified) => verified ==> headers.senderBalance.value != channel.value.balance
  }

  /** The reply makes a session with this channel pay. */
  predicate AsksPayment(ctx: Context, channel: Option<Held>, reply: Reply) {
    && reply.Reply? && reply.paywalled && reply.headers.contract == ctx.p.self
    && !reply.headers.nonexisting && !reply.headers.insufConfs && !reply.headers.invalidProof
    && (reply.headers.invalidAmount ==> Corrects(ctx, channel, reply.headers))
  }

  /** The dispatch of _request_resource, in its order. */
  function React(ctx: Context, channel: Option<Held>, reply: Reply, luck: Luck): Reaction {
    match reply
    case Raised(_) => Done(channel, HttpError)
    case Reply(paywalled, headers) =>
      if !paywalled then Done(channel, Success)
      else if headers.nonexisting then Again(channel)
      else if headers.insufConfs then Again(channel)
      else if headers.invalidProof then Again(channel)
      else if headers.contract != ctx.p.self then Done(channel, WrongContract)
      else if headers.invalidAmount then OnInvalidAmount(ctx, channel, headers, luck)
      else OnPaymentRequested(channel, headers.price, luck)
  }

  /** Where a request loop stands: the server's records, the session's channel, how many requests were sent, and why it
      stopped if it did. */
  datatype Talk = Talk(records: Records, channel: Option<Held>, sent: nat, stopped: Option<Stop>)

  /** One request to a paywall, and the reaction to its reply. */
  function Exchange(ctx: Context, r: Receiver, price: nat, t: Talk, luck: Luck): Talk {
    if t.stopped.Some? then t
    else
      var c := Check(r, t.records, price, PaymentOf(ctx, t.channel));
      match React(ctx, t.channel, c.reply, luck)
      case Again(channel) => Talk(c.records, channel, t.sent + 1, None)
      case Done(channel, why) => Talk(c.records, channel, t.sent + 1, Some(why))
  }

  function Requests(ctx: Context, r: Receiver, price: nat, t: Talk, lucks: seq<Luck>): Talk {
    if lucks == [] then t
    else Exchange(ctx, r, price, Requests(ctx, r, price, t, lucks[..|lucks| - 1]), lucks[|lucks| - 1])
  }

  // ---------------------------------------------------------------- any server at all

  /** A transfer is signed exactly if the funds suffice and the channel is not closed, and then for exactly the value.
      */
  lemma TransferExact(h: Held, value: nat)
    requires value > 0
    ensures var paid := h.balance + value <= h.deposit && !h.phase.Closed?;
            && h.Transferred(value).balance == (if paid then h.balance + value else h.balance)
            && h.Transferred(value).(balance := h.balance) == h
  {
  }

  /** Replies that tell the session to come back without paying. */
  predicate Defers(reply: Reply) {
    && reply.Reply? && reply.paywalled
    && (reply.headers.nonexisting || reply.headers.insufConfs || reply.headers.invalidProof)
  }

  /** A paywall's reply that does not defer and names the session's own contract. */
  predicate Invoices(ctx: Context, reply: Reply) {
    reply.Reply? && reply.paywalled && !Defers(reply) && reply.headers.contract == ctx.p.self
  }

  /** Why a session stops, whatever the server says: each reason means exactly one thing. A deferring reply leaves
      everything as it is. */
  lemma ReactionExact(ctx: Context, channel: Option<Held>, reply: Reply, luck: Luck)
    ensures var reaction := React(ctx, channel, reply, luck);
            var why := if reaction.Done? then Some(reaction.why) else None;
            && (why == Some(Success) <==> reply.Reply? && !reply.paywalled)
            && (why == Some(HttpError) <==> reply.Raised?)
            && (Defers(reply) ==> reaction == Again(channel))
            && (why == Some(WrongContract) <==>
                  reply.Reply? && reply.paywalled && !Defers(reply) && reply.headers.contract != ctx.p.self)
            && (why == Some(Disguise) <==>
                  && Invoices(ctx, reply) && reply.headers.invalidAmount && channel.Some?
                  && reply.headers.senderBalance == Some(channel.value.balance)
                  && Verified(ctx, channel.value, channel.value.balance, reply.headers.signature) == Some(true))
            && (why == Some(NoChannel) <==>
                  && AsksPayment(ctx, channel, reply) && reply.headers.price > 0
                  && !HoldsOpen(channel) && luck.chosen == None)
            && (why == Some(Crash) <==>
                  && Invoices(ctx, reply)
                  && (if AsksPayment(ctx, channel, reply) then reply.headers.price == 0
                      else
                        || channel == None || reply.headers.senderBalance == None
                        || Verified(ctx, channel.value, reply.headers.senderBalance.value, reply.headers.signature)
                             == None))
  {
  }

  /** What a server can prove of this channel, and what the client's channels hold, is at most so much. */
  predicate SignedUpTo(ctx: Context, channel: Option<Held>, reply: Reply, luck: Luck, top: nat) {
    && (channel.Some? ==> channel.value.balance <= top)
    && (luck.chosen.Some? ==> luck.chosen.value.balance <= top)
    && (reply.Reply? && channel.Some? && reply.headers.senderBalance.Some? && reply.headers.signature.Some?
        && PyRecover(ctx.p, BalanceProof(channel.value.receiver, channel.value.block, reply.headers.senderBalance.value,
                                         ctx.p.self), reply.headers.signature.value) == Some(channel.value.sender) ==>
          reply.headers.senderBalance.value <= top)
  }

  function PriceOf(reply: Reply): nat {
    if reply.Reply? then reply.headers.price else 0
  }

  lemma OneReplyBounded(ctx: Context, channel: Option<Held>, reply: Reply, luck: Luck, top: nat)
    requires SignedUpTo(ctx, channel, reply, luck, top)
    ensures var after := React(ctx, channel, reply, luck).channel;
            after.Some? ==> after.value.balance <= top + PriceOf(reply)
  {
  }

  /** The channel a session holds after some replies, as long as it was told to go on. */
  function Reacting(ctx: Context, channel: Option<Held>, replies: seq<Reply>, lucks: seq<Luck>): Option<Held>
    requires |replies| == |lucks|
  {
    if replies == [] then channel
    else
      var n := |replies| - 1;
      React(ctx, Reacting(ctx, channel, replies[..n], lucks[..n]), replies[n], lucks[n]).channel
  }

  function Prices(replies: seq<Reply>): nat {
    if replies == [] then 0 else Prices(replies[..|replies| - 1]) + PriceOf(replies[|replies| - 1])
  }

  /** Reply k proves no more than the client had signed by then. */
  predicate ProvesSigned(ctx: Context, channel: Option<Held>, replies: seq<Reply>, lucks: seq<Luck>, top: nat, k: int)
    requires |replies| == |lucks| && 0 <= k < |replies|
  {
    SignedUpTo(ctx, Reacting(ctx, channel, replies[..k], lucks[..k]), replies[k], lucks[k], top + Prices(replies[..k]))
  }

  /** Whatever a server replies, honest or not, as long as it cannot prove a balance the client never signed: a session
      never signs more than what the client had signed before plus the prices asked since. */
  lemma {:induction false} ExposureBounded(ctx: Context, channel: Option<Held>, replies: seq<Reply>, lucks: seq<Luck>,
                                           top: nat)
    requires |replies| == |lucks| && (channel.Some? ==> channel.value.balance <= top)
    requires forall k :: 0 <= k < |replies| ==> ProvesSigned(ctx, channel, replies, lucks, top, k)
    ensures var now := Reacting(ctx, channel, replies, lucks);
            now.Some? ==> now.value.balance <= top + Prices(replies)
  {
    if replies != [] {
      var n := |replies| - 1;
      assert ProvesSigned(ctx, channel, replies, lucks, top, n);
      OneReplyBounded(ctx, Reacting(ctx, channel, replies[..n], lucks[..n]), replies[n], lucks[n],
                      top + Prices(replies[..n]));
    }
  }

  // ---------------------------------------------------------------- an honest pair

  /** The client's key signs as its address, and both sides mean the same escrow. */
  ghost predicate Matched(ctx: Context, r: Receiver) {
    && r.p == ctx.p
    && forall msg :: PyRecover(ctx.p, msg, ctx.sign(msg)) == Some(ctx.address)
  }

  /** The client's view of a channel with this receiver; its balance may be anything. */
  predicate Ours(ctx: Context, r: Receiver, h: Held) {
    h.sender == ctx.address && h.receiver == r.address
  }

  /** The server holds the channel confirmed and open. */
  predicate Serves(r: Receiver, m: Records, id: Id) {
    Confirmed(m, id) && !m[id].IsClosed() && RecordOk(r, id, m[id])
  }

  /** An open channel of ours with the deposit the server knows, or more. */
  predicate InTouch(ctx: Context, r: Receiver, m: Records, id: Id, h: Held)
    requires id in m
  {
    Ours(ctx, r, h) && h.HeldId() == id && h.phase.Open? && h.deposit >= m[id].deposit
  }

  /** One request with the channel, from any client-side balance: access if the balance happens to be the stored one
      plus the price, and otherwise the client ends up with exactly that. The disguise abort is not reached. */
  lemma OneRequest(ctx: Context, r: Receiver, price: nat, t: Talk, h: Held, luck: Luck)
    requires price > 0 && Matched(ctx, r)
    requires t.stopped.None? && t.channel == Some(h)
    requires Serves(r, t.records, h.HeldId()) && InTouch(ctx, r, t.records, h.HeldId(), h)
    requires t.records[h.HeldId()].balance + price <= t.records[h.HeldId()].deposit
    ensures var s := t.records[h.HeldId()].balance;
            var t' := Exchange(ctx, r, price, t, luck);
            && t'.sent == t.sent + 1
            && t'.channel == Some(h.(balance := s + price))
            && (if h.balance == s + price
                then t'.stopped == Some(Success) && h.HeldId() in t'.records
                     && t'.records[h.HeldId()].balance == s + price
                else t'.stopped == None && t'.records == t.records)
  {
    GrantedExactlyWhen(r, t.records, price, PaymentOf(ctx, Some(h)));
  }

  /** Honest convergence: if the server has a confirmed open channel with room for the price, a session that holds it,
      or finds it when asked to pay, gets access within three requests, two if it holds it, from any client-side
      balance. */
  lemma Converges(ctx: Context, r: Receiver, price: nat, t: Talk, id: Id, lucks: seq<Luck>)
    requires price > 0 && Matched(ctx, r) && |lucks| == 3
    requires t.stopped.None? && t.sent == 0 && Serves(r, t.records, id)
    requires t.records[id].balance + price <= t.records[id].deposit
    requires match t.channel
             case Some(h) => InTouch(ctx, r, t.records, id, h)
             case None => lucks[0].chosen.Some? && InTouch(ctx, r, t.records, id, lucks[0].chosen.value)
    ensures var end := Requests(ctx, r, price, t, lucks);
            && end.stopped == Some(Success)
            && end.sent <= (if t.channel.Some? then 2 else 3)
            && id in end.records && end.records[id].balance == t.records[id].balance + price
            && end.channel.Some? && end.channel.value.balance == t.records[id].balance + price
  {
    var t1 := Exchange(ctx, r, price, t, lucks[0]);
    var t2 := Exchange(ctx, r, price, t1, lucks[1]);
    var t3 := Exchange(ctx, r, price, t2, lucks[2]);
    assert lucks[..1][..0] == [] && lucks[..2][..1] == lucks[..1];
    assert Requests(ctx, r, price, t, lucks[..1]) == Exchange(ctx, r, price, t, lucks[0]);
    assert Requests(ctx, r, price, t, lucks[..2]) ==
             Exchange(ctx, r, price, Requests(ctx, r, price, t, lucks[..1]), lucks[1]);
    if t.channel.Some? {
      OneRequest(ctx, r, price, t, t.channel.value, lucks[0]);
      if t1.stopped.None? {
        OneRequest(ctx, r, price, t1, t1.channel.value, lucks[1]);
      }
    } else {
      OneRequest(ctx, r, price, t1, t1.channel.value, lucks[1]);
      if t2.stopped.None? {
        OneRequest(ctx, r, price, t2, t2.channel.value, lucks[2]);
      }
    }
  }

  // ---------------------------------------------------------------- and when it cannot

  /** Every channel in play is the given one, of ours. */
  predicate OnlyThis(ctx: Context, r: Receiver, id: Id, channel: Option<Held>) {
    channel.Some? ==> Ours(ctx, r, channel.value) && channel.value.HeldId() == id
  }

  /** The session cannot have got access, nor stopped for a disguised payment or an unreadable reply. */
  predicate Fruitless(stopped: Option<Stop>) {
    stopped != Some(Success) && stopped != Some(Disguise) && stopped != Some(Crash)
  }

  lemma NoRoomStep(ctx: Context, r: Receiver, price: nat, t: Talk, id: Id, luck: Luck)
    requires price > 0 && Matched(ctx, r) && Serves(r, t.records, id)
    requires t.records[id].balance + price > t.records[id].deposit
    requires OnlyThis(ctx, r, id, t.channel) && OnlyThis(ctx, r, id, luck.chosen) && Fruitless(t.stopped)
    ensures var t' := Exchange(ctx, r, price, t, luck);
            t'.records == t.records && OnlyThis(ctx, r, id, t'.channel) && Fruitless(t'.stopped)
  {
    GrantedExactlyWhen(r, t.records, price, PaymentOf(ctx, t.channel));
  }

  /** A server whose deposit has no room for the price grants no request, however many are sent; only a confirmed top-up
      can help. Nor does the session ever abort for a disguised payment. */
  lemma {:induction false} NoRoomNoAccess(ctx: Context, r: Receiver, price: nat, t: Talk, id: Id, lucks: seq<Luck>)
    requires price > 0 && Matched(ctx, r)
    requires t.stopped.None? && Serves(r, t.records, id)
    requires t.records[id].balance + price > t.records[id].deposit
    requires OnlyThis(ctx, r, id, t.channel) && forall l :: l in lucks ==> OnlyThis(ctx, r, id, l.chosen)
    ensures var end := Requests(ctx, r, price, t, lucks);
            end.records == t.records && OnlyThis(ctx, r, id, end.channel) && Fruitless(end.stopped)
  {
    if lucks != [] {
      NoRoomNoAccess(ctx, r, price, t, id, lucks[..|lucks| - 1]);
      NoRoomStep(ctx, r, price, Requests(ctx, r, price, t, lucks[..|lucks| - 1]), id, lucks[|lucks| - 1]);
    }
  }

  /** Three requests with an open channel suffice if and only if the server's deposit has room for the price. */
  lemma AccessExactlyWhen(ctx: Context, r: Receiver, price: nat, t: Talk, id: Id, lucks: seq<Luck>)
    requires price > 0 && Matched(ctx, r) && |lucks| == 3
    requires t.stopped.None? && t.sent == 0 && Serves(r, t.records, id)
    requires forall l :: l in lucks ==> OnlyThis(ctx, r, id, l.chosen)
    requires match t.channel
             case Some(h) => InTouch(ctx, r, t.records, id, h)
             case None => lucks[0].chosen.Some? && InTouch(ctx, r, t.records, id, lucks[0].chosen.value)
    ensures Requests(ctx, r, price, t, lucks).stopped == Some(Success) <==>
            t.records[id].balance + price <= t.records[id].deposit
  {
    if t.records[id].balance + price <= t.records[id].deposit {
      Converges(ctx, r, price, t, id, lucks);
    } else {
      NoRoomNoAccess(ctx, r, price, t, id, lucks);
    }
  }

  lemma NoDisguise(ctx: Context, r: Receiver, price: nat, t: Talk, luck: Luck)
    requires t.stopped != Some(Disguise)
    ensures Exchange(ctx, r, price, t, luck).stopped != Some(Disguise)
  {
    var reply := Check(r, t.records, price, PaymentOf(ctx, t.channel)).reply;
    if t.channel.Some? && reply.Reply? && reply.headers.invalidAmount {
      assert reply.headers.senderBalance != Some(t.channel.value.balance);
    }
  }

  /** A server that follows the paywall never makes a client believe its last payment was disguised, whatever the state
      of either side. */
  lemma {:induction false} DisguiseUnreachable(ctx: Context, r: Receiver, price: nat, t: Talk, lucks: seq<Luck>)
    requires t.stopped != Some(Disguise)
    ensures Requests(ctx, r, price, t, lucks).stopped != Some(Disguise)
  {
    if lucks != [] {
      DisguiseUnreachable(ctx, r, price, t, lucks[..|lucks| - 1]);
      NoDisguise(ctx, r, price, Requests(ctx, r, price, t, lucks[..|lucks| - 1]), lucks[|lucks| - 1]);
    }
  }
}
