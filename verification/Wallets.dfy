/** How a client comes to a channel it can pay with: what its channels, its tokens and the chain make of a request for
    payment. */
module Wallets {
  import opened Prelude
  import opened Store
  import opened Handlers
  import opened Paywall
  import opened Session

  /** What the token contract and the chain answer while one reply is handled: the sender's tokens, whether a top-up's
      event appears, and block and deposit of the creation event if one appears. */
  datatype Wallet = Wallet(tokens: nat, topupSeen: bool, creation: Option<(nat, nat)>)

  /** An open channel of this client to this receiver. */
  predicate OpenTo(h: Held, ctx: Context, receiver: Address) {
    h.sender == ctx.address && h.receiver == receiver && h.phase == Open
  }

  function Capacity(h: Held): int {
    h.deposit - h.balance
  }

  /** How a client comes to a channel: one that suffices, one to top up, or a new one. */
  datatype Pick = Ready(i: nat) | Raise(i: nat) | OpenNew

  /** The open channel with the least sufficient capacity; failing that, the open channel with the most capacity;
      failing that, a new one. */
  ghost predicate Picks(hs: seq<Held>, ctx: Context, receiver: Address, value: nat, pick: Pick) {
    match pick
    case Ready(i) =>
      && i < |hs| && OpenTo(hs[i], ctx, receiver) && hs[i].IsSuitable(value)
      && forall j :: 0 <= j < |hs| && OpenTo(hs[j], ctx, receiver) && hs[j].IsSuitable(value) ==>
           Capacity(hs[i]) <= Capacity(hs[j])
    case Raise(i) =>
      && i < |hs| && OpenTo(hs[i], ctx, receiver)
      && forall j :: 0 <= j < |hs| && OpenTo(hs[j], ctx, receiver) ==>
           !hs[j].IsSuitable(value) && Capacity(hs[j]) <= Capacity(hs[i])
    case OpenNew => forall j :: 0 <= j < |hs| ==> !OpenTo(hs[j], ctx, receiver)
  }

  /** What a pick amounts to. A top-up brings the channel to exactly the wanted capacity; None where tokens are short
      or no event appears. */
  function Found(hs: seq<Held>, ctx: Context, receiver: Address, value: nat, initialDeposit: nat, topupDeposit: nat,
                 wallet: Wallet, pick: Pick): Option<Held>
  {
    match pick
    case Ready(i) => if i < |hs| then Some(hs[i]) else None
    case Raise(i) =>
      if i < |hs| && Max(value, topupDeposit) - Capacity(hs[i]) <= wallet.tokens && wallet.topupSeen
      then Some(hs[i].(deposit := Max(value, topupDeposit) + hs[i].balance)) else None
    case OpenNew =>
      if wallet.tokens < Max(value, initialDeposit) || wallet.creation == None then None
      else Some(Held(ctx.address, receiver, wallet.creation.value.0, wallet.creation.value.1, 0, Open))
  }

  /** The channel a client comes up with sustains the transfer; a new one does if the chain opened it as asked. */
  lemma FoundSuffices(hs: seq<Held>, ctx: Context, receiver: Address, value: nat, initialDeposit: nat,
                      topupDeposit: nat, wallet: Wallet, pick: Pick)
    requires Picks(hs, ctx, receiver, value, pick)
    ensures var found := Found(hs, ctx, receiver, value, initialDeposit, topupDeposit, wallet, pick);
            found.Some? ==>
              && found.value.phase == Open
              && found.value.sender == ctx.address && found.value.receiver == receiver
              && (!found.value.IsSuitable(value) ==> pick.OpenNew? && wallet.creation.value.1 < value)
  {
  }

  /** A pick wastes nothing: a channel that suffices has the least slack of all that do, one that is raised needs the
      fewest tokens and ends with exactly the wanted capacity, and a new one is asked for only where no channel is open.
      */
  lemma PickIsThrifty(hs: seq<Held>, ctx: Context, receiver: Address, value: nat, initialDeposit: nat,
                      topupDeposit: nat, wallet: Wallet, pick: Pick, j: nat)
    requires Picks(hs, ctx, receiver, value, pick) && j < |hs| && OpenTo(hs[j], ctx, receiver)
    ensures var found := Found(hs, ctx, receiver, value, initialDeposit, topupDeposit, wallet, pick);
            var wanted := Max(value, topupDeposit);
            && !pick.OpenNew?
            && (pick.Ready? ==> found == Some(hs[pick.i]))
            && (hs[j].IsSuitable(value) ==> pick.Ready? && Capacity(found.value) <= Capacity(hs[j]))
            && (pick.Raise? ==> wanted - Capacity(hs[pick.i]) <= wanted - Capacity(hs[j]))
            && (pick.Raise? ==>
                  (found.Some? <==> wallet.topupSeen && wanted - Capacity(hs[pick.i]) <= wallet.tokens))
            && (pick.Raise? && found.Some? ==>
                  Capacity(found.value) == wanted && found.value == hs[pick.i].(deposit := found.value.deposit))
  {
  }

  /** A new channel is paid for with the larger of the price and the initial deposit, and starts unspent. */
  lemma NewChannelExact(hs: seq<Held>, ctx: Context, receiver: Address, value: nat, initialDeposit: nat,
                        topupDeposit: nat, wallet: Wallet)
    ensures var found := Found(hs, ctx, receiver, value, initialDeposit, topupDeposit, wallet, OpenNew);
            && (found.Some? <==> wallet.tokens >= value && wallet.tokens >= initialDeposit && wallet.creation.Some?)
            && (found.Some? ==>
                  && found.value.phase == Open && found.value.balance == 0
                  && found.value.sender == ctx.address && found.value.receiver == receiver
                  && wallet.creation == Some((found.value.block, found.value.deposit)))
  {
  }

  // ---------------------------------------------------------------- what a session is granted

  /** How much a session deposits for a price in a new channel, and adds to its own. */
  datatype Funding = Funding(initial: nat -> nat, topup: nat -> nat)

  /** What topping up the session's own channel brings. */
  function Added(f: Funding, price: nat, wallet: Wallet): nat {
    if wallet.topupSeen && f.topup(price) <= wallet.tokens then f.topup(price) else 0
  }

  /** What a client with these channels grants a session that is asked to pay: a channel where it holds no open one, and
      in any case what its wallet lets it add. */
  ghost predicate Grants(ctx: Context, f: Funding, hs: seq<Held>, channel: Option<Held>, receiver: Address, price: nat,
                         wallet: Wallet, luck: Luck)
  {
    && luck.added == Added(f, price, wallet)
    && if price > 0 && !HoldsOpen(channel)
       then exists pick ::
              && Picks(hs, ctx, receiver, price, pick)
              && luck.chosen == Found(hs, ctx, receiver, price, f.initial(price), f.topup(price), wallet, pick)
       else luck.chosen == None
  }

  /** The same for a reply; one that asks for no payment is granted nothing. */
  ghost predicate GrantsReply(ctx: Context, f: Funding, hs: seq<Held>, channel: Option<Held>, reply: Reply,
                              wallet: Wallet, luck: Luck)
  {
    if AsksPayment(ctx, channel, reply)
    then Grants(ctx, f, hs, channel, reply.headers.receiver, reply.headers.price, wallet, luck)
    else luck == Luck(None, 0)
  }

  /** The same for every request of a session; books are the client's channels before each. */
  ghost predicate GrantsAll(ctx: Context, f: Funding, r: Receiver, price: nat, t: Talk, books: seq<seq<Held>>,
                            wallets: seq<Wallet>, lucks: seq<Luck>)
  {
    && |books| == |lucks| <= |wallets|
    && forall k {:trigger lucks[k]} :: 0 <= k < |lucks| ==>
         var now := Requests(ctx, r, price, t, lucks[..k]);
         GrantsReply(ctx, f, books[k], now.channel, Check(r, now.records, price, PaymentOf(ctx, now.channel)).reply,
                     wallets[k], lucks[k])
  }

  /** A channel that is not open does not count among the candidates. */
  lemma SameGrants(ctx: Context, f: Funding, hs: seq<Held>, hs': seq<Held>, channel: Option<Held>,
                   channel': Option<Held>, receiver: Address, price: nat, wallet: Wallet, luck: Luck)
    requires |hs| == |hs'| && HoldsOpen(channel) == HoldsOpen(channel')
    requires !HoldsOpen(channel) ==>
               forall j :: 0 <= j < |hs| ==>
                 hs[j] == hs'[j] || (!OpenTo(hs[j], ctx, receiver) && !OpenTo(hs'[j], ctx, receiver))
    requires Grants(ctx, f, hs, channel, receiver, price, wallet, luck)
    ensures Grants(ctx, f, hs', channel', receiver, price, wallet, luck)
  {
    if price > 0 && !HoldsOpen(channel) {
      var pick :| Picks(hs, ctx, receiver, price, pick)
                  && luck.chosen == Found(hs, ctx, receiver, price, f.initial(price), f.topup(price), wallet, pick);
      assert Picks(hs', ctx, receiver, price, pick);
    }
  }

  lemma GrantedNext(ctx: Context, f: Funding, r: Receiver, price: nat, t: Talk, books: seq<seq<Held>>,
                    wallets: seq<Wallet>, lucks: seq<Luck>, book: seq<Held>, luck: Luck)
    requires GrantsAll(ctx, f, r, price, t, books, wallets, lucks) && |lucks| < |wallets|
    requires var now := Requests(ctx, r, price, t, lucks);
             GrantsReply(ctx, f, book, now.channel, Check(r, now.records, price, PaymentOf(ctx, now.channel)).reply,
                         wallets[|lucks|], luck)
    ensures GrantsAll(ctx, f, r, price, t, books + [book], wallets, lucks + [luck])
    ensures Requests(ctx, r, price, t, lucks + [luck]) ==
            Exchange(ctx, r, price, Requests(ctx, r, price, t, lucks), luck)
  {
    var all := lucks + [luck];
    assert all[..|lucks|] == lucks;
    forall k {:trigger all[k]} | 0 <= k < |lucks|
      ensures all[k] == lucks[k] && all[..k] == lucks[..k] && (books + [book])[k] == books[k]
    {
    }
  }

  // ---------------------------------------------------------------- a session whose channel is spent

  /** What it takes to make room: the wallet pays for the top-up, its event appears, and it is large enough. */
  predicate CanRaise(f: Funding, h: Held, price: nat, wallet: Wallet) {
    wallet.topupSeen && f.topup(price) <= wallet.tokens && h.balance + price <= h.deposit + f.topup(price)
  }

  /** Asked to pay with an open channel that has no room, the session tops it up by what its wallet allows, and pays if
      and only if that makes room. */
  lemma ToppedUpPays(ctx: Context, f: Funding, hs: seq<Held>, h: Held, receiver: Address, price: nat, wallet: Wallet,
                     luck: Luck)
    requires price > 0 && h.phase == Open && h.balance <= h.deposit < h.balance + price
    requires Grants(ctx, f, hs, Some(h), receiver, price, wallet, luck)
    ensures Session.OnPaymentRequested(Some(h), price, luck) ==
            Again(Some(h.(deposit := h.deposit + Added(f, price, wallet),
                          balance := if CanRaise(f, h, price, wallet) then h.balance + price else h.balance)))
  {
  }

  /** Its first request, from any client-side balance within the deposit: the session learns the stored balance, and
      ends up with the stored balance plus the price if and only if its wallet could raise the channel. */
  lemma SpentChannelRaised(ctx: Context, f: Funding, r: Receiver, price: nat, t: Talk, h: Held, hs: seq<Held>,
                           wallet: Wallet, luck: Luck)
    requires price > 0 && Matched(ctx, r) && t.stopped.None? && t.channel == Some(h)
    requires Ours(ctx, r, h) && h.phase == Open && Serves(r, t.records, h.HeldId())
    requires var c := t.records[h.HeldId()]; h.balance <= h.deposit == c.deposit < c.balance + price
    requires GrantsReply(ctx, f, hs, t.channel, Check(r, t.records, price, PaymentOf(ctx, t.channel)).reply, wallet,
                         luck)
    ensures var c := t.records[h.HeldId()];
            var paid := CanRaise(f, h.(balance := c.balance), price, wallet);
            && luck.added == Added(f, price, wallet)
            && Exchange(ctx, r, price, t, luck) ==
                 t.(sent := t.sent + 1,
                    channel := Some(h.(deposit := h.deposit + luck.added,
                                       balance := if paid then c.balance + price else c.balance)))
  {
    var c := t.records[h.HeldId()];
    var pay := PaymentOf(ctx, t.channel).value;
    var reply := Check(r, t.records, price, Some(pay)).reply;
    ReplyExact(r, t.records, price, pay);
    GrantedExactlyWhen(r, t.records, price, Some(pay));
    if h.balance == c.balance {
      assert !reply.headers.invalidAmount;
      ToppedUpPays(ctx, f, hs, h, r.address, price, wallet, luck);
    } else {
      assert reply.headers.invalidAmount;
      assert Corrects(ctx, t.channel, reply.headers);
      assert luck.added == Added(f, price, wallet);
    }
  }

  /** A session whose channel is spent gets access with the request after the server has confirmed its top-up, if and
      only if its wallet could raise the channel by enough. */
  lemma RaisedAccessExactlyWhen(ctx: Context, f: Funding, r: Receiver, price: nat, t: Talk, h: Held, hs: seq<Held>,
                                wallet: Wallet, luck: Luck, tx: Tx, luck': Luck)
    requires price > 0 && Matched(ctx, r) && t.stopped.None? && t.channel == Some(h)
    requires Ours(ctx, r, h) && h.phase == Open && Serves(r, t.records, h.HeldId())
    requires var c := t.records[h.HeldId()]; h.balance <= h.deposit == c.deposit < c.balance + price
    requires GrantsReply(ctx, f, hs, t.channel, Check(r, t.records, price, PaymentOf(ctx, t.channel)).reply, wallet,
                         luck)
    ensures var once := Exchange(ctx, r, price, t, luck);
            var raised := OnTopup(once.records, h.HeldId(), tx, luck.added);
            && once.stopped == None && raised.Some?
            && (Exchange(ctx, r, price, once.(records := raised.value), luck').stopped == Some(Success) <==>
                CanRaise(f, h.(balance := t.records[h.HeldId()].balance), price, wallet))
  {
    SpentChannelRaised(ctx, f, r, price, t, h, hs, wallet, luck);
    var once := Exchange(ctx, r, price, t, luck);
    var m := OnTopup(once.records, h.HeldId(), tx, luck.added).value;
    GrantedExactlyWhen(r, m, price, PaymentOf(ctx, once.channel));
  }

  // ---------------------------------------------------------------- a session that has no channel yet

  lemma {:induction false} StoppedStays(ctx: Context, r: Receiver, price: nat, t: Talk, lucks: seq<Luck>,
                                        more: seq<Luck>)
    requires Requests(ctx, r, price, t, lucks).stopped.Some?
    ensures Requests(ctx, r, price, t, lucks + more) == Requests(ctx, r, price, t, lucks)
  {
    if more == [] {
      assert lucks + more == lucks;
    } else {
      var front := more[..|more| - 1];
      StoppedStays(ctx, r, price, t, lucks, front);
      assert (lucks + more)[..|lucks + more| - 1] == lucks + front;
    }
  }

  /** A session that holds an open channel keeps holding one. */
  lemma StaysOpen(ctx: Context, r: Receiver, price: nat, t: Talk, luck: Luck)
    requires HoldsOpen(t.channel)
    ensures HoldsOpen(Exchange(ctx, r, price, t, luck).channel)
  {
  }

  /** The client's only open channel to the receiver can pay, or its wallet can bring it there. */
  predicate CanPay(f: Funding, h: Held, price: nat, wallet: Wallet) {
    h.IsSuitable(price) || (Max(price, f.topup(price)) - Capacity(h) <= wallet.tokens && wallet.topupSeen)
  }

  /** What the first request finds. */
  lemma FirstFinds(ctx: Context, f: Funding, r: Receiver, m: Records, price: nat, id: Id, hs: seq<Held>, i: nat,
                   wallet: Wallet, luck: Luck)
    requires price > 0 && r.p == ctx.p && id in m && i < |hs| && InTouch(ctx, r, m, id, hs[i])
    requires forall j :: 0 <= j < |hs| && OpenTo(hs[j], ctx, r.address) ==> j == i
    requires GrantsReply(ctx, f, hs, None, Check(r, m, price, None).reply, wallet, luck)
    ensures luck.chosen.Some? <==> CanPay(f, hs[i], price, wallet)
    ensures luck.chosen.Some? ==> InTouch(ctx, r, m, id, luck.chosen.value)
  {
    var pick :| Picks(hs, ctx, r.address, price, pick)
                && luck.chosen == Found(hs, ctx, r.address, price, f.initial(price), f.topup(price), wallet, pick);
    assert OpenTo(hs[i], ctx, r.address);
    assert pick == Ready(i) || pick == Raise(i);
  }

  /** While it holds one no other is looked for. */
  lemma NothingChosen(ctx: Context, f: Funding, r: Receiver, price: nat, t: Talk, books: seq<seq<Held>>,
                      wallets: seq<Wallet>, lucks: seq<Luck>, k: nat)
    requires GrantsAll(ctx, f, r, price, t, books, wallets, lucks) && k < |lucks|
    requires HoldsOpen(Requests(ctx, r, price, t, lucks[..k]).channel)
    ensures lucks[k].chosen == None
  {
    var now := Requests(ctx, r, price, t, lucks[..k]);
    var reply := Check(r, now.records, price, PaymentOf(ctx, now.channel)).reply;
    assert GrantsReply(ctx, f, books[k], now.channel, reply, wallets[k], lucks[k]);
  }

  lemma {:induction false} KeepsHolding(ctx: Context, r: Receiver, price: nat, t: Talk, lucks: seq<Luck>, n: nat)
    requires 0 < n <= |lucks| && HoldsOpen(Requests(ctx, r, price, t, lucks[..1]).channel)
    ensures HoldsOpen(Requests(ctx, r, price, t, lucks[..n]).channel)
  {
    if n > 1 {
      KeepsHolding(ctx, r, price, t, lucks, n - 1);
      var before := Requests(ctx, r, price, t, lucks[..n - 1]);
      assert lucks[..n][..n - 1] == lucks[..n - 1];
      StaysOpen(ctx, r, price, before, lucks[n - 1]);
    }
  }

  lemma NothingElseChosen(ctx: Context, f: Funding, r: Receiver, price: nat, t: Talk, books: seq<seq<Held>>,
                          wallets: seq<Wallet>, lucks: seq<Luck>)
    requires GrantsAll(ctx, f, r, price, t, books, wallets, lucks) && lucks != []
    requires HoldsOpen(Requests(ctx, r, price, t, lucks[..1]).channel)
    ensures forall k :: 1 <= k < |lucks| ==> lucks[k].chosen == None
  {
    forall k | 1 <= k < |lucks| ensures lucks[k].chosen == None {
      KeepsHolding(ctx, r, price, t, lucks, k);
      NothingChosen(ctx, f, r, price, t, books, wallets, lucks, k);
    }
  }

  /** A session that stopped early might as well have gone on. */
  lemma Padded(ctx: Context, r: Receiver, price: nat, t: Talk, lucks: seq<Luck>, n: nat) returns (full: seq<Luck>)
    requires |lucks| <= n && (|lucks| < n ==> Requests(ctx, r, price, t, lucks).stopped.Some?)
    ensures |full| == n && lucks <= full && forall k :: |lucks| <= k < n ==> full[k].chosen == None
    ensures Requests(ctx, r, price, t, full) == Requests(ctx, r, price, t, lucks)
  {
    full := lucks + seq(n - |lucks|, _ => Luck(None, 0));
    if |lucks| < n {
      StoppedStays(ctx, r, price, t, lucks, full[|lucks|..]);
      assert lucks + full[|lucks|..] == full;
    } else {
      assert full == lucks;
    }
  }

  /** A session that found no channel stays without access. */
  lemma NothingFound(ctx: Context, r: Receiver, price: nat, t: Talk, lucks: seq<Luck>)
    requires price > 0 && r.p == ctx.p && t.stopped.None? && t.channel == None
    requires lucks != [] && lucks[0].chosen == None
    ensures Requests(ctx, r, price, t, lucks).stopped == Some(NoChannel)
  {
    assert lucks[..1] == [lucks[0]] && lucks[..1][..0] == [];
    StoppedStays(ctx, r, price, t, lucks[..1], lucks[1..]);
    assert lucks[..1] + lucks[1..] == lucks;
  }

  /** The first of many requests. */
  lemma FirstOfAll(ctx: Context, f: Funding, r: Receiver, price: nat, t: Talk, books: seq<seq<Held>>,
                   wallets: seq<Wallet>, lucks: seq<Luck>)
    requires GrantsAll(ctx, f, r, price, t, books, wallets, lucks) && lucks != []
    ensures GrantsReply(ctx, f, books[0], t.channel, Check(r, t.records, price, PaymentOf(ctx, t.channel)).reply,
                        wallets[0], lucks[0])
    ensures Requests(ctx, r, price, t, lucks[..1]) == Exchange(ctx, r, price, t, lucks[0])
  {
    assert lucks[..0] == [] && lucks[..1][..0] == [];
    assert Requests(ctx, r, price, t, lucks[..0]) == t;
  }

  /** Only the channel found first is in play. */
  lemma OneChannelInPlay(ctx: Context, f: Funding, r: Receiver, price: nat, t: Talk, id: Id, books: seq<seq<Held>>,
                         wallets: seq<Wallet>, lucks: seq<Luck>, n: nat) returns (full: seq<Luck>)
    requires price > 0 && r.p == ctx.p && t.stopped.None? && t.channel == None
    requires GrantsAll(ctx, f, r, price, t, books, wallets, lucks) && 0 < |lucks| <= n
    requires |lucks| < n ==> Requests(ctx, r, price, t, lucks).stopped.Some?
    requires id in t.records && lucks[0].chosen.Some? && InTouch(ctx, r, t.records, id, lucks[0].chosen.value)
    ensures |full| == n && full[0] == lucks[0] && forall l :: l in full ==> OnlyThis(ctx, r, id, l.chosen)
    ensures Requests(ctx, r, price, t, full) == Requests(ctx, r, price, t, lucks)
  {
    FirstOfAll(ctx, f, r, price, t, books, wallets, lucks);
    NothingElseChosen(ctx, f, r, price, t, books, wallets, lucks);
    full := Padded(ctx, r, price, t, lucks, n);
  }

  /** A session without a channel, whose client has one open channel to the receiver, whatever balance it has on record
      for it: three requests get access if and only if that channel can pay, or be made to, and the server's deposit has
      room for the price. */
  lemma ClientAccessExactlyWhen(ctx: Context, f: Funding, r: Receiver, price: nat, t: Talk, id: Id, i: nat,
                                books: seq<seq<Held>>, wallets: seq<Wallet>, lucks: seq<Luck>)
    requires price > 0 && Matched(ctx, r) && |wallets| == 3
    requires t.stopped.None? && t.sent == 0 && t.channel == None && Serves(r, t.records, id)
    requires GrantsAll(ctx, f, r, price, t, books, wallets, lucks)
    requires Requests(ctx, r, price, t, lucks).stopped == None ==> |lucks| == |wallets|
    requires |books| > 0 && i < |books[0]| && InTouch(ctx, r, t.records, id, books[0][i])
    requires forall j :: 0 <= j < |books[0]| && OpenTo(books[0][j], ctx, r.address) ==> j == i
    ensures Requests(ctx, r, price, t, lucks).stopped == Some(Success) <==>
            CanPay(f, books[0][i], price, wallets[0]) && t.records[id].balance + price <= t.records[id].deposit
  {
    FirstOfAll(ctx, f, r, price, t, books, wallets, lucks);
    FirstFinds(ctx, f, r, t.records, price, id, books[0], i, wallets[0], lucks[0]);
    if lucks[0].chosen == None {
      NothingFound(ctx, r, price, t, lucks);
    } else {
      var full := OneChannelInPlay(ctx, f, r, price, t, id, books, wallets, lucks, 3);
      AccessExactlyWhen(ctx, r, price, t, id, full);
    }
  }
}
