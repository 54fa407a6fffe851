/** The client as objects: its channels, how it finds or funds one, and the session that pays with it. */
module ClientObjects {
  import opened Prelude
  import opened Escrow
  import opened Handlers
  import opened Paywall
  import opened Session
  import opened Wallets
  import opened Accounts
  import opened EventLog
  import opened ClientSync

  class Channel {
    const core: Context
    const sender: Address
    const receiver: Address
    const block: nat
    var deposit: nat
    var balance: nat
    var balanceSig: Signature
    var state: Phase

    function Value(): Held
      reads this
    {
      Held(sender, receiver, block, deposit, balance, state)
    }

    /** The stored signature is the key's on the stored balance. */
    predicate Valid()
      reads this
    {
      balanceSig == SignBalance(core, Value())
    }

    /** is_valid. */
    predicate IsValid()
      reads this
    {
      SignBalance(core, Value()) == balanceSig && balance <= deposit
    }

    constructor (core: Context, sender: Address, receiver: Address, block: nat, deposit: nat)
      ensures Valid() && Value() == Held(sender, receiver, block, deposit, 0, Open) && this.core == core
      ensures IsValid()
    {
      this.core, this.sender, this.receiver, this.block, this.deposit := core, sender, receiver, block, deposit;
      balance, state := 0, Open;
      balanceSig := core.sign(BalanceProof(receiver, block, 0, core.p.self));
    }

    method UpdateBalance(value: nat)
      modifies this`balance, this`balanceSig
      ensures Valid() && Value() == old(Value()).(balance := value)
    {
      balance := value;
      balanceSig := SignBalance(core, Value());
    }

    /** What sync_channels does to a channel it knows. */
    method Change(e: Event)
      requires Valid() && (e.ToppedUp? || e.CloseRequested? || e.Settled?)
      modifies this
      ensures Valid()
      ensures Value() ==
              match e {
                case ToppedUp(_, _, _, added) => old(Value()).(deposit := old(deposit) + added)
                case CloseRequested(_, _, _, b) => old(Value()).(balance := b, phase := Settling)
                case _ => old(Value()).(phase := Closed)
              }
    {
      match e {
        case ToppedUp(_, _, _, added) => deposit := deposit + added;
        case CloseRequested(_, _, _, b) =>
          UpdateBalance(b);
          state := Settling;
        case Settled(_, _, _, _, _) => state := Closed;
      }
    }

    /** topup; the deposit grows only once the event was seen. */
    method TopUp(added: nat, wallet: Wallet) returns (ok: bool)
      requires Valid()
      modifies this`deposit
      ensures Valid() && ok == (state == Open && added <= wallet.tokens && wallet.topupSeen)
      ensures Value() == if ok then old(Value()).(deposit := old(deposit) + added) else old(Value())
      ensures old(IsValid()) ==> IsValid()
    {
      if state != Open { return false; }
      if wallet.tokens < added { return false; }
      if !wallet.topupSeen { return false; }
      deposit := deposit + added;
      return true;
    }

    /** create_transfer; None where funds are short or the channel is closed. */
    method CreateTransfer(value: nat) returns (sig: Option<Signature>)
      requires Valid()
      modifies this`balance, this`balanceSig
      ensures Valid() && Value() == old(Value()).Transferred(value)
      ensures old(IsValid()) ==> IsValid()
      ensures sig == if value <= old(deposit) - old(balance) && state != Closed then Some(balanceSig) else None
    {
      if value > deposit - balance { return None; }
      if state == Closed { return None; }
      UpdateBalance(balance + value);
      return Some(balanceSig);
    }
  }

  function KeyOfHeld(h: Held): ChannelId {
    ChannelId(h.sender, h.receiver, h.block)
  }

  /** The dictionary sync_channels works on, on values. */
  ghost function Books(known: map<ChannelId, Channel>): Book
    reads known.Values
  {
    map id | id in known :: known[id].Value()
  }

  /** Every channel is filed under its own key. */
  ghost predicate Keyed(ctx: Context, known: map<ChannelId, Channel>)
    reads known.Values
  {
    forall id {:trigger id in known} :: id in known ==>
      KeyOfHeld(known[id].Value()) == id && known[id].Valid() && known[id].core == ctx
  }

  /** A list of channels with distinct keys, as a book; the index says where each key is. */
  ghost predicate Lists(channels: seq<Channel>, index: map<ChannelId, nat>, book: Book)
    reads channels
  {
    && index.Keys == book.Keys
    && (forall id {:trigger index[id]} {:trigger id in index} :: id in index ==>
          index[id] < |channels| && KeyOfHeld(channels[index[id]].Value()) == id
          && book[id] == channels[index[id]].Value())
    && (forall i {:trigger channels[i]} :: 0 <= i < |channels| ==>
          var id := KeyOfHeld(channels[i].Value());
          id in index && index[id] == i)
  }

  /** Valid channels of one client, none listed twice. */
  ghost predicate Sound(ctx: Context, channels: seq<Channel>)
    reads channels
  {
    && (forall i {:trigger channels[i]} :: 0 <= i < |channels| ==> channels[i].Valid() && channels[i].core == ctx)
    && (forall i, j :: 0 <= i < j < |channels| ==> channels[i] != channels[j])
  }

  class Client {
    const ctx: Context
    var channels: seq<Channel>

    ghost predicate Valid()
      reads this, channels
    {
      Sound(ctx, channels)
    }

    ghost function Values(): seq<Held>
      reads this, channels
    {
      seq(|channels|, i requires 0 <= i < |channels| reads this, channels => channels[i].Value())
    }

    constructor (ctx: Context)
      ensures Valid() && this.ctx == ctx && channels == []
    {
      this.ctx, channels := ctx, [];
    }

    method GetOpenChannels(receiver: Address) returns (ret: seq<Channel>)
      ensures forall c :: c in ret <==> c in channels && OpenTo(c.Value(), ctx, receiver)
    {
      ret := [];
      for i := 0 to |channels|
        invariant forall c :: c in ret <==> c in channels[..i] && OpenTo(c.Value(), ctx, receiver)
      {
        var c := channels[i];
        assert channels[..i + 1] == channels[..i] + [c];
        if OpenTo(c.Value(), ctx, receiver) {
          ret := ret + [c];
        }
      }
      assert channels[..|channels|] == channels;
    }

    /** The comprehension over suitable channels. */
    static method Suitable(open: seq<Channel>, value: nat) returns (ret: seq<Channel>)
      ensures forall c :: c in ret <==> c in open && c.Value().IsSuitable(value)
    {
      ret := [];
      for i := 0 to |open|
        invariant forall c :: c in ret <==> c in open[..i] && c.Value().IsSuitable(value)
      {
        assert open[..i + 1] == open[..i] + [open[i]];
        if open[i].Value().IsSuitable(value) {
          ret := ret + [open[i]];
        }
      }
      assert open[..|open|] == open;
    }

    /** min and max by remaining capacity; the first of equals. */
    static method Extreme(candidates: seq<Channel>, lowest: bool) returns (best: Channel)
      requires candidates != []
      ensures best in candidates
      ensures forall c :: c in candidates ==>
                if lowest then Capacity(best.Value()) <= Capacity(c.Value())
                else Capacity(c.Value()) <= Capacity(best.Value())
    {
      best := candidates[0];
      for i := 1 to |candidates|
        invariant best in candidates
        invariant forall j :: 0 <= j < i ==>
                    if lowest then Capacity(best.Value()) <= Capacity(candidates[j].Value())
                    else Capacity(candidates[j].Value()) <= Capacity(best.Value())
      {
        var c := candidates[i];
        var better := if lowest then Capacity(c.Value()) < Capacity(best.Value())
                      else Capacity(c.Value()) > Capacity(best.Value());
        if better {
          best := c;
        }
      }
    }

    /** open_channel; null where tokens are short or no event appears. */
    method OpenChannel(receiver: Address, deposit: nat, wallet: Wallet) returns (channel: Channel?)
      requires Valid() && deposit > 0
      modifies this`channels
      ensures Valid()
      ensures channel == null <==> wallet.tokens < deposit || wallet.creation == None
      ensures channel == null ==> channels == old(channels)
      ensures channel != null ==>
                && fresh(channel) && channels == old(channels) + [channel]
                && Values() == old(Values()) +
                     [Held(ctx.address, receiver, wallet.creation.value.0, wallet.creation.value.1, 0, Open)]
    {
      if wallet.tokens < deposit { return null; }
      if wallet.creation == None { return null; }
      var (block, created) := wallet.creation.value;
      channel := new Channel(ctx, ctx.address, receiver, block, created);
      channels := channels + [channel];
    }

    /** The choice among the channels at hand. */
    method Choose(receiver: Address, value: nat) returns (best: Channel?, enough: bool, ghost pick: Pick)
      ensures Picks(Values(), ctx, receiver, value, pick)
      ensures match pick
              case Ready(i) => enough && best == channels[i]
              case Raise(i) => !enough && best == channels[i]
              case OpenNew => !enough && best == null
    {
      var open := GetOpenChannels(receiver);
      var suitable := Suitable(open, value);
      if suitable != [] {
        best := Extreme(suitable, true);
        ghost var i :| 0 <= i < |channels| && channels[i] == best;
        pick := Ready(i);
        enough := true;
      } else if open != [] {
        best := Extreme(open, false);
        ghost var i :| 0 <= i < |channels| && channels[i] == best;
        pick := Raise(i);
        enough := false;
      } else {
        best, enough, pick := null, false, OpenNew;
      }
      assert forall j :: 0 <= j < |channels| ==> Values()[j] == channels[j].Value();
    }

    method RaiseChannel(best: Channel, ghost i: nat, wanted: nat, wallet: Wallet) returns (ok: bool)
      requires Valid() && i < |channels| && channels[i] == best && wanted >= Capacity(best.Value())
      modifies best`deposit
      ensures Valid()
      ensures ok == (best.state == Open && wanted - old(Capacity(best.Value())) <= wallet.tokens && wallet.topupSeen)
      ensures Values() ==
              if ok then old(Values())[i := old(best.Value()).(deposit := wanted + best.balance)] else old(Values())
      ensures !ok ==> best.Value() == old(best.Value())
    {
      ok := best.TopUp(wanted - (best.deposit - best.balance), wallet);
    }

    /** get_suitable_channel. */
    method GetSuitableChannel(receiver: Address, value: nat, initialDeposit: nat, topupDeposit: nat, wallet: Wallet)
      returns (channel: Channel?, ghost pick: Pick)
      requires Valid() && value > 0
      modifies this`channels, channels
      ensures Valid()
      ensures Picks(old(Values()), ctx, receiver, value, pick)
      ensures var found := Found(old(Values()), ctx, receiver, value, initialDeposit, topupDeposit, wallet, pick);
              if found == None then
                channel == null && channels == old(channels) && Values() == old(Values())
              else
                && channel != null && channel in channels && channel.Value() == found.value
                && match pick
                   case Ready(i) => channels == old(channels) && channel == channels[i] && Values() == old(Values())
                   case Raise(i) =>
                     channels == old(channels) && channel == channels[i] && Values() == old(Values())[i := found.value]
                   case OpenNew =>
                     fresh(channel) && channels == old(channels) + [channel]
                     && Values() == old(Values()) + [found.value]
      ensures forall c :: c in old(channels) && c != channel ==> c.Value() == old(c.Value())
    {
      var best, enough;
      best, enough, pick := Choose(receiver, value);
      if enough {
        channel := best;
      } else if best != null {
        var ok := RaiseChannel(best, pick.i, Max(value, topupDeposit), wallet);
        channel := if ok then best else null;
      } else {
        channel := OpenChannel(receiver, Max(value, initialDeposit), wallet);
      }
      if best != null {
        assert Values()[pick.i] == best.Value();
      } else if channel != null {
        assert Values()[|channels| - 1] == channel.Value();
      }
    }

    /** sync_channels. ok is false where an event names a channel the client does not know. */
    method SyncChannels(log: Log, ghost index: map<ChannelId, nat>, ghost book: Book)
      returns (ok: bool, ghost index': map<ChannelId, nat>)
      requires Valid() && Lists(channels, index, book)
      modifies this`channels, channels
      ensures match SyncBook(ctx.address, book, log)
              case None => !ok
              case Some(b) => ok && Valid() && Lists(channels, index', b)
    {
      var rest;
      ok, rest, index' := Synchronise(ctx, channels, log, index, book);
      if ok {
        channels := rest;
      }
    }
  }

  // ---------------------------------------------------------------- synchronisation

  method LearnCreation(ctx: Context, known: map<ChannelId, Channel>, id: ChannelId, deposit: nat)
    returns (known': map<ChannelId, Channel>)
    requires Keyed(ctx, known)
    modifies known.Values
    ensures Keyed(ctx, known') && fresh(known'.Values - known.Values)
    ensures Books(known') ==
            old(Books(known))[id := if id in known then old(known[id].Value()).(deposit := deposit)
                              else NewChannel(id, deposit)]
  {
    if id in known {
      known[id].deposit := deposit;
      return known;
    }
    var c := new Channel(ctx, id.sender, id.receiver, id.openBlock, deposit);
    known' := known[id := c];
  }

  /** An event of a channel the client knows. */
  method LearnChange(ctx: Context, known: map<ChannelId, Channel>, e: LogEntry)
    requires Keyed(ctx, known) && EntryId(e) in known
             && (e.event.ToppedUp? || e.event.CloseRequested? || e.event.Settled?)
    modifies known[EntryId(e)]
    ensures Keyed(ctx, known) && Some(Books(known)) == Learn(old(Books(known)), e)
  {
    var c := known[EntryId(e)];
    c.Change(e.event);
    assert Books(known) == old(Books(known))[EntryId(e) := c.Value()];
  }

  /** What one event does to the dictionary; ok is false where it names an unknown channel. */
  method LearnEvent(ctx: Context, known: map<ChannelId, Channel>, e: LogEntry)
    returns (ok: bool, known': map<ChannelId, Channel>)
    requires Keyed(ctx, known)
    modifies known.Values
    ensures match Learn(old(Books(known)), e)
            case None => !ok
            case Some(b) => ok && Keyed(ctx, known') && Books(known') == b && fresh(known'.Values - known.Values)
  {
    var id := EntryId(e);
    ok, known' := true, known;
    if e.event.Created? {
      known' := LearnCreation(ctx, known, id, e.event.deposit);
    } else if !e.event.Withdrawn? {
      if id !in known { return false, known; }
      LearnChange(ctx, known, e);
    }
  }

  /** One of the four loops over events. */
  method LearnPass(ctx: Context, k: Kind, known: map<ChannelId, Channel>, log: Log)
    returns (ok: bool, known': map<ChannelId, Channel>)
    requires Keyed(ctx, known)
    modifies known.Values
    ensures match LearnAll(ctx.address, k, old(Books(known)), log)
            case None => !ok
            case Some(b) => ok && Keyed(ctx, known') && Books(known') == b && fresh(known'.Values - known.Values)
  {
    ghost var book := Books(known);
    ok, known' := true, known;
    assert log[..0] == [];
    for i := 0 to |log|
      invariant ok && Keyed(ctx, known') && fresh(known'.Values - known.Values)
      invariant LearnAll(ctx.address, k, book, log[..i]) == Some(Books(known'))
    {
      assert log[..i + 1] == log[..i] + [log[i]] && log[..i + 1][..i] == log[..i];
      if Concerns(ctx.address, k, log[i]) {
        ok, known' := LearnEvent(ctx, known', log[i]);
        if !ok {
          PassStaysLearnt(ctx.address, k, book, log, i + 1);
          return;
        }
      }
    }
    assert log[..|log|] == log;
  }

  /** The four loops, in the order of the original. */
  method LearnLog(ctx: Context, known: map<ChannelId, Channel>, log: Log)
    returns (ok: bool, known': map<ChannelId, Channel>)
    requires Keyed(ctx, known)
    modifies known.Values
    ensures match Learnt(ctx.address, old(Books(known)), log)
            case None => !ok
            case Some(b) => ok && Keyed(ctx, known') && Books(known') == b && fresh(known'.Values - known.Values)
  {
    ok, known' := LearnPass(ctx, Creation, known, log);
    if ok { ok, known' := LearnPass(ctx, TopUpKind, known', log); }
    if ok { ok, known' := LearnPass(ctx, CloseKind, known', log); }
    if ok { ok, known' := LearnPass(ctx, Settlement, known', log); }
  }

  /** Filing the client's list in the dictionary. */
  method FileChannels(ctx: Context, channels: seq<Channel>, ghost index: map<ChannelId, nat>, ghost book: Book)
    returns (known: map<ChannelId, Channel>)
    requires Lists(channels, index, book) && Sound(ctx, channels)
    ensures Keyed(ctx, known) && Books(known) == book && forall id :: id in known ==> known[id] in channels
  {
    known := map[];
    for i := 0 to |channels|
      invariant forall id {:trigger id in known} :: id in known ==>
                  id in index && index[id] < i && known[id] == channels[index[id]]
      invariant forall j {:trigger channels[j]} :: 0 <= j < i ==> KeyOfHeld(channels[j].Value()) in known
    {
      known := known[KeyOfHeld(channels[i].Value()) := channels[i]];
    }
    assert known.Keys == book.Keys by {
      forall id | id in book ensures id in known {
        assert id in index;
        assert KeyOfHeld(channels[index[id]].Value()) in known;
      }
    }
  }

  /** The book of the dictionary's channels that are not closed, without those still to do. */
  ghost function OpenBut(known: map<ChannelId, Channel>, todo: set<ChannelId>): Book
    reads known.Values
  {
    map id | id in known && id !in todo && known[id].state != Closed :: known[id].Value()
  }

  lemma OneLessToDo(ctx: Context, known: map<ChannelId, Channel>, todo: set<ChannelId>, id: ChannelId,
                    channels: seq<Channel>, index: map<ChannelId, nat>)
    requires Keyed(ctx, known) && id in todo && id in known && Lists(channels, index, OpenBut(known, todo))
    ensures if known[id].state == Closed then Lists(channels, index, OpenBut(known, todo - {id}))
            else Lists(channels + [known[id]], index[id := |channels|], OpenBut(known, todo - {id}))
  {
    if known[id].state == Closed {
      assert OpenBut(known, todo - {id}) == OpenBut(known, todo);
    } else {
      assert OpenBut(known, todo - {id}) == OpenBut(known, todo)[id := known[id].Value()];
    }
  }

  /** The list of the dictionary's channels that are not closed, in some order. */
  method DropClosed(ctx: Context, known: map<ChannelId, Channel>)
    returns (channels: seq<Channel>, ghost index: map<ChannelId, nat>)
    requires Keyed(ctx, known)
    ensures Lists(channels, index, Forget(Books(known)))
    ensures forall i {:trigger channels[i]} :: 0 <= i < |channels| ==> channels[i].Valid() && channels[i].core == ctx
    ensures forall i, j :: 0 <= i < j < |channels| ==> channels[i] != channels[j]
  {
    channels, index := [], map[];
    var todo := known.Keys;
    while todo != {}
      invariant todo <= known.Keys
      invariant forall i {:trigger channels[i]} :: 0 <= i < |channels| ==> channels[i] in known.Values
      invariant Lists(channels, index, OpenBut(known, todo))
    {
      var id :| id in todo;
      OneLessToDo(ctx, known, todo, id, channels, index);
      if known[id].state != Closed {
        index := index[id := |channels|];
        channels := channels + [known[id]];
      }
      todo := todo - {id};
    }
    assert OpenBut(known, {}) == Forget(Books(known));
  }

  /** sync_channels on a list of channels. */
  method Synchronise(ctx: Context, channels: seq<Channel>, log: Log, ghost index: map<ChannelId, nat>, ghost book: Book)
    returns (ok: bool, rest: seq<Channel>, ghost index': map<ChannelId, nat>)
    requires Sound(ctx, channels) && Lists(channels, index, book)
    modifies channels
    ensures match SyncBook(ctx.address, book, log)
            case None => !ok
            case Some(b) => ok && Sound(ctx, rest) && Lists(rest, index', b)
  {
    rest, index' := [], map[];
    var known := FileChannels(ctx, channels, index, book);
    ok, known := LearnLog(ctx, known, log);
    if ok {
      rest, index' := DropClosed(ctx, known);
    }
  }

  // ---------------------------------------------------------------- the session

  class HttpSession {
    const client: Client
    const initialDeposit: nat -> nat
    const topupDeposit: nat -> nat
    var channel: Channel?

    ghost predicate Valid()
      reads this, channel, client, client.channels
    {
      client.Valid() && (channel != null ==> channel.Valid() && channel.core == client.ctx)
    }

    function ChannelNow(): Option<Held>
      reads this, channel
    {
      if channel == null then None else Some(channel.Value())
    }

    ghost function Parts(): set<object>
      reads this, client
    {
      (set c | c in client.channels) + if channel == null then {} else {channel}
    }

    constructor (client: Client, initialDeposit: nat -> nat, topupDeposit: nat -> nat)
      requires client.Valid()
      ensures Valid() && this.client == client && ChannelNow() == None
    {
      this.client, this.initialDeposit, this.topupDeposit, channel := client, initialDeposit, topupDeposit, null;
    }

    function Terms(): Funding {
      Funding(initialDeposit, topupDeposit)
    }

    /** Of the client's channels only the session's, before and after, have changed, and at most one was added. */
    twostate predicate OthersKept(channels: seq<Channel>, was: Channel?)
      reads this, client, channels
    {
      && (client.channels == channels || (channel != null && client.channels == channels + [channel]))
      && forall c :: c in channels && c != channel && c != was ==> c.Value() == old(c.Value())
    }

    predicate Reacted(reaction: Reaction, stopped: Option<Stop>)
      reads this, channel
    {
      match reaction
      case Again(c) => stopped == None && ChannelNow() == c
      case Done(c, why) => stopped == Some(why) && ChannelNow() == c
    }

    method FindChannel(receiver: Address, price: nat, wallet: Wallet) returns (ghost pick: Pick)
      requires Valid() && price > 0
      modifies this`channel, client`channels, client.channels
      ensures Valid() && fresh(Parts() - old(Parts()))
      ensures Picks(old(client.Values()), client.ctx, receiver, price, pick)
      ensures ChannelNow() ==
              Found(old(client.Values()), client.ctx, receiver, price, initialDeposit(price), topupDeposit(price),
                    wallet, pick)
      ensures OthersKept(old(client.channels), old(channel))
    {
      channel, pick := client.GetSuitableChannel(receiver, price, initialDeposit(price), topupDeposit(price), wallet);
    }

    method TopUpChannel(price: nat, wallet: Wallet)
      requires Valid() && channel != null && channel.state == Open
      modifies channel`deposit
      ensures Valid()
      ensures channel.Value() == old(channel.Value()).(deposit := old(channel.deposit) + Added(Terms(), price, wallet))
    {
      var ok := channel.TopUp(topupDeposit(price), wallet);
    }

    method Pay(price: nat)
      requires Valid() && channel != null
      modifies channel`balance, channel`balanceSig
      ensures Valid() && channel.Value() == old(channel.Value()).Transferred(price)
    {
      var sig := channel.CreateTransfer(price);
    }

    method OnPaymentRequested(receiver: Address, price: nat, wallet: Wallet)
      returns (stopped: Option<Stop>, ghost luck: Luck)
      requires Valid()
      modifies this`channel, client`channels, Parts()
      ensures Valid() && fresh(Parts() - old(Parts()))
      ensures Reacted(Session.OnPaymentRequested(old(ChannelNow()), price, luck), stopped)
      ensures Grants(client.ctx, Terms(), old(client.Values()), old(ChannelNow()), receiver, price, wallet, luck)
      ensures OthersKept(old(client.channels), old(channel))
    {
      luck := Luck(None, Added(Terms(), price, wallet));
      if price == 0 { return Some(Crash), luck; }
      if channel == null || channel.state != Open {
        ghost var pick := FindChannel(receiver, price, wallet);
        luck := luck.(chosen := ChannelNow());
      } else if channel.deposit - channel.balance < price {
        TopUpChannel(price, wallet);
      }
      if channel == null { return Some(NoChannel), luck; }
      Pay(price);
      return None, luck;
    }

    /** The two ways on_invalid_amount sets the balance before it pays; a stop means it does not get that far. */
    method OnInvalidAmount(headers: Headers, wallet: Wallet) returns (stopped: Option<Stop>, ghost luck: Luck)
      requires Valid()
      modifies this`channel, client`channels, Parts()
      ensures Valid() && fresh(Parts() - old(Parts()))
      ensures Reacted(Session.OnInvalidAmount(client.ctx, old(ChannelNow()), headers, luck), stopped)
      ensures if Corrects(client.ctx, old(ChannelNow()), headers)
              then Grants(client.ctx, Terms(), old(client.Values()), old(ChannelNow()), headers.receiver, headers.price,
                          wallet, luck)
              else luck == Luck(None, 0)
      ensures OthersKept(old(client.channels), old(channel))
    {
      luck := Luck(None, 0);
      if channel == null || headers.senderBalance.None? { return Some(Crash), luck; }
      var last := headers.senderBalance.value;
      var verified := false;
      if headers.signature.Some? {
        var signer := PyRecover(client.ctx.p, BalanceProof(channel.receiver, channel.block, last, client.ctx.p.self),
                                headers.signature.value);
        if signer.None? { return Some(Crash), luck; }
        verified := signer.value == channel.sender;
      }
      if verified && last == channel.balance { return Some(Disguise), luck; }
      stopped, luck := PayFrom(if verified then last else 0, headers.receiver, headers.price, wallet);
    }

    /** A payment on top of a balance that is set first. */
    method PayFrom(balance: nat, receiver: Address, price: nat, wallet: Wallet)
      returns (stopped: Option<Stop>, ghost luck: Luck)
      requires Valid() && channel != null
      modifies this`channel, client`channels, Parts()
      ensures Valid() && fresh(Parts() - old(Parts()))
      ensures Reacted(Session.OnPaymentRequested(Some(old(channel.Value()).(balance := balance)), price, luck), stopped)
      ensures Grants(client.ctx, Terms(), old(client.Values()), old(ChannelNow()), receiver, price, wallet, luck)
      ensures OthersKept(old(client.channels), old(channel))
    {
      ghost var hs, held := client.Values(), ChannelNow();
      SetBalance(balance);
      ghost var hs', held' := client.Values(), ChannelNow();
      stopped, luck := OnPaymentRequested(receiver, price, wallet);
      SameGrants(client.ctx, Terms(), hs', hs, held', held, receiver, price, wallet, luck);
    }

    method SetBalance(balance: nat)
      requires Valid() && channel != null
      modifies channel`balance, channel`balanceSig
      ensures Valid() && channel.Value() == old(channel.Value()).(balance := balance)
      ensures |client.Values()| == |old(client.Values())|
      ensures forall j :: 0 <= j < |client.channels| && client.channels[j] != channel ==>
                client.Values()[j] == old(client.Values())[j]
      ensures forall j :: 0 <= j < |client.channels| && client.channels[j] == channel ==>
                client.Values()[j].phase == old(client.Values())[j].phase == channel.state
    {
      channel.UpdateBalance(balance);
    }

    /** The dispatch of _request_resource. */
    method HandleResponse(reply: Reply, wallet: Wallet) returns (stopped: Option<Stop>, ghost luck: Luck)
      requires Valid()
      modifies this`channel, client`channels, Parts()
      ensures Valid() && fresh(Parts() - old(Parts()))
      ensures Reacted(React(client.ctx, old(ChannelNow()), reply, luck), stopped)
      ensures GrantsReply(client.ctx, Terms(), old(client.Values()), old(ChannelNow()), reply, wallet, luck)
      ensures OthersKept(old(client.channels), old(channel))
    {
      luck := Luck(None, 0);
      if reply.Raised? { return Some(HttpError), luck; }
      var headers := reply.headers;
      if !reply.paywalled { return Some(Success), luck; }
      if headers.nonexisting { return None, luck; }
      if headers.insufConfs { return None, luck; }
      if headers.invalidProof { return None, luck; }
      if headers.contract != client.ctx.p.self { return Some(WrongContract), luck; }
      if headers.invalidAmount {
        stopped, luck := OnInvalidAmount(headers, wallet);
      } else {
        stopped, luck := OnPaymentRequested(headers.receiver, headers.price, wallet);
      }
    }

    /** Session and server together, as the value model has them. */
    ghost function TalkNow(server: PaywallResource, sent: nat, stopped: Option<Stop>): Talk
      reads this, channel, server.channelManager, server.channelManager.state
    {
      Talk(server.channelManager.state.records, ChannelNow(), sent, stopped)
    }

    /** The session's payment headers, and the server's reply to them. */
    method Send(server: PaywallResource, price: nat) returns (reply: Reply)
      requires Valid() && server.Valid() && price > 0
      modifies server.channelManager.state
      ensures Valid() && server.Valid()
      ensures ChannelNow() == old(ChannelNow()) && client.Values() == old(client.Values())
      ensures var c := Check(server.channelManager.r, old(server.channelManager.state.records), price,
                             PaymentOf(client.ctx, old(ChannelNow())));
              reply == c.reply && server.channelManager.state.records == c.records
    {
      var data := PaymentOf(client.ctx, ChannelNow());
      assert channel != null ==> data.value.sig == channel.balanceSig;
      reply := server.PaywallCheck(price, data);
    }

    /** One request to a server that runs the paywall. */
    method RequestResource(server: PaywallResource, price: nat, wallet: Wallet)
      returns (stopped: Option<Stop>, ghost luck: Luck)
      requires Valid() && server.Valid() && price > 0
      modifies this`channel, client`channels, Parts(), server.channelManager.state
      ensures Valid() && server.Valid() && fresh(Parts() - old(Parts()))
      ensures forall sent: nat ::
                TalkNow(server, sent + 1, stopped) ==
                Exchange(client.ctx, server.channelManager.r, price, old(TalkNow(server, sent, None)), luck)
      ensures GrantsReply(client.ctx, Terms(), old(client.Values()), old(ChannelNow()),
                          Check(server.channelManager.r, old(server.channelManager.state.records), price,
                                PaymentOf(client.ctx, old(ChannelNow()))).reply,
                          wallet, luck)
      ensures OthersKept(old(client.channels), old(channel))
    {
      var reply := Send(server, price);
      stopped, luck := HandleResponse(reply, wallet);
    }

    /** The next request of a session that has sent some. */
    method RequestNext(server: PaywallResource, price: nat, wallets: seq<Wallet>, sent: nat,
                       ghost start: Talk, ghost books: seq<seq<Held>>, ghost lucks: seq<Luck>)
      returns (stopped: Option<Stop>, ghost luck: Luck)
      requires Valid() && server.Valid() && price > 0 && |lucks| == sent < |wallets|
      requires TalkNow(server, sent, None) == Requests(client.ctx, server.channelManager.r, price, start, lucks)
      requires GrantsAll(client.ctx, Terms(), server.channelManager.r, price, start, books, wallets, lucks)
      modifies this`channel, client`channels, Parts(), server.channelManager.state
      ensures Valid() && server.Valid() && fresh(Parts() - old(Parts()))
      ensures TalkNow(server, sent + 1, stopped) ==
              Requests(client.ctx, server.channelManager.r, price, start, lucks + [luck])
      ensures GrantsAll(client.ctx, Terms(), server.channelManager.r, price, start, books + [old(client.Values())],
                        wallets, lucks + [luck])
    {
      ghost var book := client.Values();
      stopped, luck := RequestResource(server, price, wallets[sent]);
      GrantedNext(client.ctx, Terms(), server.channelManager.r, price, start, books, wallets, lucks, book, luck);
    }

    /** The retry loop, for as many requests as there are wallets. */
    method Request(server: PaywallResource, price: nat, wallets: seq<Wallet>)
      returns (stopped: Option<Stop>, sent: nat, ghost lucks: seq<Luck>, ghost books: seq<seq<Held>>)
      requires Valid() && server.Valid() && price > 0
      modifies this`channel, client`channels, Parts(), server.channelManager.state
      ensures Valid() && server.Valid() && fresh(Parts() - old(Parts()))
      ensures |lucks| == sent <= |wallets| && (stopped == None ==> sent == |wallets|)
      ensures TalkNow(server, sent, stopped) ==
              Requests(client.ctx, server.channelManager.r, price, old(TalkNow(server, 0, None)), lucks)
      ensures GrantsAll(client.ctx, Terms(), server.channelManager.r, price, old(TalkNow(server, 0, None)), books,
                        wallets, lucks)
      ensures books != [] ==> books[0] == old(client.Values())
    {
      ghost var start, r := TalkNow(server, 0, None), server.channelManager.r;
      stopped, sent, lucks, books := None, 0, [], [];
      while stopped == None && sent < |wallets|
        invariant Valid() && server.Valid() && fresh(Parts() - old(Parts()))
        invariant |lucks| == sent <= |wallets|
        invariant TalkNow(server, sent, stopped) == Requests(client.ctx, r, price, start, lucks)
        invariant GrantsAll(client.ctx, Terms(), r, price, start, books, wallets, lucks)
        invariant if books == [] then client.Values() == old(client.Values()) else books[0] == old(client.Values())
        decreases |wallets| - sent
      {
        ghost var luck, book := Luck(None, 0), client.Values();
        stopped, luck := RequestNext(server, price, wallets, sent, start, books, lucks);
        lucks, books := lucks + [luck], books + [book];
        sent := sent + 1;
      }
    }
  }
}
