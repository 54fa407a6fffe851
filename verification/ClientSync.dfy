/** How a client rebuilds its channels from the chain: four passes over the log, on a book of channels by key. */
module ClientSync {
  import opened Prelude
  import opened Escrow
  import opened Accounts
  import opened Conservation
  import opened EventLog
  import opened EscrowLogs
  import opened Session

  type Book = map<ChannelId, Held>

  function NewChannel(id: ChannelId, deposit: nat): Held {
    Held(id.sender, id.receiver, id.openBlock, deposit, 0, Open)
  }

  /** One event; None where it names a channel the client does not know. */
  function Learn(book: Book, e: LogEntry): Option<Book> {
    var id := EntryId(e);
    match e.event
    case Created(_, _, d) =>
      Some(book[id := if id in book then book[id].(deposit := d) else NewChannel(id, d)])
    case ToppedUp(_, _, _, d) =>
      if id in book then Some(book[id := book[id].(deposit := book[id].deposit + d)]) else None
    case CloseRequested(_, _, _, b) =>
      if id in book then Some(book[id := book[id].(balance := b, phase := Settling)]) else None
    case Settled(_, _, _, _, _) =>
      if id in book then Some(book[id := book[id].(phase := Closed)]) else None
    case Withdrawn(_, _, _, _) => Some(book)
  }

  /** get_logs for one event name and this sender. */
  predicate Concerns(me: Address, k: Kind, e: LogEntry) {
    EntryId(e).sender == me && KindOf(e.event) == k
  }

  function LearnAll(me: Address, k: Kind, book: Book, log: Log): Option<Book> {
    if log == [] then Some(book)
    else
      match LearnAll(me, k, book, log[..|log| - 1])
      case None => None
      case Some(b) => if Concerns(me, k, log[|log| - 1]) then Learn(b, log[|log| - 1]) else Some(b)
  }

  function ThenLearn(me: Address, k: Kind, book: Option<Book>, log: Log): Option<Book> {
    match book
    case None => None
    case Some(b) => LearnAll(me, k, b, log)
  }

  function Forget(book: Book): Book {
    map id | id in book && book[id].phase != Closed :: book[id]
  }

  /** The four passes of sync_channels. */
  function Learnt(me: Address, book: Book, log: Log): Option<Book> {
    var b1 := LearnAll(me, Creation, book, log);
    var b2 := ThenLearn(me, TopUpKind, b1, log);
    var b3 := ThenLearn(me, CloseKind, b2, log);
    ThenLearn(me, Settlement, b3, log)
  }

  /** sync_channels: after the passes closed channels are dropped. */
  function SyncBook(me: Address, book: Book, log: Log): Option<Book> {
    match Learnt(me, book, log)
    case None => None
    case Some(b) => Some(Forget(b))
  }

  // ---------------------------------------------------------------- what the log says of a channel

  /** Whole-log summaries: every entry lies after start and up to head. */
  ghost predicate Covers(log: Log, start: nat, head: nat) {
    ValidLog(log, start) && forall i :: 0 <= i < |log| ==> log[i].blockNumber <= head
  }

  /** The balance of the last close request. */
  function AskedBalance(log: Log, id: ChannelId): Option<nat> {
    if log == [] then None
    else
      var e := log[|log| - 1];
      if EntryId(e) == id && e.event.CloseRequested? then Some(e.event.balance) else AskedBalance(log[..|log| - 1], id)
  }

  lemma {:induction false} PassStaysLearnt(me: Address, k: Kind, book: Book, log: Log, n: nat)
    requires n <= |log| && LearnAll(me, k, book, log[..n]).None?
    ensures LearnAll(me, k, book, log).None?
    decreases |log|
  {
    if n < |log| {
      assert log[..|log| - 1][..n] == log[..n];
      PassStaysLearnt(me, k, book, log[..|log| - 1], n);
    } else {
      assert log[..n] == log;
    }
  }

  /** The summaries of creations one entry further on; a channel is created once. */
  lemma CreationSummary(log: Log, start: nat, head: nat, n: nat, id: ChannelId)
    requires Covers(log, start, head) && 0 < n <= |log|
    ensures var e := log[n - 1];
            var own := EntryId(e) == id && e.event.Created?;
            && Has(Creation, log[..n], id, start, head) == (Has(Creation, log[..n - 1], id, start, head) || own)
            && (own ==> !Has(Creation, log[..n - 1], id, start, head))
            && TotalOf(Creation, log[..n], id, start, head) ==
                 if own then e.event.deposit else TotalOf(Creation, log[..n - 1], id, start, head)
  {
    var e := log[n - 1];
    assert log[..n] == log[..n - 1] + [e];
    SummarySnoc(Creation, log[..n - 1], e, id, start, head);
    if EntryId(e) == id && e.event.Created? {
      CreatedOnce(log, start, n - 1, start, head);
    }
  }

  lemma LearnAllSnoc(me: Address, k: Kind, book: Book, log: Log, n: nat)
    requires 0 < n <= |log|
    ensures LearnAll(me, k, book, log[..n]) ==
            match LearnAll(me, k, book, log[..n - 1]) {
              case None => None
              case Some(b) => if Concerns(me, k, log[n - 1]) then Learn(b, log[n - 1]) else Some(b)
            }
  {
    assert log[..n][..n - 1] == log[..n - 1];
  }

  lemma {:induction false} CreationsLearnt(me: Address, book: Book, log: Log, start: nat, head: nat, n: nat,
                                           id: ChannelId)
    requires Covers(log, start, head) && n <= |log| && id.sender == me
    ensures var b := LearnAll(me, Creation, book, log[..n]);
            && b.Some?
            && (id in b.value <==> id in book || Has(Creation, log[..n], id, start, head))
            && (id in b.value ==>
                  b.value[id] == (if id in book then book[id] else NewChannel(id, 0))
                                 .(deposit := if Has(Creation, log[..n], id, start, head)
                                              then TotalOf(Creation, log[..n], id, start, head) else book[id].deposit))
  {
    if n > 0 {
      CreationsLearnt(me, book, log, start, head, n - 1, id);
      CreationSummary(log, start, head, n, id);
      LearnAllSnoc(me, Creation, book, log, n);
    }
  }

  /** Every channel of mine that the log names in this kind of event is in the book. */
  ghost predicate Knows(me: Address, k: Kind, book: Book, log: Log) {
    forall j {:trigger log[j]} :: 0 <= j < |log| && Concerns(me, k, log[j]) ==> EntryId(log[j]) in book
  }

  predicate IsLater(k: Kind) {
    k == TopUpKind || k == CloseKind || k == Settlement
  }

  /** What a later pass makes of a known channel. */
  function PassEffect(k: Kind, h: Held, log: Log, id: ChannelId, start: nat, head: nat): Held {
    match k
    case TopUpKind => h.(deposit := h.deposit + TotalOf(TopUpKind, log, id, start, head))
    case CloseKind =>
      if AskedBalance(log, id).Some? then h.(balance := AskedBalance(log, id).value, phase := Settling) else h
    case _ => if Has(Settlement, log, id, start, head) then h.(phase := Closed) else h
  }

  lemma EffectSnoc(k: Kind, h: Held, log: Log, n: nat, id: ChannelId, start: nat, head: nat)
    requires IsLater(k) && 0 < n <= |log| && start < log[n - 1].blockNumber <= head
    ensures var e := log[n - 1];
            var before := PassEffect(k, h, log[..n - 1], id, start, head);
            PassEffect(k, h, log[..n], id, start, head) ==
            if EntryId(e) != id || KindOf(e.event) != k then before
            else
              match e.event {
                case ToppedUp(_, _, _, d) => before.(deposit := before.deposit + d)
                case CloseRequested(_, _, _, b) => before.(balance := b, phase := Settling)
                case _ => before.(phase := Closed)
              }
  {
    assert log[..n] == log[..n - 1] + [log[n - 1]] && log[..n][..n - 1] == log[..n - 1];
    SummarySnoc(k, log[..n - 1], log[n - 1], id, start, head);
  }

  lemma {:induction false} LaterPassLearnt(me: Address, k: Kind, book: Book, log: Log, start: nat, head: nat, n: nat,
                                           id: ChannelId)
    requires Covers(log, start, head) && n <= |log| && id.sender == me
    requires IsLater(k) && Knows(me, k, book, log)
    ensures var b := LearnAll(me, k, book, log[..n]);
            && b.Some? && b.value.Keys == book.Keys
            && (id in book ==> b.value[id] == PassEffect(k, book[id], log[..n], id, start, head))
  {
    if n > 0 {
      var e := log[n - 1];
      LaterPassLearnt(me, k, book, log, start, head, n - 1, id);
      LearnAllSnoc(me, k, book, log, n);
      if id in book {
        EffectSnoc(k, book[id], log, n, id, start, head);
      }
      if Concerns(me, k, e) {
        assert EntryId(e) in book;
      }
    }
  }

  // ---------------------------------------------------------------- the result

  /** What the client holds before: channels of its own that were created on chain; a closed one was settled. */
  ghost predicate LocalOk(me: Address, book: Book, log: Log, start: nat, head: nat) {
    forall id {:trigger id in book} :: id in book ==>
      && id.sender == me && id == ChannelId(book[id].sender, book[id].receiver, book[id].block)
      && Has(Creation, log, id, start, head)
      && (book[id].phase.Closed? ==> Has(Settlement, log, id, start, head))
      && (book[id].phase.Settling? ==> Has(CloseKind, log, id, start, head))
  }

  predicate OnChain(log: Log, id: ChannelId, start: nat, head: nat) {
    Has(Creation, log, id, start, head) && !Has(Settlement, log, id, start, head)
  }

  function Total(log: Log, id: ChannelId, start: nat, head: nat): nat {
    TotalOf(Creation, log, id, start, head) + TotalOf(TopUpKind, log, id, start, head)
  }

  /** A synchronised book: exactly the sender's unsettled channels, each with its on-chain deposit. A channel whose
      closing was requested is settling with the requested balance; any other is open with the balance it had. */
  ghost predicate Synced(me: Address, before: Book, after: Book, log: Log, start: nat, head: nat) {
    forall id: ChannelId ::
      && (id in after <==> id.sender == me && OnChain(log, id, start, head))
      && (id in after ==>
            after[id] ==
            Held(id.sender, id.receiver, id.openBlock, Total(log, id, start, head),
                 if AskedBalance(log, id).Some? then AskedBalance(log, id).value
                 else if id in before then before[id].balance else 0,
                 if AskedBalance(log, id).Some? then Settling else Open))
  }

  lemma KnownAfterCreations(me: Address, book: Book, log: Log, start: nat, head: nat, b1: Book, k: Kind)
    requires Covers(log, start, head) && LearnAll(me, Creation, book, log) == Some(b1) && k != Creation
    ensures Knows(me, k, b1, log)
  {
    assert log[..|log|] == log;
    forall j {:trigger log[j]} | 0 <= j < |log| && Concerns(me, k, log[j]) ensures EntryId(log[j]) in b1 {
      CreationsLearnt(me, book, log, start, head, |log|, EntryId(log[j]));
      CreationBefore(log, start, j, head);
    }
  }

  lemma {:induction false} OthersStay(me: Address, k: Kind, book: Book, log: Log, id: ChannelId)
    requires id.sender != me
    ensures var b := LearnAll(me, k, book, log);
            b.Some? ==> (id in b.value <==> id in book)
  {
    if log != [] {
      OthersStay(me, k, book, log[..|log| - 1], id);
    }
  }

  lemma {:induction false} AskedIsRequested(log: Log, id: ChannelId, start: nat, head: nat)
    requires forall i :: 0 <= i < |log| ==> start < log[i].blockNumber <= head
    ensures AskedBalance(log, id).Some? <==> Has(CloseKind, log, id, start, head)
  {
    if log != [] {
      AskedIsRequested(log[..|log| - 1], id, start, head);
    }
  }

  /** The sync of one channel. */
  lemma SyncAt(me: Address, book: Book, log: Log, start: nat, head: nat, id: ChannelId)
    requires Covers(log, start, head) && LocalOk(me, book, log, start, head) && id.sender == me
    ensures var after := SyncBook(me, book, log);
            && after.Some?
            && (id in after.value <==> OnChain(log, id, start, head))
            && (id in after.value ==>
                  after.value[id] ==
                  Held(id.sender, id.receiver, id.openBlock, Total(log, id, start, head),
                       if AskedBalance(log, id).Some? then AskedBalance(log, id).value
                       else if id in book then book[id].balance else 0,
                       if AskedBalance(log, id).Some? then Settling else Open))
  {
    assert log[..|log|] == log;
    CreationsLearnt(me, book, log, start, head, |log|, id);
    var b1 := LearnAll(me, Creation, book, log).value;
    KnownAfterCreations(me, book, log, start, head, b1, TopUpKind);
    LaterPassLearnt(me, TopUpKind, b1, log, start, head, |log|, id);
    var b2 := LearnAll(me, TopUpKind, b1, log).value;
    KnownAfterCreations(me, book, log, start, head, b1, CloseKind);
    LaterPassLearnt(me, CloseKind, b2, log, start, head, |log|, id);
    var b3 := LearnAll(me, CloseKind, b2, log).value;
    KnownAfterCreations(me, book, log, start, head, b1, Settlement);
    LaterPassLearnt(me, Settlement, b3, log, start, head, |log|, id);
    AskedIsRequested(log, id, start, head);
  }

  lemma SyncFollowsLog(me: Address, book: Book, log: Log, start: nat, head: nat)
    requires Covers(log, start, head) && LocalOk(me, book, log, start, head)
    ensures SyncBook(me, book, log).Some? && Synced(me, book, SyncBook(me, book, log).value, log, start, head)
  {
    SyncAt(me, book, log, start, head, ChannelId(me, 0, 0));
    var after := SyncBook(me, book, log).value;
    forall id: ChannelId
      ensures id in after <==> id.sender == me && OnChain(log, id, start, head)
      ensures id in after ==>
                after[id] ==
                Held(id.sender, id.receiver, id.openBlock, Total(log, id, start, head),
                     if AskedBalance(log, id).Some? then AskedBalance(log, id).value
                     else if id in book then book[id].balance else 0,
                     if AskedBalance(log, id).Some? then Settling else Open)
    {
      if id.sender == me {
        SyncAt(me, book, log, start, head, id);
      } else {
        StrangersUnknown(me, book, log, id);
      }
    }
  }

  lemma StrangersUnknown(me: Address, book: Book, log: Log, id: ChannelId)
    requires id.sender != me && id !in book
    ensures SyncBook(me, book, log).Some? ==> id !in SyncBook(me, book, log).value
  {
    OthersStay(me, Creation, book, log, id);
    var b1 := LearnAll(me, Creation, book, log);
    if b1.Some? {
      OthersStay(me, TopUpKind, b1.value, log, id);
      var b2 := LearnAll(me, TopUpKind, b1.value, log);
      if b2.Some? {
        OthersStay(me, CloseKind, b2.value, log, id);
        var b3 := LearnAll(me, CloseKind, b2.value, log);
        if b3.Some? {
          OthersStay(me, Settlement, b3.value, log, id);
        }
      }
    }
  }

  // ---------------------------------------------------------------- other senders' events

  lemma {:induction false} PassSeesOwn(me: Address, k: Kind, book: Book, log: Log)
    ensures LearnAll(me, k, book, Own(Sending(me), log)) == LearnAll(me, k, book, log)
  {
    if log != [] {
      var front, last := log[..|log| - 1], log[|log| - 1];
      PassSeesOwn(me, k, book, front);
      if EntryId(last).sender == me {
        assert (Own(Sending(me), front) + [last])[..|Own(Sending(me), front)|] == Own(Sending(me), front);
      } else {
        assert Own(Sending(me), front) + [] == Own(Sending(me), front);
      }
    }
  }

  /** What other senders do on the chain does not matter to a sync. */
  lemma SyncSeesOwn(me: Address, book: Book, log: Log)
    ensures SyncBook(me, book, Own(Sending(me), log)) == SyncBook(me, book, log)
  {
    PassSeesOwn(me, Creation, book, log);
    var b1 := LearnAll(me, Creation, book, log);
    if b1.Some? {
      PassSeesOwn(me, TopUpKind, b1.value, log);
      var b2 := LearnAll(me, TopUpKind, b1.value, log);
      if b2.Some? {
        PassSeesOwn(me, CloseKind, b2.value, log);
        var b3 := LearnAll(me, CloseKind, b2.value, log);
        if b3.Some? {
          PassSeesOwn(me, Settlement, b3.value, log);
        }
      }
    }
  }

  lemma {:induction false} OwnAsked(me: Address, log: Log, id: ChannelId)
    requires id.sender == me
    ensures AskedBalance(Own(Sending(me), log), id) == AskedBalance(log, id)
  {
    if log != [] {
      var front, last := log[..|log| - 1], log[|log| - 1];
      OwnAsked(me, front, id);
      if EntryId(last).sender == me {
        assert (Own(Sending(me), front) + [last])[..|Own(Sending(me), front)|] == Own(Sending(me), front);
      } else {
        assert Own(Sending(me), front) + [] == Own(Sending(me), front);
      }
    }
  }

  lemma OwnLocal(me: Address, book: Book, log: Log, start: nat, head: nat)
    requires LocalOk(me, book, log, start, head)
    ensures LocalOk(me, book, Own(Sending(me), log), start, head)
  {
    forall id | id in book
      ensures Has(Creation, Own(Sending(me), log), id, start, head)
      ensures book[id].phase.Closed? ==> Has(Settlement, Own(Sending(me), log), id, start, head)
      ensures book[id].phase.Settling? ==> Has(CloseKind, Own(Sending(me), log), id, start, head)
    {
      OwnSummaries(Sending(me), Creation, log, id, start, head);
      OwnSummaries(Sending(me), Settlement, log, id, start, head);
      OwnSummaries(Sending(me), CloseKind, log, id, start, head);
    }
  }

  /** What the sender's events say, the whole log says. */
  lemma OwnSynced(me: Address, before: Book, after: Book, log: Log, start: nat, head: nat)
    requires Synced(me, before, after, Own(Sending(me), log), start, head)
    ensures Synced(me, before, after, log, start, head)
  {
    var own := Own(Sending(me), log);
    forall id: ChannelId
      ensures id in after <==> id.sender == me && OnChain(log, id, start, head)
      ensures id in after ==>
                && OnChain(own, id, start, head) && Total(own, id, start, head) == Total(log, id, start, head)
                && AskedBalance(own, id) == AskedBalance(log, id)
    {
      if id.sender == me {
        OwnSummaries(Sending(me), Creation, log, id, start, head);
        OwnSummaries(Sending(me), TopUpKind, log, id, start, head);
        OwnSummaries(Sending(me), Settlement, log, id, start, head);
        OwnAsked(me, log, id);
      }
    }
  }

  /** For every log the contract can produce in which the sender has used no key twice, whatever others do, and
      whatever balances, deposits and channels the client has lost: the sync raises nothing and leaves exactly the
      sender's unsettled channels, as the chain has them. */
  lemma SyncFollowsChain(me: Address, book: Book, log: Log, start: nat, head: nat)
    requires Covers(Own(Sending(me), log), start, head) && LocalOk(me, book, log, start, head)
    ensures SyncBook(me, book, log).Some? && Synced(me, book, SyncBook(me, book, log).value, log, start, head)
  {
    SyncSeesOwn(me, book, log);
    OwnLocal(me, book, log, start, head);
    SyncFollowsLog(me, book, Own(Sending(me), log), start, head);
    OwnSynced(me, book, SyncBook(me, book, log).value, log, start, head);
  }

  /** Running it again changes nothing. */
  lemma SyncIdempotent(me: Address, book: Book, log: Log, start: nat, head: nat)
    requires Covers(Own(Sending(me), log), start, head) && LocalOk(me, book, log, start, head)
    ensures SyncBook(me, book, log).Some?
    ensures SyncBook(me, SyncBook(me, book, log).value, log) == SyncBook(me, book, log)
  {
    SyncFollowsChain(me, book, log, start, head);
    var once := SyncBook(me, book, log).value;
    forall id | id in once
      ensures id.sender == me && id == ChannelId(once[id].sender, once[id].receiver, once[id].block)
      ensures Has(Creation, log, id, start, head) && !once[id].phase.Closed?
      ensures once[id].phase.Settling? ==> Has(CloseKind, log, id, start, head)
    {
      AskedIsRequested(Own(Sending(me), log), id, start, head);
      OwnAsked(me, log, id);
      OwnSummaries(Sending(me), CloseKind, log, id, start, head);
    }
    SyncFollowsChain(me, once, log, start, head);
    assert SyncBook(me, once, log).value == once;
  }

  // ---------------------------------------------------------------- when a sync raises

  /** Entry j of this kind is about a channel of mine that is neither in the book nor created in the log. */
  predicate Unknown(me: Address, book: Book, log: Log, j: int)
    requires 0 <= j < |log|
  {
    && EntryId(log[j]).sender == me && IsLater(KindOf(log[j].event))
    && EntryId(log[j]) !in book && !CreatedIn(log, EntryId(log[j]))
  }

  function CreatedIn(log: Log, id: ChannelId): bool {
    log != []
    && (CreatedIn(log[..|log| - 1], id) || (log[|log| - 1].event.Created? && EntryId(log[|log| - 1]) == id))
  }

  ghost predicate AnyUnknown(me: Address, book: Book, log: Log, k: Kind) {
    exists j :: 0 <= j < |log| && Concerns(me, k, log[j]) && EntryId(log[j]) !in book
  }

  lemma {:induction false} CreationsRaiseNothing(me: Address, book: Book, log: Log, id: ChannelId)
    ensures var b := LearnAll(me, Creation, book, log);
            b.Some? && (id in b.value <==> id in book || (id.sender == me && CreatedIn(log, id)))
  {
    if log != [] {
      CreationsRaiseNothing(me, book, log[..|log| - 1], id);
    }
  }

  lemma {:induction false} PassRaisesExactlyWhen(me: Address, k: Kind, book: Book, log: Log)
    requires IsLater(k)
    ensures LearnAll(me, k, book, log).None? <==> AnyUnknown(me, book, log, k)
    ensures LearnAll(me, k, book, log).Some? ==> LearnAll(me, k, book, log).value.Keys == book.Keys
  {
    if log != [] {
      var n := |log| - 1;
      PassRaisesExactlyWhen(me, k, book, log[..n]);
      assert AnyUnknown(me, book, log, k) <==>
             AnyUnknown(me, book, log[..n], k) || (Concerns(me, k, log[n]) && EntryId(log[n]) !in book) by {
        if AnyUnknown(me, book, log, k) {
          var j :| 0 <= j < |log| && Concerns(me, k, log[j]) && EntryId(log[j]) !in book;
          if j < n {
            assert log[..n][j] == log[j];
          }
        }
        if AnyUnknown(me, book, log[..n], k) {
          var j :| 0 <= j < n && Concerns(me, k, log[..n][j]) && EntryId(log[..n][j]) !in book;
          assert log[j] == log[..n][j];
        }
      }
    }
  }

  /** A sync of any log raises exactly if an event of mine names a channel that the client neither holds nor finds
      created in that log. */
  lemma SyncRaisesExactlyWhen(me: Address, book: Book, log: Log)
    ensures SyncBook(me, book, log).None? <==> exists j :: 0 <= j < |log| && Unknown(me, book, log, j)
  {
    CreationsRaiseNothing(me, book, log, ChannelId(me, 0, 0));
    var b1 := LearnAll(me, Creation, book, log).value;
    forall j | 0 <= j < |log| && EntryId(log[j]).sender == me
      ensures EntryId(log[j]) in b1 <==> EntryId(log[j]) in book || CreatedIn(log, EntryId(log[j]))
    {
      CreationsRaiseNothing(me, book, log, EntryId(log[j]));
    }
    PassRaisesExactlyWhen(me, TopUpKind, b1, log);
    PassRaisesExactlyWhen(me, CloseKind, b1, log);
    PassRaisesExactlyWhen(me, Settlement, b1, log);
    KeysDecide(me, b1, log);
    if j :| 0 <= j < |log| && Unknown(me, book, log, j) {
      assert Concerns(me, KindOf(log[j].event), log[j]) && EntryId(log[j]) !in b1;
      assert AnyUnknown(me, b1, log, KindOf(log[j].event));
    }
    if k :| IsLater(k) && AnyUnknown(me, b1, log, k) {
      var j :| 0 <= j < |log| && Concerns(me, k, log[j]) && EntryId(log[j]) !in b1;
      assert Unknown(me, book, log, j);
    }
  }

  /** Whether the later passes raise depends on the known keys only. */
  lemma KeysDecide(me: Address, book: Book, log: Log)
    ensures var b3 := ThenLearn(me, CloseKind, LearnAll(me, TopUpKind, book, log), log);
            ThenLearn(me, Settlement, b3, log).None? <==>
              AnyUnknown(me, book, log, TopUpKind) || AnyUnknown(me, book, log, CloseKind)
              || AnyUnknown(me, book, log, Settlement)
  {
    PassRaisesExactlyWhen(me, TopUpKind, book, log);
    var b2 := LearnAll(me, TopUpKind, book, log);
    if b2.Some? {
      PassRaisesExactlyWhen(me, CloseKind, b2.value, log);
      var b3 := LearnAll(me, CloseKind, b2.value, log);
      if b3.Some? {
        PassRaisesExactlyWhen(me, Settlement, b3.value, log);
      }
    }
  }

  // ---------------------------------------------------------------- against the contract's storage

  predicate EntriesWithin(log: Log, start: nat, head: nat) {
    forall i :: 0 <= i < |log| ==> start < log[i].blockNumber <= head
  }

  /** What the log says of a channel and what its account says. */
  predicate Tells(a: Account, log: Log, id: ChannelId, start: nat, head: nat) {
    && (a.Live? <==> OnChain(log, id, start, head))
    && match a
       case Fresh =>
         && Total(log, id, start, head) == 0 && AskedBalance(log, id).None?
         && !Has(Creation, log, id, start, head) && !Has(Settlement, log, id, start, head)
       case Live(d, _, _, closing) => d == Total(log, id, start, head) && closing == AskedBalance(log, id)
       case _ => Has(Settlement, log, id, start, head)
  }

  /** The summaries of one channel with one more entry. */
  lemma SummariesSnoc(log: Log, e: LogEntry, id: ChannelId, start: nat, head: nat)
    requires start < e.blockNumber <= head
    ensures var own, all := EntryId(e) == id, log + [e];
            && Has(Creation, all, id, start, head) == (Has(Creation, log, id, start, head) || (own && e.event.Created?))
            && Has(Settlement, all, id, start, head) ==
                 (Has(Settlement, log, id, start, head) || (own && e.event.Settled?))
            && Total(all, id, start, head) ==
                 Total(log, id, start, head)
                 + (if own && (e.event.Created? || e.event.ToppedUp?) then Amount(e.event) else 0)
            && AskedBalance(all, id) ==
                 if own && e.event.CloseRequested? then Some(e.event.balance) else AskedBalance(log, id)
  {
    SummarySnoc(Creation, log, e, id, start, head);
    SummarySnoc(TopUpKind, log, e, id, start, head);
    SummarySnoc(Settlement, log, e, id, start, head);
    assert (log + [e])[..|log|] == log;
  }

  lemma TellsNext(log: Log, e: LogEntry, id: ChannelId, start: nat, head: nat)
    requires start < e.blockNumber <= head && !AccountOf(log + [e], id).Impossible?
    requires AccountOf(log, id).Dead? ==> EntryId(e) == id ==> !e.event.Created?
    requires Tells(AccountOf(log, id), log, id, start, head)
    ensures Tells(AccountOf(log + [e], id), log + [e], id, start, head)
  {
    AccountSnoc(log, e, id);
    SummariesSnoc(log, e, id, start, head);
  }

  lemma {:induction false} LogTellsAccount(log: Log, id: ChannelId, start: nat, head: nat)
    requires EntriesWithin(log, start, head) && FirstLife(log, id) && !AccountOf(log, id).Impossible?
    ensures Tells(AccountOf(log, id), log, id, start, head)
  {
    if log != [] {
      var front, last := log[..|log| - 1], log[|log| - 1];
      assert log == front + [last];
      PrefixIsPossible(log, |front|, id);
      LogTellsAccount(front, id, start, head);
      if AccountOf(front, id).Dead? {
        AccountIsSums(front, id);
        SumsSnoc(front, last, id);
      }
      TellsNext(front, last, id, start, head);
    }
  }

  /** The contract's storage, as the client's book shows it: the sender's live channels with their deposits, settling
      at the requested balance where a close request is pending. */
  ghost predicate Mirrors(p: Params, escrow: Storage, me: Address, before: Book, after: Book) {
    forall id: ChannelId {:trigger id in after} ::
      var channel, closing := escrow.ChannelAt(KeyOf(p, id)), escrow.ClosingAt(KeyOf(p, id));
      && (id in after <==> id.sender == me && channel.openBlock != 0)
      && (id in after ==>
            after[id] ==
            Held(id.sender, id.receiver, channel.openBlock, channel.deposit,
                 if closing.settleBlock != 0 then closing.balance
                 else if id in before then before[id].balance else 0,
                 if closing.settleBlock != 0 then Settling else Open))
  }

  /** After any run of the contract in which the sender used no key twice, whatever everybody else did, a sync leaves
      exactly what the contract stores. */
  lemma SyncMirrorsContract(p: Params, w: World, run: seq<Action>, now: World, start: nat, me: Address, book: Book)
    requires KeysDistinct(p) && Initial(p, w) && Exec(p, w, run) == now && BlocksInRange(now) && start < |w.chain|
    requires NoKeyReused(Sending(me), now.log) && LocalOk(me, book, now.log, start, |now.chain|)
    ensures SyncBook(me, book, now.log).Some?
    ensures Mirrors(p, now.escrow, me, book, SyncBook(me, book, now.log).value)
  {
    LogIsValid(p, w, run, now, start, Sending(me));
    RunIsOrdered(p, w, run);
    OwnEntries(Sending(me), now.log);
    SyncFollowsChain(me, book, now.log, start, |now.chain|);
    forall id: ChannelId
      ensures id.sender == me ==>
                && (now.escrow.ChannelAt(KeyOf(p, id)).openBlock != 0 <==> AccountOf(now.log, id).Live?)
                && Agree(p, now, id) && Tells(AccountOf(now.log, id), now.log, id, start, |now.chain|)
    {
      if id.sender == me {
        RunAgrees(p, w, run, id);
        LogTellsAccount(now.log, id, start, |now.chain|);
      }
    }
  }
}
