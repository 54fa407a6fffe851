/** What an event log says about one channel within a range of blocks, and which logs the contract can produce. */
module EventLog {
  import opened Prelude
  import opened Escrow
  import opened Accounts
  import opened Conservation

  type Log = seq<LogEntry>

  datatype Kind = Creation | TopUpKind | CloseKind | Settlement | WithdrawalKind

  function KindOf(e: Event): Kind {
    match e
    case Created(_, _, _) => Creation
    case ToppedUp(_, _, _, _) => TopUpKind
    case CloseRequested(_, _, _, _) => CloseKind
    case Settled(_, _, _, _, _) => Settlement
    case Withdrawn(_, _, _, _) => WithdrawalKind
  }

  /** An entry of this kind for this channel in blocks lo + 1 to hi. */
  predicate Is(e: LogEntry, k: Kind, id: ChannelId, lo: nat, hi: nat) {
    EntryId(e) == id && KindOf(e.event) == k && lo < e.blockNumber <= hi
  }

  function Has(k: Kind, log: Log, id: ChannelId, lo: nat, hi: nat): bool {
    log != [] && (Is(log[|log| - 1], k, id, lo, hi) || Has(k, log[..|log| - 1], id, lo, hi))
  }

  function Amount(e: Event): nat {
    match e
    case Created(_, _, d) => d
    case ToppedUp(_, _, _, d) => d
    case _ => 0
  }

  /** The tokens that creations, or top-ups, brought in. */
  function TotalOf(k: Kind, log: Log, id: ChannelId, lo: nat, hi: nat): nat {
    if log == [] then 0
    else
      var e := log[|log| - 1];
      TotalOf(k, log[..|log| - 1], id, lo, hi) + if Is(e, k, id, lo, hi) then Amount(e.event) else 0
  }

  lemma SummarySnoc(k: Kind, log: Log, e: LogEntry, id: ChannelId, lo: nat, hi: nat)
    ensures Has(k, log + [e], id, lo, hi) == (Has(k, log, id, lo, hi) || Is(e, k, id, lo, hi))
    ensures TotalOf(k, log + [e], id, lo, hi) ==
            TotalOf(k, log, id, lo, hi) + if Is(e, k, id, lo, hi) then Amount(e.event) else 0
  {
    assert (log + [e])[..|log|] == log;
  }

  /** Adjacent ranges add up. */
  lemma {:induction false} SummarySplit(k: Kind, log: Log, id: ChannelId, lo: nat, mid: nat, hi: nat)
    requires lo <= mid <= hi
    ensures Has(k, log, id, lo, hi) == (Has(k, log, id, lo, mid) || Has(k, log, id, mid, hi))
    ensures TotalOf(k, log, id, lo, hi) == TotalOf(k, log, id, lo, mid) + TotalOf(k, log, id, mid, hi)
  {
    if log != [] {
      SummarySplit(k, log[..|log| - 1], id, lo, mid, hi);
    }
  }

  lemma {:induction false} NothingToTotal(k: Kind, log: Log, id: ChannelId, lo: nat, hi: nat)
    ensures !Has(k, log, id, lo, hi) ==> TotalOf(k, log, id, lo, hi) == 0
  {
    if log != [] {
      NothingToTotal(k, log[..|log| - 1], id, lo, hi);
    }
  }

  lemma {:induction false} HasAt(k: Kind, log: Log, id: ChannelId, lo: nat, hi: nat, i: nat)
    requires i < |log| && Is(log[i], k, id, lo, hi)
    ensures Has(k, log, id, lo, hi)
  {
    if i < |log| - 1 {
      HasAt(k, log[..|log| - 1], id, lo, hi, i);
    }
  }

  lemma {:induction false} WhereHas(k: Kind, log: Log, id: ChannelId, lo: nat, hi: nat) returns (i: nat)
    requires Has(k, log, id, lo, hi)
    ensures i < |log| && Is(log[i], k, id, lo, hi)
  {
    if Is(log[|log| - 1], k, id, lo, hi) {
      i := |log| - 1;
    } else {
      i := WhereHas(k, log[..|log| - 1], id, lo, hi);
    }
  }

  // ---------------------------------------------------------------- logs of the contract

  ghost predicate Ordered(log: Log) {
    forall i, j :: 0 <= i < j < |log| ==> log[i].blockNumber <= log[j].blockNumber
  }

  /** What may follow an entry of the same channel: nothing follows a settlement, only a settlement follows a close
      request, and nothing precedes the creation. */
  predicate MayFollow(earlier: Kind, later: Kind) {
    earlier != Settlement && later != Creation && (earlier == CloseKind ==> later == Settlement)
  }

  ghost predicate Sequential(log: Log) {
    forall i, j :: 0 <= i < j < |log| && EntryId(log[i]) == EntryId(log[j]) ==>
                     MayFollow(KindOf(log[i].event), KindOf(log[j].event))
  }

  ghost predicate CreatedBefore(log: Log, j: int)
    requires 0 <= j < |log|
  {
    exists i :: 0 <= i < j && EntryId(log[i]) == EntryId(log[j]) && log[i].event.Created?
  }

  ghost predicate Originated(log: Log) {
    forall j :: 0 <= j < |log| && !log[j].event.Created? ==> CreatedBefore(log, j)
  }

  /** A log the contract can produce while no key is used twice, every entry being after block start. */
  ghost predicate ValidLog(log: Log, start: nat) {
    && Ordered(log) && Sequential(log) && Originated(log)
    && (forall i :: 0 <= i < |log| ==> log[i].blockNumber > start)
  }

  lemma NotBefore(log: Log, start: nat, k: Kind, j: nat, lo: nat)
    requires ValidLog(log, start) && j < |log| && lo < log[j].blockNumber
    requires !MayFollow(k, KindOf(log[j].event))
    ensures !Has(k, log, EntryId(log[j]), start, lo)
    ensures forall hi :: !Has(k, log[..j], EntryId(log[j]), start, hi) && !Has(k, log[..j], EntryId(log[j]), lo, hi)
  {
    var id := EntryId(log[j]);
    if Has(k, log, id, start, lo) {
      var i := WhereHas(k, log, id, start, lo);
    }
    forall hi ensures !Has(k, log[..j], id, start, hi) && !Has(k, log[..j], id, lo, hi) {
      if Has(k, log[..j], id, start, hi) {
        var i := WhereHas(k, log[..j], id, start, hi);
      }
      if Has(k, log[..j], id, lo, hi) {
        var i := WhereHas(k, log[..j], id, lo, hi);
      }
    }
  }

  /** A channel is created once. */
  lemma CreatedOnce(log: Log, start: nat, j: nat, lo: nat, hi: nat)
    requires ValidLog(log, start) && j < |log| && log[j].event.Created?
    ensures !Has(Creation, log[..j], EntryId(log[j]), lo, hi)
    ensures TotalOf(Creation, log[..j], EntryId(log[j]), lo, hi) == 0
  {
    NothingToTotal(Creation, log[..j], EntryId(log[j]), lo, hi);
    if Has(Creation, log[..j], EntryId(log[j]), lo, hi) {
      var i := WhereHas(Creation, log[..j], EntryId(log[j]), lo, hi);
    }
  }

  lemma CreationBefore(log: Log, start: nat, j: nat, hi: nat)
    requires ValidLog(log, start) && j < |log| && log[j].blockNumber <= hi && !log[j].event.Created?
    ensures Has(Creation, log, EntryId(log[j]), start, hi)
  {
    assert CreatedBefore(log, j);
    var i :| 0 <= i < j && EntryId(log[i]) == EntryId(log[j]) && log[i].event.Created?;
    HasAt(Creation, log, EntryId(log[j]), start, hi, i);
  }

  /** Once a close was requested, later blocks bring no top-up. */
  lemma NoTopUpAfterRequest(log: Log, start: nat, id: ChannelId, mid: nat, hi: nat)
    requires ValidLog(log, start) && Has(CloseKind, log, id, start, mid) && start <= mid
    ensures !Has(TopUpKind, log, id, mid, hi) && TotalOf(TopUpKind, log, id, mid, hi) == 0
    ensures !Has(CloseKind, log, id, mid, hi)
  {
    if Has(TopUpKind, log, id, mid, hi) {
      var j := WhereHas(TopUpKind, log, id, mid, hi);
      NotBefore(log, start, CloseKind, j, mid);
    }
    if Has(CloseKind, log, id, mid, hi) {
      var j := WhereHas(CloseKind, log, id, mid, hi);
      NotBefore(log, start, CloseKind, j, mid);
    }
    NothingToTotal(TopUpKind, log, id, mid, hi);
  }

  /** Nothing of a channel was logged before its creation, and nothing after its settlement. */
  lemma LifeBounds(log: Log, start: nat, id: ChannelId, mid: nat, hi: nat)
    requires ValidLog(log, start) && start <= mid
    ensures Has(Creation, log, id, mid, hi) ==>
              forall k :: !Has(k, log, id, start, mid)
    ensures Has(Settlement, log, id, start, mid) ==>
              forall k :: !Has(k, log, id, mid, hi)
    ensures Has(Settlement, log, id, start, hi) ==> Has(Creation, log, id, start, hi)
    ensures Has(TopUpKind, log, id, start, hi) || Has(CloseKind, log, id, start, hi) ==>
              Has(Creation, log, id, start, hi)
  {
    if Has(Creation, log, id, mid, hi) {
      var j := WhereHas(Creation, log, id, mid, hi);
      forall k ensures !Has(k, log, id, start, mid) {
        NotBefore(log, start, k, j, mid);
      }
    }
    if Has(Settlement, log, id, start, mid) {
      forall k ensures !Has(k, log, id, mid, hi) {
        if Has(k, log, id, mid, hi) {
          var j := WhereHas(k, log, id, mid, hi);
          NotBefore(log, start, Settlement, j, mid);
        }
      }
    }
    forall k | k != Creation && Has(k, log, id, start, hi) ensures Has(Creation, log, id, start, hi) {
      var j := WhereHas(k, log, id, start, hi);
      CreationBefore(log, start, j, hi);
    }
  }

  // ---------------------------------------------------------------- logs that agree up to a block

  function UpTo(log: Log, block: nat): Log {
    if log == [] then []
    else
      UpTo(log[..|log| - 1], block) + if log[|log| - 1].blockNumber <= block then [log[|log| - 1]] else []
  }

  /** Summaries of blocks up to a bound depend on the log up to that bound only. */
  lemma {:induction false} SummaryUpTo(k: Kind, log: Log, id: ChannelId, lo: nat, hi: nat, block: nat)
    requires hi <= block
    ensures Has(k, UpTo(log, block), id, lo, hi) == Has(k, log, id, lo, hi)
    ensures TotalOf(k, UpTo(log, block), id, lo, hi) == TotalOf(k, log, id, lo, hi)
  {
    if log != [] {
      var front, last := log[..|log| - 1], log[|log| - 1];
      SummaryUpTo(k, front, id, lo, hi, block);
      if last.blockNumber <= block {
        SummarySnoc(k, UpTo(front, block), last, id, lo, hi);
      } else {
        assert UpTo(front, block) + [] == UpTo(front, block);
      }
    }
  }

  lemma SameSummaries(k: Kind, log: Log, log': Log, id: ChannelId, lo: nat, hi: nat, block: nat)
    requires UpTo(log, block) == UpTo(log', block) && hi <= block
    ensures Has(k, log, id, lo, hi) == Has(k, log', id, lo, hi)
    ensures TotalOf(k, log, id, lo, hi) == TotalOf(k, log', id, lo, hi)
  {
    SummaryUpTo(k, log, id, lo, hi, block);
    SummaryUpTo(k, log', id, lo, hi, block);
  }

  // ---------------------------------------------------------------- the logs of one party

  /** get_logs is filtered by receiver in the daemon, and by sender in the client. */
  datatype Party = Receiving(who: Address) | Sending(who: Address) {
    predicate Concerns(id: ChannelId) {
      match this
      case Receiving(a) => id.receiver == a
      case Sending(a) => id.sender == a
    }
  }

  /** The entries about a party's channels. */
  function Own(party: Party, log: Log): Log {
    if log == [] then []
    else
      Own(party, log[..|log| - 1]) + if party.Concerns(EntryId(log[|log| - 1])) then [log[|log| - 1]] else []
  }

  /** Nothing is lost of a channel that concerns the party. */
  lemma {:induction false} OwnSummaries(party: Party, k: Kind, log: Log, id: ChannelId, lo: nat, hi: nat)
    requires party.Concerns(id)
    ensures Has(k, Own(party, log), id, lo, hi) == Has(k, log, id, lo, hi)
    ensures TotalOf(k, Own(party, log), id, lo, hi) == TotalOf(k, log, id, lo, hi)
  {
    if log != [] {
      var front, last := log[..|log| - 1], log[|log| - 1];
      OwnSummaries(party, k, front, id, lo, hi);
      if party.Concerns(EntryId(last)) {
        SummarySnoc(k, Own(party, front), last, id, lo, hi);
      } else {
        assert Own(party, front) + [] == Own(party, front);
      }
    }
  }

  lemma {:induction false} OwnAccount(party: Party, log: Log, id: ChannelId)
    requires party.Concerns(id)
    ensures AccountOf(Own(party, log), id) == AccountOf(log, id)
    ensures Conservation.Creations(Own(party, log), id) == Conservation.Creations(log, id)
  {
    if log != [] {
      var front, last := log[..|log| - 1], log[|log| - 1];
      assert log == front + [last];
      OwnAccount(party, front, id);
      AccountSnoc(front, last, id);
      SumsSnoc(front, last, id);
      if party.Concerns(EntryId(last)) {
        AccountSnoc(Own(party, front), last, id);
        SumsSnoc(Own(party, front), last, id);
      } else {
        assert Own(party, front) + [] == Own(party, front);
      }
    }
  }

  lemma {:induction false} OwnConcerns(party: Party, log: Log)
    ensures forall j :: 0 <= j < |Own(party, log)| ==> party.Concerns(EntryId(Own(party, log)[j]))
  {
    if log != [] {
      OwnConcerns(party, log[..|log| - 1]);
    }
  }
}
