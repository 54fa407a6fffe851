/**
 The receiver's database: a table of channels with hidden row ids, and a table of unconfirmed top-ups that refers to
 those row ids. Replacing a channel gives it a new row id and leaves its old top-up rows behind; seen through its
 queries the pair of tables is nevertheless a plain map from channels to records.
 */
module Store {
  import opened Prelude
  import opened Escrow

  type Tx = nat
  type Rowid = nat

  datatype ChannelState = OPEN | CLOSED | CLOSE_PENDING

  datatype Id = Id(sender: Address, openBlock: nat)

  /** A channel as its users see it. */
  datatype Record = Record(
    deposit: nat,
    balance: nat,
    lastSignature: Option<Signature>,
    settleTimeout: int,
    state: ChannelState,
    confirmed: bool,
    topups: map<Tx, nat>)
  {
    predicate IsClosed() {
      state == CLOSED || state == CLOSE_PENDING
    }
  }

  type Records = map<Id, Record>

  /** The channels a query for one confirmation status returns. */
  function WithStatus(records: Records, confirmed: bool): Records {
    map id | id in records && records[id].confirmed == confirmed :: records[id]
  }

  /** add_channel's assertion on the opening block. */
  ghost predicate PositiveBlocks(records: Records) {
    forall id {:trigger id in records} :: id in records ==> id.openBlock > 0
  }

  function PendingIds(records: Records): set<Id> {
    set id | id in records && records[id].state == CLOSE_PENDING
  }

  // ---------------------------------------------------------------- the tables

  /** One row of the channels table. */
  datatype Row = Row(
    id: Id,
    deposit: nat,
    balance: nat,
    lastSignature: Option<Signature>,
    settleTimeout: int,
    state: ChannelState,
    confirmed: bool)

  type Channels = map<Rowid, Row>
  type Topups = map<(Rowid, Tx), nat>

  /** The rows of one row id in the top-ups table, read as a map. */
  ghost predicate TopupRows(topups: Topups, rowid: Rowid, m: map<Tx, nat>) {
    forall tx: Tx {:trigger (rowid, tx) in topups} {:trigger tx in m} ::
      ((rowid, tx) in topups <==> tx in m) && (tx in m ==> topups[(rowid, tx)] == m[tx])
  }

  function ToRecord(row: Row, topups: map<Tx, nat>): Record {
    Record(row.deposit, row.balance, row.lastSignature, row.settleTimeout, row.state, row.confirmed, topups)
  }

  function ToRow(id: Id, r: Record): Row {
    Row(id, r.deposit, r.balance, r.lastSignature, r.settleTimeout, r.state, r.confirmed)
  }

  /** The primary key index finds the one row of each channel. */
  ghost predicate Indexed(channels: Channels, index: map<Id, Rowid>) {
    && (forall id {:trigger id in index} :: id in index ==> index[id] in channels && channels[index[id]].id == id)
    && (forall x {:trigger x in channels} :: x in channels ==> channels[x].id in index && index[channels[x].id] == x)
  }

  /** The tables stand for a map of records. Top-up rows whose row id belongs to no channel play no part. */
  ghost predicate Represents(channels: Channels, topups: Topups, index: map<Id, Rowid>, records: Records) {
    && Indexed(channels, index)
    && index.Keys == records.Keys
    && forall id {:trigger id in records} :: id in records ==>
         && channels[index[id]] == ToRow(id, records[id])
         && TopupRows(topups, index[id], records[id].topups)
  }

  function WithoutId(channels: Channels, id: Id): Channels {
    map rowid | rowid in channels && channels[rowid].id != id :: channels[rowid]
  }

  /** The top-ups table after the rows of one row id were deleted and new ones inserted. */
  ghost predicate Retopped(before: Topups, after: Topups, rowid: Rowid, added: map<Tx, nat>) {
    && TopupRows(after, rowid, added)
    && forall r: Rowid, tx: Tx {:trigger (r, tx) in after} :: r != rowid ==>
         ((r, tx) in after <==> (r, tx) in before) && ((r, tx) in before ==> after[(r, tx)] == before[(r, tx)])
  }

  lemma ReplaceKeepsIndex(channels: Channels, index: map<Id, Rowid>, id: Id, row: Row, rowid: Rowid)
    requires Indexed(channels, index) && row.id == id && rowid !in WithoutId(channels, id)
    ensures Indexed(WithoutId(channels, id)[rowid := row], index[id := rowid])
  {
    forall x | x in index && x != id ensures index[x] in WithoutId(channels, id) {
      assert channels[index[x]].id == x;
    }
  }

  /** INSERT OR REPLACE followed by set_unconfirmed_topups, for every unused row id the engine may choose: the
      contents change at this channel only, and no orphaned top-up row becomes visible. */
  lemma ReplaceRefinesUpdate(channels: Channels, topups: Topups, index: map<Id, Rowid>, records: Records,
                             id: Id, r: Record, rowid: Rowid, topups': Topups)
    requires Represents(channels, topups, index, records)
    requires rowid !in WithoutId(channels, id)
    requires Retopped(topups, topups', rowid, r.topups)
    ensures Represents(WithoutId(channels, id)[rowid := ToRow(id, r)], topups', index[id := rowid], records[id := r])
  {
    ReplaceKeepsIndex(channels, index, id, ToRow(id, r), rowid);
    forall x | x in records && x != id
      ensures index[x] in WithoutId(channels, id) && channels[index[x]] == ToRow(x, records[x])
      ensures TopupRows(topups', index[x], records[x].topups)
    {
      assert x in index && index[x] in WithoutId(channels, id);
    }
    assert index[id := rowid].Keys == records[id := r].Keys;
  }

  /** Deleting rows leaves every other channel, with its top-ups, as it was; the deleted rows' top-ups stay in their
      table and stay invisible. */
  lemma DeleteRefinesRemove(channels: Channels, topups: Topups, index: map<Id, Rowid>, records: Records, keep: set<Id>)
    requires Represents(channels, topups, index, records)
    ensures Represents(map x | x in channels && channels[x].id in keep :: channels[x], topups,
                       map id | id in index && id in keep :: index[id],
                       map id | id in records && id in keep :: records[id])
  {
    var channels' := map x | x in channels && channels[x].id in keep :: channels[x];
    var index' := map id | id in index && id in keep :: index[id];
    var records' := map id | id in records && id in keep :: records[id];
    assert index'.Keys == records'.Keys by {
      assert forall id :: id in index <==> id in records;
    }
    forall id | id in index' ensures index'[id] in channels' && channels'[index'[id]].id == id {
      assert id in index;
    }
    forall x | x in channels' ensures channels'[x].id in index' && index'[channels'[x].id] == x {
      assert x in channels;
    }
    forall id | id in records' ensures channels'[index'[id]] == ToRow(id, records'[id])
                                       && TopupRows(topups, index'[id], records'[id].topups)
    {
      assert id in records && id in index;
    }
  }

  // ---------------------------------------------------------------- the object

  class ChannelManagerState {
    var channels: Channels
    var topups: Topups
    var confirmedHeadNumber: Option<nat>
    var unconfirmedHeadNumber: Option<nat>
    var confirmedHeadHash: Option<nat>
    var unconfirmedHeadHash: Option<nat>
    ghost var index: map<Id, Rowid>
    ghost var records: Records

    ghost predicate Valid()
      reads this
    {
      Represents(channels, topups, index, records) && PositiveBlocks(records)
    }

    constructor SetupDb()
      ensures Valid() && records == map[]
      ensures confirmedHeadNumber == None && unconfirmedHeadNumber == None
    {
      channels, topups, index, records := map[], map[], map[], map[];
      confirmedHeadNumber, unconfirmedHeadNumber, confirmedHeadHash, unconfirmedHeadHash := None, None, None, None;
    }

    /** A missing argument leaves its column alone. */
    method UpdateSyncState(confirmedNumber: Option<nat>, confirmedHash: Option<nat>, unconfirmedNumber: Option<nat>,
                           unconfirmedHash: Option<nat>)
      modifies this`confirmedHeadNumber, this`confirmedHeadHash, this`unconfirmedHeadNumber, this`unconfirmedHeadHash
      ensures confirmedHeadNumber == if confirmedNumber.Some? then confirmedNumber else old(confirmedHeadNumber)
      ensures confirmedHeadHash == if confirmedHash.Some? then confirmedHash else old(confirmedHeadHash)
      ensures unconfirmedHeadNumber == if unconfirmedNumber.Some? then unconfirmedNumber else old(unconfirmedHeadNumber)
      ensures unconfirmedHeadHash == if unconfirmedHash.Some? then unconfirmedHash else old(unconfirmedHeadHash)
    {
      if confirmedNumber.Some? { confirmedHeadNumber := confirmedNumber; }
      if confirmedHash.Some? { confirmedHeadHash := confirmedHash; }
      if unconfirmedNumber.Some? { unconfirmedHeadNumber := unconfirmedNumber; }
      if unconfirmedHash.Some? { unconfirmedHeadHash := unconfirmedHash; }
    }

    method GetUnconfirmedTopups(rowid: Rowid) returns (result: map<Tx, nat>)
      ensures TopupRows(topups, rowid, result)
    {
      result := map[];
      var todo := topups.Keys;
      while todo != {}
        invariant todo <= topups.Keys
        invariant forall tx: Tx {:trigger tx in result} {:trigger (rowid, tx) in topups} ::
                    (tx in result <==> (rowid, tx) in topups && (rowid, tx) !in todo)
                    && (tx in result ==> result[tx] == topups[(rowid, tx)])
      {
        var key :| key in todo;
        if key.0 == rowid {
          assert key == (rowid, key.1);
          result := result[key.1 := topups[key]];
        }
        todo := todo - {key};
      }
    }

    method SetUnconfirmedTopups(rowid: Rowid, added: map<Tx, nat>)
      modifies this`topups
      ensures Retopped(old(topups), topups, rowid, added)
    {
      topups := map key | key in topups && key.0 != rowid :: topups[key];
      var todo := added.Keys;
      while todo != {}
        invariant todo <= added.Keys
        invariant Retopped(old(topups), topups, rowid, map tx | tx in added && tx !in todo :: added[tx])
      {
        var tx :| tx in todo;
        ghost var before := topups;
        topups := topups[(rowid, tx) := added[tx]];
        todo := todo - {tx};
        assert forall r: Rowid, t: Tx :: r != rowid ==> ((r, t) in topups <==> (r, t) in before);
      }
      assert added == map tx | tx in added && tx !in todo :: added[tx];
    }

    method UnusedRowid(used: Channels) returns (rowid: Rowid)
      ensures rowid !in used
    {
      var bound: Rowid := 0;
      var todo := used.Keys;
      while todo != {}
        invariant todo <= used.Keys
        invariant forall x :: x in used && x !in todo ==> x < bound
        decreases |todo|
      {
        var x: Rowid :| x in todo;
        if x >= bound { bound := x + 1; }
        todo := todo - {x};
      }
      assert bound !in used;
      rowid :| rowid !in used;
    }

    /** set_channel and add_channel. The engine chooses some row id that is free once the old row is gone. */
    method AddChannel(id: Id, r: Record)
      requires Valid() && id.openBlock > 0
      modifies this`channels, this`topups, this`index, this`records
      ensures Valid() && records == old(records)[id := r]
    {
      var rest := WithoutId(channels, id);
      var rowid := UnusedRowid(rest);
      ghost var oldChannels, oldTopups, oldIndex := channels, topups, index;
      channels := rest[rowid := ToRow(id, r)];
      SetUnconfirmedTopups(rowid, r.topups);
      ReplaceRefinesUpdate(oldChannels, oldTopups, oldIndex, records, id, r, rowid, topups);
      index, records := index[id := rowid], records[id := r];
    }

    method GetChannels(confirmed: bool) returns (ret: Records)
      requires Valid()
      ensures ret == WithStatus(records, confirmed)
    {
      ret := map[];
      var todo := channels.Keys;
      while todo != {}
        invariant todo <= channels.Keys
        invariant ret == map id | id in records && index[id] !in todo && records[id].confirmed == confirmed ::
                    records[id]
      {
        var rowid :| rowid in todo;
        ghost var id := channels[rowid].id;
        assert id in index && index[id] == rowid && id in records;
        if channels[rowid].confirmed == confirmed {
          var unconfirmed := GetUnconfirmedTopups(rowid);
          SameTopups(topups, rowid, unconfirmed, records[id].topups);
          ret := ret[channels[rowid].id := ToRecord(channels[rowid], unconfirmed)];
        }
        todo := todo - {rowid};
      }
    }

    /** The keys of pending_channels. */
    method GetPending() returns (ret: set<Id>)
      requires Valid()
      ensures ret == PendingIds(records)
    {
      ret := {};
      var todo := channels.Keys;
      while todo != {}
        invariant todo <= channels.Keys
        invariant ret == set id | id in records && index[id] !in todo && records[id].state == CLOSE_PENDING
      {
        var rowid :| rowid in todo;
        ghost var id := channels[rowid].id;
        assert id in index && index[id] == rowid && id in records;
        if channels[rowid].state == CLOSE_PENDING {
          ret := ret + {channels[rowid].id};
        }
        todo := todo - {rowid};
      }
    }

    /** None where the query finds no row and the original fails on the missing result. */
    method GetChannel(id: Id) returns (result: Option<Record>)
      requires Valid()
      ensures result == if id in records then Some(records[id]) else None
    {
      if rowid :| rowid in channels && channels[rowid].id == id {
        var unconfirmed := GetUnconfirmedTopups(rowid);
        assert id in index && index[id] == rowid && id in records;
        SameTopups(topups, rowid, unconfirmed, records[id].topups);
        return Some(ToRecord(channels[rowid], unconfirmed));
      }
      assert id in records ==> id in index;
      return None;
    }

    /** ok is false where the assertion that the channel exists fails. */
    method DelChannel(id: Id) returns (ok: bool)
      requires Valid()
      modifies this`channels, this`index, this`records
      ensures Valid() && ok == (id in old(records))
      ensures records == old(records) - {id}
    {
      var before := GetChannel(id);
      ok := before.Some?;
      channels, index, records := WithoutId(channels, id), index - {id}, records - {id};
    }

    method DelUnconfirmedChannels()
      requires Valid()
      modifies this`channels, this`index, this`records
      ensures Valid() && records == WithStatus(old(records), true)
    {
      ghost var keep := set id | id in records && records[id].confirmed;
      channels := map x | x in channels && channels[x].confirmed :: channels[x];
      index := map id | id in index && id in keep :: index[id];
      records := WithStatus(records, true);
    }
  }

  lemma SameTopups(topups: Topups, rowid: Rowid, m: map<Tx, nat>, m': map<Tx, nat>)
    requires TopupRows(topups, rowid, m) && TopupRows(topups, rowid, m')
    ensures m == m'
  {
    forall tx: Tx ensures tx in m <==> tx in m' {
      assert (rowid, tx) in topups <==> tx in m;
    }
  }
}
