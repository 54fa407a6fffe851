/** What the contract logs about one party's channels is a log that party can follow: ordered by block, and every
    channel's events in a possible order, as long as no key of that party is opened a second time. */
module EscrowLogs {
  import opened Prelude
  import opened Escrow
  import opened Accounts
  import opened Conservation
  import opened EventLog

  ghost predicate NoKeyReused(party: Party, log: Log) {
    forall id: ChannelId :: party.Concerns(id) ==> FirstLife(log, id)
  }

  lemma {:induction false} PrefixIsPossible(log: Log, n: nat, id: ChannelId)
    requires n <= |log| && !AccountOf(log, id).Impossible?
    ensures !AccountOf(log[..n], id).Impossible?
    ensures FirstLife(log, id) ==> FirstLife(log[..n], id)
  {
    if n < |log| {
      assert log[..|log| - 1][..n] == log[..n];
      PrefixIsPossible(log[..|log| - 1], n, id);
    } else {
      assert log[..n] == log;
    }
  }

  /** What the account of a first life says about an entry of its channel. */
  predicate Remembers(a: Account, k: Kind) {
    match a
    case Fresh => false
    case Live(_, _, _, closing) => k != Settlement && (k == CloseKind ==> closing.Some?)
    case _ => true
  }

  lemma {:induction false} AccountRemembers(log: Log, id: ChannelId, i: nat)
    requires i < |log| && EntryId(log[i]) == id && !AccountOf(log, id).Impossible? && FirstLife(log, id)
    ensures Remembers(AccountOf(log, id), KindOf(log[i].event))
  {
    var front, last := log[..|log| - 1], log[|log| - 1];
    assert log == front + [last];
    AccountSnoc(front, last, id);
    SumsSnoc(front, last, id);
    if i < |log| - 1 {
      AccountRemembers(front, id, i);
      AccountIsSums(front, id);
    }
  }

  lemma {:induction false} WhereCreated(log: Log, id: ChannelId) returns (i: nat)
    requires Creations(log, id) > 0
    ensures i < |log| && Creates(log[i], id) && Creations(log[..i], id) == Creations(log, id) - 1
  {
    var front, last := log[..|log| - 1], log[|log| - 1];
    if Creates(last, id) {
      i := |log| - 1;
    } else {
      i := WhereCreated(front, id);
      assert front[..i] == log[..i];
    }
  }

  lemma TwoCreations(log: Log, id: ChannelId) returns (i: nat, j: nat)
    requires Creations(log, id) > 1
    ensures i < j < |log| && Creates(log[i], id) && Creates(log[j], id)
  {
    j := WhereCreated(log, id);
    i := WhereCreated(log[..j], id);
  }

  /** An entry that its account could take: which earlier entries there are, and which there are not. */
  lemma EntryInOrder(log: Log, j: nat)
    requires j < |log| && !AccountOf(log, EntryId(log[j])).Impossible? && FirstLife(log, EntryId(log[j]))
    ensures forall i :: 0 <= i < j && EntryId(log[i]) == EntryId(log[j]) ==>
              MayFollow(KindOf(log[i].event), KindOf(log[j].event))
    ensures !log[j].event.Created? ==> CreatedBefore(log, j)
  {
    var id := EntryId(log[j]);
    PrefixIsPossible(log, j, id);
    PrefixIsPossible(log, j + 1, id);
    assert log[..j + 1] == log[..j] + [log[j]];
    AccountSnoc(log[..j], log[j], id);
    SumsSnoc(log[..j], log[j], id);
    AccountIsSums(log[..j], id);
    forall i | 0 <= i < j && EntryId(log[i]) == id ensures MayFollow(KindOf(log[i].event), KindOf(log[j].event)) {
      AccountRemembers(log[..j], id, i);
    }
    if !log[j].event.Created? {
      var i := WhereCreated(log[..j], id);
      assert log[..j][i] == log[i];
    }
  }

  ghost predicate EntriesBetween(log: Log, first: nat, last: nat) {
    forall i :: 0 <= i < |log| ==> first <= log[i].blockNumber <= last
  }

  lemma {:induction false} RunIsOrdered(p: Params, w: World, run: seq<Action>)
    requires w.log == []
    ensures Ordered(Exec(p, w, run).log) && EntriesBetween(Exec(p, w, run).log, |w.chain|, |Exec(p, w, run).chain|)
  {
    if run != [] {
      var before := Exec(p, w, run[..|run| - 1]);
      RunIsOrdered(p, w, run[..|run| - 1]);
      ExecKeepsBlocks(p, w, run[..|run| - 1]);
      EntryAtHead(p, before, run[|run| - 1]);
    }
  }

  lemma EntryAtHead(p: Params, w: World, a: Action)
    ensures |w.chain| <= |Step(p, w, a).chain|
    ensures Step(p, w, a).log == w.log || exists e :: Step(p, w, a).log == w.log + [e] && e.blockNumber == |w.chain|
  {
    LogGrowsByOne(p, w, a);
    if Step(p, w, a).log != w.log {
      var e := Step(p, w, a).log[|w.log|];
      assert Step(p, w, a).log == w.log + [e];
    }
  }

  lemma EntryNumber(p: Params, w: World, a: Action)
    requires |Step(p, w, a).log| == |w.log| + 1
    ensures Step(p, w, a).log[|w.log|].blockNumber == |w.chain|
  {
  }

  lemma {:induction false} OwnEntries(party: Party, log: Log)
    ensures forall j :: 0 <= j < |Own(party, log)| ==> Own(party, log)[j] in log
  {
    if log != [] {
      OwnEntries(party, log[..|log| - 1]);
    }
  }

  lemma {:induction false} OwnIsOrdered(party: Party, log: Log)
    requires Ordered(log)
    ensures Ordered(Own(party, log))
  {
    if log != [] {
      var front, last := log[..|log| - 1], log[|log| - 1];
      OwnIsOrdered(party, front);
      OwnEntries(party, front);
      forall j | 0 <= j < |Own(party, front)| ensures Own(party, front)[j].blockNumber <= last.blockNumber {
        assert Own(party, front)[j] in front;
      }
    }
  }

  /** What the contract logs about a party's channels is valid, for a reader that starts before the deployment, if and
      only if no key of that party was used twice; what others do to their keys does not matter. */
  lemma LogIsValid(p: Params, w: World, run: seq<Action>, now: World, start: nat, party: Party)
    requires KeysDistinct(p) && Initial(p, w) && Exec(p, w, run) == now && BlocksInRange(now)
    requires start < |w.chain|
    ensures ValidLog(Own(party, now.log), start) <==> NoKeyReused(party, now.log)
  {
    var own := Own(party, now.log);
    RunIsOrdered(p, w, run);
    OwnIsOrdered(party, now.log);
    OwnEntries(party, now.log);
    assert EntriesBetween(own, |w.chain|, |now.chain|);
    if ValidLog(own, start) {
      forall id: ChannelId | party.Concerns(id) ensures FirstLife(now.log, id) {
        if Creations(own, id) > 1 {
          var i, j := TwoCreations(own, id);
        }
        OwnAccount(party, now.log, id);
      }
    }
    if NoKeyReused(party, now.log) {
      OwnConcerns(party, now.log);
      forall j | 0 <= j < |own|
        ensures forall i :: 0 <= i < j && EntryId(own[i]) == EntryId(own[j]) ==>
                  MayFollow(KindOf(own[i].event), KindOf(own[j].event))
        ensures !own[j].event.Created? ==> CreatedBefore(own, j)
      {
        RunAgrees(p, w, run, EntryId(own[j]));
        OwnAccount(party, now.log, EntryId(own[j]));
        assert FirstLife(now.log, EntryId(own[j]));
        EntryInOrder(own, j);
      }
    }
  }

  // ---------------------------------------------------------------- trusted contracts

  lemma {:induction false} AddingIsNoted(p: Params, notices: seq<TrustNotice>, contracts: seq<Address>, block: nat)
    ensures TrustedBy(notices + AddedNotices(p, contracts, block)) ==
            TrustedBy(notices) + set a | a in contracts && p.hasCode(a)
  {
    if contracts == [] {
      assert notices + [] == notices;
    } else {
      var front, last := contracts[..|contracts| - 1], contracts[|contracts| - 1];
      AddingIsNoted(p, notices, front, block);
      assert contracts == front + [last];
      var before := AddedNotices(p, front, block);
      if p.hasCode(last) {
        NotedNext(notices, before, TrustedContract(block, last, true));
      } else {
        assert AddedNotices(p, contracts, block) == before;
      }
      assert forall a :: a in contracts <==> a in front || a == last;
    }
  }

  lemma NotedNext(a: seq<TrustNotice>, b: seq<TrustNotice>, e: TrustNotice)
    ensures TrustedBy(a + (b + [e])) == if e.status then TrustedBy(a + b) + {e.contract}
            else TrustedBy(a + b) - {e.contract}
  {
    assert (a + (b + [e]))[..|a + b|] == a + b;
  }

  lemma {:induction false} RemovingIsNoted(trusted: set<Address>, notices: seq<TrustNotice>, contracts: seq<Address>,
                                           block: nat)
    requires TrustedBy(notices) == trusted
    ensures TrustedBy(notices + RemovedNotices(trusted, contracts, block)) == trusted - set a | a in contracts
  {
    if contracts == [] {
      assert notices + [] == notices;
    } else {
      var front, last := contracts[..|contracts| - 1], contracts[|contracts| - 1];
      RemovingIsNoted(trusted, notices, front, block);
      assert contracts == front + [last];
      var before := RemovedNotices(trusted, front, block);
      if last in trusted && last !in front {
        NotedNext(notices, before, TrustedContract(block, last, false));
      } else {
        assert RemovedNotices(trusted, contracts, block) == before;
      }
      assert forall a :: a in contracts <==> a in front || a == last;
    }
  }

  lemma StepTellsTrusted(p: Params, w: World, a: Action)
    requires TrustedBy(w.notices) == w.escrow.trusted
    ensures TrustedBy(Step(p, w, a).notices) == Step(p, w, a).escrow.trusted
  {
    if a.DoAddTrusted? {
      AddingIsNoted(p, w.notices, a.contracts, |w.chain|);
    } else if a.DoRemoveTrusted? {
      RemovingIsNoted(w.escrow.trusted, w.notices, a.contracts, |w.chain|);
    }
  }

  lemma {:induction false} Stamped(p: Params, trusted: set<Address>, contracts: seq<Address>, block: nat)
    ensures forall i :: 0 <= i < |AddedNotices(p, contracts, block)| ==>
              AddedNotices(p, contracts, block)[i].blockNumber == block
    ensures forall i :: 0 <= i < |RemovedNotices(trusted, contracts, block)| ==>
              RemovedNotices(trusted, contracts, block)[i].blockNumber == block
  {
    if contracts != [] {
      Stamped(p, trusted, contracts[..|contracts| - 1], block);
    }
  }

  /** A step only adds notices, and each carries the number of its block. */
  lemma NoticesStamped(p: Params, w: World, a: Action)
    ensures w.notices <= Step(p, w, a).notices
    ensures forall i :: |w.notices| <= i < |Step(p, w, a).notices| ==>
              Step(p, w, a).notices[i].blockNumber == |w.chain|
  {
    if a.DoAddTrusted? || a.DoRemoveTrusted? {
      Stamped(p, w.escrow.trusted, a.contracts, |w.chain|);
    }
  }

  /** In every reachable state the TrustedContract events tell exactly which contracts are trusted. */
  lemma {:induction false} NoticesTellTrusted(p: Params, w: World, run: seq<Action>)
    requires Initial(p, w)
    ensures TrustedBy(Exec(p, w, run).notices) == Exec(p, w, run).escrow.trusted
  {
    if run != [] {
      var before, last := Exec(p, w, run[..|run| - 1]), run[|run| - 1];
      NoticesTellTrusted(p, w, run[..|run| - 1]);
      StepTellsTrusted(p, before, last);
    }
  }
}
