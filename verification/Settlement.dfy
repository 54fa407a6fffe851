/** When the sender can settle alone: exactly when, with which headers, and the one request that never can be. */
module Settlement {
  import opened Prelude
  import opened Encoding
  import opened Congestion
  import opened Escrow
  import opened Challenge
  import opened Solvency

  // ---------------------------------------------------------------- with a given reference

  /** What the validator demands of a block reference for a request. */
  ghost predicate Attested(p: Params, w: World, request: ClosingRequest, reference: seq<Bytes>)
    requires p.challengePeriod <= request.settleBlock
  {
    && (forall item | item in reference :: Judgeable(p.codec, w.chain, w.cache, item))
    && |RealUncongested(p.codec, w.chain, reference, p.minFreeGas, request.settleBlock - p.challengePeriod)|
       >= p.minUncongested
  }

  lemma ReferenceDecides(p: Params, w: World, request: ClosingRequest, reference: seq<Bytes>)
    requires CollisionFree(p.codec) && ChainAndCache(p, w)
    requires p.challengePeriod <= request.settleBlock < w.BlockNumber()
    ensures var u := Uncongested(p.codec, w.chain, w.cache, reference, p.minFreeGas,
                                 (request.settleBlock - p.challengePeriod) % TWO_32);
            u.Some? && u.value.0 >= p.minUncongested <==> Attested(p, w, request, reference)
  {
    var minBlock := request.settleBlock - p.challengePeriod;
    assert minBlock % TWO_32 == minBlock;
    ScanExact(p.codec, w.chain, w.cache, reference);
    if Uncongested(p.codec, w.chain, w.cache, reference, p.minFreeGas, minBlock).Some? {
      CountExact(p.codec, w.chain, w.cache, reference, p.minFreeGas, minBlock);
    }
  }

  predicate Ordinary(p: Params, sender: Address, receiver: Address) {
    Payable(p, sender) && Payable(p, receiver) && sender != p.self && receiver != p.self && sender != receiver
  }

  /** In every reachable state, between ordinary accounts: a settle commits if and only if a request is pending, its
      challenge period is over, every header can be judged, enough distinct real blocks since the close had room, and
      the request is not below what was withdrawn. It then pays out exactly the requested balance and the rest. */
  lemma SettleCommitsExactlyWhen(p: Params, w: World, run: seq<Action>, now: World, caller: Address, receiver: Address,
                                 openBlock: uint32, reference: seq<Bytes>)
    requires Initial(p, w) && CollisionFree(p.codec) && Ordinary(p, caller, receiver)
    requires Exec(p, w, run) == now && |now.chain| < TWO_256
    ensures var key := p.keyOf(caller, receiver, openBlock);
            var request := now.escrow.ClosingAt(key);
            var done := Settle(p, now, caller, receiver, openBlock, reference);
            && (Pending(now.escrow, key) ==> p.challengePeriod <= request.settleBlock)
            && (done.Some? <==>
                  && Pending(now.escrow, key) && request.settleBlock < now.BlockNumber()
                  && Attested(p, now, request, reference) && now.escrow.WithdrawnAt(key) <= request.balance)
            && (done.Some? ==>
                  && done.value.token.BalanceOf(receiver) ==
                       now.token.BalanceOf(receiver) + (request.balance - now.escrow.WithdrawnAt(key))
                  && done.value.token.BalanceOf(caller) ==
                       now.token.BalanceOf(caller) + (now.escrow.ChannelAt(key).deposit - request.balance))
  {
    RunKeepsRequests(p, w, run);
    RunKeepsCache(p, w, run);
    Solvent(p, w, run);
    assert RequestOk(p, now, p.keyOf(caller, receiver, openBlock));
    SettleDecided(p, now, caller, receiver, openBlock, reference);
    if Settle(p, now, caller, receiver, openBlock, reference).Some? {
      SettlePays(p, now, caller, receiver, openBlock, reference);
    }
  }

  lemma SettleDecided(p: Params, w: World, caller: Address, receiver: Address, openBlock: uint32, reference: seq<Bytes>)
    requires ParamsOk(p) && CollisionFree(p.codec) && ChainAndCache(p, w) && Funded(p, w)
             && Ordinary(p, caller, receiver)
    requires RequestOk(p, w, p.keyOf(caller, receiver, openBlock))
    ensures var key := p.keyOf(caller, receiver, openBlock);
            var request := w.escrow.ClosingAt(key);
            Settle(p, w, caller, receiver, openBlock, reference).Some? <==>
              && Pending(w.escrow, key) && request.settleBlock < w.BlockNumber()
              && Attested(p, w, request, reference) && w.escrow.WithdrawnAt(key) <= request.balance
  {
    var key := p.keyOf(caller, receiver, openBlock);
    var request := w.escrow.ClosingAt(key);
    if Pending(w.escrow, key) && request.settleBlock < w.BlockNumber() {
      ReferenceDecides(p, w, request, reference);
      if Attested(p, w, request, reference) {
        var cache := Uncongested(p.codec, w.chain, w.cache, reference, p.minFreeGas,
                                 (request.settleBlock - p.challengePeriod) % TWO_32).value.1;
        SettlementCovered(p, w.(cache := cache), caller, receiver, openBlock, request.balance);
      }
    }
  }

  lemma SettlePays(p: Params, w: World, caller: Address, receiver: Address, openBlock: uint32, reference: seq<Bytes>)
    requires ParamsOk(p) && Funded(p, w) && Ordinary(p, caller, receiver)
    requires Settle(p, w, caller, receiver, openBlock, reference).Some?
    ensures var key := p.keyOf(caller, receiver, openBlock);
            var request := w.escrow.ClosingAt(key);
            var done := Settle(p, w, caller, receiver, openBlock, reference).value;
            && done.token.BalanceOf(receiver) ==
                 w.token.BalanceOf(receiver) + (request.balance - w.escrow.WithdrawnAt(key))
            && done.token.BalanceOf(caller) ==
                 w.token.BalanceOf(caller) + (w.escrow.ChannelAt(key).deposit - request.balance)
  {
    var request := w.escrow.ClosingAt(p.keyOf(caller, receiver, openBlock));
    var cache := Uncongested(p.codec, w.chain, w.cache, reference, p.minFreeGas,
                             (request.settleBlock - p.challengePeriod) % TWO_32).value.1;
    SettlementCovered(p, w.(cache := cache), caller, receiver, openBlock, request.balance);
  }

  // ---------------------------------------------------------------- with some reference

  /** The blocks whose headers the validator can judge now. */
  predicate Attestable(chain: seq<Block>, cache: Cache, n: nat) {
    n < |chain| && (n in cache || InWindow(chain, n))
  }

  /** The headers of all blocks before the n-th that can be judged. */
  function Headers(chain: seq<Block>, cache: Cache, n: nat): seq<Bytes>
    requires n <= |chain|
  {
    if n == 0 then []
    else Headers(chain, cache, n - 1) + if Attestable(chain, cache, n - 1) then [chain[n - 1].rlp] else []
  }

  lemma {:induction false} HeadersAre(chain: seq<Block>, cache: Cache, n: nat)
    requires n <= |chain|
    ensures forall i :: 0 <= i < n && Attestable(chain, cache, i) ==> chain[i].rlp in Headers(chain, cache, n)
    ensures forall item :: item in Headers(chain, cache, n) ==>
              exists i :: 0 <= i < n && Attestable(chain, cache, i) && item == chain[i].rlp
  {
    if n > 0 {
      HeadersAre(chain, cache, n - 1);
      forall item | item in Headers(chain, cache, n)
        ensures exists i :: 0 <= i < n && Attestable(chain, cache, i) && item == chain[i].rlp
      {
        if item in Headers(chain, cache, n - 1) {
          var i :| 0 <= i < n - 1 && Attestable(chain, cache, i) && item == chain[i].rlp;
        } else {
          assert Attestable(chain, cache, n - 1) && item == chain[n - 1].rlp;
        }
      }
    }
  }

  /** The judgeable real blocks from a given one on that had room. */
  function RoomSince(p: Params, w: World, since: nat): set<nat> {
    set n | since <= n < |w.chain| && Attestable(w.chain, w.cache, n)
            && w.chain[n].gasLimit - w.chain[n].gasUsed >= p.minFreeGas
  }

  /** Handing in every header that can be judged gives all the room there is. */
  lemma AllHeadersAttest(p: Params, w: World, since: nat)
    requires CollisionFree(p.codec) && ChainAndCache(p, w)
    ensures var all := Headers(w.chain, w.cache, |w.chain|);
            && (forall item | item in all :: Judgeable(p.codec, w.chain, w.cache, item))
            && RealUncongested(p.codec, w.chain, all, p.minFreeGas, since) == RoomSince(p, w, since)
  {
    var c, all := p.codec, Headers(w.chain, w.cache, |w.chain|);
    HeadersAre(w.chain, w.cache, |w.chain|);
    forall item | item in all
      ensures Judgeable(c, w.chain, w.cache, item) && Attestable(w.chain, w.cache, c.decode(item).value.number)
    {
      var i :| 0 <= i < |w.chain| && Attestable(w.chain, w.cache, i) && item == w.chain[i].rlp;
      assert WellFormed(c, w.chain[i], i);
    }
    forall n | 0 <= n < |w.chain| && Attestable(w.chain, w.cache, n) ensures n in GenuineNumbers(c, w.chain, all) {
      assert WellFormed(c, w.chain[n], n);
      assert w.chain[n].rlp in all && Genuine(c, w.chain, w.chain[n].rlp);
    }
  }

  ghost predicate Settles(p: Params, w: World, caller: Address, receiver: Address, openBlock: uint32,
                          reference: seq<Bytes>)
  {
    Settle(p, w, caller, receiver, openBlock, reference).Some?
  }

  /** The request can be settled now as far as time and balance go. */
  predicate Due(p: Params, w: World, key: Key) {
    && Pending(w.escrow, key) && p.challengePeriod <= w.escrow.ClosingAt(key).settleBlock < w.BlockNumber()
    && w.escrow.WithdrawnAt(key) <= w.escrow.ClosingAt(key).balance
  }

  lemma SettlesIfDue(p: Params, w: World, caller: Address, receiver: Address, openBlock: uint32, reference: seq<Bytes>)
    requires ParamsOk(p) && CollisionFree(p.codec) && ChainAndCache(p, w) && Funded(p, w)
             && Ordinary(p, caller, receiver)
    requires RequestOk(p, w, p.keyOf(caller, receiver, openBlock))
    ensures var key := p.keyOf(caller, receiver, openBlock);
            Settles(p, w, caller, receiver, openBlock, reference) <==>
              Due(p, w, key) && Attested(p, w, w.escrow.ClosingAt(key), reference)
  {
    SettleDecided(p, w, caller, receiver, openBlock, reference);
  }

  /** In every reachable state: the sender can settle now, with some reference, if and only if the period of its
      request is over, the request is not below what was withdrawn, and among the blocks since the close that are
      cached or among the last 256, enough had room. */
  lemma SettleableExactlyWhen(p: Params, w: World, run: seq<Action>, now: World, caller: Address, receiver: Address,
                              openBlock: uint32)
    requires Initial(p, w) && CollisionFree(p.codec) && Ordinary(p, caller, receiver)
    requires Exec(p, w, run) == now && |now.chain| < TWO_256
    ensures var key := p.keyOf(caller, receiver, openBlock);
            (exists reference :: Settles(p, now, caller, receiver, openBlock, reference)) <==>
              && Due(p, now, key)
              && |RoomSince(p, now, now.escrow.ClosingAt(key).settleBlock - p.challengePeriod)| >= p.minUncongested
  {
    RunKeepsRequests(p, w, run);
    RunKeepsCache(p, w, run);
    Solvent(p, w, run);
    assert RequestOk(p, now, p.keyOf(caller, receiver, openBlock));
    SettleableNow(p, now, caller, receiver, openBlock);
  }

  lemma SettleableNow(p: Params, w: World, caller: Address, receiver: Address, openBlock: uint32)
    requires ParamsOk(p) && CollisionFree(p.codec) && ChainAndCache(p, w) && Funded(p, w)
             && Ordinary(p, caller, receiver)
    requires RequestOk(p, w, p.keyOf(caller, receiver, openBlock))
    ensures var key := p.keyOf(caller, receiver, openBlock);
            (exists reference :: Settles(p, w, caller, receiver, openBlock, reference)) <==>
              && Due(p, w, key)
              && |RoomSince(p, w, w.escrow.ClosingAt(key).settleBlock - p.challengePeriod)| >= p.minUncongested
  {
    if reference :| Settles(p, w, caller, receiver, openBlock, reference) {
      RoomIfSettled(p, w, caller, receiver, openBlock, reference);
    }
    if Due(p, w, p.keyOf(caller, receiver, openBlock)) {
      var request := w.escrow.ClosingAt(p.keyOf(caller, receiver, openBlock));
      AllHeadersAttest(p, w, request.settleBlock - p.challengePeriod);
      SettlesIfDue(p, w, caller, receiver, openBlock, Headers(w.chain, w.cache, |w.chain|));
    }
  }

  lemma RoomIfSettled(p: Params, w: World, caller: Address, receiver: Address, openBlock: uint32, reference: seq<Bytes>)
    requires ParamsOk(p) && CollisionFree(p.codec) && ChainAndCache(p, w) && Funded(p, w)
             && Ordinary(p, caller, receiver)
    requires RequestOk(p, w, p.keyOf(caller, receiver, openBlock))
    requires Settles(p, w, caller, receiver, openBlock, reference)
    ensures var key := p.keyOf(caller, receiver, openBlock);
            && Due(p, w, key)
            && |RoomSince(p, w, w.escrow.ClosingAt(key).settleBlock - p.challengePeriod)| >= p.minUncongested
  {
    SettlesIfDue(p, w, caller, receiver, openBlock, reference);
    var request := w.escrow.ClosingAt(p.keyOf(caller, receiver, openBlock));
    var since := request.settleBlock - p.challengePeriod;
    SubsetSmaller(RealUncongested(p.codec, w.chain, reference, p.minFreeGas, since), RoomSince(p, w, since));
  }

  // ---------------------------------------------------------------- a request that is too low

  /** Withdrawals play no part in accepting a request: any balance within the deposit is taken. */
  lemma LowRequestAccepted(p: Params, w: World, caller: Address, receiver: Address, openBlock: uint32, balance: uint192)
    requires ParamsOk(p) && caller != p.self && w.BlockNumber() + p.challengePeriod < TWO_32
    ensures var key := p.keyOf(caller, receiver, openBlock);
            var done := Perform(p, w, DoUncooperativeClose(caller, receiver, openBlock, balance));
            && (done.Some? <==>
                  && w.escrow.ChannelAt(key).openBlock != 0 && w.escrow.ClosingAt(key).settleBlock == 0
                  && balance <= w.escrow.ChannelAt(key).deposit)
            && (done.Some? ==>
                  && Pending(done.value.escrow, key) && done.value.escrow.ClosingAt(key).balance == balance
                  && done.value.escrow.WithdrawnAt(key) == w.escrow.WithdrawnAt(key))
  {
  }

  /** A request below what was already withdrawn can never be settled: until both parties agree on a
      cooperative close, channel and request stay as they are, whatever the sender hands in. */
  lemma {:induction false} LowRequestNeverSettles(p: Params, w: World, run: seq<Action>, caller: Address,
                                                  receiver: Address, openBlock: uint32)
    requires RequestsOk(p, w) && Pending(w.escrow, p.keyOf(caller, receiver, openBlock))
    requires w.escrow.ClosingAt(p.keyOf(caller, receiver, openBlock)).balance <
             w.escrow.WithdrawnAt(p.keyOf(caller, receiver, openBlock))
    requires forall a :: a in run && a.DoCooperativeClose? ==> !SettlesKey(p, a, p.keyOf(caller, receiver, openBlock))
    ensures SameSlot(w.escrow, Exec(p, w, run).escrow, p.keyOf(caller, receiver, openBlock))
    ensures forall reference :: Settle(p, Exec(p, w, run), caller, receiver, openBlock, reference) == None
  {
    if run != [] {
      var front, last := run[..|run| - 1], run[|run| - 1];
      LowRequestNeverSettles(p, w, front, caller, receiver, openBlock);
      RunKeepsRequests(p, w, front);
      StepAtKey(p, Exec(p, w, front), last, p.keyOf(caller, receiver, openBlock));
    }
  }
}
