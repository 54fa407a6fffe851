/** The challenge period: a close request freezes its channel, and settling it is late and attested enough. */
module Challenge {
  import opened Prelude
  import opened Encoding
  import opened Congestion
  import opened Escrow

  /** A close that commits fixes the end of the challenge period without any wrap-around, at every block height. */
  lemma CloseBlockExact(p: Params, w: World, caller: Address, receiver: Address, openBlock: uint32, balance: uint192)
    requires ParamsOk(p) && UncooperativeClose(p, w, caller, receiver, openBlock, balance).Some?
    ensures var key := p.keyOf(caller, receiver, openBlock);
            var w' := UncooperativeClose(p, w, caller, receiver, openBlock, balance).value;
            && key in w'.escrow.closing
            && w'.escrow.closing[key].settleBlock == w.BlockNumber() + p.challengePeriod
            && (w'.escrow.closing[key].settleBlock - p.challengePeriod) % TWO_32 == w.BlockNumber()
  {
  }

  // ---------------------------------------------------------------- what a pending request implies

  predicate Pending(s: Storage, k: Key) {
    k in s.closing
  }

  /** A pending request belongs to a live channel, asks for no more than its deposit, and its challenge period
      began at a block that has been reached. */
  ghost predicate RequestOk(p: Params, w: World, k: Key) {
    Pending(w.escrow, k) ==>
      && w.escrow.ChannelAt(k).openBlock != 0
      && w.escrow.closing[k].balance <= w.escrow.ChannelAt(k).deposit
      && p.challengePeriod <= w.escrow.closing[k].settleBlock <= w.BlockNumber() + p.challengePeriod
  }

  ghost predicate RequestsOk(p: Params, w: World) {
    ParamsOk(p) && forall k: Key :: RequestOk(p, w, k)
  }

  /** The three ways a key's storage can change in one step. */
  ghost predicate SameSlot(s: Storage, s': Storage, k: Key) {
    && (k in s.channels <==> k in s'.channels) && s.ChannelAt(k) == s'.ChannelAt(k)
    && (k in s.closing <==> k in s'.closing) && s.ClosingAt(k) == s'.ClosingAt(k)
    && s.WithdrawnAt(k) == s'.WithdrawnAt(k)
  }

  predicate SettlesKey(p: Params, a: Action, k: Key) {
    match a
    case DoSettle(c, r, b, _) => p.keyOf(c, r, b) == k
    case DoCooperativeClose(_, r, b, x, proof, _) =>
      var sender := EcVerify(p, BalanceProof(r, b, x, p.self), proof);
      sender.Some? && p.keyOf(sender.value, r, b) == k
    case _ => false
  }

  predicate ClosesKey(p: Params, a: Action, k: Key) {
    a.DoUncooperativeClose? && p.keyOf(a.caller, a.receiver, a.openBlock) == k
  }

  lemma DepositSteps(p: Params, w: World, a: Action, k: Key)
    requires RequestsOk(p, w) && Perform(p, w, a).Some?
    requires a.DoCreate? || a.DoCreateDelegate? || a.DoTopUp? || a.DoTopUpDelegate? || a.DoTransferWithData?
    ensures var w' := Perform(p, w, a).value;
            && w'.escrow.closing == w.escrow.closing && w'.escrow.withdrawn == w.escrow.withdrawn
            && w'.chain == w.chain
            && (Pending(w.escrow, k) ==> k in w.escrow.channels && k in w'.escrow.channels
                                         && w'.escrow.ChannelAt(k) == w.escrow.ChannelAt(k))
  {
    assert RequestOk(p, w, k);
  }

  lemma CloseStep(p: Params, w: World, a: Action, k: Key)
    requires ParamsOk(p) && RequestOk(p, w, k) && Perform(p, w, a).Some? && a.DoUncooperativeClose?
    ensures var w' := Perform(p, w, a).value;
            && w'.chain == w.chain && RequestOk(p, w', k)
            && (Pending(w.escrow, k) ==> SameSlot(w.escrow, w'.escrow, k))
            && (!Pending(w.escrow, k) && Pending(w'.escrow, k) ==>
                  ClosesKey(p, a, k) && w'.escrow.closing[k].balance == a.balance
                  && w'.escrow.closing[k].settleBlock == w.BlockNumber() + p.challengePeriod)
  {
    CloseBlockExact(p, w, a.caller, a.receiver, a.openBlock, a.balance);
  }

  /** One step: a pending request is either untouched together with its channel, or settled; a new one comes from
      the sender's close. */
  lemma StepAtKey(p: Params, w: World, a: Action, k: Key)
    requires RequestsOk(p, w)
    ensures var w' := Step(p, w, a);
            && |w.chain| <= |w'.chain|
            && RequestOk(p, w', k)
            && (Pending(w.escrow, k) ==> SameSlot(w.escrow, w'.escrow, k) || SettlesKey(p, a, k))
            && (Pending(w.escrow, k) && Pending(w'.escrow, k) ==> SameSlot(w.escrow, w'.escrow, k))
            && (!Pending(w.escrow, k) && Pending(w'.escrow, k) ==>
                  ClosesKey(p, a, k) && Perform(p, w, a).Some? && w'.escrow.closing[k].balance == a.balance
                  && w'.escrow.closing[k].settleBlock == w.BlockNumber() + p.challengePeriod)
  {
    assert RequestOk(p, w, k);
    if Perform(p, w, a).Some? {
      match a
      case DoUncooperativeClose(_, _, _, _) => CloseStep(p, w, a, k);
      case DoCreate(_, _, _) => DepositSteps(p, w, a, k);
      case DoCreateDelegate(_, _, _, _) => DepositSteps(p, w, a, k);
      case DoTopUp(_, _, _, _) => DepositSteps(p, w, a, k);
      case DoTopUpDelegate(_, _, _, _, _) => DepositSteps(p, w, a, k);
      case DoTransferWithData(_, _, _) => DepositSteps(p, w, a, k);
      case _ =>
    }
  }

  lemma StepKeepsRequests(p: Params, w: World, a: Action)
    requires RequestsOk(p, w)
    ensures RequestsOk(p, Step(p, w, a))
  {
    forall k: Key ensures RequestOk(p, Step(p, w, a), k) {
      StepAtKey(p, w, a, k);
    }
  }

  lemma {:induction false} RunKeepsRequests(p: Params, w: World, run: seq<Action>)
    requires RequestsOk(p, w)
    ensures RequestsOk(p, Exec(p, w, run))
  {
    if run != [] {
      RunKeepsRequests(p, w, run[..|run| - 1]);
      StepKeepsRequests(p, Exec(p, w, run[..|run| - 1]), run[|run| - 1]);
    }
  }

  /** After m actions the key's storage is what it was. */
  ghost predicate FrozenAt(p: Params, w: World, run: seq<Action>, k: Key, m: int)
    requires 0 <= m <= |run|
  {
    SameSlot(w.escrow, Exec(p, w, run[..m]).escrow, k)
  }

  lemma StillFrozen(p: Params, w: World, run: seq<Action>, k: Key, n: nat)
    requires RequestsOk(p, w) && Pending(w.escrow, k)
    requires n < |run| && !SettlesKey(p, run[n], k)
    requires FrozenAt(p, w, run, k, n)
    ensures FrozenAt(p, w, run, k, n + 1)
  {
    assert run[..n + 1][..n] == run[..n];
    RunKeepsRequests(p, w, run[..n]);
    StepAtKey(p, Exec(p, w, run[..n]), run[n], k);
  }

  /** From the moment a close is requested, deposit, withdrawals and request stay fixed until a step that settles
      this very key; after n actions either the run is over or the next action is such a step. */
  lemma FrozenUntilSettled(p: Params, w: World, run: seq<Action>, k: Key) returns (n: nat)
    requires RequestsOk(p, w) && Pending(w.escrow, k)
    ensures n <= |run| && forall m :: 0 <= m <= n ==> FrozenAt(p, w, run, k, m)
    ensures n == |run| || SettlesKey(p, run[n], k)
  {
    n := 0;
    assert FrozenAt(p, w, run, k, 0);
    while n < |run| && !SettlesKey(p, run[n], k)
      invariant n <= |run| && forall m :: 0 <= m <= n ==> FrozenAt(p, w, run, k, m)
    {
      StillFrozen(p, w, run, k, n);
      n := n + 1;
    }
  }

  // ---------------------------------------------------------------- where a request came from

  /** Action i of the run is the sender's committed close of key k, for this balance. */
  ghost predicate ClosedBy(p: Params, w: World, run: seq<Action>, i: int, k: Key, balance: nat) {
    && 0 <= i < |run|
    && ClosesKey(p, run[i], k) && run[i].balance == balance
    && Perform(p, Exec(p, w, run[..i]), run[i]).Some?
  }

  /** Every pending request stems from a close that committed exactly one challenge period before its settle block. */
  lemma {:induction false} RequestHasOrigin(p: Params, w: World, run: seq<Action>, now: World, k: Key) returns (i: nat)
    requires RequestsOk(p, w) && w.escrow.closing == map[]
    requires Exec(p, w, run) == now && Pending(now.escrow, k)
    ensures ClosedBy(p, w, run, i, k, now.escrow.closing[k].balance)
    ensures Exec(p, w, run[..i]).BlockNumber() + p.challengePeriod == now.escrow.closing[k].settleBlock
    ensures |Exec(p, w, run[..i]).chain| <= |now.chain|
  {
    var front, last := run[..|run| - 1], run[|run| - 1];
    var before := Exec(p, w, front);
    RunKeepsRequests(p, w, front);
    StepAtKey(p, before, last, k);
    if Pending(before.escrow, k) {
      i := RequestHasOrigin(p, w, front, before, k);
      assert run[..i] == front[..i];
    } else {
      i := |front|;
    }
  }

  // ---------------------------------------------------------------- the cache along a run

  ghost predicate ChainAndCache(p: Params, w: World) {
    ChainOk(p.codec, w.chain) && Agrees(p.codec, w.chain, w.cache)
  }

  ghost predicate Extends(w: World, w': World) {
    && |w.chain| <= |w'.chain| && w'.chain[..|w.chain|] == w.chain
    && forall n :: n in w.cache ==> n in w'.cache && w'.cache[n] == w.cache[n]
  }

  predicate TouchesCacheOrChain(a: Action) {
    a.DoSettle? || a.DoReport? || a.Mine?
  }

  lemma MostStepsLeaveCache(p: Params, w: World, a: Action)
    requires !TouchesCacheOrChain(a)
    ensures Step(p, w, a).chain == w.chain && Step(p, w, a).cache == w.cache
  {
  }

  /** The cache agrees with the real chain after every step, and what it holds never changes. */
  lemma StepKeepsCache(p: Params, w: World, a: Action)
    requires CollisionFree(p.codec) && ChainAndCache(p, w)
    requires |Step(p, w, a).chain| < TWO_256
    ensures ChainAndCache(p, Step(p, w, a)) && Extends(w, Step(p, w, a))
  {
    if !TouchesCacheOrChain(a) {
      MostStepsLeaveCache(p, w, a);
    } else if Perform(p, w, a).Some? && !a.Mine? {
      var gas, minBlock :| var u := Uncongested(p.codec, w.chain, w.cache, a.reference, gas, minBlock);
        u.Some? && Step(p, w, a).cache == u.value.1;
      CountExact(p.codec, w.chain, w.cache, a.reference, gas, minBlock);
    }
  }

  lemma {:induction false} RunKeepsCache(p: Params, w: World, run: seq<Action>)
    requires CollisionFree(p.codec) && ChainAndCache(p, w)
    requires |Exec(p, w, run).chain| < TWO_256
    ensures ChainAndCache(p, Exec(p, w, run)) && Extends(w, Exec(p, w, run))
  {
    if run != [] {
      var before := Exec(p, w, run[..|run| - 1]);
      ChainGrows(p, before, run[|run| - 1]);
      RunKeepsCache(p, w, run[..|run| - 1]);
      StepKeepsCache(p, before, run[|run| - 1]);
    }
  }

  lemma ChainGrows(p: Params, w: World, a: Action)
    ensures |w.chain| <= |Step(p, w, a).chain|
  {
  }

  // ---------------------------------------------------------------- the settlement guarantee

  /** The real blocks from a given number on that had the required free gas. */
  function UncongestedSince(p: Params, chain: seq<Block>, since: nat): set<nat> {
    set n | since <= n < |chain| && chain[n].gasLimit - chain[n].gasUsed >= p.minFreeGas
  }

  lemma SubsetSmaller<T>(a: set<T>, b: set<T>)
    requires a <= b
    ensures |a| <= |b|
  {
    assert b == a + (b - a);
  }

  lemma SettleNeedsBlocks(p: Params, w: World, caller: Address, receiver: Address, openBlock: uint32,
                          reference: seq<Bytes>)
    requires CollisionFree(p.codec) && ChainAndCache(p, w)
    requires RequestOk(p, w, p.keyOf(caller, receiver, openBlock))
    requires Settle(p, w, caller, receiver, openBlock, reference).Some?
    ensures var request := w.escrow.ClosingAt(p.keyOf(caller, receiver, openBlock));
            && Pending(w.escrow, p.keyOf(caller, receiver, openBlock))
            && p.challengePeriod <= request.settleBlock < w.BlockNumber()
            && |UncongestedSince(p, w.chain, request.settleBlock - p.challengePeriod)| >= p.minUncongested
  {
    var request := w.escrow.ClosingAt(p.keyOf(caller, receiver, openBlock));
    var minBlock := (request.settleBlock - p.challengePeriod) % TWO_32;
    assert minBlock == request.settleBlock - p.challengePeriod;
    CountExact(p.codec, w.chain, w.cache, reference, p.minFreeGas, minBlock);
    SubsetSmaller(RealUncongested(p.codec, w.chain, reference, p.minFreeGas, minBlock),
                  UncongestedSince(p, w.chain, minBlock));
  }

  /** Whenever a sender settles alone, the run contains the committed close this settlement answers, more than a
      challenge period has passed since, and at least the required number of distinct real blocks mined since that
      close had the required free gas. */
  lemma SettlementGuarantee(p: Params, w: World, run: seq<Action>, now: World, caller: Address, receiver: Address,
                            openBlock: uint32, reference: seq<Bytes>) returns (i: nat)
    requires Initial(p, w) && CollisionFree(p.codec)
    requires Exec(p, w, run) == now && |now.chain| < TWO_256
    requires Settle(p, now, caller, receiver, openBlock, reference).Some?
    ensures ClosedBy(p, w, run, i, p.keyOf(caller, receiver, openBlock),
                     now.escrow.ClosingAt(p.keyOf(caller, receiver, openBlock)).balance)
    ensures var closeBlock := Exec(p, w, run[..i]).BlockNumber();
            && now.BlockNumber() > closeBlock + p.challengePeriod
            && |UncongestedSince(p, now.chain, closeBlock)| >= p.minUncongested
  {
    var key := p.keyOf(caller, receiver, openBlock);
    RunKeepsRequests(p, w, run);
    RunKeepsCache(p, w, run);
    assert RequestOk(p, now, key);
    SettleNeedsBlocks(p, now, caller, receiver, openBlock, reference);
    i := RequestHasOrigin(p, w, run, now, key);
  }
}
