/** The two block windows of the watcher: which blocks each round delivers, and when a block is delivered again. */
module Windows {
  import opened Prelude

  /** start: the block before the first one of interest; chunk: the most blocks a round advances by. */
  datatype Config = Config(start: nat, confirmations: nat, chunk: nat)

  /** Heads after the initial ones were set; synced once a round reached the node's height. */
  datatype Heads = Heads(confirmed: nat, unconfirmed: nat, synced: bool)

  /** What a round sees of the node: its height, and whether it still knows the hash of the unconfirmed head. */
  datatype View = View(height: nat, headKnown: bool)

  /** Blocks confirmedFrom + 1 to confirmedTo are delivered as confirmed, likewise for unconfirmed. */
  datatype Plan = Plan(reset: bool, confirmedFrom: nat, confirmedTo: nat, unconfirmedFrom: nat, unconfirmedTo: nat)

  predicate NeedsReset(h: Heads, v: View) {
    h.synced && (v.height < h.unconfirmed || !v.headKnown)
  }

  function PlanRound(cfg: Config, h: Heads, v: View): Plan {
    var from := if NeedsReset(h, v) then h.confirmed else h.unconfirmed;
    var to := Min(from + cfg.chunk, v.height);
    Plan(NeedsReset(h, v), h.confirmed, Max(to - cfg.confirmations, 0), from, to)
  }

  /** Nothing to deliver in either window; heads stay as they are but for a reset. */
  predicate Idle(plan: Plan) {
    plan.confirmedFrom >= plan.confirmedTo && plan.unconfirmedFrom >= plan.unconfirmedTo
  }

  /** set_head's assertions. */
  predicate HeadsAcceptable(plan: Plan) {
    0 < plan.confirmedTo < plan.unconfirmedTo
  }

  /** The heads after a completed round; None where set_head's assertions fail. */
  function Advance(cfg: Config, h: Heads, v: View): Option<Heads> {
    var plan := PlanRound(cfg, h, v);
    if Idle(plan) then Some(h.(unconfirmed := plan.unconfirmedFrom))
    else if !HeadsAcceptable(plan) then None
    else Some(Heads(plan.confirmedTo, plan.unconfirmedTo, h.synced || plan.unconfirmedTo == v.height))
  }

  function Initial(cfg: Config): Heads {
    Heads(cfg.start, cfg.start, false)
  }

  /** The heads after a run of rounds, None once one of them failed. */
  function AdvanceAll(cfg: Config, views: seq<View>): Option<Heads> {
    if views == [] then Some(Initial(cfg))
    else
      match AdvanceAll(cfg, views[..|views| - 1])
      case None => None
      case Some(h) => Advance(cfg, h, views[|views| - 1])
  }

  /** Round i delivers this block as confirmed. */
  predicate Delivers(cfg: Config, views: seq<View>, i: nat, block: nat)
    requires i < |views|
  {
    match AdvanceAll(cfg, views[..i])
    case None => false
    case Some(h) =>
      var plan := PlanRound(cfg, h, views[i]);
      !Idle(plan) && plan.confirmedFrom < block <= plan.confirmedTo
  }

  /** The confirmed head after k completed rounds. */
  function HeadAt(cfg: Config, views: seq<View>, k: nat): nat
    requires k <= |views|
  {
    match AdvanceAll(cfg, views[..k])
    case None => 0
    case Some(h) => h.confirmed
  }

  lemma {:induction false} PrefixCompletes(cfg: Config, views: seq<View>, k: nat)
    requires AdvanceAll(cfg, views).Some? && k <= |views|
    ensures AdvanceAll(cfg, views[..k]).Some?
  {
    if k < |views| {
      assert views[..|views| - 1][..k] == views[..k];
      PrefixCompletes(cfg, views[..|views| - 1], k);
    } else {
      assert views[..k] == views;
    }
  }

  /** A round of a completed run delivers exactly what lies between the confirmed heads around it. */
  lemma DeliversBetweenHeads(cfg: Config, views: seq<View>, i: nat, block: nat)
    requires AdvanceAll(cfg, views).Some? && i < |views|
    ensures Delivers(cfg, views, i, block) <==> HeadAt(cfg, views, i) < block <= HeadAt(cfg, views, i + 1)
  {
    PrefixCompletes(cfg, views, i);
    PrefixCompletes(cfg, views, i + 1);
    assert views[..i + 1][..i] == views[..i];
  }

  /** Where the confirmed head passes a block upwards, some round delivers it. */
  lemma {:induction false} PassingUp(cfg: Config, views: seq<View>, from: nat, last: nat, block: nat) returns (i: nat)
    requires AdvanceAll(cfg, views).Some? && from <= last <= |views|
    requires HeadAt(cfg, views, from) < block <= HeadAt(cfg, views, last)
    ensures from <= i < last && Delivers(cfg, views, i, block)
    decreases last - from
  {
    assert from < last;
    if block <= HeadAt(cfg, views, last - 1) {
      i := PassingUp(cfg, views, from, last - 1, block);
    } else {
      i := last - 1;
      DeliversBetweenHeads(cfg, views, i, block);
    }
  }

  lemma {:induction false} PassingDown(cfg: Config, views: seq<View>, from: nat, last: nat, block: nat) returns (q: nat)
    requires from <= last <= |views|
    requires HeadAt(cfg, views, last) < block <= HeadAt(cfg, views, from)
    ensures from <= q < last && HeadAt(cfg, views, q + 1) < block <= HeadAt(cfg, views, q)
    decreases last - from
  {
    assert from < last;
    if HeadAt(cfg, views, last - 1) < block {
      q := PassingDown(cfg, views, from, last - 1, block);
    } else {
      q := last - 1;
    }
  }

  /** No gap: whatever the heights do, every block between the start and the confirmed head has been delivered. */
  lemma NoGap(cfg: Config, views: seq<View>, block: nat) returns (i: nat)
    requires AdvanceAll(cfg, views).Some?
    requires cfg.start < block <= AdvanceAll(cfg, views).value.confirmed
    ensures i < |views| && Delivers(cfg, views, i, block)
  {
    assert views[..0] == [] && views[..|views|] == views;
    i := PassingUp(cfg, views, 0, |views|, block);
  }

  // ---------------------------------------------------------------- when a block is delivered again

  /** A round lowers the confirmed head if and only if it moves the unconfirmed head on, but to less than the
      confirmation depth after the confirmed one; where even the depth is not reached, set_head fails instead. */
  lemma GoesBackExactlyWhen(cfg: Config, h: Heads, v: View)
    ensures var plan := PlanRound(cfg, h, v);
            Advance(cfg, h, v).Some? && Advance(cfg, h, v).value.confirmed < h.confirmed <==>
              && plan.unconfirmedFrom < plan.unconfirmedTo < h.confirmed + cfg.confirmations
              && 0 < cfg.confirmations < plan.unconfirmedTo
  {
  }

  ghost predicate DeliveredTwice(cfg: Config, views: seq<View>, block: nat, i: nat, j: nat) {
    i < j < |views| && Delivers(cfg, views, i, block) && Delivers(cfg, views, j, block)
  }

  /** Round q lowers the confirmed head, and after r rounds the head is above that low point; both heads are past the
      start. */
  ghost predicate DipsBetween(cfg: Config, views: seq<View>, q: nat, r: nat) {
    && q < r <= |views|
    && HeadAt(cfg, views, q + 1) < HeadAt(cfg, views, q) && HeadAt(cfg, views, q + 1) < HeadAt(cfg, views, r)
    && cfg.start < HeadAt(cfg, views, q) && cfg.start < HeadAt(cfg, views, r)
  }

  /** Whatever the heights do: some block is delivered as confirmed by two rounds of a completed run if and only if the
      confirmed head once went back from past the start and later rose again. */
  lemma DeliveredTwiceExactlyWhen(cfg: Config, views: seq<View>)
    requires AdvanceAll(cfg, views).Some?
    ensures (exists block, i, j :: block > cfg.start && DeliveredTwice(cfg, views, block, i, j)) <==>
            exists q, r :: DipsBetween(cfg, views, q, r)
  {
    if block, i, j :| block > cfg.start && DeliveredTwice(cfg, views, block, i, j) {
      TwiceNeedsDip(cfg, views, block, i, j);
    }
    if q, r :| DipsBetween(cfg, views, q, r) {
      DipRedelivers(cfg, views, q, r);
    }
  }

  lemma TwiceNeedsDip(cfg: Config, views: seq<View>, block: nat, i: nat, j: nat)
    requires AdvanceAll(cfg, views).Some? && block > cfg.start && DeliveredTwice(cfg, views, block, i, j)
    ensures exists q, r :: DipsBetween(cfg, views, q, r)
  {
    DeliversBetweenHeads(cfg, views, i, block);
    DeliversBetweenHeads(cfg, views, j, block);
    var q := PassingDown(cfg, views, i + 1, j, block);
    assert DipsBetween(cfg, views, q, j + 1);
  }

  lemma DipRedelivers(cfg: Config, views: seq<View>, q: nat, r: nat)
    requires AdvanceAll(cfg, views).Some? && DipsBetween(cfg, views, q, r)
    ensures exists block, i, j :: block > cfg.start && DeliveredTwice(cfg, views, block, i, j)
  {
    var block := Max(HeadAt(cfg, views, q + 1), cfg.start) + 1;
    assert views[..0] == [];
    var i := PassingUp(cfg, views, 0, q, block);
    var j := PassingUp(cfg, views, q + 1, r, block);
    assert DeliveredTwice(cfg, views, block, i, j);
  }

  // ---------------------------------------------------------------- delivered exactly once

  ghost predicate HeightsNeverFall(views: seq<View>) {
    forall i, j :: 0 <= i < j < |views| ==> views[i].height <= views[j].height
  }

  /** At least one confirmation, chunks no shorter than the confirmation depth, and a first height that deep. */
  ghost predicate Regular(cfg: Config, views: seq<View>) {
    && 1 <= cfg.confirmations <= cfg.chunk && 1 <= cfg.start
    && HeightsNeverFall(views)
    && (views != [] ==> cfg.start + cfg.confirmations <= views[0].height)
  }

  /** Where the heads of a regular run can be: the confirmed head lags the height by the confirmation depth. */
  predicate WithinHeight(cfg: Config, h: Heads, height: nat) {
    && cfg.start <= h.confirmed <= h.unconfirmed <= Max(height, cfg.start)
    && h.confirmed + cfg.confirmations <= Max(height, cfg.start + cfg.confirmations)
  }

  /** Every round of a regular run completes, hash-mismatch resets included, and the confirmed head never goes back. */
  lemma {:induction false} RegularRun(cfg: Config, views: seq<View>)
    requires Regular(cfg, views)
    ensures AdvanceAll(cfg, views).Some?
    ensures WithinHeight(cfg, AdvanceAll(cfg, views).value, if views == [] then 0 else views[|views| - 1].height)
    ensures views != [] ==>
              var before := AdvanceAll(cfg, views[..|views| - 1]);
              before.Some? && before.value.confirmed <= AdvanceAll(cfg, views).value.confirmed
  {
    if views != [] {
      var front, last := views[..|views| - 1], views[|views| - 1];
      assert front != [] ==> front[0] == views[0];
      RegularRun(cfg, front);
    }
  }

  lemma {:induction false} ConfirmedHeadGrows(cfg: Config, views: seq<View>, i: nat, j: nat)
    requires Regular(cfg, views) && i <= j <= |views|
    ensures HeadAt(cfg, views, i) <= HeadAt(cfg, views, j)
    decreases j - i
  {
    if i < j {
      RegularRun(cfg, views[..j]);
      assert views[..j][..j - 1] == views[..j - 1];
      ConfirmedHeadGrows(cfg, views, i, j - 1);
    }
  }

  /** Exactly once: in a regular run no block is delivered as confirmed by two rounds, even across resets. */
  lemma DeliveredOnce(cfg: Config, views: seq<View>, i: nat, j: nat, block: nat)
    requires Regular(cfg, views) && i < |views| && j < |views|
    requires Delivers(cfg, views, i, block) && Delivers(cfg, views, j, block)
    ensures i == j
  {
    RegularRun(cfg, views);
    DeliversBetweenHeads(cfg, views, i, block);
    DeliversBetweenHeads(cfg, views, j, block);
    if i < j {
      ConfirmedHeadGrows(cfg, views, i + 1, j);
    } else if j < i {
      ConfirmedHeadGrows(cfg, views, j + 1, i);
    }
  }

  // ---------------------------------------------------------------- catching up

  /** Rounds at one height, none of which finds a block replaced. */
  ghost predicate Steady(views: seq<View>, height: nat) {
    forall i :: 0 <= i < |views| ==> views[i] == View(height, true)
  }

  /** The heads after a run of rounds from given ones. */
  function AdvanceFrom(cfg: Config, h: Heads, views: seq<View>): Option<Heads> {
    if views == [] then Some(h)
    else
      match AdvanceFrom(cfg, h, views[..|views| - 1])
      case None => None
      case Some(h') => Advance(cfg, h', views[|views| - 1])
  }

  /** n chunks on, or at the height. */
  function HeadAfter(cfg: Config, from: nat, n: nat, height: nat): nat {
    if n == 0 then Min(from, height) else Min(HeadAfter(cfg, from, n - 1, height) + cfg.chunk, height)
  }

  lemma {:induction false} ChunksAddUp(cfg: Config, from: nat, n: nat, height: nat)
    ensures HeadAfter(cfg, from, n, height) == Min(from + n * cfg.chunk, height)
  {
    if n > 0 {
      ChunksAddUp(cfg, from, n - 1, height);
      assert n * cfg.chunk == (n - 1) * cfg.chunk + cfg.chunk;
    }
  }

  /** At a steady height the watcher catches up one chunk a round, no faster and no slower: after n rounds the
      unconfirmed head is n chunks on, or at the height, the confirmed one lags it by the confirmation depth, and the
      daemon counts as synchronised exactly once it is there. */
  lemma {:induction false} CatchesUp(cfg: Config, from: nat, views: seq<View>, height: nat)
    requires 1 <= cfg.confirmations < from < height && Steady(views, height)
    ensures var head := HeadAfter(cfg, from, |views|, height);
            && head == Min(from + |views| * cfg.chunk, height)
            && AdvanceFrom(cfg, Heads(from - cfg.confirmations, from, false), views) ==
                 Some(Heads(head - cfg.confirmations, head, head == height))
  {
    ChunksAddUp(cfg, from, |views|, height);
    if views != [] {
      var front := views[..|views| - 1];
      CatchesUp(cfg, from, front, height);
      StillAhead(cfg, from, |front|, height);
      var head := HeadAfter(cfg, from, |front|, height);
      assert views[|front|] == View(height, true);
      CatchesUpOnce(cfg, head, height);
    }
  }

  lemma {:induction false} StillAhead(cfg: Config, from: nat, n: nat, height: nat)
    requires from < height
    ensures from <= HeadAfter(cfg, from, n, height) <= height
  {
    if n > 0 {
      StillAhead(cfg, from, n - 1, height);
    }
  }

  lemma CatchesUpOnce(cfg: Config, head: nat, height: nat)
    requires 1 <= cfg.confirmations < head <= height
    ensures var head' := Min(head + cfg.chunk, height);
            Advance(cfg, Heads(head - cfg.confirmations, head, head == height), View(height, true)) ==
            Some(Heads(head' - cfg.confirmations, head', head' == height))
  {
  }

  /** The daemon counts as synchronised exactly if some round delivered blocks up to the node's height. */
  lemma {:induction false} SyncedExactlyWhen(cfg: Config, views: seq<View>)
    requires AdvanceAll(cfg, views).Some?
    ensures AdvanceAll(cfg, views).value.synced <==> exists i :: 0 <= i < |views| && Arrives(cfg, views, i)
  {
    if views != [] {
      var k := |views| - 1;
      var front := views[..k];
      SyncedExactlyWhen(cfg, front);
      forall i | 0 <= i < k ensures Arrives(cfg, views, i) == Arrives(cfg, front, i) {
        assert views[..i] == front[..i];
      }
      assert AdvanceAll(cfg, views).value.synced <==> AdvanceAll(cfg, front).value.synced || Arrives(cfg, views, k);
    }
  }

  /** Round i delivers blocks up to the node's height. */
  predicate Arrives(cfg: Config, views: seq<View>, i: int)
    requires 0 <= i < |views|
  {
    match AdvanceAll(cfg, views[..i])
    case None => false
    case Some(h) =>
      var plan := PlanRound(cfg, h, views[i]);
      !Idle(plan) && plan.unconfirmedTo == views[i].height
  }

  // ---------------------------------------------------------------- rounds that do not go back

  /** The heads between rounds, whatever the heights did. */
  predicate HeadsInOrder(cfg: Config, h: Heads) {
    cfg.start <= h.confirmed <= h.unconfirmed <= h.confirmed + cfg.confirmations
  }

  /** The round leaves the confirmed head where it is or moves it on. */
  predicate Onward(plan: Plan) {
    Idle(plan) || plan.confirmedFrom <= plan.confirmedTo
  }

  /** In a regular run no round goes back. */
  lemma RegularIsOnward(cfg: Config, views: seq<View>, i: nat)
    requires Regular(cfg, views) && i < |views|
    ensures AdvanceAll(cfg, views[..i]).Some? && Onward(PlanRound(cfg, AdvanceAll(cfg, views[..i]).value, views[i]))
  {
    var front := views[..i];
    assert front != [] ==> front[0] == views[0];
    RegularRun(cfg, front);
  }

  /** Why the height must not fall: after a drop of two blocks the confirmed block start + 5 is delivered twice. */
  lemma FallingHeightRedelivers(start: nat)
    requires 1 <= start
    ensures var cfg := Config(start, 3, 100);
            var views := [View(start + 8, true), View(start + 6, true), View(start + 9, true)];
            && AdvanceAll(cfg, views).Some?
            && Delivers(cfg, views, 0, start + 5) && Delivers(cfg, views, 2, start + 5)
  {
    var cfg := Config(start, 3, 100);
    var views := [View(start + 8, true), View(start + 6, true), View(start + 9, true)];
    assert views[..0] == [];
    assert views[..1][..0] == [] && views[..1][0] == views[0];
    assert AdvanceAll(cfg, views[..1]) == Some(Heads(start + 5, start + 8, true));
    assert views[..2][..1] == views[..1] && views[..2][1] == views[1];
    assert AdvanceAll(cfg, views[..2]) == Some(Heads(start + 3, start + 6, true));
    assert views[..3] == views;
  }
}
