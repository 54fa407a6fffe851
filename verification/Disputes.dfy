/** The receiver's answer to a close request that names too little: it goes out in the round that delivers the
    request, or as soon as there is ether for it. */
module Disputes {
  import opened Prelude
  import opened Escrow
  import opened Store
  import opened Accounts
  import opened EventLog
  import opened Handlers
  import opened Windows
  import opened Watcher
  import opened Passes
  import opened Sync
  import opened SyncRuns
  import opened Redeem
  import opened Closings

  // ---------------------------------------------------------------- one pass

  /** A close request for this balance calls for a closing transaction: the stored balance is higher, or the chain has
      forgotten the channel and there is a proof. */
  predicate Provokes(node: Node, m: Records, id: Id, balance: nat) {
    && Confirmed(m, id) && m[id].lastSignature.Some?
    && (node.settleBlock(id).Some? ==> m[id].balance > balance)
  }

  lemma OneRequestAnswered(node: Node, m: Records, id: Id, balance: nat)
    requires Provokes(node, m, id, balance) && node.funded(id)
    ensures RequestTxs(node, m, id, balance) == [TxOf(node.r, m, id)]
  {
  }

  lemma {:induction false} PassAnswers(node: Node, lo: nat, hi: nat, m: Records, log: Log, n: nat, j: nat)
    requires j < n <= |log| && ProofsMatch(m) && After(node, CloseRequests, lo, hi, m, log, j).Going?
    requires Selected(node, CloseRequests, log[j], lo, hi) && node.funded(IdOf(log[j]))
    requires Provokes(node, m, IdOf(log[j]), log[j].event.balance)
    ensures TxOf(node.r, m, IdOf(log[j])) in PassTxs(node, CloseRequests, lo, hi, m, log[..n])
  {
    var id := IdOf(log[j]);
    assert log[..n][..n - 1] == log[..n - 1];
    if j < n - 1 {
      PassAnswers(node, lo, hi, m, log, n - 1, j);
    } else {
      CloseRequestPass(node, lo, hi, m, log, j, id);
      OneRequestAnswered(node, After(node, CloseRequests, lo, hi, m, log, j).records, id, log[j].event.balance);
    }
  }

  lemma OneRequestRemembered(node: Node, m: Records, at: Id, balance: nat, id: Id)
    requires DeliverCloseRequest(node, m, at, balance).Going?
    requires if at == id then Provokes(node, m, id, balance) && node.settleBlock(id).Some? && !node.funded(id)
             else PendingWithProof(m, id)
    ensures PendingWithProof(DeliverCloseRequest(node, m, at, balance).records, id)
  {
  }

  /** Entry j is the only close request of its channel. */
  ghost predicate OnlyRequest(log: Log, j: int)
    requires 0 <= j < |log|
  {
    forall i :: 0 <= i < |log| && log[i].event.CloseRequested? && EntryId(log[i]) == EntryId(log[j]) ==> i == j
  }

  lemma {:induction false} PassRemembers(node: Node, lo: nat, hi: nat, m: Records, log: Log, n: nat, j: nat)
    requires j < n <= |log| && ProofsMatch(m) && After(node, CloseRequests, lo, hi, m, log, n).Going?
    requires Selected(node, CloseRequests, log[j], lo, hi) && OnlyRequest(log, j)
    requires Provokes(node, m, IdOf(log[j]), log[j].event.balance)
    requires node.settleBlock(IdOf(log[j])).Some? && !node.funded(IdOf(log[j]))
    ensures PendingWithProof(After(node, CloseRequests, lo, hi, m, log, n).records, IdOf(log[j]))
  {
    var id, e := IdOf(log[j]), log[n - 1];
    AfterOneMore(node, CloseRequests, lo, hi, m, log, n - 1, id);
    var before := After(node, CloseRequests, lo, hi, m, log, n - 1).records;
    if j < n - 1 {
      PassRemembers(node, lo, hi, m, log, n - 1, j);
      if Selected(node, CloseRequests, e, lo, hi) {
        assert IdOf(e) != id by {
          assert EntryId(e) != EntryId(log[j]);
        }
        OneRequestRemembered(node, before, IdOf(e), e.event.balance, id);
      }
    } else {
      CloseRequestPass(node, lo, hi, m, log, j, id);
      OneRequestRemembered(node, before, id, e.event.balance, id);
    }
  }

  // ---------------------------------------------------------------- one round

  /** Entry j is a close request in the confirmed window that calls for a closing transaction, and the window does not
      settle the channel. */
  predicate ProvokesIn(node: Node, log: Log, plan: Plan, m: Records, j: int)
    requires 0 <= j < |log|
  {
    && Selected(node, CloseRequests, log[j], plan.confirmedFrom, plan.confirmedTo)
    && Provokes(node, m, IdOf(log[j]), log[j].event.balance)
    && !Has(Settlement, log, EntryId(log[j]), plan.confirmedFrom, plan.confirmedTo)
  }

  /** What is stored of the channel when the close requests are delivered. */
  lemma StoredBefore(node: Node, log: Log, start: nat, plan: Plan, m: Records, j: nat)
    requires Ready(node, log, start, plan, m) && DeliverRound(node, plan, m, log).Going?
    requires j < |log| && ProvokesIn(node, log, plan, m, j)
    ensures BeforeCloseRequests(node, plan, m, log).Going?
    ensures var m5 := BeforeCloseRequests(node, plan, m, log).records;
            && ProofsMatch(m5) && Provokes(node, m5, IdOf(log[j]), log[j].event.balance)
            && TxOf(node.r, m5, IdOf(log[j])) == TxOf(node.r, m, IdOf(log[j]))
  {
    var id := IdOf(log[j]);
    assert ChannelOf(node.r, id) == EntryId(log[j]);
    RoundFollows(node, log, start, plan, m);
    AfterSettlementsKeepsProofs(node, log, start, plan, m);
    CreationsDone(node, log, start, plan, m, id);
    SettlementsDone(node, log, start, plan, m, id);
  }

  lemma {:induction false} GoingBefore(node: Node, pass: Pass, lo: nat, hi: nat, m: Records, log: Log, n: nat)
    requires n <= |log| && DeliverPass(node, pass, lo, hi, m, log).Going?
    ensures After(node, pass, lo, hi, m, log, n).Going?
  {
    if DeliverPass(node, pass, lo, hi, m, log[..n]).Stopped? {
      PassStays(node, pass, lo, hi, m, log, n);
    }
  }

  /** A completed round answers it: with ether the transaction for the stored balance goes out; without, it is kept as
      pending. */
  lemma RoundAnswers(node: Node, log: Log, start: nat, plan: Plan, m: Records, j: nat)
    requires Ready(node, log, start, plan, m) && DeliverRound(node, plan, m, log).Going?
    requires j < |log| && ProvokesIn(node, log, plan, m, j)
    ensures if node.funded(IdOf(log[j])) then TxOf(node.r, m, IdOf(log[j])) in RoundTxs(node, plan, m, log)
            else PendingWithProof(DeliverRound(node, plan, m, log).records, IdOf(log[j]))
  {
    StoredBefore(node, log, start, plan, m, j);
    var m5 := BeforeCloseRequests(node, plan, m, log).records;
    assert log[..|log|] == log;
    GoingBefore(node, CloseRequests, plan.confirmedFrom, plan.confirmedTo, m5, log, j);
    if node.funded(IdOf(log[j])) {
      PassAnswers(node, plan.confirmedFrom, plan.confirmedTo, m5, log, |log|, j);
    } else {
      RoundFollows(node, log, start, plan, m);
      assert !Stranded(node, log, plan, m, j);
      PassRemembers(node, plan.confirmedFrom, plan.confirmedTo, m5, log, |log|, j);
    }
  }

  // ---------------------------------------------------------------- along a run

  /** Any completed round of a run: a close request below the stored balance, or for a paid channel that the chain has
      forgotten, is answered with a transaction for the stored balance, at once or once there is ether. */
  lemma RequestAnswered(cfg: Config, r: Receiver, w: Watch, h: Happening, w': Watch, j: nat)
    requires ConfigOk(cfg) && InStep(cfg, r, w) && h.Poll? && Admissible(cfg, r, w, h)
    requires Happen(cfg, r, w, h) == Some(w')
    requires !Idle(PlanRound(cfg, w.heads, h.view)) && j < |h.log|
    requires ProvokesIn(h.node, h.log, PlanRound(cfg, w.heads, h.view), w.records, j)
    ensures if h.node.funded(IdOf(h.log[j])) then Sends(cfg, r, w, h, TxOf(r, w.records, IdOf(h.log[j])))
            else PendingWithProof(w'.records, IdOf(h.log[j]))
  {
    var plan := PlanRound(cfg, w.heads, h.view);
    var m := RecordsFor(plan, w.records);
    ResumesReady(cfg, r, w, h.view, h.log);
    assert ProvokesIn(h.node, h.log, plan, m, j);
    RoundAnswers(h.node, h.log, cfg.start, plan, m, j);
  }

  /** Step n of a joint run is a round that delivers this close request, and there is ether to answer it. */
  ghost predicate AsksTooLittleAt(cfg: Config, before: Joint, s: JointStep, i: int) {
    && s.OnDaemon? && s.h.Poll?
    && var plan := PlanRound(cfg, before.d.heads, s.h.view);
       && !Idle(plan) && 0 <= i < |s.h.log| && ProvokesIn(s.h.node, s.h.log, plan, before.d.records, i)
       && s.h.node.funded(IdOf(s.h.log[i]))
  }

  lemma AnsweredAt(p: Params, cfg: Config, r: Receiver, j: Joint, steps: seq<JointStep>, n: nat, i: nat, before: Joint)
    requires JointInitial(p, cfg, r, j) && AllJointAdmissible(p, cfg, r, j, steps) && TakeAll(p, cfg, r, j, steps).Some?
    requires n < |steps| && TakeAll(p, cfg, r, j, steps[..n]) == Some(before)
    requires AsksTooLittleAt(cfg, before, steps[n], i)
    ensures SendsAt(p, cfg, r, j, steps, n, TxOf(r, before.d.records, IdOf(steps[n].h.log[i])))
  {
    ReachesStep(p, cfg, r, j, steps, n, before);
    RequestAnswered(cfg, r, before.d, steps[n].h, Happen(cfg, r, before.d, steps[n].h).value, i);
  }

  /** A step of the daemon on the way: the state before it is in order, and it is admissible and completes. */
  lemma ReachesStep(p: Params, cfg: Config, r: Receiver, j: Joint, steps: seq<JointStep>, n: nat, before: Joint)
    requires JointInitial(p, cfg, r, j) && AllJointAdmissible(p, cfg, r, j, steps) && TakeAll(p, cfg, r, j, steps).Some?
    requires n < |steps| && TakeAll(p, cfg, r, j, steps[..n]) == Some(before) && steps[n].OnDaemon?
    ensures InStep(cfg, r, before.d) && Admissible(cfg, r, before.d, steps[n].h)
    ensures Happen(cfg, r, before.d, steps[n].h).Some?
  {
    assert steps[..n + 1][..n] == steps[..n];
    AdmissibleBefore(p, cfg, r, j, steps, n);
    AdmissibleBefore(p, cfg, r, j, steps, n + 1);
    JointRun(p, cfg, r, j, steps[..n], before);
    TakenInTurn(p, cfg, r, j, steps, n + 1);
  }

  /** A sender that asks for too little gains nothing: if a round of a joint run delivers its close request and there is
      ether, then in every later state of the run in which the channel is unsettled the answer can be cashed, for the
      balance that was stored, if the contract can read the proof. */
  lemma CheatingIsAnswered(p: Params, cfg: Config, r: Receiver, j: Joint, steps: seq<JointStep>, n: nat, i: nat,
                           before: Joint, now: Joint)
    requires JointInitial(p, cfg, r, j) && AllJointAdmissible(p, cfg, r, j, steps) && SignsAsReceiver(r)
    requires TakeAll(p, cfg, r, j, steps) == Some(now) && n < |steps|
    requires TakeAll(p, cfg, r, j, steps[..n]) == Some(before) && AsksTooLittleAt(cfg, before, steps[n], i)
    requires var id := IdOf(steps[n].h.log[i]);
             Conservation.Settlements(now.w.log, ChannelOf(r, id)) == 0 && OrdinaryPair(p, id.sender, r.address)
    ensures var tx := TxOf(r, before.d.records, IdOf(steps[n].h.log[i]));
            tx.balance == before.d.records[tx.id].balance && TxCashes(p, r, now.w, tx)
  {
    AnsweredAt(p, cfg, r, j, steps, n, i, before);
    ClosingTransactionCashes(p, cfg, r, j, steps, n, TxOf(r, before.d.records, IdOf(steps[n].h.log[i])), now);
  }
}
