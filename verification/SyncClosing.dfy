/** Exactly when a channel's record is closed, and what deposit it then has, along any run of the watcher. */
module SyncClosing {
  import opened Prelude
  import opened Store
  import opened Accounts
  import opened EventLog
  import opened Handlers
  import opened RecordInvariants
  import opened Windows
  import opened Watcher
  import opened Passes
  import opened Sync
  import opened SyncRuns

  // ---------------------------------------------------------------- one round

  /** A close request below the stored balance is disputed by a transaction the receiver pays for. */
  predicate Disputes(node: Node, m: Records, id: Id, balance: nat) {
    Confirmed(m, id) && m[id].balance > balance && node.settleBlock(id).Some? && node.funded(id)
  }

  /** Entry j asks to close this channel, and the request is not disputed. */
  predicate Conceded(node: Node, m: Records, log: Log, lo: nat, hi: nat, j: int, id: Id)
    requires 0 <= j < |log|
  {
    && Selected(node, CloseRequests, log[j], lo, hi) && IdOf(log[j]) == id
    && !Disputes(node, m, id, log[j].event.balance)
  }

  ghost predicate ConcededBy(node: Node, m: Records, log: Log, lo: nat, hi: nat, n: nat, id: Id)
    requires n <= |log|
  {
    exists j :: 0 <= j < n && Conceded(node, m, log, lo, hi, j, id)
  }

  lemma OneRequestCloses(node: Node, m: Records, at: Id, balance: nat, id: Id)
    requires DeliverCloseRequest(node, m, at, balance).Going? && Confirmed(m, id)
    ensures Confirmed(DeliverCloseRequest(node, m, at, balance).records, id)
    ensures DeliverCloseRequest(node, m, at, balance).records[id].IsClosed() <==>
              m[id].IsClosed() || (at == id && !Disputes(node, m, id, balance))
  {
  }

  lemma {:induction false} RequestsClose(node: Node, lo: nat, hi: nat, m: Records, log: Log, n: nat, id: Id)
    requires n <= |log| && ProofsMatch(m) && Confirmed(m, id)
    requires After(node, CloseRequests, lo, hi, m, log, n).Going?
    ensures var m' := After(node, CloseRequests, lo, hi, m, log, n).records;
            Confirmed(m', id) && (m'[id].IsClosed() <==> m[id].IsClosed() || ConcededBy(node, m, log, lo, hi, n, id))
  {
    if n > 0 {
      var e := log[n - 1];
      AfterOneMore(node, CloseRequests, lo, hi, m, log, n - 1, id);
      RequestsClose(node, lo, hi, m, log, n - 1, id);
      CloseRequestPass(node, lo, hi, m, log, n - 1, id);
      var before := After(node, CloseRequests, lo, hi, m, log, n - 1).records;
      if Selected(node, CloseRequests, e, lo, hi) {
        OneRequestCloses(node, before, IdOf(e), e.event.balance, id);
      }
      assert ConcededBy(node, m, log, lo, hi, n, id) <==>
             ConcededBy(node, m, log, lo, hi, n - 1, id) || Conceded(node, m, log, lo, hi, n - 1, id);
    }
  }

  /** After a round a confirmed record is closed if and only if it was before, or its request came and was conceded. */
  lemma RoundCloses(node: Node, log: Log, start: nat, plan: Plan, m: Records, id: Id)
    requires Ready(node, log, start, plan, m) && DeliverRound(node, plan, m, log).Going?
    requires Confirmed(DeliverRound(node, plan, m, log).records, id)
    ensures DeliverRound(node, plan, m, log).records[id].IsClosed() <==>
              || (Confirmed(m, id) && m[id].IsClosed())
              || ConcededBy(node, m, log, plan.confirmedFrom, plan.confirmedTo, |log|, id)
  {
    RoundFollows(node, log, start, plan, m);
    AfterSettlementsKeepsProofs(node, log, start, plan, m);
    CreationsDone(node, log, start, plan, m, id);
    SettlementsDone(node, log, start, plan, m, id);
    var m5 := BeforeCloseRequests(node, plan, m, log).records;
    assert log[..|log|] == log;
    CloseRequestPass(node, plan.confirmedFrom, plan.confirmedTo, m5, log, |log|, id);
    RequestsClose(node, plan.confirmedFrom, plan.confirmedTo, m5, log, |log|, id);
    forall j | 0 <= j < |log|
      ensures Conceded(node, m5, log, plan.confirmedFrom, plan.confirmedTo, j, id) ==
              Conceded(node, m, log, plan.confirmedFrom, plan.confirmedTo, j, id)
    {
    }
  }

  /** What a round does to the deposit of a record that stays: nothing to a closed one, all top-ups to any other. */
  lemma RoundDeposits(node: Node, log: Log, start: nat, plan: Plan, m: Records, id: Id)
    requires Ready(node, log, start, plan, m) && DeliverRound(node, plan, m, log).Going?
    requires Confirmed(DeliverRound(node, plan, m, log).records, id)
    ensures var m' := DeliverRound(node, plan, m, log).records;
            var before, now := DepositAt(log, ChannelOf(node.r, id), start, plan.confirmedFrom),
                               DepositAt(log, ChannelOf(node.r, id), start, plan.confirmedTo);
            && (Confirmed(m, id) && m[id].IsClosed() ==>
                  && m'[id].deposit == m[id].deposit
                  && (ClosingAt(log, ChannelOf(node.r, id), start, plan.confirmedFrom) ==> now == before))
            && (!Confirmed(m, id) || !m[id].IsClosed() ==> m'[id].deposit == now)
  {
    RoundFollows(node, log, start, plan, m);
    AfterSettlementsKeepsProofs(node, log, start, plan, m);
    CreationsDone(node, log, start, plan, m, id);
    SettlementsDone(node, log, start, plan, m, id);
    var m5 := BeforeCloseRequests(node, plan, m, log).records;
    assert log[..|log|] == log;
    CloseRequestPass(node, plan.confirmedFrom, plan.confirmedTo, m5, log, |log|, id);
    LogAdvances(log, start, ChannelOf(node.r, id), plan.confirmedFrom, plan.confirmedTo);
    assert FollowsAt(node.r, log, start, plan.confirmedFrom, m, id);
  }

  // ---------------------------------------------------------------- along a run

  /** sign_close succeeds for this channel. */
  predicate Signs(r: Receiver, w: Watch, h: Happening, id: Id) {
    h.Call? && h.op.OpSignClose? && h.op.id == id && SignClose(r, w.records, id, h.op.balance).Agreed?
  }

  /** A round delivers this channel's close request and does not dispute it. */
  ghost predicate Concedes(cfg: Config, w: Watch, h: Happening, id: Id) {
    h.Poll? &&
    var plan := PlanRound(cfg, w.heads, h.view);
    && !Idle(plan)
    && ConcededBy(h.node, RecordsFor(plan, w.records), h.log, plan.confirmedFrom, plan.confirmedTo, |h.log|, id)
  }

  ghost predicate SignsAt(cfg: Config, r: Receiver, hs: seq<Happening>, n: int, id: Id)
    requires 0 <= n < |hs|
  {
    Run(cfg, r, hs[..n]).Some? && Signs(r, Run(cfg, r, hs[..n]).value, hs[n], id)
  }

  ghost predicate ConcedesAt(cfg: Config, r: Receiver, hs: seq<Happening>, n: int, id: Id)
    requires 0 <= n < |hs|
  {
    Run(cfg, r, hs[..n]).Some? && Concedes(cfg, Run(cfg, r, hs[..n]).value, hs[n], id)
  }

  ghost predicate Signed(cfg: Config, r: Receiver, hs: seq<Happening>, id: Id) {
    exists n :: 0 <= n < |hs| && SignsAt(cfg, r, hs, n, id)
  }

  ghost predicate HasConceded(cfg: Config, r: Receiver, hs: seq<Happening>, id: Id) {
    exists n :: 0 <= n < |hs| && ConcedesAt(cfg, r, hs, n, id)
  }

  lemma OneMoreHappening(cfg: Config, r: Receiver, hs: seq<Happening>, id: Id)
    requires hs != [] && Run(cfg, r, hs[..|hs| - 1]).Some?
    ensures var front, w, last := hs[..|hs| - 1], Run(cfg, r, hs[..|hs| - 1]).value, hs[|hs| - 1];
            && (Signed(cfg, r, hs, id) <==> Signed(cfg, r, front, id) || Signs(r, w, last, id))
            && (HasConceded(cfg, r, hs, id) <==> HasConceded(cfg, r, front, id) || Concedes(cfg, w, last, id))
  {
    var k := |hs| - 1;
    forall n | 0 <= n < k
      ensures SignsAt(cfg, r, hs, n, id) == SignsAt(cfg, r, hs[..k], n, id)
      ensures ConcedesAt(cfg, r, hs, n, id) == ConcedesAt(cfg, r, hs[..k], n, id)
    {
      assert hs[..n] == hs[..k][..n];
    }
    assert SignsAt(cfg, r, hs, k, id) == Signs(r, Run(cfg, r, hs[..k]).value, hs[k], id);
    assert ConcedesAt(cfg, r, hs, k, id) == Concedes(cfg, Run(cfg, r, hs[..k]).value, hs[k], id);
  }

  /** A channel whose creation was confirmed stays known as such; once its record is gone, it does not come back. */
  lemma NeverComesBack(cfg: Config, r: Receiver, w: Watch, h: Happening, w': Watch, id: Id)
    requires ConfigOk(cfg) && InStep(cfg, r, w) && Admissible(cfg, r, w, h) && Happen(cfg, r, w, h) == Some(w')
    requires Has(Creation, w.seen, ChannelOf(r, id), cfg.start, w.heads.confirmed)
    ensures Has(Creation, w'.seen, ChannelOf(r, id), cfg.start, w'.heads.confirmed)
    ensures Confirmed(w'.records, id) ==> Confirmed(w.records, id)
  {
    if h.Poll? {
      var cid, c, c' := ChannelOf(r, id), w.heads.confirmed, w'.heads.confirmed;
      PollExact(cfg, r, w, h);
      assert FollowsAt(r, w.seen, cfg.start, c, w.records, id);
      assert FollowsAt(r, w'.seen, cfg.start, c', w'.records, id);
      SameSummaries(Creation, h.log, w.seen, cid, cfg.start, c, c);
      SameSummaries(Settlement, h.log, w.seen, cid, cfg.start, c, c);
      SummarySplit(Creation, h.log, cid, cfg.start, c, c');
      SummarySplit(Settlement, h.log, cid, cfg.start, c, c');
    }
  }

  /** What is invariant of one record, given whether it was signed off or conceded on the way. */
  ghost predicate Tells(cfg: Config, r: Receiver, w: Watch, id: Id, signed: bool, conceded: bool) {
    var cid, c := ChannelOf(r, id), w.heads.confirmed;
    && (signed || conceded ==> Has(Creation, w.seen, cid, cfg.start, c))
    && (conceded ==> ClosingAt(w.seen, cid, cfg.start, c))
    && (Confirmed(w.records, id) ==>
          && (w.records[id].IsClosed() <==> signed || conceded)
          && (!signed ==> w.records[id].deposit == DepositAt(w.seen, cid, cfg.start, c)))
  }

  lemma CallTells(cfg: Config, r: Receiver, w: Watch, op: Op, id: Id, signed: bool, conceded: bool)
    requires InStep(cfg, r, w) && (op.OpPay? || op.OpSignClose? || op.OpClosePending?)
    requires Tells(cfg, r, w, id, signed, conceded)
    ensures Tells(cfg, r, w.(records := Apply(r, w.records, op)), id, signed || Signs(r, w, Call(op), id), conceded)
  {
    assert FollowsAt(r, w.seen, cfg.start, w.heads.confirmed, w.records, id);
  }

  lemma RoundTells(cfg: Config, node: Node, w: Watch, plan: Plan, w': Watch, id: Id, signed: bool, conceded: bool,
                   now: bool)
    requires Ready(node, w.seen, cfg.start, plan, w.records) && plan.confirmedFrom == w.heads.confirmed
    requires DeliverRound(node, plan, w.records, w.seen) == Going(w'.records)
    requires w'.seen == w.seen && w'.heads.confirmed == plan.confirmedTo
    requires now == ConcededBy(node, w.records, w.seen, plan.confirmedFrom, plan.confirmedTo, |w.seen|, id)
    requires Tells(cfg, node.r, w, id, signed, conceded)
    requires (signed || conceded) && Confirmed(w'.records, id) ==> Confirmed(w.records, id)
    ensures Tells(cfg, node.r, w', id, signed, conceded || now)
  {
    SummarySplit(Creation, w.seen, ChannelOf(node.r, id), cfg.start, plan.confirmedFrom, plan.confirmedTo);
    SummarySplit(CloseKind, w.seen, ChannelOf(node.r, id), cfg.start, plan.confirmedFrom, plan.confirmedTo);
    if now {
      var j :| 0 <= j < |w.seen| && Conceded(node, w.records, w.seen, plan.confirmedFrom, plan.confirmedTo, j, id);
      HasAt(CloseKind, w.seen, ChannelOf(node.r, id), cfg.start, plan.confirmedTo, j);
      CreationBefore(w.seen, cfg.start, j, plan.confirmedTo);
    }
    if Confirmed(w'.records, id) {
      RoundCloses(node, w.seen, cfg.start, plan, w.records, id);
      RoundDeposits(node, w.seen, cfg.start, plan, w.records, id);
    }
  }

  lemma PollTells(cfg: Config, r: Receiver, w: Watch, h: Happening, w': Watch, id: Id, signed: bool, conceded: bool)
    requires ConfigOk(cfg) && InStep(cfg, r, w) && h.Poll? && Admissible(cfg, r, w, h)
    requires Happen(cfg, r, w, h) == Some(w')
    requires Tells(cfg, r, w, id, signed, conceded)
    ensures Tells(cfg, r, w', id, signed, conceded || Concedes(cfg, w, h, id))
  {
    var plan := PlanRound(cfg, w.heads, h.view);
    var m := RecordsFor(plan, w.records);
    ResumesReady(cfg, r, w, h.view, h.log);
    var cid, c := ChannelOf(r, id), w.heads.confirmed;
    SameSummaries(Creation, h.log, w.seen, cid, cfg.start, c, c);
    SameSummaries(TopUpKind, h.log, w.seen, cid, cfg.start, c, c);
    SameSummaries(CloseKind, h.log, w.seen, cid, cfg.start, c, c);
    if !Idle(plan) {
      if signed || conceded {
        NeverComesBack(cfg, r, w, h, w', id);
      }
      RoundTells(cfg, h.node, Watch(w.heads, m, h.log), plan, w', id, signed, conceded, Concedes(cfg, w, h, id));
    }
  }

  lemma {:induction false} RunTells(cfg: Config, r: Receiver, hs: seq<Happening>, w: Watch, id: Id)
    requires ConfigOk(cfg) && AllAdmissible(cfg, r, hs) && Run(cfg, r, hs) == Some(w)
    ensures Tells(cfg, r, w, id, Signed(cfg, r, hs, id), HasConceded(cfg, r, hs, id))
  {
    if hs != [] {
      var front, last := hs[..|hs| - 1], hs[|hs| - 1];
      var before := Run(cfg, r, front).value;
      RunTells(cfg, r, front, before, id);
      RunKeepsStep(cfg, r, front, before);
      OneMoreHappening(cfg, r, hs, id);
      if last.Poll? {
        PollTells(cfg, r, before, last, w, id, Signed(cfg, r, front, id), HasConceded(cfg, r, front, id));
      } else {
        CallTells(cfg, r, before, last.op, id, Signed(cfg, r, front, id), HasConceded(cfg, r, front, id));
      }
    }
  }

  /** Paid or not, a channel's record is closed if and only if sign_close succeeded for it or a round delivered its
      close request without disputing it; and unless it was signed off, its deposit is what the log says. */
  lemma ClosedExactlyWhen(cfg: Config, r: Receiver, hs: seq<Happening>, w: Watch, id: Id)
    requires ConfigOk(cfg) && AllAdmissible(cfg, r, hs) && Run(cfg, r, hs) == Some(w) && Confirmed(w.records, id)
    ensures w.records[id].IsClosed() <==> Signed(cfg, r, hs, id) || HasConceded(cfg, r, hs, id)
    ensures !Signed(cfg, r, hs, id) ==>
              w.records[id].deposit == DepositAt(w.seen, ChannelOf(r, id), cfg.start, w.heads.confirmed)
  {
    RunTells(cfg, r, hs, w, id);
  }

  /** A record that was signed off keeps the deposit the log said at that moment, whatever is topped up later. */
  lemma {:induction false} SignedDepositStays(cfg: Config, r: Receiver, hs: seq<Happening>, n: nat, w: Watch, id: Id)
    requires ConfigOk(cfg) && AllAdmissible(cfg, r, hs) && Run(cfg, r, hs) == Some(w)
    requires n < |hs| && SignsAt(cfg, r, hs, n, id)
    ensures var then' := Run(cfg, r, hs[..n]).value;
            && Has(Creation, w.seen, ChannelOf(r, id), cfg.start, w.heads.confirmed)
            && (Confirmed(w.records, id) ==>
                  && w.records[id].IsClosed()
                  && w.records[id].deposit == DepositAt(then'.seen, ChannelOf(r, id), cfg.start, then'.heads.confirmed))
  {
    var front, last := hs[..|hs| - 1], hs[|hs| - 1];
    var before := Run(cfg, r, front).value;
    RunKeepsStep(cfg, r, front, before);
    if n == |hs| - 1 {
      assert FollowsAt(r, before.seen, cfg.start, before.heads.confirmed, before.records, id);
    } else {
      assert hs[..n] == front[..n];
      SignedDepositStays(cfg, r, front, n, before, id);
      NeverComesBack(cfg, r, before, last, w, id);
      if Confirmed(w.records, id) {
        if last.Poll? {
          PollLeavesClosed(cfg, r, before, last, w, id);
        } else {
          ApplyKeepsClosed(r, before.records, last.op, id);
        }
      }
    }
  }

  lemma PollLeavesClosed(cfg: Config, r: Receiver, w: Watch, h: Happening, w': Watch, id: Id)
    requires ConfigOk(cfg) && InStep(cfg, r, w) && h.Poll? && Admissible(cfg, r, w, h)
             && Happen(cfg, r, w, h) == Some(w')
    requires ClosedAt(w.records, id) && Confirmed(w'.records, id)
    ensures w'.records[id].IsClosed() && w'.records[id].deposit == w.records[id].deposit
  {
    var plan := PlanRound(cfg, w.heads, h.view);
    ResumesReady(cfg, r, w, h.view, h.log);
    if !Idle(plan) {
      RoundCloses(h.node, h.log, cfg.start, plan, RecordsFor(plan, w.records), id);
      RoundDeposits(h.node, h.log, cfg.start, plan, RecordsFor(plan, w.records), id);
    }
  }

  // ---------------------------------------------------------------- the settle block of a closed record

  /** Entry j asks to close this channel, the chain still has its settle block, and the balance stored before the round
      does not exceed the requested one. */
  predicate Yields(node: Node, m: Records, log: Log, lo: nat, hi: nat, j: int, id: Id)
    requires 0 <= j < |log|
  {
    && Selected(node, CloseRequests, log[j], lo, hi) && IdOf(log[j]) == id && node.settleBlock(id).Some?
    && !(Confirmed(m, id) && m[id].balance > log[j].event.balance)
  }

  ghost predicate YieldsBy(node: Node, m: Records, log: Log, lo: nat, hi: nat, n: nat, id: Id)
    requires n <= |log|
  {
    exists j :: 0 <= j < n && Yields(node, m, log, lo, hi, j, id)
  }

  lemma OneRequestTimes(node: Node, m: Records, at: Id, balance: nat, id: Id)
    requires DeliverCloseRequest(node, m, at, balance).Going? && Confirmed(m, id)
    ensures Confirmed(DeliverCloseRequest(node, m, at, balance).records, id)
    ensures DeliverCloseRequest(node, m, at, balance).records[id].settleTimeout ==
            if at == id && node.settleBlock(id).Some? && m[id].balance <= balance then node.settleBlock(id).value
            else m[id].settleTimeout
  {
  }

  lemma {:induction false} RequestsTime(node: Node, lo: nat, hi: nat, m: Records, log: Log, n: nat, id: Id)
    requires n <= |log| && ProofsMatch(m) && Confirmed(m, id)
    requires After(node, CloseRequests, lo, hi, m, log, n).Going?
    ensures var m' := After(node, CloseRequests, lo, hi, m, log, n).records;
            && Confirmed(m', id)
            && m'[id].settleTimeout == if YieldsBy(node, m, log, lo, hi, n, id) then node.settleBlock(id).value
                                       else m[id].settleTimeout
  {
    if n > 0 {
      var e := log[n - 1];
      AfterOneMore(node, CloseRequests, lo, hi, m, log, n - 1, id);
      RequestsTime(node, lo, hi, m, log, n - 1, id);
      CloseRequestPass(node, lo, hi, m, log, n - 1, id);
      var before := After(node, CloseRequests, lo, hi, m, log, n - 1).records;
      if Selected(node, CloseRequests, e, lo, hi) {
        OneRequestTimes(node, before, IdOf(e), e.event.balance, id);
      }
      assert YieldsBy(node, m, log, lo, hi, n, id) <==>
             YieldsBy(node, m, log, lo, hi, n - 1, id) || Yields(node, m, log, lo, hi, n - 1, id);
    }
  }

  /** What a round makes of the settle block of a record that stays; a new record has none. */
  lemma RoundTimes(node: Node, log: Log, start: nat, plan: Plan, m: Records, id: Id)
    requires Ready(node, log, start, plan, m) && DeliverRound(node, plan, m, log).Going?
    requires Confirmed(DeliverRound(node, plan, m, log).records, id)
    ensures DeliverRound(node, plan, m, log).records[id].settleTimeout ==
            if YieldsBy(node, m, log, plan.confirmedFrom, plan.confirmedTo, |log|, id) then node.settleBlock(id).value
            else if Confirmed(m, id) then m[id].settleTimeout else -1
  {
    RoundFollows(node, log, start, plan, m);
    AfterSettlementsKeepsProofs(node, log, start, plan, m);
    CreationsDone(node, log, start, plan, m, id);
    SettlementsDone(node, log, start, plan, m, id);
    var m5 := BeforeCloseRequests(node, plan, m, log).records;
    assert log[..|log|] == log;
    CloseRequestPass(node, plan.confirmedFrom, plan.confirmedTo, m5, log, |log|, id);
    RequestsTime(node, plan.confirmedFrom, plan.confirmedTo, m5, log, |log|, id);
    forall j | 0 <= j < |log|
      ensures Yields(node, m5, log, plan.confirmedFrom, plan.confirmedTo, j, id) ==
              Yields(node, m, log, plan.confirmedFrom, plan.confirmedTo, j, id)
    {
    }
  }

  /** The settle block that this happening brings for a channel. */
  ghost function TimeIn(cfg: Config, w: Watch, h: Happening, id: Id): Option<nat> {
    match h
    case Call(_) => None
    case Poll(view, node, log) =>
      var plan := PlanRound(cfg, w.heads, view);
      if !Idle(plan)
         && YieldsBy(node, RecordsFor(plan, w.records), log, plan.confirmedFrom, plan.confirmedTo, |log|, id)
      then node.settleBlock(id) else None
  }

  /** The last settle block that a run brought for a channel. */
  ghost function TimeAlong(cfg: Config, r: Receiver, hs: seq<Happening>, id: Id): Option<nat> {
    if hs == [] then None
    else
      var front, last := hs[..|hs| - 1], hs[|hs| - 1];
      match Run(cfg, r, front)
      case None => None
      case Some(w) =>
        if TimeIn(cfg, w, last, id).Some? then TimeIn(cfg, w, last, id) else TimeAlong(cfg, r, front, id)
  }

  /** One record's settle block, given the last one that was brought; there was none before the creation. */
  ghost predicate Timed(cfg: Config, r: Receiver, w: Watch, id: Id, time: Option<nat>) {
    && (time.Some? ==> Has(Creation, w.seen, ChannelOf(r, id), cfg.start, w.heads.confirmed))
    && (Confirmed(w.records, id) ==> w.records[id].settleTimeout == if time.Some? then time.value else -1)
  }

  lemma PollTimes(cfg: Config, r: Receiver, w: Watch, h: Happening, w': Watch, id: Id, time: Option<nat>)
    requires ConfigOk(cfg) && InStep(cfg, r, w) && h.Poll? && Admissible(cfg, r, w, h)
    requires Happen(cfg, r, w, h) == Some(w') && Timed(cfg, r, w, id, time)
    ensures Timed(cfg, r, w', id, if TimeIn(cfg, w, h, id).Some? then TimeIn(cfg, w, h, id) else time)
  {
    var plan := PlanRound(cfg, w.heads, h.view);
    var m := RecordsFor(plan, w.records);
    var cid, c := ChannelOf(r, id), w.heads.confirmed;
    ResumesReady(cfg, r, w, h.view, h.log);
    SameSummaries(Creation, h.log, w.seen, cid, cfg.start, c, c);
    if time.Some? {
      NeverComesBack(cfg, r, w, h, w', id);
    }
    if !Idle(plan) {
      if TimeIn(cfg, w, h, id).Some? {
        YieldIsCreated(h.node, m, h.log, cfg.start, plan, id);
      }
      if Confirmed(w'.records, id) {
        RoundTimes(h.node, h.log, cfg.start, plan, m, id);
      }
    }
  }

  lemma YieldIsCreated(node: Node, m: Records, log: Log, start: nat, plan: Plan, id: Id)
    requires ValidLog(log, start) && start <= plan.confirmedFrom
    requires YieldsBy(node, m, log, plan.confirmedFrom, plan.confirmedTo, |log|, id)
    ensures Has(Creation, log, ChannelOf(node.r, id), start, plan.confirmedTo)
  {
    var j :| 0 <= j < |log| && Yields(node, m, log, plan.confirmedFrom, plan.confirmedTo, j, id);
    assert EntryId(log[j]) == ChannelOf(node.r, id);
    CreationBefore(log, start, j, plan.confirmedTo);
  }

  lemma CallTimes(cfg: Config, r: Receiver, w: Watch, op: Op, id: Id, time: Option<nat>)
    requires op.OpPay? || op.OpSignClose? || op.OpClosePending?
    requires Timed(cfg, r, w, id, time)
    ensures Timed(cfg, r, w.(records := Apply(r, w.records, op)), id, time)
  {
  }

  /** A record carries the settle block of the last close request that a round delivered for it at no less than its
      balance while the chain still had it, and none otherwise. */
  lemma {:induction false} SettleBlockExact(cfg: Config, r: Receiver, hs: seq<Happening>, w: Watch, id: Id)
    requires ConfigOk(cfg) && AllAdmissible(cfg, r, hs) && Run(cfg, r, hs) == Some(w)
    ensures Timed(cfg, r, w, id, TimeAlong(cfg, r, hs, id))
  {
    if hs != [] {
      var front, last := hs[..|hs| - 1], hs[|hs| - 1];
      var before := Run(cfg, r, front).value;
      SettleBlockExact(cfg, r, front, before, id);
      RunKeepsStep(cfg, r, front, before);
      if last.Poll? {
        PollTimes(cfg, r, before, last, w, id, TimeAlong(cfg, r, front, id));
      } else {
        CallTimes(cfg, r, before, last.op, id, TimeAlong(cfg, r, front, id));
      }
    }
  }

  // ---------------------------------------------------------------- chunking does not matter

  /** However the chunks were cut, and paid or not: the confirmed channels are those of a chronological replay up to the
      confirmed head. A record has the replay's deposit, or if it was signed off, that of the replay up to the head of
      that moment. It is closed where the replay is, except for disputed requests, and where it was signed off. */
  lemma ChunkingDoesNotMatter(cfg: Config, r: Receiver, hs: seq<Happening>, w: Watch, node: Node, id: Id)
    requires ConfigOk(cfg) && AllAdmissible(cfg, r, hs) && Run(cfg, r, hs) == Some(w) && node.r == r
    ensures var replay := Replay(node, w.seen, w.heads.confirmed);
            && replay.Going?
            && (Confirmed(w.records, id) <==> id in replay.records)
            && (Confirmed(w.records, id) ==>
                  && (!Signed(cfg, r, hs, id) ==> w.records[id].deposit == replay.records[id].deposit)
                  && (w.records[id].IsClosed() <==> Signed(cfg, r, hs, id) || HasConceded(cfg, r, hs, id))
                  && (HasConceded(cfg, r, hs, id) ==> replay.records[id].IsClosed())
                  && (w.records[id].lastSignature.None? ==>
                        (w.records[id].IsClosed() <==> replay.records[id].IsClosed())))
    ensures forall n :: 0 <= n < |hs| && SignsAt(cfg, r, hs, n, id) && Confirmed(w.records, id) ==>
              var then' := Run(cfg, r, hs[..n]).value;
              var replay := Replay(node, then'.seen, then'.heads.confirmed);
              && replay.Going? && id in replay.records
              && w.records[id].deposit == replay.records[id].deposit
  {
    RunKeepsStep(cfg, r, hs, w);
    assert FollowsAt(r, w.seen, cfg.start, w.heads.confirmed, w.records, id);
    ReplayExact(node, w.seen, cfg.start, w.heads.confirmed, id);
    RunTells(cfg, r, hs, w, id);
    forall n | 0 <= n < |hs| && SignsAt(cfg, r, hs, n, id) && Confirmed(w.records, id)
      ensures var then' := Run(cfg, r, hs[..n]).value;
              var replay := Replay(node, then'.seen, then'.heads.confirmed);
              && replay.Going? && id in replay.records
              && w.records[id].deposit == replay.records[id].deposit
    {
      SignedLikeReplay(cfg, r, hs, n, w, node, id);
    }
  }

  lemma {:induction false} PrefixAdmissible(cfg: Config, r: Receiver, hs: seq<Happening>, n: nat)
    requires n <= |hs| && AllAdmissible(cfg, r, hs)
    ensures AllAdmissible(cfg, r, hs[..n])
  {
    if n < |hs| {
      assert hs[..|hs| - 1][..n] == hs[..n];
      PrefixAdmissible(cfg, r, hs[..|hs| - 1], n);
    } else {
      assert hs[..n] == hs;
    }
  }

  lemma SignedLikeReplay(cfg: Config, r: Receiver, hs: seq<Happening>, n: nat, w: Watch, node: Node, id: Id)
    requires ConfigOk(cfg) && AllAdmissible(cfg, r, hs) && Run(cfg, r, hs) == Some(w) && node.r == r
    requires n < |hs| && SignsAt(cfg, r, hs, n, id) && Confirmed(w.records, id)
    ensures var then' := Run(cfg, r, hs[..n]).value;
            var replay := Replay(node, then'.seen, then'.heads.confirmed);
            && replay.Going? && id in replay.records
            && w.records[id].deposit == replay.records[id].deposit
  {
    var then' := Run(cfg, r, hs[..n]).value;
    PrefixAdmissible(cfg, r, hs, n);
    RunKeepsStep(cfg, r, hs[..n], then');
    SignedDepositStays(cfg, r, hs, n, w, id);
    assert FollowsAt(r, then'.seen, cfg.start, then'.heads.confirmed, then'.records, id);
    ReplayExact(node, then'.seen, cfg.start, then'.heads.confirmed, id);
  }
}
