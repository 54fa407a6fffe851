/** Whole runs of the watcher: polling rounds over changing views of the chain, interleaved with payments and closing.
    */
module SyncRuns {
  import opened Prelude
  import opened Escrow
  import opened Store
  import opened Accounts
  import opened EventLog
  import opened Handlers
  import opened RecordInvariants
  import opened Windows
  import opened Watcher
  import opened Passes
  import opened Sync

  /** The daemon between rounds, with the log it last saw. */
  datatype Watch = Watch(heads: Heads, records: Records, seen: Log)

  datatype Happening =
    | Poll(view: View, node: Node, log: Log)
    | Call(op: Op)

  function Begin(cfg: Config): Watch {
    Watch(Windows.Initial(cfg), map[], [])
  }

  /** The records a round starts from. */
  function RecordsFor(plan: Plan, m: Records): Records {
    if plan.reset then ResetUnconfirmed(m) else m
  }

  /** None where a round raises instead of completing. */
  function Happen(cfg: Config, r: Receiver, w: Watch, h: Happening): Option<Watch> {
    match h
    case Call(op) => Some(w.(records := Apply(r, w.records, op)))
    case Poll(view, node, log) =>
      var plan := PlanRound(cfg, w.heads, view);
      var m := RecordsFor(plan, w.records);
      if Idle(plan) then Some(Watch(w.heads.(unconfirmed := plan.unconfirmedFrom), m, log))
      else
        match (DeliverRound(node, plan, m, log), Windows.Advance(cfg, w.heads, view))
        case (Going(m'), Some(heads)) => Some(Watch(heads, m', log))
        case _ => None
  }

  /** The closing transactions of a round, whether it completes or raises. */
  function PollTxs(cfg: Config, w: Watch, view: View, node: Node, log: Log): seq<CloseTx> {
    var plan := PlanRound(cfg, w.heads, view);
    if Idle(plan) then [] else RoundTxs(node, plan, RecordsFor(plan, w.records), log)
  }

  /** This closing transaction goes out: in a round, or when pending closings are retried. */
  predicate Sends(cfg: Config, r: Receiver, w: Watch, h: Happening, tx: CloseTx) {
    match h
    case Poll(view, node, log) => tx in PollTxs(cfg, w, view, node, log)
    case Call(op) =>
      op.OpClosePending? && tx.id in op.done && PendingWithProof(w.records, tx.id) && tx == TxOf(r, w.records, tx.id)
  }

  function Run(cfg: Config, r: Receiver, hs: seq<Happening>): Option<Watch> {
    if hs == [] then Some(Begin(cfg))
    else
      match Run(cfg, r, hs[..|hs| - 1])
      case None => None
      case Some(w) => Happen(cfg, r, w, hs[|hs| - 1])
  }

  /** Calls come from payments and closing. A polled log is what the contract logged about the receiver's channels, none
      of whose keys is used twice, and has the blocks up to the confirmed head that were seen before; any unconfirmed
      block may have been replaced. The round does not go back. */
  ghost predicate Admissible(cfg: Config, r: Receiver, w: Watch, h: Happening) {
    match h
    case Call(op) => op.OpPay? || op.OpSignClose? || op.OpClosePending?
    case Poll(view, node, log) =>
      && node.r == r
      && ValidLog(log, cfg.start)
      && UpTo(log, w.heads.confirmed) == UpTo(w.seen, w.heads.confirmed)
      && Onward(PlanRound(cfg, w.heads, view))
  }

  ghost predicate AllAdmissible(cfg: Config, r: Receiver, hs: seq<Happening>) {
    hs != [] ==>
      && AllAdmissible(cfg, r, hs[..|hs| - 1])
      && (Run(cfg, r, hs[..|hs| - 1]).Some? ==> Admissible(cfg, r, Run(cfg, r, hs[..|hs| - 1]).value, hs[|hs| - 1]))
  }

  predicate ConfigOk(cfg: Config) {
    1 <= cfg.confirmations && 1 <= cfg.start
  }

  /** The daemon is in step with the log it saw last. */
  ghost predicate InStep(cfg: Config, r: Receiver, w: Watch) {
    && HeadsInOrder(cfg, w.heads)
    && ValidLog(w.seen, cfg.start)
    && ProofsMatch(w.records)
    && Follows(r, w.seen, cfg.start, w.heads.confirmed, w.records)
  }

  /** What decides whether a round completes: no top-up of an unknown channel among the unconfirmed blocks, and no
      close request that has to be forced without ether. */
  ghost predicate Completes(cfg: Config, w: Watch, h: Happening) {
    match h
    case Call(_) => true
    case Poll(view, node, log) =>
      var plan := PlanRound(cfg, w.heads, view);
      var m := RecordsFor(plan, w.records);
      Idle(plan) || (!AnyOrphan(node, log, plan, m) && !AnyStranded(node, log, plan, m))
  }

  // ---------------------------------------------------------------- each happening keeps step

  lemma CallKeepsStep(cfg: Config, r: Receiver, w: Watch, op: Op)
    requires InStep(cfg, r, w) && (op.OpPay? || op.OpSignClose? || op.OpClosePending?)
    ensures InStep(cfg, r, w.(records := Apply(r, w.records, op)))
  {
    var m' := Apply(r, w.records, op);
    forall id | id in m' ensures m'[id].lastSignature.None? <==> m'[id].balance == 0 {
      assert id in w.records;
    }
    forall id: Id ensures FollowsAt(r, w.seen, cfg.start, w.heads.confirmed, m', id) {
      assert FollowsAt(r, w.seen, cfg.start, w.heads.confirmed, w.records, id);
    }
  }

  /** A reset, and a new log that agrees up to the confirmed head, leave the daemon ready to go on. */
  lemma ResumesReady(cfg: Config, r: Receiver, w: Watch, view: View, log: Log)
    requires ConfigOk(cfg) && InStep(cfg, r, w) && ValidLog(log, cfg.start)
    requires UpTo(log, w.heads.confirmed) == UpTo(w.seen, w.heads.confirmed)
    ensures var m := RecordsFor(PlanRound(cfg, w.heads, view), w.records);
            ProofsMatch(m) && Follows(r, log, cfg.start, w.heads.confirmed, m)
  {
    var m := RecordsFor(PlanRound(cfg, w.heads, view), w.records);
    var head := w.heads.confirmed;
    forall id | id in m ensures m[id].lastSignature.None? <==> m[id].balance == 0 {
      assert id in w.records;
    }
    forall id: Id ensures FollowsAt(r, log, cfg.start, head, m, id) {
      var cid := ChannelOf(r, id);
      assert FollowsAt(r, w.seen, cfg.start, head, w.records, id);
      SameSummaries(Creation, log, w.seen, cid, cfg.start, head, head);
      SameSummaries(TopUpKind, log, w.seen, cid, cfg.start, head, head);
      SameSummaries(CloseKind, log, w.seen, cid, cfg.start, head, head);
      SameSummaries(Settlement, log, w.seen, cid, cfg.start, head, head);
    }
  }

  /** The heads of the daemon move as the windows say, so that what is proved of those holds of every completed round.
      */
  lemma PollAdvances(cfg: Config, r: Receiver, w: Watch, h: Happening)
    requires h.Poll? && Happen(cfg, r, w, h).Some?
    ensures Windows.Advance(cfg, w.heads, h.view) == Some(Happen(cfg, r, w, h).value.heads)
  {
  }

  /** The views that a run's rounds had of the node. */
  function Views(hs: seq<Happening>): seq<View> {
    if hs == [] then []
    else Views(hs[..|hs| - 1]) + if hs[|hs| - 1].Poll? then [hs[|hs| - 1].view] else []
  }

  /** Payments and closings between rounds leave the heads alone, so a whole run has the heads that its rounds' views
      give. */
  lemma {:induction false} RunAdvances(cfg: Config, r: Receiver, hs: seq<Happening>, w: Watch)
    requires Run(cfg, r, hs) == Some(w)
    ensures AdvanceAll(cfg, Views(hs)) == Some(w.heads)
  {
    if hs != [] {
      var front, last := hs[..|hs| - 1], hs[|hs| - 1];
      var before := Run(cfg, r, front).value;
      RunAdvances(cfg, r, front, before);
      if last.Poll? {
        PollAdvances(cfg, r, before, last);
        assert (Views(front) + [last.view])[..|Views(front)|] == Views(front);
      } else {
        assert Views(front) + [] == Views(front);
      }
    }
  }

  /** An admissible poll completes if and only if no entry is an orphan and none is stranded; then it keeps step. */
  lemma PollExact(cfg: Config, r: Receiver, w: Watch, h: Happening)
    requires ConfigOk(cfg) && InStep(cfg, r, w) && h.Poll? && Admissible(cfg, r, w, h)
    ensures Happen(cfg, r, w, h).Some? <==> Completes(cfg, w, h)
    ensures Completes(cfg, w, h) ==> InStep(cfg, r, Happen(cfg, r, w, h).value)
    ensures Completes(cfg, w, h) ==> w.heads.confirmed <= Happen(cfg, r, w, h).value.heads.confirmed
  {
    var plan := PlanRound(cfg, w.heads, h.view);
    ResumesReady(cfg, r, w, h.view, h.log);
    if !Idle(plan) {
      RoundFollows(h.node, h.log, cfg.start, plan, RecordsFor(plan, w.records));
    }
  }

  /** What a run has reached is in step with the log, whatever unconfirmed blocks were replaced on the way. */
  lemma {:induction false} RunKeepsStep(cfg: Config, r: Receiver, hs: seq<Happening>, w: Watch)
    requires ConfigOk(cfg) && AllAdmissible(cfg, r, hs) && Run(cfg, r, hs) == Some(w)
    ensures InStep(cfg, r, w)
  {
    if hs != [] {
      var front, last := hs[..|hs| - 1], hs[|hs| - 1];
      var before := Run(cfg, r, front).value;
      RunKeepsStep(cfg, r, front, before);
      if last.Poll? {
        PollExact(cfg, r, before, last);
      } else {
        CallKeepsStep(cfg, r, before, last.op);
      }
    }
  }

  /** Happening n of a run finds the daemon able to complete it. */
  ghost predicate CompletesAt(cfg: Config, r: Receiver, hs: seq<Happening>, n: int)
    requires 0 <= n < |hs|
  {
    Run(cfg, r, hs[..n]).Some? && Completes(cfg, Run(cfg, r, hs[..n]).value, hs[n])
  }

  lemma CompletesBefore(cfg: Config, r: Receiver, hs: seq<Happening>, n: nat)
    requires n < |hs| - 1
    ensures CompletesAt(cfg, r, hs, n) == CompletesAt(cfg, r, hs[..|hs| - 1], n)
  {
    assert hs[..n] == hs[..|hs| - 1][..n];
  }

  /** The last happening of a run decides whether it completes, given that it came so far. */
  lemma LastCompletes(cfg: Config, r: Receiver, hs: seq<Happening>)
    requires ConfigOk(cfg) && AllAdmissible(cfg, r, hs) && hs != []
    ensures Run(cfg, r, hs).Some? <==> Run(cfg, r, hs[..|hs| - 1]).Some? && CompletesAt(cfg, r, hs, |hs| - 1)
  {
    var front, last := hs[..|hs| - 1], hs[|hs| - 1];
    if Run(cfg, r, front).Some? {
      var before := Run(cfg, r, front).value;
      RunKeepsStep(cfg, r, front, before);
      if last.Poll? {
        PollExact(cfg, r, before, last);
      }
    }
  }

  /** A run completes if and only if each of its rounds meets no orphan and no stranded channel. */
  lemma {:induction false} RunCompletesExactlyWhen(cfg: Config, r: Receiver, hs: seq<Happening>)
    requires ConfigOk(cfg) && AllAdmissible(cfg, r, hs)
    ensures Run(cfg, r, hs).Some? <==> forall n :: 0 <= n < |hs| ==> CompletesAt(cfg, r, hs, n)
  {
    if hs != [] {
      var k := |hs| - 1;
      var front := hs[..k];
      RunCompletesExactlyWhen(cfg, r, front);
      LastCompletes(cfg, r, hs);
      forall n | 0 <= n < k ensures CompletesAt(cfg, r, hs, n) == CompletesAt(cfg, r, front, n) {
        CompletesBefore(cfg, r, hs, n);
      }
      assert (forall n :: 0 <= n < |hs| ==> CompletesAt(cfg, r, hs, n)) <==>
             (forall n :: 0 <= n < k ==> CompletesAt(cfg, r, front, n)) && CompletesAt(cfg, r, hs, k);
    }
  }

  // ---------------------------------------------------------------- pending closings and what is sent

  ghost predicate PendingsAsked(cfg: Config, r: Receiver, w: Watch) {
    forall id: Id :: PendingIsAsked(r, w.seen, cfg.start, w.heads.confirmed, w.records, id)
  }

  lemma HappeningPends(cfg: Config, r: Receiver, w: Watch, h: Happening, w': Watch)
    requires ConfigOk(cfg) && InStep(cfg, r, w) && Admissible(cfg, r, w, h) && Happen(cfg, r, w, h) == Some(w')
    requires PendingsAsked(cfg, r, w)
    ensures PendingsAsked(cfg, r, w')
  {
    forall id: Id ensures PendingIsAsked(r, w'.seen, cfg.start, w'.heads.confirmed, w'.records, id) {
      assert PendingIsAsked(r, w.seen, cfg.start, w.heads.confirmed, w.records, id);
      if h.Poll? {
        PollPends(cfg, r, w, h, w', id);
      }
    }
  }

  lemma PollPends(cfg: Config, r: Receiver, w: Watch, h: Happening, w': Watch, id: Id)
    requires ConfigOk(cfg) && InStep(cfg, r, w) && h.Poll? && Admissible(cfg, r, w, h)
    requires Happen(cfg, r, w, h) == Some(w')
    requires PendingIsAsked(r, w.seen, cfg.start, w.heads.confirmed, w.records, id)
    ensures PendingIsAsked(r, w'.seen, cfg.start, w'.heads.confirmed, w'.records, id)
  {
    var plan := PlanRound(cfg, w.heads, h.view);
    ResumesReady(cfg, r, w, h.view, h.log);
    SameSummaries(CloseKind, h.log, w.seen, ChannelOf(r, id), cfg.start, w.heads.confirmed, w.heads.confirmed);
    if !Idle(plan) {
      RoundPends(h.node, h.log, cfg.start, plan, RecordsFor(plan, w.records), id);
    }
  }

  /** The confirmed head that a happening, completed or not, works up to, and the log it goes by. */
  function HeadWorkedOn(cfg: Config, w: Watch, h: Happening): nat {
    if h.Poll? && !Idle(PlanRound(cfg, w.heads, h.view)) then PlanRound(cfg, w.heads, h.view).confirmedTo
    else w.heads.confirmed
  }

  function LogWorkedOn(w: Watch, h: Happening): Log {
    if h.Poll? then h.log else w.seen
  }

  /** Every closing transaction carries the proof that is stored when its round begins, and goes out only for a channel
      whose closing the log asks for. */
  lemma SentIsAsked(cfg: Config, r: Receiver, w: Watch, h: Happening, tx: CloseTx)
    requires ConfigOk(cfg) && InStep(cfg, r, w) && PendingsAsked(cfg, r, w) && Admissible(cfg, r, w, h)
    requires Sends(cfg, r, w, h, tx)
    ensures Carries(r, w.records, tx)
    ensures ClosingAt(LogWorkedOn(w, h), ChannelOf(r, tx.id), cfg.start, HeadWorkedOn(cfg, w, h))
  {
    if h.Poll? {
      var plan := PlanRound(cfg, w.heads, h.view);
      ResumesReady(cfg, r, w, h.view, h.log);
      RoundSends(h.node, h.log, cfg.start, plan, RecordsFor(plan, w.records), tx);
    } else {
      assert PendingIsAsked(r, w.seen, cfg.start, w.heads.confirmed, w.records, tx.id);
    }
  }

  // ---------------------------------------------------------------- runs that always complete

  /** Once synchronised, the node tells of replaced blocks: it no longer knows the hash of the unconfirmed head, or its
      height fell below that head. */
  predicate Told(w: Watch, h: Happening) {
    h.Poll? && w.heads.synced && (!h.view.headKnown || h.view.height < w.heads.unconfirmed)
  }

  /** The unconfirmed blocks seen before are still there unless the node tells of their replacement, and what has to be
      forced can be paid for. */
  ghost predicate Kept(cfg: Config, w: Watch, h: Happening) {
    h.Poll? ==>
      var plan := PlanRound(cfg, w.heads, h.view);
      && (Told(w, h) || UpTo(h.log, w.heads.unconfirmed) == UpTo(w.seen, w.heads.unconfirmed))
      && !AnyStranded(h.node, h.log, plan, RecordsFor(plan, w.records))
  }

  ghost predicate AllKept(cfg: Config, r: Receiver, hs: seq<Happening>) {
    hs != [] ==>
      && AllKept(cfg, r, hs[..|hs| - 1])
      && (Run(cfg, r, hs[..|hs| - 1]).Some? ==> Kept(cfg, Run(cfg, r, hs[..|hs| - 1]).value, hs[|hs| - 1]))
  }

  ghost predicate KnowsSeen(cfg: Config, r: Receiver, w: Watch) {
    Knows(r, w.seen, cfg.start, w.heads.confirmed, w.heads.unconfirmed, w.records)
  }

  lemma ResumesKnowing(cfg: Config, r: Receiver, w: Watch, h: Happening)
    requires ConfigOk(cfg) && InStep(cfg, r, w) && h.Poll? && Admissible(cfg, r, w, h) && Kept(cfg, w, h)
    requires KnowsSeen(cfg, r, w)
    ensures var plan := PlanRound(cfg, w.heads, h.view);
            Knows(r, h.log, cfg.start, plan.confirmedFrom, plan.unconfirmedFrom, RecordsFor(plan, w.records))
  {
    var plan := PlanRound(cfg, w.heads, h.view);
    var m := RecordsFor(plan, w.records);
    forall id {:trigger id in m}
      ensures id in m <==> Current(r, h.log, cfg.start, plan.confirmedFrom, plan.unconfirmedFrom, id)
    {
      var cid := ChannelOf(r, id);
      SameSummaries(Settlement, h.log, w.seen, cid, cfg.start, plan.confirmedFrom, plan.confirmedFrom);
      SameSummaries(Creation, h.log, w.seen, cid, cfg.start, plan.unconfirmedFrom, plan.unconfirmedFrom);
      assert FollowsAt(r, w.seen, cfg.start, plan.confirmedFrom, w.records, id);
      assert id in w.records <==> Current(r, w.seen, cfg.start, w.heads.confirmed, w.heads.unconfirmed, id);
    }
  }

  lemma PollKeepsKnowing(cfg: Config, r: Receiver, w: Watch, h: Happening)
    requires ConfigOk(cfg) && InStep(cfg, r, w) && h.Poll? && Admissible(cfg, r, w, h) && Kept(cfg, w, h)
    requires KnowsSeen(cfg, r, w)
    ensures Happen(cfg, r, w, h).Some? && KnowsSeen(cfg, r, Happen(cfg, r, w, h).value)
  {
    var plan := PlanRound(cfg, w.heads, h.view);
    var m := RecordsFor(plan, w.records);
    ResumesReady(cfg, r, w, h.view, h.log);
    ResumesKnowing(cfg, r, w, h);
    if !Idle(plan) {
      KnownHasNoOrphan(h.node, h.log, cfg.start, plan, m);
      RoundFollows(h.node, h.log, cfg.start, plan, m);
      RoundKnows(h.node, h.log, cfg.start, plan, m);
    }
  }

  lemma CallKeepsKnowing(cfg: Config, r: Receiver, w: Watch, op: Op)
    requires KnowsSeen(cfg, r, w) && (op.OpPay? || op.OpSignClose? || op.OpClosePending?)
    ensures KnowsSeen(cfg, r, w.(records := Apply(r, w.records, op)))
  {
    assert forall id :: id in w.records <==> id in Apply(r, w.records, op);
  }

  /** Every run that keeps the unconfirmed blocks, or is told of their replacement, completes if forced closings can be
      paid for; and it then holds exactly the channels that the log it last saw created up to the unconfirmed head and
      did not settle up to the confirmed one, so no record of a vanished block survives. */
  lemma {:induction false} KeptRunsComplete(cfg: Config, r: Receiver, hs: seq<Happening>)
    requires ConfigOk(cfg) && AllAdmissible(cfg, r, hs) && AllKept(cfg, r, hs)
    ensures Run(cfg, r, hs).Some? && KnowsSeen(cfg, r, Run(cfg, r, hs).value)
  {
    if hs != [] {
      var front, last := hs[..|hs| - 1], hs[|hs| - 1];
      KeptRunsComplete(cfg, r, front);
      var w := Run(cfg, r, front).value;
      RunKeepsStep(cfg, r, front, w);
      if last.Poll? {
        PollKeepsKnowing(cfg, r, w, last);
      } else {
        CallKeepsKnowing(cfg, r, w, last.op);
      }
    }
  }

  // ---------------------------------------------------------------- chronological replay

  function ReplayOne(node: Node, m: Records, e: LogEntry, head: nat): Progress {
    if EntryId(e).receiver != node.r.address || e.blockNumber > head then Going(m)
    else
      match KindOf(e.event)
      case Creation => Deliver(node, Creations, m, e)
      case TopUpKind => Deliver(node, TopUps, m, e)
      case CloseKind => Deliver(node, CloseRequests, m, e)
      case Settlement => Deliver(node, Settlements, m, e)
      case WithdrawalKind => Going(m)
  }

  /** The events up to a block delivered one by one in the order the chain has them. */
  function Replay(node: Node, log: Log, head: nat): Progress {
    if log == [] then Going(map[])
    else
      match Replay(node, log[..|log| - 1], head)
      case Stopped(why) => Stopped(why)
      case Going(m) => ReplayOne(node, m, log[|log| - 1], head)
  }

  /** The records hold this channel exactly if it is live, with this deposit and closed flag and no payment. */
  predicate Holds(m: Records, id: Id, live: bool, deposit: nat, closing: bool) {
    && (id in m <==> live)
    && (id in m ==>
          && m[id].confirmed && m[id].lastSignature.None? && m[id].balance == 0
          && m[id].deposit == deposit
          && (m[id].IsClosed() <==> closing))
  }

  /** A replayed record is exactly what the log says. */
  predicate Replayed(r: Receiver, log: Log, start: nat, head: nat, m: Records, id: Id) {
    var cid := ChannelOf(r, id);
    Holds(m, id, LiveAt(log, cid, start, head), DepositAt(log, cid, start, head), ClosingAt(log, cid, start, head))
  }

  lemma PrefixValid(log: Log, start: nat, n: nat)
    requires ValidLog(log, start) && n <= |log|
    ensures ValidLog(log[..n], start)
  {
    forall j | 0 <= j < n && !log[..n][j].event.Created? ensures CreatedBefore(log[..n], j) {
      assert CreatedBefore(log, j);
      var i :| 0 <= i < j && EntryId(log[i]) == EntryId(log[j]) && log[i].event.Created?;
      assert log[..n][i] == log[i];
    }
  }

  lemma ReplaySnoc(log: Log, e: LogEntry, cid: ChannelId, start: nat, head: nat)
    requires ValidLog(log + [e], start)
    ensures var all := log + [e];
            && Has(Creation, all, cid, start, head) ==
                 (Has(Creation, log, cid, start, head) || Is(e, Creation, cid, start, head))
            && Has(Settlement, all, cid, start, head) ==
                 (Has(Settlement, log, cid, start, head) || Is(e, Settlement, cid, start, head))
            && Has(CloseKind, all, cid, start, head) ==
                 (Has(CloseKind, log, cid, start, head) || Is(e, CloseKind, cid, start, head))
            && DepositAt(all, cid, start, head) == DepositAt(log, cid, start, head) +
                 if Is(e, Creation, cid, start, head) || Is(e, TopUpKind, cid, start, head) then Amount(e.event) else 0
    ensures EntryId(e) == cid && e.blockNumber <= head ==>
              && !Has(Settlement, log, cid, start, head)
              && (e.event.Created? <==> !Has(Creation, log, cid, start, head))
              && (e.event.Created? ==> DepositAt(log, cid, start, head) == 0)
              && (ClosingAt(log, cid, start, head) ==> e.event.Settled?)
  {
    SummarySnoc(Creation, log, e, cid, start, head);
    SummarySnoc(TopUpKind, log, e, cid, start, head);
    SummarySnoc(Settlement, log, e, cid, start, head);
    SummarySnoc(CloseKind, log, e, cid, start, head);
    if EntryId(e) == cid && e.blockNumber <= head {
      var all := log + [e];
      assert all[..|log|] == log && all[|log|] == e;
      NotBefore(all, start, Settlement, |log|, start);
      if e.event.Created? {
        NotBefore(all, start, Creation, |log|, start);
        NotBefore(all, start, TopUpKind, |log|, start);
        NotBefore(all, start, CloseKind, |log|, start);
        NothingToTotal(Creation, log, cid, start, head);
        NothingToTotal(TopUpKind, log, cid, start, head);
      } else {
        CreationBefore(all, start, |log|, head);
        if !e.event.Settled? {
          NotBefore(all, start, CloseKind, |log|, start);
        }
      }
    }
  }

  /** An event of another channel, or after the head, leaves the record alone. */
  lemma ReplayOther(node: Node, m: Records, e: LogEntry, head: nat, id: Id)
    requires ReplayOne(node, m, e, head).Going?
    requires EntryId(e) != ChannelOf(node.r, id) || e.blockNumber > head
    ensures var m' := ReplayOne(node, m, e, head).records;
            (id in m' <==> id in m) && (id in m ==> m'[id] == m[id])
  {
  }

  /** What the log says of a channel before and after one of its events. */
  predicate Continues(log: Log, e: LogEntry, cid: ChannelId, start: nat, head: nat) {
    && (LiveAt(log, cid, start, head) <==> !e.event.Created?)
    && (ClosingAt(log, cid, start, head) ==> e.event.Settled?)
    && (e.event.Created? ==> DepositAt(log, cid, start, head) == 0)
    && (LiveAt(log + [e], cid, start, head) <==> !e.event.Settled?)
    && (ClosingAt(log + [e], cid, start, head) <==> ClosingAt(log, cid, start, head) || e.event.CloseRequested?)
    && DepositAt(log + [e], cid, start, head) ==
         DepositAt(log, cid, start, head) + if e.event.Created? || e.event.ToppedUp? then Amount(e.event) else 0
  }

  /** An event of a channel up to the head is handled without a failed assertion and makes its record exact again. */
  lemma ReplayOwn(node: Node, front: Log, e: LogEntry, start: nat, head: nat, m: Records, id: Id)
    requires Continues(front, e, ChannelOf(node.r, id), start, head)
    requires EntryId(e) == ChannelOf(node.r, id) && e.blockNumber <= head
    requires Replayed(node.r, front, start, head, m, id)
    ensures ReplayOne(node, m, e, head).Going?
    ensures Replayed(node.r, front + [e], start, head, ReplayOne(node, m, e, head).records, id)
  {
    var cid := ChannelOf(node.r, id);
  }

  /** The replay raises nothing and holds exactly what the log says. */
  lemma {:induction false} ReplayExact(node: Node, log: Log, start: nat, head: nat, id: Id)
    requires ValidLog(log, start)
    ensures Replay(node, log, head).Going?
    ensures Replayed(node.r, log, start, head, Replay(node, log, head).records, id)
  {
    if log != [] {
      var front, e := log[..|log| - 1], log[|log| - 1];
      assert log == front + [e];
      PrefixValid(log, start, |front|);
      ReplayExact(node, front, start, head, id);
      var m := Replay(node, front, head).records;
      if EntryId(e).receiver == node.r.address && e.blockNumber <= head {
        ReplayExact(node, front, start, head, IdOf(e));
        ReplaySnoc(front, e, EntryId(e), start, head);
        assert e == (front + [e])[|front|];
        ReplayOwn(node, front, e, start, head, m, IdOf(e));
      }
      if EntryId(e) != ChannelOf(node.r, id) || e.blockNumber > head {
        ReplayOther(node, m, e, head, id);
        ReplaySnoc(front, e, ChannelOf(node.r, id), start, head);
      }
    }
  }

  // ---------------------------------------------------------------- payment-free runs

  ghost predicate Unpaid(m: Records) {
    forall id {:trigger id in m} :: id in m ==> m[id].lastSignature.None? && m[id].balance == 0
  }

  lemma {:induction false} PassKeepsUnpaid(node: Node, pass: Pass, lo: nat, hi: nat, m: Records, log: Log)
    requires Unpaid(m)
    ensures DeliverPass(node, pass, lo, hi, m, log).Going? ==> Unpaid(DeliverPass(node, pass, lo, hi, m, log).records)
  {
    if log != [] {
      PassKeepsUnpaid(node, pass, lo, hi, m, log[..|log| - 1]);
    }
  }

  lemma {:induction false} PollsLeaveUnpaid(cfg: Config, r: Receiver, hs: seq<Happening>)
    requires Run(cfg, r, hs).Some? && forall h :: h in hs ==> h.Poll?
    ensures Unpaid(Run(cfg, r, hs).value.records)
  {
    if hs != [] {
      var front, h := hs[..|hs| - 1], hs[|hs| - 1];
      PollsLeaveUnpaid(cfg, r, front);
      var w := Run(cfg, r, front).value;
      var plan := PlanRound(cfg, w.heads, h.view);
      var m := RecordsFor(plan, w.records);
      assert Unpaid(m);
      if !Idle(plan) {
        RoundKeepsUnpaid(h.node, plan, m, h.log);
      }
    }
  }

  lemma RoundKeepsUnpaid(node: Node, plan: Plan, m: Records, log: Log)
    requires Unpaid(m)
    ensures DeliverRound(node, plan, m, log).Going? ==> Unpaid(DeliverRound(node, plan, m, log).records)
  {
    PassKeepsUnpaid(node, UnconfirmedCreations, plan.unconfirmedFrom, plan.unconfirmedTo, m, log);
    var p1 := DeliverPass(node, UnconfirmedCreations, plan.unconfirmedFrom, plan.unconfirmedTo, m, log);
    if p1.Going? {
      PassKeepsUnpaid(node, Creations, plan.confirmedFrom, plan.confirmedTo, p1.records, log);
    }
    var p2 := Then(node, Creations, plan.confirmedFrom, plan.confirmedTo, p1, log);
    if p2.Going? {
      PassKeepsUnpaid(node, UnconfirmedTopUps, plan.unconfirmedFrom, plan.unconfirmedTo, p2.records, log);
    }
    var p3 := Then(node, UnconfirmedTopUps, plan.unconfirmedFrom, plan.unconfirmedTo, p2, log);
    if p3.Going? {
      PassKeepsUnpaid(node, TopUps, plan.confirmedFrom, plan.confirmedTo, p3.records, log);
    }
    var p4 := Then(node, TopUps, plan.confirmedFrom, plan.confirmedTo, p3, log);
    if p4.Going? {
      PassKeepsUnpaid(node, Settlements, plan.confirmedFrom, plan.confirmedTo, p4.records, log);
    }
    var p5 := Then(node, Settlements, plan.confirmedFrom, plan.confirmedTo, p4, log);
    if p5.Going? {
      PassKeepsUnpaid(node, CloseRequests, plan.confirmedFrom, plan.confirmedTo, p5.records, log);
    }
  }

  /** Chunk independence: two payment-free runs that reached the same confirmed head, having seen the same log up to
      it, hold the same live channels with the same deposits and closed flags, however their chunks were cut. */
  lemma ChunkIndependence(cfg1: Config, cfg2: Config, r: Receiver, hs1: seq<Happening>, hs2: seq<Happening>,
                          w1: Watch, w2: Watch, id: Id)
    requires ConfigOk(cfg1) && ConfigOk(cfg2) && cfg1.start == cfg2.start
    requires AllAdmissible(cfg1, r, hs1) && AllAdmissible(cfg2, r, hs2)
    requires (forall h :: h in hs1 ==> h.Poll?) && (forall h :: h in hs2 ==> h.Poll?)
    requires Run(cfg1, r, hs1) == Some(w1) && Run(cfg2, r, hs2) == Some(w2)
    requires w1.heads.confirmed == w2.heads.confirmed
    requires UpTo(w1.seen, w1.heads.confirmed) == UpTo(w2.seen, w2.heads.confirmed)
    ensures Confirmed(w1.records, id) <==> Confirmed(w2.records, id)
    ensures Confirmed(w1.records, id) ==>
              && w1.records[id].deposit == w2.records[id].deposit
              && (w1.records[id].IsClosed() <==> w2.records[id].IsClosed())
  {
    RunKeepsStep(cfg1, r, hs1, w1);
    RunKeepsStep(cfg2, r, hs2, w2);
    PollsLeaveUnpaid(cfg1, r, hs1);
    PollsLeaveUnpaid(cfg2, r, hs2);
    var head := w1.heads.confirmed;
    var cid := ChannelOf(r, id);
    assert FollowsAt(r, w1.seen, cfg1.start, head, w1.records, id);
    assert FollowsAt(r, w2.seen, cfg2.start, head, w2.records, id);
    SameSummaries(Creation, w1.seen, w2.seen, cid, cfg1.start, head, head);
    SameSummaries(TopUpKind, w1.seen, w2.seen, cid, cfg1.start, head, head);
    SameSummaries(CloseKind, w1.seen, w2.seen, cid, cfg1.start, head, head);
    SameSummaries(Settlement, w1.seen, w2.seen, cid, cfg1.start, head, head);
  }
}
