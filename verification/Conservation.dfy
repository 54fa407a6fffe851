/** What a channel pays out, life by life, and who consented to it: facts about the log that the accounts make
    provable. */
module Conservation {
  import opened Prelude
  import opened Escrow
  import opened Challenge
  import opened Solvency
  import opened Accounts

  /** What an entry brings into a channel. */
  function Brings(e: LogEntry, id: ChannelId): nat {
    if EntryId(e) != id then 0
    else if e.event.Created? then e.event.deposit
    else if e.event.ToppedUp? then e.event.added
    else 0
  }

  /** What an entry pays the receiver of a channel. */
  function Pays(e: LogEntry, id: ChannelId): nat {
    if EntryId(e) != id then 0
    else if e.event.Withdrawn? then e.event.amount
    else if e.event.Settled? then e.event.receiverTokens
    else 0
  }

  predicate Creates(e: LogEntry, id: ChannelId) {
    EntryId(e) == id && e.event.Created?
  }

  function Deposited(log: seq<LogEntry>, id: ChannelId): nat {
    if log == [] then 0 else Deposited(log[..|log| - 1], id) + Brings(log[|log| - 1], id)
  }

  /** Everything the receiver was ever paid for a channel. */
  function PaidOut(log: seq<LogEntry>, id: ChannelId): nat {
    if log == [] then 0 else PaidOut(log[..|log| - 1], id) + Pays(log[|log| - 1], id)
  }

  function Creations(log: seq<LogEntry>, id: ChannelId): nat {
    if log == [] then 0 else Creations(log[..|log| - 1], id) + if Creates(log[|log| - 1], id) then 1 else 0
  }

  function Settlements(log: seq<LogEntry>, id: ChannelId): nat {
    if log == [] then 0
    else
      var last := log[|log| - 1];
      Settlements(log[..|log| - 1], id) + if EntryId(last) == id && last.event.Settled? then 1 else 0
  }

  /** The deposits since the channel's last creation. */
  function LifeDeposited(log: seq<LogEntry>, id: ChannelId): nat {
    if log == [] then 0
    else
      var last := log[|log| - 1];
      (if Creates(last, id) then 0 else LifeDeposited(log[..|log| - 1], id)) + Brings(last, id)
  }

  /** What the receiver was paid since the channel's last creation. */
  function LifePaid(log: seq<LogEntry>, id: ChannelId): nat {
    if log == [] then 0
    else
      var last := log[|log| - 1];
      if Creates(last, id) then 0 else LifePaid(log[..|log| - 1], id) + Pays(last, id)
  }

  lemma SumsSnoc(log: seq<LogEntry>, e: LogEntry, id: ChannelId)
    ensures PaidOut(log + [e], id) == PaidOut(log, id) + Pays(e, id)
    ensures Deposited(log + [e], id) == Deposited(log, id) + Brings(e, id)
    ensures LifePaid(log + [e], id) == if Creates(e, id) then 0 else LifePaid(log, id) + Pays(e, id)
    ensures LifeDeposited(log + [e], id) == (if Creates(e, id) then 0 else LifeDeposited(log, id)) + Brings(e, id)
    ensures Creations(log + [e], id) == Creations(log, id) + if Creates(e, id) then 1 else 0
    ensures Settlements(log + [e], id) == Settlements(log, id) + if EntryId(e) == id && e.event.Settled? then 1 else 0
  {
    assert (log + [e])[..|log|] == log;
  }

  /** The withdrawals that were on record when the channel was last created. */
  function Inherited(a: Account): nat {
    match a
    case Live(_, _, i, _) => i
    case Dead(_, _, _, i) => i
    case _ => 0
  }

  /** The balance up to which a channel has been paid. */
  function Reached(a: Account): nat {
    match a
    case Live(_, x, _, _) => x
    case Dead(_, b, _, _) => b
    case _ => 0
  }

  /** How an account relates to what was paid and deposited in the current life, and to the number of lives. */
  predicate Matches(a: Account, paid: nat, deposited: nat, creations: nat, settlements: nat) {
    && paid == Reached(a) - Inherited(a) && paid <= deposited
    && (creations <= 1 ==> Inherited(a) == 0)
    && match a {
         case Fresh => creations == settlements == deposited == 0
         case Live(d, x, i, _) => deposited == d && creations == settlements + 1 && (x == i || x <= d)
         case Dead(d, b, x, i) => deposited == d && 1 <= creations == settlements && x <= b <= d
         case Impossible => false
       }
  }

  lemma AdvanceMatches(a: Account, e: LogEntry, id: ChannelId, paid: nat, deposited: nat, creations: nat,
                       settlements: nat)
    requires EntryId(e) == id && Matches(a, paid, deposited, creations, settlements) && !Advance(a, e.event).Impossible?
    ensures Matches(Advance(a, e.event),
                    if Creates(e, id) then 0 else paid + Pays(e, id),
                    (if Creates(e, id) then 0 else deposited) + Brings(e, id),
                    creations + if Creates(e, id) then 1 else 0,
                    settlements + if e.event.Settled? then 1 else 0)
  {
  }

  /** An account records exactly the sums of its events, life by life. */
  lemma {:induction false} AccountIsSums(log: seq<LogEntry>, id: ChannelId)
    requires !AccountOf(log, id).Impossible?
    ensures Matches(AccountOf(log, id), LifePaid(log, id), LifeDeposited(log, id), Creations(log, id),
                    Settlements(log, id))
  {
    if log != [] {
      var front, last := log[..|log| - 1], log[|log| - 1];
      assert log == front + [last];
      AccountSnoc(front, last, id);
      SumsSnoc(front, last, id);
      AccountIsSums(front, id);
      if EntryId(last) == id {
        AdvanceMatches(AccountOf(front, id), last, id, LifePaid(front, id), LifeDeposited(front, id),
                       Creations(front, id), Settlements(front, id));
      }
    }
  }

  lemma {:induction false} EarlierLivesCovered(log: seq<LogEntry>, id: ChannelId)
    requires !AccountOf(log, id).Impossible?
    ensures PaidOut(log, id) - LifePaid(log, id) <= Deposited(log, id) - LifeDeposited(log, id)
  {
    if log != [] {
      var front := log[..|log| - 1];
      EarlierLivesCovered(front, id);
      AccountIsSums(front, id);
    }
  }

  /** No key was opened a second time. */
  predicate FirstLife(log: seq<LogEntry>, id: ChannelId) {
    Creations(log, id) <= 1
  }

  /** A channel settles at most once per creation, and its receiver is never paid more than was deposited, over all its
      lives. */
  lemma SettledAtMostOnce(p: Params, w: World, run: seq<Action>, now: World, id: ChannelId)
    requires KeysDistinct(p) && Initial(p, w) && 0 < |w.chain|
    requires Exec(p, w, run) == now && BlocksInRange(now)
    ensures Settlements(now.log, id) <= Creations(now.log, id) <= Settlements(now.log, id) + 1
    ensures PaidOut(now.log, id) <= Deposited(now.log, id)
  {
    RunAgrees(p, w, run, id);
    AccountIsSums(now.log, id);
    EarlierLivesCovered(now.log, id);
  }

  /** A new life starts with the withdrawals that are on record at its key, which anybody can read before. */
  lemma CreationInherits(p: Params, w: World, id: ChannelId, deposit: uint192)
    requires BlocksInRange(w) && Agree(p, w, id) && id.openBlock == |w.chain|
    requires CreatePrivate(p, w, id.sender, id.receiver, deposit).Some?
    ensures var x := w.escrow.WithdrawnAt(KeyOf(p, id));
            AccountOf(CreatePrivate(p, w, id.sender, id.receiver, deposit).value.log, id) == Live(deposit, x, x, None)
  {
    AccountSnoc(w.log, LogEntry(|w.chain|, Created(id.sender, id.receiver, deposit)), id);
  }

  lemma SettlementLogs(p: Params, now: World, id: ChannelId, balance: uint192)
    requires Agree(p, now, id) && id.openBlock < TWO_32
    requires SettleChannel(p, now, id.sender, id.receiver, id.openBlock, balance).Some?
    ensures var then' := SettleChannel(p, now, id.sender, id.receiver, id.openBlock, balance).value;
            && AccountOf(now.log, id).Live?
            && LifePaid(then'.log, id) == LifePaid(now.log, id) + balance - now.escrow.WithdrawnAt(KeyOf(p, id))
            && LifeDeposited(then'.log, id) == LifeDeposited(now.log, id)
  {
    var tokens := balance - now.escrow.WithdrawnAt(KeyOf(p, id));
    SumsSnoc(now.log, LogEntry(|now.chain|, Settled(id.sender, id.receiver, id.openBlock, balance, tokens)), id);
  }

  /** Conservation over every life: when the settlement of a channel commits, the withdrawals and the settlement of
      this life together have paid the receiver the final balance less the withdrawals inherited at creation, and the
      sender's account grows by everything deposited in this life less that balance. */
  lemma LifeConserved(p: Params, w: World, run: seq<Action>, now: World, id: ChannelId, balance: uint192)
    requires KeysDistinct(p) && Initial(p, w) && 0 < |w.chain|
    requires Exec(p, w, run) == now && BlocksInRange(now)
    requires id.openBlock < TWO_32 && id.sender != id.receiver
    requires Payable(p, id.sender) && Payable(p, id.receiver) && p.self != id.sender && p.self != id.receiver
    requires SettleChannel(p, now, id.sender, id.receiver, id.openBlock, balance).Some?
    ensures var then' := SettleChannel(p, now, id.sender, id.receiver, id.openBlock, balance).value;
            && Inherited(AccountOf(now.log, id)) <= balance <= LifeDeposited(now.log, id)
            && LifePaid(then'.log, id) == balance - Inherited(AccountOf(now.log, id))
            && then'.token.BalanceOf(id.sender) == now.token.BalanceOf(id.sender) + LifeDeposited(now.log, id) - balance
            && then'.token.BalanceOf(id.receiver) ==
                 now.token.BalanceOf(id.receiver) + balance - Inherited(AccountOf(now.log, id)) - LifePaid(now.log, id)
  {
    RunAgrees(p, w, run, id);
    AccountIsSums(now.log, id);
    Solvent(p, w, run);
    SettlementCovered(p, now, id.sender, id.receiver, id.openBlock, balance);
    SettlementLogs(p, now, id, balance);
  }

  /** The receiver gets exactly the final balance over a life if and only if no withdrawals were on record at its
      creation; in particular in the first life of a key. */
  lemma ConservedExactlyWhen(p: Params, w: World, run: seq<Action>, now: World, id: ChannelId, balance: uint192)
    requires KeysDistinct(p) && Initial(p, w) && 0 < |w.chain|
    requires Exec(p, w, run) == now && BlocksInRange(now) && id.openBlock < TWO_32
    requires SettleChannel(p, now, id.sender, id.receiver, id.openBlock, balance).Some?
    ensures var then' := SettleChannel(p, now, id.sender, id.receiver, id.openBlock, balance).value;
            LifePaid(then'.log, id) == balance <==> Inherited(AccountOf(now.log, id)) == 0
    ensures FirstLife(now.log, id) ==> Inherited(AccountOf(now.log, id)) == 0
  {
    RunAgrees(p, w, run, id);
    AccountIsSums(now.log, id);
    SettlementLogs(p, now, id, balance);
  }

  // ---------------------------------------------------------------- who authorised a payment

  /** An action by which the sender of a channel stood for a balance: a balance proof it signed, or its own close. */
  predicate Authorises(p: Params, a: Action, id: ChannelId, balance: nat) {
    match a
    case DoWithdraw(c, b, x, proof) =>
      && x == balance && id.receiver == c && id.openBlock == b
      && EcVerify(p, BalanceProof(c, b, x, p.self), proof) == Some(id.sender)
    case DoCooperativeClose(_, r, b, x, proof, _) =>
      && x == balance && id.receiver == r && id.openBlock == b
      && EcVerify(p, BalanceProof(r, b, x, p.self), proof) == Some(id.sender)
    case DoUncooperativeClose(c, r, b, x) => x == balance && id == ChannelId(c, r, b)
    case _ => false
  }

  lemma LogGrowsByOne(p: Params, w: World, a: Action)
    ensures Step(p, w, a).log == w.log || (|Step(p, w, a).log| == |w.log| + 1 && Step(p, w, a).log[..|w.log|] == w.log)
  {
  }

  /** The one step that can log a withdrawal. */
  lemma WithdrawalStep(p: Params, w: World, a: Action)
    requires |Step(p, w, a).log| == |w.log| + 1 && Step(p, w, a).log[|w.log|].event.Withdrawn?
    ensures a.DoWithdraw? && Perform(p, w, a).Some?
    ensures var signer := EcVerify(p, BalanceProof(a.caller, a.openBlock, a.balance, p.self), a.proof);
            var e := Step(p, w, a).log[|w.log|];
            && signer.Some?
            && EntryId(e) == ChannelId(signer.value, a.caller, a.openBlock)
            && e.event.amount == a.balance - w.escrow.WithdrawnAt(KeyOf(p, EntryId(e)))
            && Step(p, w, a).escrow.WithdrawnAt(KeyOf(p, EntryId(e))) == a.balance
  {
  }

  /** The two steps that can log a settlement. */
  lemma SettlementStep(p: Params, w: World, a: Action)
    requires |Step(p, w, a).log| == |w.log| + 1 && Step(p, w, a).log[|w.log|].event.Settled?
    ensures (a.DoCooperativeClose? || a.DoSettle?) && Perform(p, w, a).Some?
    ensures var e := Step(p, w, a).log[|w.log|];
            var key := KeyOf(p, EntryId(e));
            && e.event.receiverTokens + w.escrow.WithdrawnAt(key) == e.event.balance
            && (a.DoCooperativeClose? ==>
                  var signer := EcVerify(p, BalanceProof(a.receiver, a.openBlock, a.balance, p.self), a.proof);
                  && signer.Some? && e.event.balance == a.balance
                  && EntryId(e) == ChannelId(signer.value, a.receiver, a.openBlock))
            && (a.DoSettle? ==> Pending(w.escrow, key) && e.event.balance == w.escrow.ClosingAt(key).balance)
  {
  }

  /** One step either pays nothing, or reaches a balance that it or the pending close stands for. */
  lemma StepIncome(p: Params, w: World, a: Action, id: ChannelId)
    requires KeysDistinct(p) && BlocksInRange(w) && Agree(p, w, id)
    ensures var before, after := AccountOf(w.log, id), AccountOf(Step(p, w, a).log, id);
            || LifePaid(Step(p, w, a).log, id) == 0
            || (LifePaid(Step(p, w, a).log, id) == LifePaid(w.log, id) && Reached(after) == Reached(before))
            || (Perform(p, w, a).Some?
                && (Authorises(p, a, id, Reached(after))
                    || (a.DoSettle? && Pending(w.escrow, KeyOf(p, id))
                        && Reached(after) == w.escrow.ClosingAt(KeyOf(p, id)).balance)))
  {
    var w' := Step(p, w, a);
    LogGrowsByOne(p, w, a);
    if w'.log != w.log {
      var e := w'.log[|w.log|];
      assert w'.log == w.log + [e];
      SumsSnoc(w.log, e, id);
      AccountSnoc(w.log, e, id);
      if EntryId(e) == id && (e.event.Withdrawn? || e.event.Settled?) {
        StepAgrees(p, w, a, id);
        if e.event.Withdrawn? {
          WithdrawalStep(p, w, a);
        } else {
          SettlementStep(p, w, a);
        }
        PaymentReaches(p, w, e, id);
      } else if EntryId(e) == id {
        StepAgrees(p, w, a, id);
      }
    }
  }

  lemma PaymentReaches(p: Params, w: World, e: LogEntry, id: ChannelId)
    requires Agree(p, w, id) && EntryId(e) == id && (e.event.Withdrawn? || e.event.Settled?)
    requires !AccountOf(w.log + [e], id).Impossible?
    ensures Reached(AccountOf(w.log + [e], id)) == w.escrow.WithdrawnAt(KeyOf(p, id)) + Pays(e, id)
  {
    AccountSnoc(w.log, e, id);
  }

  /** Action i of a run committed, and by it the sender stood for this balance of the channel. */
  ghost predicate StoodFor(p: Params, w: World, run: seq<Action>, i: int, id: ChannelId, balance: nat) {
    && 0 <= i < |run|
    && Authorises(p, run[i], id, balance) && Perform(p, Exec(p, w, run[..i]), run[i]).Some?
  }

  lemma StoodForLater(p: Params, w: World, front: seq<Action>, last: Action, i: int, id: ChannelId, balance: nat)
    requires StoodFor(p, w, front, i, id, balance)
    ensures StoodFor(p, w, front + [last], i, id, balance)
  {
    assert (front + [last])[..i] == front[..i];
  }

  /** Whatever a receiver has been paid in the current life of a channel, some committed action of the run carries the
      sender's consent to exactly the balance this reached. */
  lemma {:induction false} IncomeAuthorised(p: Params, w: World, run: seq<Action>, now: World, id: ChannelId)
    returns (i: nat)
    requires KeysDistinct(p) && Initial(p, w) && 0 < |w.chain|
    requires Exec(p, w, run) == now && BlocksInRange(now) && LifePaid(now.log, id) > 0
    ensures StoodFor(p, w, run, i, id, Reached(AccountOf(now.log, id)))
  {
    if run == [] {
      assert false;
    }
    var front, last := run[..|run| - 1], run[|run| - 1];
    var before := Exec(p, w, front);
    ChainGrows(p, before, last);
    ExecKeepsBlocks(p, w, front);
    RunAgrees(p, w, front, id);
    StepIncome(p, before, last, id);
    var balance := Reached(AccountOf(now.log, id));
    assert run == front + [last];
    if LifePaid(now.log, id) == LifePaid(before.log, id) && balance == Reached(AccountOf(before.log, id)) {
      i := IncomeAuthorised(p, w, front, before, id);
      StoodForLater(p, w, front, last, i, id, balance);
    } else if Authorises(p, last, id, balance) {
      i := |front|;
    } else {
      assert forall k: Key :: RequestOk(p, w, k);
      i := RequestHasOrigin(p, w, front, before, KeyOf(p, id));
      assert KeyOf(p, ChannelId(front[i].caller, front[i].receiver, front[i].openBlock)) == KeyOf(p, id);
      StoodForLater(p, w, front, last, i, id, balance);
    }
  }
}
