/** Who may open and top up a sender's channels, and who may change the set of trusted contracts. */
module Authority {
  import opened Prelude
  import opened Encoding
  import opened Token
  import opened Escrow
  import opened Conservation
  import opened EscrowLogs

  predicate Deposits(e: Event) {
    e.Created? || e.ToppedUp?
  }

  function Deposit(e: Event): nat
    requires Deposits(e)
  {
    if e.Created? then e.deposit else e.added
  }

  // ---------------------------------------------------------------- one step

  /** The step brings one deposit: it is the caller's own channel or the caller is trusted, and the caller pays. */
  predicate PaidBy(p: Params, w: World, w': World, caller: Address) {
    && |w'.log| == |w.log| + 1
    && var e := w'.log[|w.log|].event;
       && Deposits(e)
       && (caller == e.sender || caller in w.escrow.trusted)
       && w'.token.BalanceOf(caller) == w.token.BalanceOf(caller) - Deposit(e)
       && w'.token.BalanceOf(p.self) == w.token.BalanceOf(p.self) + Deposit(e)
  }

  lemma PullIsPaid(p: Params, w: World, payer: Address, sender: Address, v: World, amount: uint192)
    requires payer != p.self && (payer == sender || payer in w.escrow.trusted) && v.token == w.token
    requires |v.log| == |w.log| + 1 && Deposits(v.log[|w.log|].event)
    requires v.log[|w.log|].event.sender == sender && Deposit(v.log[|w.log|].event) == amount
    requires PullDeposit(p, Some(v), payer, amount).Some?
    ensures PaidBy(p, w, PullDeposit(p, Some(v), payer, amount).value, payer)
  {
    TransferMoves(v.token, p.token, payer, p.self, amount);
  }

  lemma TransferIsPaid(p: Params, w: World, caller: Address, amount: uint256, data: Bytes)
    requires caller != p.self && TransferWithData(p, w, caller, amount, data).Some?
    ensures PaidBy(p, w, TransferWithData(p, w, caller, amount, data).value, caller)
  {
    TransferMoves(w.token, p.token, caller, p.self, amount);
  }

  /** A step that brings a deposit is paid for by its caller, who is the channel's sender or a trusted contract. */
  lemma DepositStepPaid(p: Params, w: World, a: Action)
    requires |Step(p, w, a).log| == |w.log| + 1 && Deposits(Step(p, w, a).log[|w.log|].event)
    ensures !a.Mine? && PaidBy(p, w, Step(p, w, a), a.caller)
  {
    match a
    case DoCreate(c, r, d) => PullIsPaid(p, w, c, c, CreatePrivate(p, w, c, r, d).value, d);
    case DoCreateDelegate(c, s, r, d) => PullIsPaid(p, w, c, s, CreatePrivate(p, w, s, r, d).value, d);
    case DoTopUp(c, r, b, d) => PullIsPaid(p, w, c, c, TopUpPrivate(p, w, c, r, b, d).value, d);
    case DoTopUpDelegate(c, s, r, b, d) => PullIsPaid(p, w, c, s, TopUpPrivate(p, w, s, r, b, d).value, d);
    case DoTransferWithData(c, d, data) => TransferIsPaid(p, w, c, d, data);
    case _ =>
  }

  predicate Adds(p: Params, a: Action, x: Address) {
    a.DoAddTrusted? && a.caller == p.owner && p.owner != p.self && x in a.contracts && p.hasCode(x)
  }

  predicate Removes(p: Params, a: Action, x: Address) {
    a.DoRemoveTrusted? && a.caller == p.owner && p.owner != p.self && x in a.contracts
  }

  /** Only the owner changes who is trusted. */
  lemma TrustStep(p: Params, w: World, a: Action, x: Address)
    ensures x in Step(p, w, a).escrow.trusted <==> Adds(p, a, x) || (x in w.escrow.trusted && !Removes(p, a, x))
  {
    if !a.DoAddTrusted? && !a.DoRemoveTrusted? {
      OthersKeepTrust(p, w, a);
    }
  }

  lemma OthersKeepTrust(p: Params, w: World, a: Action)
    requires !a.DoAddTrusted? && !a.DoRemoveTrusted?
    ensures Step(p, w, a).escrow.trusted == w.escrow.trusted
  {
  }

  // ---------------------------------------------------------------- along a run

  /** Before action n the address was trusted from the start or added by the owner with action k, and the owner has not
      removed it since. */
  ghost predicate TrustedSince(p: Params, w: World, run: seq<Action>, n: nat, x: Address, k: int)
    requires n <= |run|
  {
    && -1 <= k < n
    && (if k == -1 then x in w.escrow.trusted else Adds(p, run[k], x))
    && forall m :: k < m < n ==> !Removes(p, run[m], x)
  }

  ghost predicate Trusted(p: Params, w: World, run: seq<Action>, n: nat, x: Address)
    requires n <= |run|
  {
    exists k :: TrustedSince(p, w, run, n, x, k)
  }

  lemma TrustedNext(p: Params, w: World, run: seq<Action>, n: nat, x: Address)
    requires n < |run|
    ensures Trusted(p, w, run, n + 1, x) <==>
              Adds(p, run[n], x) || (Trusted(p, w, run, n, x) && !Removes(p, run[n], x))
  {
    if Adds(p, run[n], x) {
      assert TrustedSince(p, w, run, n + 1, x, n);
    }
    if Trusted(p, w, run, n, x) && !Removes(p, run[n], x) {
      var k :| TrustedSince(p, w, run, n, x, k);
      assert TrustedSince(p, w, run, n + 1, x, k);
    }
    if Trusted(p, w, run, n + 1, x) {
      var k :| TrustedSince(p, w, run, n + 1, x, k);
      if k < n {
        assert TrustedSince(p, w, run, n, x, k);
      }
    }
  }

  /** Exactly those are trusted whom the owner added, or the deployment named, and the owner has not removed since. */
  lemma {:induction false} TrustedExactlyWhen(p: Params, w: World, run: seq<Action>, n: nat, now: World, x: Address)
    requires n <= |run| && Exec(p, w, run[..n]) == now
    ensures x in now.escrow.trusted <==> Trusted(p, w, run, n, x)
  {
    if n == 0 {
      assert TrustedSince(p, w, run, 0, x, -1) <==> x in w.escrow.trusted;
    } else {
      var before := Exec(p, w, run[..n - 1]);
      assert run[..n][..n - 1] == run[..n - 1];
      TrustedExactlyWhen(p, w, run, n - 1, before, x);
      TrustStep(p, before, run[n - 1], x);
      TrustedNext(p, w, run, n - 1, x);
    }
  }

  /** Action i of the run brings entry j of the log. */
  ghost predicate BringsEntry(p: Params, w: World, run: seq<Action>, now: World, i: int, j: int)
    requires 0 <= j < |now.log|
  {
    && 0 <= i < |run|
    && Exec(p, w, run[..i]).log == now.log[..j] && Exec(p, w, run[..i + 1]).log == now.log[..j + 1]
  }

  lemma {:induction false} LogExtends(p: Params, w: World, run: seq<Action>, n: nat)
    requires n <= |run|
    ensures Exec(p, w, run[..n]).log <= Exec(p, w, run).log
    decreases |run|
  {
    if n < |run| {
      var front := run[..|run| - 1];
      assert front[..n] == run[..n];
      LogExtends(p, w, front, n);
      LogGrowsByOne(p, Exec(p, w, front), run[|run| - 1]);
    } else {
      assert run[..n] == run;
    }
  }

  /** The first action after which the log is longer than j. */
  lemma {:induction false} GrowsPast(p: Params, w: World, run: seq<Action>, j: nat) returns (i: nat)
    requires w.log == [] && j < |Exec(p, w, run).log|
    ensures i < |run| && |Exec(p, w, run[..i]).log| == j && |Exec(p, w, run[..i + 1]).log| == j + 1
  {
    var front := run[..|run| - 1];
    LogGrowsByOne(p, Exec(p, w, front), run[|run| - 1]);
    if j < |Exec(p, w, front).log| {
      i := GrowsPast(p, w, front, j);
      assert run[..i] == front[..i] && run[..i + 1] == front[..i + 1];
    } else {
      i := |front|;
      assert run[..i + 1] == run;
    }
  }

  lemma BroughtBy(p: Params, w: World, run: seq<Action>, now: World, j: nat) returns (i: nat)
    requires w.log == [] && Exec(p, w, run) == now && j < |now.log|
    ensures BringsEntry(p, w, run, now, i, j)
  {
    i := GrowsPast(p, w, run, j);
    LogExtends(p, w, run, i);
    LogExtends(p, w, run, i + 1);
  }

  /** Every deposit for a sender's channel, over every run from deployment, was paid by the sender itself, or by a
      contract that the owner had added, or the deployment named, and the owner had not removed again; the notices
      before it tell so. */
  lemma DepositAuthorised(p: Params, w: World, run: seq<Action>, now: World, j: nat) returns (i: nat)
    requires Initial(p, w) && Exec(p, w, run) == now && j < |now.log| && Deposits(now.log[j].event)
    ensures BringsEntry(p, w, run, now, i, j) && !run[i].Mine?
    ensures PaidBy(p, Exec(p, w, run[..i]), Exec(p, w, run[..i + 1]), run[i].caller)
    ensures run[i].caller != now.log[j].event.sender ==>
              && run[i].caller in TrustedBy(Exec(p, w, run[..i]).notices)
              && Trusted(p, w, run, i, run[i].caller)
  {
    i := BroughtBy(p, w, run, now, j);
    assert run[..i + 1][..i] == run[..i];
    DepositStepPaid(p, Exec(p, w, run[..i]), run[i]);
    TrustedExactlyWhen(p, w, run, i, Exec(p, w, run[..i]), run[i].caller);
    NoticesTellTrusted(p, w, run[..i]);
  }
}
