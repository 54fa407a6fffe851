/** Token, validator, escrow and chain as one object: what is proved of every run of the contract holds of it. */
module Deployments {
  import opened Prelude
  import opened Encoding
  import opened Token
  import opened Congestion
  import opened Escrow
  import opened EscrowContract
  import opened EscrowLogs
  import opened Solvency

  class Deployment {
    const p: Params
    const token: StandardToken
    const validator: CongestionValidator
    const escrow: RaidenMicroTransferChannels
    var chain: seq<Block>

    ghost predicate Valid() {
      escrow.Valid() && escrow.p == p && escrow.token == token && escrow.congestionValidator == validator
    }

    ghost function State(): World
      reads this, escrow, token, validator
      requires Valid()
    {
      escrow.State(chain)
    }

    /** A deployment on an existing chain, with all tokens in one hand, that trusts the listed addresses that hold
        code. */
    constructor (p: Params, holder: Address, supply: uint256, chain: seq<Block>, trusted: seq<Address>)
      requires ParamsOk(p) && ChainOk(p.codec, chain)
      ensures Valid() && this.p == p && Initial(p, State()) && State().chain == chain
      ensures fresh(token) && fresh(validator) && fresh(escrow)
      ensures State().escrow.trusted == set a | a in trusted && p.hasCode(a)
    {
      var t := new StandardToken(p.token, holder, supply);
      var v := new CongestionValidator(p.codec);
      var e := new RaidenMicroTransferChannels(p, t, v);
      this.p, this.chain, token, validator, escrow := p, chain, t, v, e;
      new;
      OneHolderSupply(holder, supply);
      assert token.State().NobodySpendsFor(p.self);
      var ok := escrow.AddTrustedContracts(chain, p.owner, trusted);
      AddingIsNoted(p, [], trusted, |chain|);
      assert [] + AddedNotices(p, trusted, |chain|) == AddedNotices(p, trusted, |chain|);
    }

    /** The constructor of the contract, for a validator at the given address: null is a revert, which its checks on
        both addresses, the period and the supply decide. */
    static method Deploy(p: Params, validatorAddress: Address, holder: Address, supply: uint256, chain: seq<Block>,
                         trusted: seq<Address>)
      returns (d: Deployment?)
      requires p.self != 0 && p.self != p.token && ChainOk(p.codec, chain)
      ensures d != null <==>
                && p.token != 0 && p.hasCode(p.token) && validatorAddress != 0 && p.hasCode(validatorAddress)
                && p.challengePeriod >= 5 && supply > 0
      ensures d != null ==>
                && fresh(d) && d.Valid() && d.p == p && Initial(p, d.State()) && d.State().chain == chain
                && d.State().escrow.trusted == set a | a in trusted && p.hasCode(a)
    {
      if p.token == 0 { return null; }
      if validatorAddress == 0 { return null; }
      if !p.hasCode(p.token) { return null; }
      if !p.hasCode(validatorAddress) { return null; }
      if p.challengePeriod < 5 { return null; }
      if supply == 0 { return null; }
      d := new Deployment(p, holder, supply, chain, trusted);
    }

    /** The EIP-223 transfer to the escrow; where tokenFallback reverts, the transfer is undone. */
    method TransferWithData(caller: Address, amount: uint256, data: Bytes) returns (ok: bool)
      requires Valid()
      modifies escrow, token
      ensures Valid()
      ensures Outcome(ok, old(State()), State(), Escrow.TransferWithData(p, old(State()), caller, amount, data))
    {
      var saved := token.balances;
      ok := token.Transfer(caller, p.self, amount);
      if ok {
        ok := escrow.TokenFallback(chain, caller, amount, data);
        if !ok {
          token.balances := saved;
        }
      }
    }

    method Deposit(a: Action) returns (ok: bool)
      requires Valid() && !a.Mine? && a.caller != p.self
      requires a.DoCreate? || a.DoCreateDelegate? || a.DoTopUp? || a.DoTopUpDelegate? || a.DoTransferWithData?
      modifies escrow, token
      ensures Valid() && Outcome(ok, old(State()), State(), Perform(p, old(State()), a))
    {
      match a {
        case DoCreate(c, r, d) => ok := escrow.CreateChannel(chain, c, r, d);
        case DoCreateDelegate(c, s, r, d) => ok := escrow.CreateChannelDelegate(chain, c, s, r, d);
        case DoTopUp(c, r, b, d) => ok := escrow.TopUp(chain, c, r, b, d);
        case DoTopUpDelegate(c, s, r, b, d) => ok := escrow.TopUpDelegate(chain, c, s, r, b, d);
        case DoTransferWithData(c, d, data) => ok := TransferWithData(c, d, data);
      }
    }

    method CloseOrWithdraw(a: Action) returns (ok: bool)
      requires Valid() && !a.Mine? && a.caller != p.self
      requires a.DoWithdraw? || a.DoCooperativeClose? || a.DoUncooperativeClose? || a.DoSettle?
      modifies escrow, token, validator
      ensures Valid() && Outcome(ok, old(State()), State(), Perform(p, old(State()), a))
    {
      match a {
        case DoWithdraw(c, b, x, sig) => ok := escrow.Withdraw(chain, c, b, x, sig);
        case DoCooperativeClose(_, r, b, x, sig, agreement) =>
          ok := escrow.CooperativeClose(chain, r, b, x, sig, agreement);
        case DoUncooperativeClose(c, r, b, x) => ok := escrow.UncooperativeClose(chain, c, r, b, x);
        case DoSettle(c, r, b, reference) => ok := escrow.Settle(chain, c, r, b, reference);
      }
    }

    method UseToken(a: Action) returns (ok: bool)
      requires Valid() && !a.Mine? && a.caller != p.self
      requires a.DoTokenTransfer? || a.DoTokenTransferFrom? || a.DoTokenApprove?
      modifies token
      ensures Valid() && Outcome(ok, old(State()), State(), Perform(p, old(State()), a))
    {
      match a {
        case DoTokenTransfer(c, to, d) => ok := token.Transfer(c, to, d);
        case DoTokenTransferFrom(c, from, to, d) => ok := token.TransferFrom(c, from, to, d);
        case DoTokenApprove(c, spender, d) => ok := token.Approve(c, spender, d);
      }
    }

    method Report(reference: seq<Bytes>, minGasFree: nat, minBlock: nat) returns (ok: bool)
      requires Valid()
      modifies validator
      ensures Valid()
      ensures forall caller :: caller != p.self ==>
                Outcome(ok, old(State()), State(),
                        Perform(p, old(State()), DoReport(caller, reference, minGasFree, minBlock)))
    {
      var count;
      ok, count := validator.NumBlocksUncongested(chain, reference, minGasFree, minBlock);
    }

    /** Whatever somebody sends to the chain: the object takes the step of the transition system. */
    method Transact(a: Action)
      requires Valid()
      modifies this, escrow, token, validator
      ensures Valid() && State() == Step(p, old(State()), a)
    {
      var ok;
      if a.Mine? {
        if WellFormed(p.codec, a.block, |chain|) {
          chain := chain + [a.block];
        }
      } else if a.caller != p.self {
        match a {
          case DoAddTrusted(c, contracts) => ok := escrow.AddTrustedContracts(chain, c, contracts);
          case DoRemoveTrusted(c, contracts) => ok := escrow.RemoveTrustedContracts(chain, c, contracts);
          case DoReport(c, reference, gas, block) => ok := Report(reference, gas, block);
          case DoWithdraw(_, _, _, _) => ok := CloseOrWithdraw(a);
          case DoCooperativeClose(_, _, _, _, _, _) => ok := CloseOrWithdraw(a);
          case DoUncooperativeClose(_, _, _, _) => ok := CloseOrWithdraw(a);
          case DoSettle(_, _, _, _) => ok := CloseOrWithdraw(a);
          case DoTokenTransfer(_, _, _) => ok := UseToken(a);
          case DoTokenTransferFrom(_, _, _, _) => ok := UseToken(a);
          case DoTokenApprove(_, _, _) => ok := UseToken(a);
          case DoCreate(_, _, _) => ok := Deposit(a);
          case DoCreateDelegate(_, _, _, _) => ok := Deposit(a);
          case DoTopUp(_, _, _, _) => ok := Deposit(a);
          case DoTopUpDelegate(_, _, _, _, _) => ok := Deposit(a);
          case DoTransferWithData(_, _, _) => ok := Deposit(a);
        }
      }
    }

    /** A whole run. From a fresh deployment it ends covered, like every other state the run goes through. */
    method TransactAll(run: seq<Action>)
      requires Valid()
      modifies this, escrow, token, validator
      ensures Valid() && State() == Exec(p, old(State()), run)
      ensures Initial(p, old(State())) ==> Funded(p, State())
    {
      assert run[..0] == [];
      for i := 0 to |run|
        invariant Valid() && State() == Exec(p, old(State()), run[..i])
      {
        assert run[..i + 1][..i] == run[..i];
        Transact(run[i]);
      }
      assert run[..|run|] == run;
      if Initial(p, old(State())) {
        Solvent(p, old(State()), run);
      }
    }
  }

  lemma OneHolderSupply(holder: Address, supply: uint256)
    ensures Ledger(map[holder := supply], map[]).Supply() == supply
  {
    Sums.SumUpdate(map[], holder, supply);
    assert map[holder := supply] == map[][holder := supply];
  }
}
