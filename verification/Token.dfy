/** The EIP-20 ledger the escrow holds its deposits in, as StandardToken implements it. */
module Token {
  import opened Prelude
  import opened Sums

  datatype Ledger = Ledger(balances: map<Address, uint256>, allowed: map<(Address, Address), uint256>) {

    function BalanceOf(a: Address): nat {
      Get(balances, a)
    }

    function Allowance(owner: Address, spender: Address): nat {
      Get(allowed, (owner, spender))
    }

    /** transfer: None is a revert. */
    function Transfer(token: Address, from: Address, to: Address, value: nat): Option<Ledger> {
      if to == 0 || to == token then None
      else if BalanceOf(from) < value || BalanceOf(to) + value >= TWO_256 then None
      else
        var debited := balances[from := BalanceOf(from) - value];
        Some(this.(balances := debited[to := Get(debited, to) + value]))
    }

    /** transferFrom, called by the spender. */
    function TransferFrom(token: Address, spender: Address, from: Address, to: Address, value: nat): Option<Ledger> {
      if from == 0 || Allowance(from, spender) < value then None
      else
        match Transfer(token, from, to, value)
        case None => None
        case Some(l) => Some(l.(allowed := allowed[(from, spender) := Allowance(from, spender) - value]))
    }

    /** approve: a positive allowance must be reset to zero before it is set anew. */
    function Approve(owner: Address, spender: Address, value: uint256): Option<Ledger> {
      if spender == 0 || (value != 0 && Allowance(owner, spender) != 0) then None
      else Some(this.(allowed := allowed[(owner, spender) := value]))
    }

    /** Nobody may spend for this owner. */
    ghost predicate NobodySpendsFor(owner: Address) {
      forall spender: Address :: Allowance(owner, spender) == 0
    }

    ghost function Supply(): nat {
      Sum(balances)
    }
  }

  /** A transfer moves the value and touches no third account; the supply stays what it was. */
  lemma TransferMoves(l: Ledger, token: Address, from: Address, to: Address, value: nat)
    requires l.Transfer(token, from, to, value).Some?
    ensures var l' := l.Transfer(token, from, to, value).value;
            && l'.Supply() == l.Supply()
            && l'.allowed == l.allowed
            && (from == to ==> forall a :: l'.BalanceOf(a) == l.BalanceOf(a))
            && (from != to ==> l'.BalanceOf(from) == l.BalanceOf(from) - value
                               && l'.BalanceOf(to) == l.BalanceOf(to) + value)
            && (forall a :: a != from && a != to ==> l'.BalanceOf(a) == l.BalanceOf(a))
  {
    var debited := l.balances[from := l.BalanceOf(from) - value];
    SumUpdate(l.balances, from, l.BalanceOf(from) - value);
    SumUpdate(debited, to, Get(debited, to) + value);
  }

  /** Once the recipient is an ordinary account and the supply fits a word, only the payer's funds matter. */
  lemma TransferSucceeds(l: Ledger, token: Address, from: Address, to: Address, value: nat)
    requires to != 0 && to != token
    requires l.Supply() + value < TWO_256 || (from != to && l.Supply() < TWO_256)
    requires value <= l.BalanceOf(from)
    ensures l.Transfer(token, from, to, value).Some?
  {
    ValueAtMostSum(l.balances, to);
    if from != to {
      TwoValuesAtMostSum(l.balances, from, to);
    }
  }

  /** A transfer goes through exactly if the recipient can hold tokens and the payer has them; to oneself, the sum of
      balance and value must fit a word as well. */
  lemma TransferExactlyWhen(l: Ledger, token: Address, from: Address, to: Address, value: nat)
    requires l.Supply() < TWO_256
    ensures l.Transfer(token, from, to, value).Some? <==>
              && to != 0 && to != token && value <= l.BalanceOf(from)
              && (from == to ==> l.BalanceOf(from) + value < TWO_256)
  {
    if to != 0 && to != token && value <= l.BalanceOf(from) && from != to {
      TransferSucceeds(l, token, from, to, value);
    }
  }

  /** Spending for another goes through exactly within the allowance and where the transfer does; it uses up that much
      of this allowance and of no other. */
  lemma SpendingExact(l: Ledger, token: Address, spender: Address, from: Address, to: Address, value: nat)
    ensures var done := l.TransferFrom(token, spender, from, to, value);
            && (done.Some? <==>
                  from != 0 && value <= l.Allowance(from, spender) && l.Transfer(token, from, to, value).Some?)
            && (done.Some? ==>
                  && done.value.balances == l.Transfer(token, from, to, value).value.balances
                  && forall o: Address, s: Address :: done.value.Allowance(o, s) ==
                                      l.Allowance(o, s) - if (o, s) == (from, spender) then value else 0)
  {
  }

  /** An approval sets one allowance and touches neither another nor any balance; a positive allowance can only be
      raised or lowered by way of zero. */
  lemma ApprovalExact(l: Ledger, owner: Address, spender: Address, value: uint256)
    ensures var done := l.Approve(owner, spender, value);
            && (done.None? <==> spender == 0 || (value > 0 && l.Allowance(owner, spender) > 0))
            && (done.Some? ==>
                  && done.value.balances == l.balances
                  && forall o: Address, s: Address :: done.value.Allowance(o, s) ==
                                      if (o, s) == (owner, spender) then value else l.Allowance(o, s))
  {
  }

  class StandardToken {
    const address: Address
    var balances: map<Address, uint256>
    var allowed: map<(Address, Address), uint256>

    ghost function State(): Ledger
      reads this
    {
      Ledger(balances, allowed)
    }

    constructor (address: Address, owner: Address, supply: uint256)
      ensures State() == Ledger(map[owner := supply], map[])
      ensures this.address == address
    {
      this.address := address;
      balances, allowed := map[owner := supply], map[];
    }

    method Transfer(sender: Address, to: Address, value: nat) returns (ok: bool)
      modifies this
      ensures match old(State()).Transfer(address, sender, to, value)
              case None => !ok && State() == old(State())
              case Some(l) => ok && State() == l
    {
      if to == 0 || to == address { return false; }
      if Get(balances, sender) < value { return false; }
      if Get(balances, to) + value >= TWO_256 { return false; }
      balances := balances[sender := Get(balances, sender) - value];
      balances := balances[to := Get(balances, to) + value];
      return true;
    }

    method TransferFrom(spender: Address, from: Address, to: Address, value: nat) returns (ok: bool)
      modifies this
      ensures match old(State()).TransferFrom(address, spender, from, to, value)
              case None => !ok && State() == old(State())
              case Some(l) => ok && State() == l
    {
      if from == 0 || Get(allowed, (from, spender)) < value { return false; }
      ok := Transfer(from, to, value);
      if ok {
        allowed := allowed[(from, spender) := Get(allowed, (from, spender)) - value];
      }
    }

    method Approve(owner: Address, spender: Address, value: uint256) returns (ok: bool)
      modifies this
      ensures match old(State()).Approve(owner, spender, value)
              case None => !ok && State() == old(State())
              case Some(l) => ok && State() == l
    {
      if spender == 0 || (value != 0 && Get(allowed, (owner, spender)) != 0) { return false; }
      allowed := allowed[(owner, spender) := value];
      return true;
    }
  }
}
