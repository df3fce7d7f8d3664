/**
 * The Multisender contract as its tests observe it: `disperseEther` pays each
 * recipient its amount out of the attached value, `disperseToken` pulls the
 * total from the caller and pays each recipient out of it, and each reverts
 * with its own reason. `TestToken` is the ERC-20 the tests drive it with,
 * including the switches that make its transfers fail.
 */
module Multisender {
  import opened Wrappers

  type Address = string

  /** A balance sheet; an address without an entry holds nothing. */
  type Ledger = map<Address, nat>

  function Bal(m: Ledger, a: Address): nat
  {
    if a in m then m[a] else 0
  }

  /** `amount` moves from `from` to `to`; every other balance stays. */
  function Move(m: Ledger, from: Address, to: Address, amount: nat): (r: Ledger)
    requires Bal(m, from) >= amount
    ensures forall a :: Bal(r, a) == Bal(m, a) - (if a == from then amount else 0) + (if a == to then amount else 0)
  {
    var debited := m[from := Bal(m, from) - amount];
    debited[to := Bal(debited, to) + amount]
  }

  /** The sum of a list of token or ether amounts, as a `uint256`-like natural. */
  function Total(amounts: seq<nat>): (t: nat)
    ensures t == Sum(amounts)
  {
    SumNonNegative(amounts);
    Sum(amounts)
  }

  /** What `a` is paid by a dispersal: the sum of `amounts[i]` over the positions naming `a`. */
  function Received(recipients: seq<Address>, amounts: seq<nat>, a: Address): nat
    requires |recipients| == |amounts|
  {
    if recipients == [] then 0
    else
      var n := |recipients| - 1;
      Received(recipients[..n], amounts[..n], a) + (if recipients[n] == a then amounts[n] else 0)
  }

  lemma ReceivedStep(recipients: seq<Address>, amounts: seq<nat>, i: nat, a: Address)
    requires |recipients| == |amounts| && i < |recipients|
    ensures Received(recipients[..i + 1], amounts[..i + 1], a) ==
            Received(recipients[..i], amounts[..i], a) + (if recipients[i] == a then amounts[i] else 0)
  {
    assert recipients[..i + 1][..i] == recipients[..i];
    assert amounts[..i + 1][..i] == amounts[..i];
  }

  /** Nobody outside the recipient list is paid anything. */
  lemma {:induction false} ReceivedAbsent(recipients: seq<Address>, amounts: seq<nat>, a: Address)
    requires |recipients| == |amounts| && a !in recipients
    ensures Received(recipients, amounts, a) == 0
  {
    if recipients != [] {
      var n := |recipients| - 1;
      assert a !in recipients[..n];
      ReceivedAbsent(recipients[..n], amounts[..n], a);
    }
  }

  /** With distinct recipients, recipient i is paid exactly `amounts[i]`. */
  lemma {:induction false} ReceivedDistinct(recipients: seq<Address>, amounts: seq<nat>, i: nat)
    requires |recipients| == |amounts| && i < |recipients|
    requires forall j, k :: 0 <= j < k < |recipients| ==> recipients[j] != recipients[k]
    ensures Received(recipients, amounts, recipients[i]) == amounts[i]
  {
    var n := |recipients| - 1;
    if i == n {
      assert recipients[i] !in recipients[..n];
      ReceivedAbsent(recipients[..n], amounts[..n], recipients[i]);
    } else {
      assert recipients[..n][i] == recipients[i];
      ReceivedDistinct(recipients[..n], amounts[..n], i);
    }
  }

  /** No address is paid more than the whole sum of the amounts. */
  lemma {:induction false} ReceivedAtMostTotal(recipients: seq<Address>, amounts: seq<nat>, a: Address)
    requires |recipients| == |amounts|
    ensures Received(recipients, amounts, a) <= Sum(amounts)
  {
    if recipients != [] {
      var n := |recipients| - 1;
      assert amounts[..n] == amounts[..|amounts| - 1];
      ReceivedAtMostTotal(recipients[..n], amounts[..n], a);
    }
  }

  datatype Event =
    | EtherDispersed(from: Address, totalAmount: nat, numRecipients: nat)
    | TokenDispersed(token: Address, from: Address, totalAmount: nat, numRecipients: nat)

  /** A transaction either succeeds with its event or reverts with a reason; a revert undoes every change. */
  datatype TxResult = Ok(event: Event) | Revert(reason: string)

  /** The test ERC-20: balances, allowances, and two switches that make its transfers report failure. */
  class TestToken {
    const address: Address
    var balanceOf: Ledger
    /** Keyed by (owner, spender). */
    var allowance: map<(Address, Address), nat>
    var failTransferFrom: bool
    var failTransfer: bool

    constructor(address: Address)
      ensures this.address == address
      ensures balanceOf == map[] && allowance == map[]
      ensures !failTransferFrom && !failTransfer
    {
      this.address := address;
      balanceOf := map[];
      allowance := map[];
      failTransferFrom := false;
      failTransfer := false;
    }

    function Allowance(owner: Address, spender: Address): nat
      reads this
    {
      if (owner, spender) in allowance then allowance[(owner, spender)] else 0
    }

    /** `mint(to, amount)` */
    method Mint(to: Address, amount: nat)
      modifies this
      ensures balanceOf == old(balanceOf)[to := Bal(old(balanceOf), to) + amount]
      ensures allowance == old(allowance)
      ensures failTransferFrom == old(failTransferFrom) && failTransfer == old(failTransfer)
    {
      balanceOf := balanceOf[to := Bal(balanceOf, to) + amount];
    }

    /** `approve(spender, amount)` sent by `owner` */
    method Approve(owner: Address, spender: Address, amount: nat)
      modifies this
      ensures allowance == old(allowance)[(owner, spender) := amount]
      ensures balanceOf == old(balanceOf)
      ensures failTransferFrom == old(failTransferFrom) && failTransfer == old(failTransfer)
    {
      allowance := allowance[(owner, spender) := amount];
    }

    method SetFailTransferFrom(fail: bool)
      modifies this
      ensures failTransferFrom == fail && failTransfer == old(failTransfer)
      ensures balanceOf == old(balanceOf) && allowance == old(allowance)
    {
      failTransferFrom := fail;
    }

    method SetFailTransfer(fail: bool)
      modifies this
      ensures failTransfer == fail && failTransferFrom == old(failTransferFrom)
      ensures balanceOf == old(balanceOf) && allowance == old(allowance)
    {
      failTransfer := fail;
    }

    /** `transferFrom(from, to, amount)` sent by `spender`: false when switched to fail, else spends allowance and moves the tokens. */
    method TransferFrom(spender: Address, from: Address, to: Address, amount: nat) returns (success: bool)
      requires !failTransferFrom ==> Allowance(from, spender) >= amount && Bal(balanceOf, from) >= amount
      modifies this
      ensures success == !failTransferFrom
      ensures failTransferFrom == old(failTransferFrom) && failTransfer == old(failTransfer)
      ensures !success ==> balanceOf == old(balanceOf) && allowance == old(allowance)
      ensures success ==> balanceOf == Move(old(balanceOf), from, to, amount)
      ensures success ==> allowance == old(allowance)[(from, spender) := old(Allowance(from, spender)) - amount]
    {
      if failTransferFrom {
        return false;
      }
      allowance := allowance[(from, spender) := Allowance(from, spender) - amount];
      balanceOf := Move(balanceOf, from, to, amount);
      success := true;
    }

    /** `transfer(to, amount)` sent by `from`: false when switched to fail, else moves the tokens. */
    method Transfer(from: Address, to: Address, amount: nat) returns (success: bool)
      requires !failTransfer ==> Bal(balanceOf, from) >= amount
      modifies this
      ensures success == !failTransfer
      ensures failTransferFrom == old(failTransferFrom) && failTransfer == old(failTransfer)
      ensures allowance == old(allowance)
      ensures !success ==> balanceOf == old(balanceOf)
      ensures success ==> balanceOf == Move(old(balanceOf), from, to, amount)
    {
      if failTransfer {
        return false;
      }
      balanceOf := Move(balanceOf, from, to, amount);
      success := true;
    }
  }

  /** The deployed contract, with the chain's ether balances. */
  class Multisender {
    const address: Address
    var ether: Ledger

    constructor(address: Address, ether: Ledger)
      ensures this.address == address && this.ether == ether
    {
      this.address := address;
      this.ether := ether;
    }

    /**
     * `disperseEther(recipients, amounts)` sent by `sender` with `value`
     * attached. A value other than the sum of the amounts reverts with
     * "value mismatch". Otherwise the sender pays the value and each address
     * gains what the list pays it, and `EtherDispersed(sender, value, count)`
     * is emitted.
     */
    method DisperseEther(sender: Address, recipients: seq<Address>, amounts: seq<nat>, value: nat) returns (r: TxResult)
      requires |recipients| == |amounts|
      requires Bal(ether, sender) >= value
      modifies this
      ensures value != Sum(amounts) ==> r == Revert("value mismatch") && ether == old(ether)
      ensures value == Sum(amounts) ==> r == Ok(EtherDispersed(sender, value, |recipients|))
      ensures value == Sum(amounts) ==>
                forall a :: Bal(ether, a) ==
                  Bal(old(ether), a) - (if a == sender then value else 0) + Received(recipients, amounts, a)
    {
      if value != Sum(amounts) {
        return Revert("value mismatch");
      }
      var m := Move(ether, sender, address, value);
      PaidOutStart(ether, sender, address, recipients, amounts);
      var i := 0;
      while i < |recipients|
        invariant 0 <= i <= |recipients|
        invariant ether == old(ether)
        invariant PaidOut(ether, m, sender, address, recipients, amounts, i)
      {
        PaidOutStep(ether, m, sender, address, recipients, amounts, i);
        m := Move(m, address, recipients[i], amounts[i]);
        i := i + 1;
      }
      PaidOutDone(ether, m, sender, address, recipients, amounts);
      ether := m;
      r := Ok(EtherDispersed(sender, value, |recipients|));
    }

    /**
     * `disperseToken(token, recipients, amounts)` sent by `sender`. The total
     * is pulled from the sender with `transferFrom` (its failure reverts with
     * "transferFrom failed"), then each amount is sent with `transfer` (a
     * failure reverts with "transfer failed"). On success the sender is down
     * the total, each address gains what the list pays it, the allowance is
     * spent, and `TokenDispersed(token, sender, total, count)` is emitted.
     */
    method DisperseToken(token: TestToken, sender: Address, recipients: seq<Address>, amounts: seq<nat>) returns (r: TxResult)
      requires |recipients| == |amounts|
      requires !token.failTransferFrom ==>
                 token.Allowance(sender, address) >= Sum(amounts) && Bal(token.balanceOf, sender) >= Sum(amounts)
      modifies token
      ensures token.failTransferFrom == old(token.failTransferFrom) && token.failTransfer == old(token.failTransfer)
      ensures old(token.failTransferFrom) ==>
                r == Revert("transferFrom failed")
      ensures !old(token.failTransferFrom) && old(token.failTransfer) && |recipients| > 0 ==>
                r == Revert("transfer failed")
      ensures r.Revert? ==> token.balanceOf == old(token.balanceOf) && token.allowance == old(token.allowance)
      ensures !old(token.failTransferFrom) && (!old(token.failTransfer) || |recipients| == 0) ==>
                r == Ok(TokenDispersed(token.address, sender, Total(amounts), |recipients|))
      ensures r.Ok? ==>
                token.allowance == old(token.allowance)[(sender, address) := old(token.Allowance(sender, address)) - Sum(amounts)]
      ensures r.Ok? ==>
                forall a :: Bal(token.balanceOf, a) ==
                  Bal(old(token.balanceOf), a) - (if a == sender then Sum(amounts) else 0) + Received(recipients, amounts, a)
    {
      var total := Total(amounts);
      var savedBalances, savedAllowance := token.balanceOf, token.allowance;
      var pulled := token.TransferFrom(address, sender, address, total);
      if !pulled {
        return Revert("transferFrom failed");
      }
      PaidOutStart(savedBalances, sender, address, recipients, amounts);
      var i := 0;
      while i < |recipients|
        invariant 0 <= i <= |recipients|
        invariant token.failTransferFrom == old(token.failTransferFrom) && token.failTransfer == old(token.failTransfer)
        invariant token.allowance == old(token.allowance)[(sender, address) := old(token.Allowance(sender, address)) - total]
        invariant i > 0 ==> !token.failTransfer
        invariant PaidOut(savedBalances, token.balanceOf, sender, address, recipients, amounts, i)
      {
        PaidOutStep(savedBalances, token.balanceOf, sender, address, recipients, amounts, i);
        var sent := token.Transfer(address, recipients[i], amounts[i]);
        if !sent {
          token.balanceOf, token.allowance := savedBalances, savedAllowance;
          return Revert("transfer failed");
        }
        i := i + 1;
      }
      PaidOutDone(savedBalances, token.balanceOf, sender, address, recipients, amounts);
      r := Ok(TokenDispersed(token.address, sender, total, |recipients|));
    }
  }

  /**
   * Part way through a dispersal from `start`: the sender has paid the sum of
   * the amounts into `pot`, and the first `i` recipients have been paid out of it.
   */
  ghost predicate PaidOut(start: Ledger, m: Ledger, sender: Address, pot: Address,
                    recipients: seq<Address>, amounts: seq<nat>, i: nat)
    requires |recipients| == |amounts| && i <= |recipients|
  {
    Sum(amounts[..i]) <= Sum(amounts) &&
    forall a :: Bal(m, a) ==
      Bal(start, a) - (if a == sender then Sum(amounts) else 0)
      + (if a == pot then Sum(amounts) - Sum(amounts[..i]) else 0)
      + Received(recipients[..i], amounts[..i], a)
  }

  lemma PaidOutStart(start: Ledger, sender: Address, pot: Address, recipients: seq<Address>, amounts: seq<nat>)
    requires |recipients| == |amounts| && Bal(start, sender) >= Total(amounts)
    ensures PaidOut(start, Move(start, sender, pot, Total(amounts)), sender, pot, recipients, amounts, 0)
  {
    assert amounts[..0] == [] && recipients[..0] == [];
  }

  /** The pot covers the next payment, and paying it advances the dispersal by one recipient. */
  lemma PaidOutStep(start: Ledger, m: Ledger, sender: Address, pot: Address,
                    recipients: seq<Address>, amounts: seq<nat>, i: nat)
    requires |recipients| == |amounts| && i < |recipients|
    requires Bal(start, sender) >= Sum(amounts)
    requires PaidOut(start, m, sender, pot, recipients, amounts, i)
    ensures Bal(m, pot) >= amounts[i]
    ensures PaidOut(start, Move(m, pot, recipients[i], amounts[i]), sender, pot, recipients, amounts, i + 1)
  {
    assert amounts[..i + 1][..i] == amounts[..i];
    SumPrefixBound(amounts, i + 1);
    assert Bal(m, pot) ==
      Bal(start, pot) - (if pot == sender then Sum(amounts) else 0)
      + (Sum(amounts) - Sum(amounts[..i])) + Received(recipients[..i], amounts[..i], pot);
    var m' := Move(m, pot, recipients[i], amounts[i]);
    forall a ensures Bal(m', a) ==
      Bal(start, a) - (if a == sender then Sum(amounts) else 0)
      + (if a == pot then Sum(amounts) - Sum(amounts[..i + 1]) else 0)
      + Received(recipients[..i + 1], amounts[..i + 1], a)
    {
      PayAddress(start, m, m', sender, pot, recipients, amounts, i, a);
    }
  }

  /** One address's share of `PaidOutStep`. */
  lemma PayAddress(start: Ledger, m: Ledger, m': Ledger, sender: Address, pot: Address,
                   recipients: seq<Address>, amounts: seq<nat>, i: nat, a: Address)
    requires |recipients| == |amounts| && i < |recipients|
    requires Bal(m, pot) >= amounts[i] && m' == Move(m, pot, recipients[i], amounts[i])
    requires Bal(m, a) ==
      Bal(start, a) - (if a == sender then Sum(amounts) else 0)
      + (if a == pot then Sum(amounts) - Sum(amounts[..i]) else 0)
      + Received(recipients[..i], amounts[..i], a)
    ensures Bal(m', a) ==
      Bal(start, a) - (if a == sender then Sum(amounts) else 0)
      + (if a == pot then Sum(amounts) - Sum(amounts[..i + 1]) else 0)
      + Received(recipients[..i + 1], amounts[..i + 1], a)
  {
    assert amounts[..i + 1][..i] == amounts[..i];
    ReceivedStep(recipients, amounts, i, a);
    PayOne(Bal(start, a), Bal(m, a), Bal(m', a), a == sender, a == pot, a == recipients[i],
           Sum(amounts), Sum(amounts[..i]), amounts[i], Received(recipients[..i], amounts[..i], a));
  }

  /** One address's balance through one payment of `amount` out of the pot. */
  lemma PayOne(start: int, now: int, next: int, isSender: bool, isPot: bool, isPayee: bool,
               total: int, paid: int, amount: int, received: int)
    requires now == start - (if isSender then total else 0) + (if isPot then total - paid else 0) + received
    requires next == now - (if isPot then amount else 0) + (if isPayee then amount else 0)
    ensures next == start - (if isSender then total else 0) + (if isPot then total - (paid + amount) else 0)
                    + (received + if isPayee then amount else 0)
  {
  }

  /** Once everyone is paid the pot is back where it started: the sender is down the sum, each address up what it received. */
  lemma PaidOutDone(start: Ledger, m: Ledger, sender: Address, pot: Address, recipients: seq<Address>, amounts: seq<nat>)
    requires |recipients| == |amounts|
    requires PaidOut(start, m, sender, pot, recipients, amounts, |recipients|)
    ensures forall a :: Bal(m, a) == Bal(start, a) - (if a == sender then Sum(amounts) else 0) + Received(recipients, amounts, a)
  {
    assert recipients[..|recipients|] == recipients && amounts[..|recipients|] == amounts;
  }
}

/** The contract's test cases, replayed against the model. */
module MultisenderScenarios {
  import opened Wrappers
  import opened Multisender

  /** `ethers.parseEther("1")` */
  const OneEther: nat := 1_000_000_000_000_000_000

  /**
   * "sends ETH to multiple recipients": with the exact total attached, the
   * event carries (owner, 3 ether, 2) and the two recipients gain 1 and 2 ether.
   */
  method SendsEtherToRecipients(owner: Address, addr1: Address, addr2: Address, contract: Address, ether: Ledger)
    returns (r: TxResult, bal1Before: nat, bal2Before: nat, bal1After: nat, bal2After: nat)
    requires addr1 != addr2 && owner != addr1 && owner != addr2
    requires Bal(ether, owner) >= 3 * OneEther
    ensures r == Ok(EtherDispersed(owner, 3 * OneEther, 2))
    ensures bal1After == bal1Before + OneEther && bal2After == bal2Before + 2 * OneEther
  {
    var multisender := new Multisender(contract, ether);
    var recipients := [addr1, addr2];
    var amounts := [OneEther, 2 * OneEther];
    SumPair(OneEther, 2 * OneEther);
    bal1Before, bal2Before := Bal(multisender.ether, addr1), Bal(multisender.ether, addr2);
    r := multisender.DisperseEther(owner, recipients, amounts, 3 * OneEther);
    ReceivedDistinct(recipients, amounts, 0);
    ReceivedDistinct(recipients, amounts, 1);
    bal1After, bal2After := Bal(multisender.ether, addr1), Bal(multisender.ether, addr2);
  }

  /** "reverts on value mismatch": attaching only the first amount reverts, and nobody's balance moves. */
  method RevertsOnValueMismatch(owner: Address, addr1: Address, addr2: Address, contract: Address, ether: Ledger)
    returns (r: TxResult, after: Ledger)
    requires Bal(ether, owner) >= OneEther
    ensures r == Revert("value mismatch")
    ensures after == ether
  {
    var multisender := new Multisender(contract, ether);
    var amounts := [OneEther, 2 * OneEther];
    SumPair(OneEther, 2 * OneEther);
    r := multisender.DisperseEther(owner, [addr1, addr2], amounts, OneEther);
    after := multisender.ether;
  }

  /**
   * "transfers the specified amounts", for any two amounts: each of two
   * distinct recipients gains exactly its amount and the sender pays the sum.
   */
  method TransfersSpecifiedAmounts(owner: Address, addr1: Address, addr2: Address, contract: Address,
                                   ether: Ledger, amount1: nat, amount2: nat)
    returns (r: TxResult, delta1: int, delta2: int, deltaOwner: int)
    requires addr1 != addr2 && owner != addr1 && owner != addr2
    requires Bal(ether, owner) >= amount1 + amount2
    ensures r == Ok(EtherDispersed(owner, amount1 + amount2, 2))
    ensures delta1 == amount1 && delta2 == amount2 && deltaOwner == -(amount1 + amount2)
  {
    var multisender := new Multisender(contract, ether);
    var recipients := [addr1, addr2];
    var amounts := [amount1, amount2];
    SumPair(amount1, amount2);
    r := multisender.DisperseEther(owner, recipients, amounts, amount1 + amount2);
    ReceivedDistinct(recipients, amounts, 0);
    ReceivedDistinct(recipients, amounts, 1);
    ReceivedAbsent(recipients, amounts, owner);
    delta1 := Bal(multisender.ether, addr1) - Bal(ether, addr1);
    delta2 := Bal(multisender.ether, addr2) - Bal(ether, addr2);
    deltaOwner := Bal(multisender.ether, owner) - Bal(ether, owner);
  }

  /**
   * "sends tokens to multiple recipients": 300 minted and approved covers
   * 100 + 200; the event carries (token, owner, 300, 2) and the recipients,
   * who started with nothing, hold exactly 100 and 200.
   */
  method SendsTokensToRecipients(owner: Address, addr1: Address, addr2: Address, contract: Address, tokenAddress: Address)
    returns (r: TxResult, held1: nat, held2: nat)
    requires addr1 != addr2 && owner != addr1 && owner != addr2
    ensures r == Ok(TokenDispersed(tokenAddress, owner, 300, 2))
    ensures held1 == 100 && held2 == 200
  {
    var multisender := new Multisender(contract, map[]);
    var token := new TestToken(tokenAddress);
    token.Mint(owner, 300);
    token.Approve(owner, contract, 300);
    var recipients := [addr1, addr2];
    var amounts := [100, 200];
    SumPair(100, 200);
    r := multisender.DisperseToken(token, owner, recipients, amounts);
    ReceivedDistinct(recipients, amounts, 0);
    ReceivedDistinct(recipients, amounts, 1);
    held1, held2 := Bal(token.balanceOf, addr1), Bal(token.balanceOf, addr2);
  }

  /** "reverts when transferFrom fails" */
  method RevertsWhenTransferFromFails(owner: Address, addr1: Address, contract: Address, tokenAddress: Address)
    returns (r: TxResult)
    ensures r == Revert("transferFrom failed")
  {
    var multisender := new Multisender(contract, map[]);
    var token := new TestToken(tokenAddress);
    token.Mint(owner, 100);
    token.SetFailTransferFrom(true);
    token.Approve(owner, contract, 100);
    r := multisender.DisperseToken(token, owner, [addr1], [100]);
  }

  /** "reverts when transfer fails": the pull succeeds, the payment does not, with a reason of its own. */
  method RevertsWhenTransferFails(owner: Address, addr1: Address, contract: Address, tokenAddress: Address)
    returns (r: TxResult, ownerHolds: nat)
    ensures r == Revert("transfer failed")
    ensures ownerHolds == 100
  {
    var multisender := new Multisender(contract, map[]);
    var token := new TestToken(tokenAddress);
    token.Mint(owner, 100);
    token.Approve(owner, contract, 100);
    token.SetFailTransfer(true);
    var amounts := [100];
    SumPair(100, 0);
    r := multisender.DisperseToken(token, owner, [addr1], amounts);
    ownerHolds := Bal(token.balanceOf, owner);
  }
}
