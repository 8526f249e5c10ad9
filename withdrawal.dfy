/**
  The withdrawal screen (components/WithdrawalScreen.tsx): a form that picks
  an amount and a payment method and enables its confirm button only when the
  balance covers the amount. Confirming has no effect.
 */
module Withdrawal {
  import opened Types

  const WITHDRAWAL_AMOUNTS: seq<int> := [5000, 10000, 25000, 50000, 100000, 200000]

  /** The candidate amounts: six positive values in strictly increasing order, 5000 to 200000. */
  lemma AmountsShape()
    ensures |WITHDRAWAL_AMOUNTS| == 6
    ensures WITHDRAWAL_AMOUNTS[0] == 5000 && WITHDRAWAL_AMOUNTS[5] == 200000
    ensures forall i :: 0 <= i < |WITHDRAWAL_AMOUNTS| ==> WITHDRAWAL_AMOUNTS[i] > 0
    ensures forall i, j :: 0 <= i < j < |WITHDRAWAL_AMOUNTS| ==> WITHDRAWAL_AMOUNTS[i] < WITHDRAWAL_AMOUNTS[j]
  {
  }

  /**
    Whether the confirm button is disabled for a selection and a balance:
    exactly when nothing is selected, no provider is chosen, or the selected
    amount's own button would be disabled at this balance.
   */
  predicate IsConfirmDisabled(amount: Nullable<int>, provider: PaymentMethod, balance: int): (disabled: bool)
    ensures disabled <==> amount == Null || provider == None || AmountDisabled(balance, amount.value)
  {
    amount == Null || provider == None || balance < amount.value
  }

  /**
    Whether the button for `amount` is disabled at `balance`. From 200000 on
    every candidate button is enabled; below 5000 every one is disabled.
   */
  predicate AmountDisabled(balance: int, amount: int): (disabled: bool)
    ensures amount in WITHDRAWAL_AMOUNTS && balance >= 200000 ==> !disabled
    ensures amount in WITHDRAWAL_AMOUNTS && balance < 5000 ==> disabled
  {
    balance < amount
  }

  /**
    Confirm is enabled exactly when an amount is selected, a provider is
    chosen and the balance covers the amount.
   */
  lemma ConfirmEnabledIff(amount: Nullable<int>, provider: PaymentMethod, balance: int)
    ensures !IsConfirmDisabled(amount, provider, balance) <==>
      (exists v :: amount == Some(v) && balance >= v) && (provider == Dana || provider == Ovo)
  {
    if !IsConfirmDisabled(amount, provider, balance) {
      assert amount == Some(amount.value);
    }
  }

  /** With a balance of 135700: 200000 by DANA cannot be confirmed; 100000 by OVO can. */
  lemma ConfirmExamples()
    ensures IsConfirmDisabled(Some(200000), Dana, 135700)
    ensures !IsConfirmDisabled(Some(100000), Ovo, 135700)
  {
  }

  /** Eligibility is monotone in the balance: more money never disables confirm. */
  lemma ConfirmMonotone(amount: Nullable<int>, provider: PaymentMethod, b: int, b': int)
    requires b <= b'
    requires !IsConfirmDisabled(amount, provider, b)
    ensures !IsConfirmDisabled(amount, provider, b')
  {
  }

  /**
    The disabled flags of the amount buttons, in display order. Since the
    amounts increase, the disabled buttons are a suffix of the row.
   */
  function AmountButtons(balance: int): (disabled: seq<bool>)
    ensures |disabled| == |WITHDRAWAL_AMOUNTS|
    ensures forall i :: 0 <= i < |disabled| ==> (disabled[i] <==> balance < WITHDRAWAL_AMOUNTS[i])
    ensures forall i, j :: 0 <= i <= j < |disabled| && disabled[i] ==> disabled[j]
  {
    seq(|WITHDRAWAL_AMOUNTS|, i requires 0 <= i < |WITHDRAWAL_AMOUNTS| =>
      AmountDisabled(balance, WITHDRAWAL_AMOUNTS[i]))
  }

  /** A selection reachable through the form's buttons at `balance`. */
  predicate Reachable(amount: Nullable<int>, balance: int)
  {
    amount.Some? ==> amount.value in WITHDRAWAL_AMOUNTS && amount.value <= balance
  }

  /**
    For a selection made through the buttons, the balance test in the confirm
    rule never fires: confirm is enabled as soon as both choices are made.
   */
  lemma ReachableConfirm(amount: Nullable<int>, provider: PaymentMethod, balance: int)
    requires Reachable(amount, balance)
    ensures !IsConfirmDisabled(amount, provider, balance) <==> amount != Null && provider != None
  {
  }

  /**
    A mounted withdrawal form. `balance` is the prop it last rendered with:
    the root container passes the current balance on every render, so a
    change to the balance while the form is shown reaches it through
    `ReceiveBalance`.
   */
  class WithdrawalScreen {
    var balance: int
    var selectedAmount: Nullable<int>
    var selectedMethod: PaymentMethod

    /** Every selection on the form was made through an enabled button. */
    predicate Valid()
      reads this
    {
      Reachable(selectedAmount, balance)
    }

    /** Whether the confirm button is disabled right now. */
    predicate ConfirmDisabled()
      reads this
    {
      IsConfirmDisabled(selectedAmount, selectedMethod, balance)
    }

    /** Entering the screen: nothing is selected, so confirm is disabled. */
    constructor (balance: int)
      ensures this.balance == balance
      ensures selectedAmount == Null && selectedMethod == None
      ensures Valid() && ConfirmDisabled()
    {
      this.balance := balance;
      selectedAmount := Null;
      selectedMethod := None;
    }

    /**
      A click on the `i`-th amount button: a disabled button does nothing,
      an enabled one selects its amount. The provider is kept.
     */
    method ClickAmount(i: nat)
      requires i < |WITHDRAWAL_AMOUNTS|
      modifies this`selectedAmount
      ensures old(Valid()) ==> Valid()
      ensures !AmountDisabled(balance, WITHDRAWAL_AMOUNTS[i]) ==> Valid()
      ensures selectedAmount ==
        if AmountDisabled(balance, WITHDRAWAL_AMOUNTS[i]) then old(selectedAmount)
        else Some(WITHDRAWAL_AMOUNTS[i])
    {
      if !AmountDisabled(balance, WITHDRAWAL_AMOUNTS[i]) {
        selectedAmount := Some(WITHDRAWAL_AMOUNTS[i]);
      }
    }

    /** A click on a provider button selects that provider; the amount is kept. */
    method SelectMethod(provider: PaymentMethod)
      requires provider == Dana || provider == Ovo
      modifies this`selectedMethod
      ensures Valid() == old(Valid())
      ensures selectedMethod == provider && selectedMethod != None
    {
      selectedMethod := provider;
    }

    /**
      A re-render with a new balance prop: the selection is kept. A selection
      made through an enabled button stays covered when the balance grows.
     */
    method ReceiveBalance(newBalance: int)
      modifies this`balance
      ensures balance == newBalance
      ensures old(Valid()) && newBalance >= old(balance) ==> Valid()
    {
      balance := newBalance;
    }

    /** The confirm button has no click handler: a click changes nothing. */
    method ClickConfirm()
      ensures unchanged(this)
    {
    }
  }

  /**
    With a balance of 135700: the 200000 button is disabled and its click
    leaves confirm disabled after DANA is chosen; 100000 with OVO enables it.
   */
  method EligibilityScenario() returns (before: bool, after: bool, amount: Nullable<int>)
    ensures before && !after
    ensures amount == Some(100000)
  {
    var form := new WithdrawalScreen(135700);
    form.ClickAmount(5);
    form.SelectMethod(Dana);
    before := form.ConfirmDisabled();
    form.ClickAmount(4);
    form.SelectMethod(Ovo);
    form.ClickConfirm();
    after := form.ConfirmDisabled();
    amount := form.selectedAmount;
  }
}
