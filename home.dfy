/**
 * The `Home` page: an amount being typed and the amount confirmed for
 * payment, both possibly unset, changed by the input, "Checkout" and
 * "Start over" handlers.
 */
module HomePage {
  import opened Optional
  import opened AmountInput

  /** What the page shows: the entry form, or the payment for a confirmed amount. */
  datatype Screen =
    | Entry(checkoutEnabled: bool)
    | Paying(heading: string, paymentAmount: string)

  class Home {
    var amount: Option<string>
    var confirmedAmount: Option<string>

    /** A confirmed amount is always in `dollars.cc` form. */
    ghost predicate Valid()
      reads this
    {
      confirmedAmount.Some? ==> IsDollarsCents(confirmedAmount.value)
    }

    constructor()
      ensures Valid()
      ensures amount == None && confirmedAmount == None
    {
      amount := None;
      confirmedAmount := None;
    }

    /**
     * The page for the current state. A confirmed amount, which is never
     * empty, hands a `dollars.cc` string to the payment component.
     */
    function Render(): (s: Screen)
      reads this
      requires Valid()
      ensures confirmedAmount.Some? <==> s.Paying?
      ensures s.Paying? ==> IsDollarsCents(s.paymentAmount) && s.heading == "Paying $" + s.paymentAmount
      ensures s.Paying? ==> s.paymentAmount == confirmedAmount.value
      ensures s.Entry? ==> (s.checkoutEnabled <==> Truthy(amount))
    {
      if Truthy(confirmedAmount) then
        Paying("Paying $" + confirmedAmount.value, confirmedAmount.value)
      else
        Entry(Truthy(amount))
    }

    /** The input's change handler stores what was typed. */
    method SetAmount(value: string)
      requires Valid()
      modifies this
      ensures Valid()
      ensures amount == Some(value) && confirmedAmount == old(confirmedAmount)
    {
      amount := Some(value);
    }

    /** "Start over" clears both amounts, whatever they were. */
    method OnStartOver()
      modifies this
      ensures Valid()
      ensures amount == None && confirmedAmount == None
    {
      amount := None;
      confirmedAmount := None;
    }

    /**
     * "Checkout": with an unset or empty amount nothing changes; otherwise the
     * sanitised amount is confirmed and the typed amount is kept.
     */
    method OnCheckout()
      requires Valid()
      modifies this
      ensures Valid()
      ensures amount == old(amount)
      ensures confirmedAmount == if Truthy(old(amount)) then Some(Sanitize(old(amount).value)) else old(confirmedAmount)
    {
      if !Truthy(amount) {
        return;
      }
      var sanitizedAmount := Sanitize(amount.value);
      confirmedAmount := Some(sanitizedAmount);
    }
  }

  /** Typing `5` and checking out shows "Paying $5.00". */
  method CheckoutScenario()
  {
    var home := new Home();
    assert home.Render() == Entry(false);
    home.SetAmount("5");
    assert home.Render() == Entry(true);
    home.OnCheckout();
    SanitizeWithoutPoint("5");
    assert home.Render() == Paying("Paying $5.00", "5.00");
    home.OnStartOver();
    assert home.Render() == Entry(false);
  }
}
