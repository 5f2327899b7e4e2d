/**
 * The consumption form: a chosen food id and a typed quantity, handed to the
 * `onConsume` callback on submit.
 */
module ConsumptionForm {
  import opened Wrappers
  import opened Parsing

  /** One call of `onConsume`; a quantity that does not parse is NaN, here `None`. */
  datatype ConsumeCall = ConsumeCall(foodId: string, quantity: Option<real>)

  class Form {
    var selectedFood: string
    var quantity: string

    constructor ()
      ensures selectedFood == "" && quantity == ""
    {
      selectedFood := "";
      quantity := "";
    }

    /** The select and the number input write their value into the form. */
    method SelectFood(id: string)
      modifies this
      ensures selectedFood == id && quantity == old(quantity)
    {
      selectedFood := id;
    }

    method SetQuantity(text: string)
      modifies this
      ensures quantity == text && selectedFood == old(selectedFood)
    {
      quantity := text;
    }

    /**
     * `handleSubmit`: with both fields filled, the callback is called once
     * with the food id and `parseFloat` of the quantity, and both fields are
     * cleared whatever the callback does; otherwise nothing happens.
     */
    method HandleSubmit() returns (call: Option<ConsumeCall>)
      modifies this
      ensures call.Some? <==> old(selectedFood) != "" && old(quantity) != ""
      ensures call.Some? ==> call.value == ConsumeCall(old(selectedFood), ParseFloat(old(quantity)))
      ensures call.Some? ==> selectedFood == "" && quantity == ""
      ensures call.None? ==> selectedFood == old(selectedFood) && quantity == old(quantity)
    {
      if selectedFood != "" && quantity != "" {
        call := Some(ConsumeCall(selectedFood, ParseFloat(quantity)));
        selectedFood := "";
        quantity := "";
      } else {
        call := None;
      }
    }
  }

  /**
   * A submit clears the form, so a second submit right after it calls
   * nothing: each filled form reaches the callback once.
   */
  method SubmitTwice(form: Form) returns (first: Option<ConsumeCall>, second: Option<ConsumeCall>)
    modifies form
    ensures second.None?
    ensures first.Some? <==> old(form.selectedFood) != "" && old(form.quantity) != ""
  {
    first := form.HandleSubmit();
    second := form.HandleSubmit();
  }

  /** A whole number typed into the quantity field reaches the callback as that number. */
  lemma WholeQuantityPasses(foodId: string, n: nat)
    ensures ConsumeCall(foodId, ParseFloat(NatToString(n))).quantity == Some(n as real)
  {
    ParseFloatNatToString(n);
  }
}
