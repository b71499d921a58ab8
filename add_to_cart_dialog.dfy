/** The add-to-cart dialog (src/components/AddToCartDialog.tsx): a quantity stepper that never
    goes below one, a free-text instructions field, and the request it hands to the cart. */
module AddToCartDialog {
  import opened Wrappers
  import opened Types

  /** What the dialog passes to `onAddToCart`. */
  datatype AddRequest = AddRequest(menuItem: MenuItem, quantity: int, instructions: Option<string>)

  /** The minus button: one less, but never below one. */
  function StepDown(quantity: int): (r: int)
    ensures r >= 1
    ensures quantity > 1 ==> r == quantity - 1
    ensures quantity <= 1 ==> r == 1
  {
    if quantity - 1 > 1 then quantity - 1 else 1
  }

  /** The plus button: one more. */
  function StepUp(quantity: int): (r: int)
    ensures r > quantity
  {
    quantity + 1
  }

  /** Plus followed by minus restores any quantity of at least one. */
  lemma StepUpThenDown(quantity: int)
    requires quantity >= 1
    ensures StepDown(StepUp(quantity)) == quantity
  {
  }

  /** `specialInstructions || undefined`: the empty text is passed on as absent, never as "". */
  function InstructionsToPass(text: string): (r: Option<string>)
    ensures r.None? <==> text == ""
    ensures r.Some? ==> r.value == text && r.value != ""
  {
    if text == "" then None else Some(text)
  }

  class Dialog {
    var quantity: int
    var instructions: string

    ghost predicate Valid()
      reads this
    {
      quantity >= 1
    }

    constructor ()
      ensures Valid() && quantity == 1 && instructions == ""
    {
      quantity := 1;
      instructions := "";
    }

    /** The price shown on the add button: unit price × quantity. */
    function DisplayedPrice(menuItem: MenuItem): (r: real)
      reads this
      requires Valid()
      ensures menuItem.price >= 0.0 ==> r >= menuItem.price
    {
      menuItem.price * quantity as real
    }

    method Minus()
      requires Valid()
      modifies this
      ensures Valid() && quantity == StepDown(old(quantity)) && instructions == old(instructions)
    {
      quantity := StepDown(quantity);
    }

    method Plus()
      requires Valid()
      modifies this
      ensures Valid() && quantity == StepUp(old(quantity)) && instructions == old(instructions)
    {
      quantity := StepUp(quantity);
    }

    method EditInstructions(text: string)
      requires Valid()
      modifies this
      ensures Valid() && instructions == text && quantity == old(quantity)
    {
      instructions := text;
    }

    /** `handleClose`: back to one unit and no instructions (the caller then closes the dialog). */
    method Close()
      modifies this
      ensures Valid() && quantity == 1 && instructions == ""
    {
      quantity := 1;
      instructions := "";
    }

    /** `handleAddToCart`: without a menu item nothing happens; otherwise the request carries the
        current quantity and the instructions, or none when the field is empty, and the dialog
        is reset. */
    method Add(menuItem: Option<MenuItem>) returns (request: Option<AddRequest>)
      requires Valid()
      modifies this
      ensures Valid()
      ensures menuItem.None? ==> request.None? && quantity == old(quantity) && instructions == old(instructions)
      ensures menuItem.Some? ==>
        request == Some(AddRequest(menuItem.value, old(quantity), InstructionsToPass(old(instructions)))) &&
        quantity == 1 && instructions == ""
      ensures request.Some? ==> request.value.quantity >= 1 && request.value.instructions != Some("")
    {
      if menuItem.None? {
        return None;
      }
      request := Some(AddRequest(menuItem.value, quantity, InstructionsToPass(instructions)));
      Close();
    }
  }
}
