/**
 * The sale dialog: three form fields, a submit that sends a sale request
 * only for a positive price, and a reset once the request succeeds.
 */
module SellDialog {
  import opened Wrappers
  import opened Text

  /** What the buyer selector holds: nothing chosen yet, the explicit "none" entry, or a client's id. */
  datatype BuyerChoice = NoChoice | NoBuyer | Buyer(id: nat)

  /** The selector's value text. */
  function ChoiceText(c: BuyerChoice): string {
    match c
    case NoChoice => ""
    case NoBuyer => "none"
    case Buyer(id) => NatToString(id)
  }

  /** `buyerId && buyerId !== "none" ? Number(buyerId) : null`; a value that is not a number reads as none. */
  function BuyerRef(text: string): (r: Option<int>)
    ensures text == "" || text == "none" ==> r.None?
  {
    if text == "" || text == "none" || !AllDigits(text) then None
    else Some(DecimalValue(text))
  }

  /** The selector's three kinds of value map to no buyer, no buyer, and that client's id. */
  lemma BuyerRoundTrip(c: BuyerChoice)
    ensures BuyerRef(ChoiceText(c)) == (if c.Buyer? then Some(c.id) else None)
  {
    if c.Buyer? {
      DecimalRoundTrip(c.id);
      assert ChoiceText(c) != "none" by {
        assert AllDigits(ChoiceText(c));
        assert !IsDigit('n');
      }
    }
  }

  /** The body of the sale request: exactly these four fields. */
  datatype SaleRequest = SaleRequest(id: int, salePrice: int, buyerId: Option<int>, saleDate: string)

  class SellForm {
    var salePrice: string
    var buyerId: string
    var saleDate: string

    /**
     * The dialog opens with the asking price filled in when it is positive
     * (`priceText` is its decimal rendering), no buyer, and today's date.
     */
    constructor (askingPrice: int, priceText: string, today: string)
      ensures salePrice == (if askingPrice > 0 then priceText else "")
      ensures buyerId == "" && saleDate == today
    {
      salePrice := if askingPrice > 0 then priceText else "";
      buyerId := "";
      saleDate := today;
    }

    /**
     * `handleSubmit`: `cents` is the entered price in cents. A price that is
     * not positive sends nothing; any other sends the vehicle id, the price,
     * the buyer reference and the chosen date.
     */
    method Submit(vehicleId: int, cents: int) returns (r: Option<SaleRequest>)
      ensures r.None? <==> cents <= 0
      ensures r.Some? ==> r.value == SaleRequest(vehicleId, cents, BuyerRef(buyerId), saleDate)
      ensures r.Some? ==> r.value.salePrice > 0
    {
      if cents <= 0 {
        return None;
      }
      r := Some(SaleRequest(vehicleId, cents, BuyerRef(buyerId), saleDate));
    }

    /** On success the price and buyer are emptied and the date goes back to today. */
    method Succeeded(today: string)
      modifies this
      ensures salePrice == "" && buyerId == "" && saleDate == today
    {
      salePrice := "";
      buyerId := "";
      saleDate := today;
    }
  }

  /** After a success, a new submit names no buyer until one is chosen again. */
  method SubmitAfterSuccess(form: SellForm, vehicleId: int, cents: int, today: string) returns (r: Option<SaleRequest>)
    modifies form
    ensures r.None? <==> cents <= 0
    ensures r.Some? ==> r.value == SaleRequest(vehicleId, cents, None, today)
  {
    form.Succeeded(today);
    r := form.Submit(vehicleId, cents);
  }
}
