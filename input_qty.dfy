/**
  The `InputQty` control of the catalog page: a text box with - and + buttons
  that holds the quantity a shopper selects for one product. Every accepted
  change is reported to the page through the `onQuantityChange` callback,
  modelled here as the value a handler returns.
 */
module QuantityControl {
  import opened Js

  /** The three user actions on the control. */
  datatype QtyEvent = Typed(value: string) | Increment | Decrement

  /**
    The quantity typed text selects: None when the text is not digits only
    (the change is ignored), otherwise its value (0 for empty text) capped at `maxQty`.
   */
  function TypedQuantity(value: string, maxQty: int): (r: Option<int>)
    ensures r.Some? <==> IsDigits(value)
    ensures r.Some? ==> r.value == if DigitsValue(value) <= maxQty then DigitsValue(value) else maxQty
    ensures r.Some? && 0 <= maxQty ==> 0 <= r.value <= maxQty
  {
    if IsDigits(value) then
      ParseDigitsOrZero(value);
      var n := ParseIntOr(value, 0);
      Some(if n < maxQty then n else maxQty)
    else
      None
  }

  /**
    The quantity the control reports after an event, None when the event
    changes nothing (and the callback is not called).
   */
  function NextQuantity(quantity: int, maxQty: int, e: QtyEvent): (r: Option<int>)
    ensures 0 <= quantity <= maxQty && r.Some? ==> 0 <= r.value <= maxQty
    ensures e.Increment? ==> (r.Some? <==> quantity < maxQty) && (r.Some? ==> r.value == quantity + 1)
    ensures e.Decrement? ==> (r.Some? <==> quantity > 0) && (r.Some? ==> r.value == quantity - 1)
  {
    match e
    case Typed(value) => TypedQuantity(value, maxQty)
    case Increment => if quantity < maxQty then Some(quantity + 1) else None
    case Decrement => if quantity > 0 then Some(quantity - 1) else None
  }

  /** The quantity held after an event. */
  function After(quantity: int, maxQty: int, e: QtyEvent): int {
    NextQuantity(quantity, maxQty, e).GetOr(quantity)
  }

  /** The quantity held after a sequence of events. */
  function Run(quantity: int, maxQty: int, events: seq<QtyEvent>): int
    decreases events
  {
    if events == [] then quantity
    else Run(After(quantity, maxQty, events[0]), maxQty, events[1..])
  }

  /** Whatever the shopper types or clicks, a quantity in [0, maxQty] stays there. */
  lemma {:induction false} RunStaysInRange(quantity: int, maxQty: int, events: seq<QtyEvent>)
    requires 0 <= quantity <= maxQty
    ensures 0 <= Run(quantity, maxQty, events) <= maxQty
    decreases events
  {
    if events != [] {
      RunStaysInRange(After(quantity, maxQty, events[0]), maxQty, events[1..]);
    }
  }

  /** Typing the decimal form of an in-stock quantity selects exactly that quantity. */
  lemma TypedDecimal(n: nat, maxQty: int)
    requires n <= maxQty
    ensures TypedQuantity(NatToString(n), maxQty) == Some(n)
  {
    NatToStringValue(n);
  }

  class InputQty {
    const maxQty: int
    var quantity: int

    /** The control starts at the selection the page passes, which the page makes 0 when there is none. */
    constructor (maxQty: int, currentQty: int)
      ensures this.maxQty == maxQty && quantity == currentQty
    {
      this.maxQty := maxQty;
      quantity := currentQty;
    }

    /** Typing: ignored unless digits only, otherwise the capped value is set and reported. */
    method HandleInputChange(value: string) returns (reported: Option<int>)
      modifies this
      ensures reported == NextQuantity(old(quantity), maxQty, Typed(value))
      ensures quantity == After(old(quantity), maxQty, Typed(value))
    {
      if IsDigits(value) {
        ParseDigitsOrZero(value);
        var numValue := ParseIntOr(value, 0);
        var finalValue := if numValue < maxQty then numValue else maxQty;
        quantity := finalValue;
        reported := Some(finalValue);
      } else {
        reported := None;
      }
    }

    /** The + button: one more, only while below `maxQty`. */
    method HandleIncrement() returns (reported: Option<int>)
      modifies this
      ensures reported == NextQuantity(old(quantity), maxQty, Increment)
      ensures quantity == After(old(quantity), maxQty, Increment)
    {
      if quantity < maxQty {
        var newQty := quantity + 1;
        quantity := newQty;
        reported := Some(newQty);
      } else {
        reported := None;
      }
    }

    /** The - button: one fewer, only while above 0. */
    method HandleDecrement() returns (reported: Option<int>)
      modifies this
      ensures reported == NextQuantity(old(quantity), maxQty, Decrement)
      ensures quantity == After(old(quantity), maxQty, Decrement)
    {
      if quantity > 0 {
        var newQty := quantity - 1;
        quantity := newQty;
        reported := Some(newQty);
      } else {
        reported := None;
      }
    }
  }
}
