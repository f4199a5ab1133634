/**
 * The order form: its default values, the derivations it performs while
 * the operator types "total" and "amount paid", the preview of the total,
 * and the choice between creating and updating on submit.
 */
module OrderForm {
  import opened Wrappers
  import opened Numbers
  import opened Schema
  import Forms

  /** `parseFloat(typed) || 0`: the value just typed, 0 when it does not parse. */
  function TypedAmount(typed: string): (r: int)
    ensures ParseFloat(typed).Finite? ==> r == ParseFloat(typed).cents
    ensures ParseFloat(typed).NaN? ==> r == 0
  {
    OrZero(ParseFloat(typed))
  }

  /** `parseFloat(field || "0")`: the other field, "0" only when it is empty, so it can be NaN. */
  function StoredAmount(field: string): (r: Num)
    ensures field == "" ==> r == Finite(0)
    ensures field != "" ==> r == ParseFloat(field)
  {
    ParseFloat(Forms.OrText(field, "0"))
  }

  /** `(total - paid).toFixed(2)`: the remaining amount as the form shows it. */
  function Remaining(total: Num, paid: Num): (s: string)
    ensures ParseFloat(s) == Sub(total, paid)
  {
    ParseToFixed2(Sub(total, paid));
    ToFixed2(Sub(total, paid))
  }

  /**
   * The payment status for an amount paid against a total; the first
   * matching rule wins: nothing paid is pending, otherwise covering the
   * total (or more) is fully paid, otherwise partially paid. A NaN total
   * covers nothing.
   */
  function Classify(paid: int, total: Num): (status: string)
    ensures status in PaymentStatuses
    ensures status == Pending <==> paid <= 0
    ensures status == FullyPaid <==> paid > 0 && total.Finite? && paid >= total.cents
    ensures status == PartiallyPaid <==> paid > 0 && !(total.Finite? && paid >= total.cents)
  {
    if paid <= 0 then Pending
    else if Ge(Finite(paid), total) then FullyPaid
    else PartiallyPaid
  }

  /** updateTotalDisplay: the total field's value when it is non-empty and parses, 0 otherwise. */
  function PreviewTotal(field: string): (shown: int)
    ensures shown == TypedAmount(field)
  {
    if field != "" && ParseFloat(field).Finite? then ParseFloat(field).cents else 0
  }

  /**
   * defaultValues: each field of the order being edited, where it is
   * truthy, otherwise the new-order default (quantity 1, "Em Produção",
   * "Pendente", "0" for the three amounts, today's date).
   */
  function DefaultValues(editOrder: Option<Order>, now: int): (v: OrderInput)
    ensures editOrder.None? ==> v == OrderInput(0, 0, 1, now, InProduction, "0", Pending, "0", "0")
    ensures editOrder.Some? ==> v.orderDate == editOrder.value.orderDate
    ensures editOrder.Some? ==> v.clientId == editOrder.value.clientId && v.productId == editOrder.value.productId
    ensures editOrder.Some? ==> v.quantity == if editOrder.value.quantity != 0 then editOrder.value.quantity else 1
    ensures editOrder.Some? ==> v.status == if editOrder.value.status != "" then editOrder.value.status else InProduction
    ensures editOrder.Some? ==> v.paymentStatus == if editOrder.value.paymentStatus != "" then editOrder.value.paymentStatus else Pending
    ensures editOrder.Some? ==> v.total == if editOrder.value.total != "" then editOrder.value.total else "0"
    ensures editOrder.Some? ==> v.amountPaid == if editOrder.value.amountPaid != "" then editOrder.value.amountPaid else "0"
    ensures editOrder.Some? ==> v.remainingAmount == if editOrder.value.remainingAmount != "" then editOrder.value.remainingAmount else "0"
    ensures v.quantity != 0 && v.status != "" && v.paymentStatus != "" && v.total != ""
  {
    match editOrder
    case None => OrderInput(0, 0, 1, now, InProduction, "0", Pending, "0", "0")
    case Some(o) =>
      OrderInput(Forms.OrInt(o.clientId, 0), Forms.OrInt(o.productId, 0), Forms.OrInt(o.quantity, 1),
                 o.orderDate, Forms.OrText(o.status, InProduction), Forms.OrText(o.total, "0"),
                 Forms.OrText(o.paymentStatus, Pending), Forms.OrText(o.amountPaid, "0"),
                 Forms.OrText(o.remainingAmount, "0"))
  }

  /**
   * handleSubmit(onSubmit): values that fail orderSchema are not sent;
   * valid values are sent unchanged, as an update of the edited order's id
   * exactly when the form is in edit mode with an order, otherwise as a
   * new order. Nothing is re-derived on the way.
   */
  function Submit(editMode: bool, editOrder: Option<Order>, data: OrderInput): (r: Result<Forms.Submission<OrderInput>, seq<string>>)
    ensures r.Failure? <==> ValidateOrder(data) != []
    ensures r.Failure? ==> r.error == ValidateOrder(data)
    ensures r.Success? ==> r.value.data == data
    ensures r.Success? ==> (r.value.Update? <==> editMode && editOrder.Some?)
    ensures r.Success? && r.value.Update? ==> r.value.id == editOrder.value.id
  {
    var errors := ValidateOrder(data);
    if errors != [] then Failure(errors)
    else Success(Forms.Choose(editMode, if editOrder.Some? then Some(editOrder.value.id) else None, data))
  }

  /** The state of one open order form: its field values and the previewed total. */
  class OrderFormState {
    const editMode: bool
    const editOrder: Option<Order>
    var values: OrderInput
    var totalValue: int

    /** The form opens with defaultValues; an edited order's total is previewed at once. */
    constructor (editMode: bool, editOrder: Option<Order>, now: int)
      ensures this.editMode == editMode && this.editOrder == editOrder
      ensures values == DefaultValues(editOrder, now)
      ensures totalValue == (if editOrder.Some? then PreviewTotal(values.total) else 0)
    {
      this.editMode := editMode;
      this.editOrder := editOrder;
      values := DefaultValues(editOrder, now);
      totalValue := 0;
      new;
      if editOrder.Some? {
        var shown := UpdateTotalDisplay();
      }
    }

    /** updateTotalDisplay: previews the total field and returns what it shows. */
    method UpdateTotalDisplay() returns (shown: int)
      modifies this`totalValue
      ensures totalValue == shown == PreviewTotal(values.total)
    {
      var manualTotal := values.total;
      if manualTotal != "" {
        var parsed := ParseFloat(manualTotal);
        if parsed.Finite? {
          totalValue := parsed.cents;
          return parsed.cents;
        }
      }
      totalValue := 0;
      return 0;
    }

    /**
     * The operator types into "total": the field takes the text, the
     * preview is refreshed and the remaining amount is recomputed; the
     * payment status is left as it was.
     */
    method OnTotalChange(typed: string)
      modifies this
      ensures values == old(values).(total := typed,
                                     remainingAmount := Remaining(Finite(TypedAmount(typed)), StoredAmount(old(values).amountPaid)))
      ensures values.paymentStatus == old(values).paymentStatus
      ensures totalValue == TypedAmount(typed)
    {
      values := values.(total := typed);
      var shown := UpdateTotalDisplay();
      var total := TypedAmount(typed);
      var paid := StoredAmount(values.amountPaid);
      values := values.(remainingAmount := ToFixed2(Sub(Finite(total), paid)));
    }

    /**
     * The operator types into "amount paid": the field takes the text, and
     * the remaining amount and the payment status are recomputed from it
     * and the current total. The preview is not touched.
     */
    method OnAmountPaidChange(typed: string)
      modifies this
      ensures values == old(values).(amountPaid := typed,
                                     remainingAmount := Remaining(StoredAmount(old(values).total), Finite(TypedAmount(typed))),
                                     paymentStatus := Classify(TypedAmount(typed), StoredAmount(old(values).total)))
      ensures totalValue == old(totalValue)
    {
      values := values.(amountPaid := typed);
      var total := StoredAmount(values.total);
      var paid := TypedAmount(typed);
      var remaining := Sub(total, Finite(paid));
      values := values.(remainingAmount := ToFixed2(remaining));
      values := values.(paymentStatus := Classify(paid, total));
    }
  }

  // ---------------------------------------------------------------------
  // Properties of the derivations

  /** After an edit of "amount paid", the remaining field reads back as total - paid and the status agrees with it. */
  lemma {:induction false} AmountPaidEditIsConsistent(totalField: string, typed: string)
    ensures var total := StoredAmount(totalField);
            var paid := TypedAmount(typed);
            && ParseFloat(Remaining(total, Finite(paid))) == Sub(total, Finite(paid))
            && (total.Finite? && paid > 0 ==>
                  (Classify(paid, total) == FullyPaid <==> total.cents - paid <= 0))
  {
  }

  /** Overpaying is fully paid and leaves a negative remaining amount; nothing is clamped. */
  lemma Overpayment(total: int, paid: int)
    requires 0 < paid && total < paid
    ensures Classify(paid, Finite(total)) == FullyPaid
    ensures ParseFloat(Remaining(Finite(total), Finite(paid))) == Finite(total - paid)
    ensures total - paid < 0
  {
  }

  /** A zero total with nothing paid is pending, not fully paid: the "paid <= 0" rule comes first. */
  lemma ZeroTotalIsPending()
    ensures Classify(0, Finite(0)) == Pending
    ensures Classify(0, Finite(0)) != FullyPaid
    ensures ParseFloat(Remaining(Finite(0), Finite(0))) == Finite(0)
  {
  }

  /** The two fallbacks differ: typed text that does not parse is 0, stored text that does not parse is NaN. */
  lemma ParseFallbacksDiffer()
    ensures TypedAmount("") == 0 && StoredAmount("") == Finite(0)
    ensures TypedAmount("abc") == 0 && StoredAmount("abc") == NaN
  {
    assert IndexOfDot("abc") == 3;
    assert !IsDigit("abc"[0]);
  }

  /** With a total that does not parse, any positive payment reads as partial and the remaining amount as "NaN". */
  lemma UnparsableTotal(totalField: string, paid: int)
    requires totalField != "" && ParseFloat(totalField).NaN? && paid > 0
    ensures Classify(paid, StoredAmount(totalField)) == PartiallyPaid
    ensures Remaining(StoredAmount(totalField), Finite(paid)) == "NaN"
  {
  }

  /** The new-order defaults already agree with the derivation and pass orderSchema. */
  lemma {:induction false} NewOrderDefaultsConsistent(now: int)
    ensures var v := DefaultValues(None, now);
            && v.paymentStatus == Classify(TypedAmount(v.amountPaid), StoredAmount(v.total))
            && ParseFloat(v.remainingAmount) == Sub(StoredAmount(v.total), Finite(TypedAmount(v.amountPaid)))
            && ValidateOrder(v) == []
  {
    assert ParseFloat("0") == Finite(0) by {
      assert IndexOfDot("0") == 1;
      assert "0"[..1] == "0";
      assert DigitsValue("0") == 0 by {
        assert "0"[..0] == "";
      }
    }
  }

  /** An order whose fields are all truthy opens the form with exactly its own values. */
  lemma EditDefaultsCopyOrder(o: Order, now: int)
    requires o.quantity != 0 && o.status != "" && o.paymentStatus != "" && o.total != ""
    requires o.amountPaid != "" && o.remainingAmount != ""
    ensures DefaultValues(Some(o), now) == EditableFields(o)
  {
  }

  /** The preview shows the total field when it parses and 0 when it is empty or does not parse. */
  lemma PreviewFallsBackToZero(field: string)
    ensures field == "" ==> PreviewTotal(field) == 0
    ensures ParseFloat(field).Finite? ==> PreviewTotal(field) == ParseFloat(field).cents
    ensures ParseFloat(field).NaN? ==> PreviewTotal(field) == 0
  {
  }

  /**
   * Editing the total after the amount paid leaves the payment status as
   * it was: 50.00 paid of 100.00 is partial, and stays partial when the
   * total is lowered to 40.00, though the derivation would now say fully paid.
   */
  method TotalEditKeepsStaleStatus(now: int)
  {
    var hundred, fifty, forty := ToFixed2(Finite(10000)), ToFixed2(Finite(5000)), ToFixed2(Finite(4000));
    ParseToFixed2(Finite(10000));
    ParseToFixed2(Finite(5000));
    ParseToFixed2(Finite(4000));
    var form := new OrderFormState(false, None, now);
    form.OnTotalChange(hundred);
    form.OnAmountPaidChange(fifty);
    assert form.values.paymentStatus == PartiallyPaid;
    form.OnTotalChange(forty);
    assert form.values.paymentStatus == PartiallyPaid;
    assert Classify(TypedAmount(form.values.amountPaid), StoredAmount(form.values.total)) == FullyPaid;
  }
}
