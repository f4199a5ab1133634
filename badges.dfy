/** The coloured badges for payment status and order status. */
module Badges {
  import opened Wrappers

  const BaseClass := "px-2 inline-flex text-xs leading-5 font-semibold rounded-full"
  const Red := " bg-red-100 text-red-800"
  const Yellow := " bg-yellow-100 text-yellow-800"
  const Green := " bg-green-100 text-green-800"
  const Gray := " bg-gray-100 text-gray-800"

  datatype Badge = Badge(className: string, text: string)

  /** A JavaScript string prop is truthy when it is given and not empty. */
  predicate Truthy(s: Option<string>) {
    s.Some? && s.value != ""
  }

  /**
   * PaymentBadge: red for "Pendente", yellow for "Pagamento Parcial",
   * green for "Pago 100%", gray otherwise. The text adds the amounts when
   * they are given (both for the first two, the amount paid alone for the
   * third); otherwise it is the status itself.
   */
  function PaymentBadge(paymentStatus: string, amountPaid: Option<string>, remainingAmount: Option<string>): (b: Badge)
    ensures BaseClass <= b.className
    ensures b.className[|BaseClass|..] in [Red, Yellow, Green, Gray]
    ensures b.className == BaseClass + Red <==> paymentStatus == "Pendente"
    ensures b.className == BaseClass + Yellow <==> paymentStatus == "Pagamento Parcial"
    ensures b.className == BaseClass + Green <==> paymentStatus == "Pago 100%"
    ensures paymentStatus == "Pendente" && Truthy(amountPaid) && Truthy(remainingAmount) ==>
              b.text == "Pendente: R$ " + remainingAmount.value
    ensures paymentStatus == "Pagamento Parcial" && Truthy(amountPaid) && Truthy(remainingAmount) ==>
              b.text == "Pago: R$ " + amountPaid.value + " | Falta: R$ " + remainingAmount.value
    ensures paymentStatus == "Pago 100%" && Truthy(amountPaid) ==> b.text == "Pago: R$ " + amountPaid.value
    ensures paymentStatus != "Pago 100%" && !(Truthy(amountPaid) && Truthy(remainingAmount)) ==> b.text == paymentStatus
    ensures !Truthy(amountPaid) ==> b.text == paymentStatus
    ensures paymentStatus !in ["Pendente", "Pagamento Parcial", "Pago 100%"] ==>
              b.className == BaseClass + Gray && b.text == paymentStatus
  {
    var className := BaseClass;
    var displayText := paymentStatus;
    match paymentStatus
    case "Pendente" =>
      Badge(className + Red,
            if Truthy(amountPaid) && Truthy(remainingAmount) then "Pendente: R$ " + remainingAmount.value else displayText)
    case "Pagamento Parcial" =>
      Badge(className + Yellow,
            if Truthy(amountPaid) && Truthy(remainingAmount)
            then "Pago: R$ " + amountPaid.value + " | Falta: R$ " + remainingAmount.value
            else displayText)
    case "Pago 100%" =>
      Badge(className + Green, if Truthy(amountPaid) then "Pago: R$ " + amountPaid.value else displayText)
    case _ =>
      Badge(className + Gray, displayText)
  }

  /**
   * StatusBadge: yellow for in production, green for finished, red for
   * cancelled (English or Portuguese label), gray otherwise; the text is
   * always the status as given.
   */
  function StatusBadge(status: string): (b: Badge)
    ensures b.text == status
    ensures BaseClass <= b.className
    ensures b.className[|BaseClass|..] in [Red, Yellow, Green, Gray]
    ensures b.className == BaseClass + Yellow <==> status == "In Production" || status == "Em Produção"
    ensures b.className == BaseClass + Green <==> status == "Completed" || status == "Finalizado"
    ensures b.className == BaseClass + Red <==> status == "Canceled" || status == "Cancelado"
  {
    var className := BaseClass;
    match status
    case "In Production" => Badge(className + Yellow, status)
    case "Em Produção" => Badge(className + Yellow, status)
    case "Completed" => Badge(className + Green, status)
    case "Finalizado" => Badge(className + Green, status)
    case "Canceled" => Badge(className + Red, status)
    case "Cancelado" => Badge(className + Red, status)
    case _ => Badge(className + Gray, status)
  }

  /** Every order and payment status of the schema gets a colour of its own, never gray. */
  lemma SchemaStatusesAreColoured()
    ensures StatusBadge("Em Produção").className != BaseClass + Gray
    ensures StatusBadge("Finalizado").className != BaseClass + Gray
    ensures StatusBadge("Cancelado").className != BaseClass + Gray
    ensures PaymentBadge("Pendente", None, None).className != BaseClass + Gray
    ensures PaymentBadge("Pagamento Parcial", None, None).className != BaseClass + Gray
    ensures PaymentBadge("Pago 100%", None, None).className != BaseClass + Gray
  {
  }
}
