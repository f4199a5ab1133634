/**
 * The shared data model: the products, clients and orders tables, the
 * closed lists of order and payment statuses, the order and user
 * validation schemas, and the column defaults applied on insert.
 * numeric(10,2) columns hold decimal text; timestamps are integers.
 */
module Schema {
  import opened Wrappers

  datatype Product = Product(id: int, name: string, price: string)

  datatype Client = Client(id: int, name: string, phone: string, address: string)

  /** A stored order. A null amountPaid or remainingAmount is represented by "". */
  datatype Order = Order(
    id: int,
    clientId: int,
    productId: int,
    quantity: int,
    orderDate: int,
    status: string,
    total: string,
    paymentStatus: string,
    amountPaid: string,
    remainingAmount: string,
    createdAt: int)

  /** The order insert shape: the nine editable columns, without id and createdAt. */
  datatype OrderInput = OrderInput(
    clientId: int,
    productId: int,
    quantity: int,
    orderDate: int,
    status: string,
    total: string,
    paymentStatus: string,
    amountPaid: string,
    remainingAmount: string)

  const InProduction := "Em Produção"
  const Finished := "Finalizado"
  const Canceled := "Cancelado"
  const OrderStatuses: seq<string> := [InProduction, Finished, Canceled]

  const Pending := "Pendente"
  const PartiallyPaid := "Pagamento Parcial"
  const FullyPaid := "Pago 100%"
  const PaymentStatuses: seq<string> := [Pending, PartiallyPaid, FullyPaid]

  /** The editable columns of a stored order. */
  function EditableFields(o: Order): (v: OrderInput)
    ensures v.clientId == o.clientId && v.productId == o.productId && v.quantity == o.quantity && v.orderDate == o.orderDate
    ensures v.status == o.status && v.paymentStatus == o.paymentStatus
    ensures v.total == o.total && v.amountPaid == o.amountPaid && v.remainingAmount == o.remainingAmount
  {
    OrderInput(o.clientId, o.productId, o.quantity, o.orderDate, o.status,
               o.total, o.paymentStatus, o.amountPaid, o.remainingAmount)
  }

  /**
   * orderSchema: the two status fields must be members of their closed
   * lists. Each failing field contributes its name, status before
   * paymentStatus. Beyond the field types (numbers for the ids and the
   * quantity, a valid date, text for the amounts), which the model's types
   * already guarantee, no other rule applies: the money text and the size
   * of the quantity are not checked.
   */
  function ValidateOrder(v: OrderInput): (errors: seq<string>)
    ensures "status" in errors <==> v.status !in OrderStatuses
    ensures "paymentStatus" in errors <==> v.paymentStatus !in PaymentStatuses
    ensures errors == [] <==> v.status in OrderStatuses && v.paymentStatus in PaymentStatuses
    ensures |errors| == (if v.status in OrderStatuses then 0 else 1) + (if v.paymentStatus in PaymentStatuses then 0 else 1)
    ensures |errors| == 2 ==> errors == ["status", "paymentStatus"]
  {
    (if v.status in OrderStatuses then [] else ["status"]) +
    (if v.paymentStatus in PaymentStatuses then [] else ["paymentStatus"])
  }

  /** Three statuses exactly, pairwise distinct, and no status is also a payment status. */
  lemma StatusListsAreClosed(s: string)
    ensures s in OrderStatuses <==> s == "Em Produção" || s == "Finalizado" || s == "Cancelado"
    ensures s in PaymentStatuses <==> s == "Pendente" || s == "Pagamento Parcial" || s == "Pago 100%"
    ensures !(s in OrderStatuses && s in PaymentStatuses)
  {
  }

  /** A row given to the orders table; None marks a column the insert leaves out. */
  datatype OrderInsert = OrderInsert(
    clientId: int,
    productId: int,
    quantity: int,
    orderDate: Option<int>,
    status: Option<string>,
    total: string,
    paymentStatus: Option<string>,
    amountPaid: Option<string>,
    remainingAmount: Option<string>)

  /**
   * The stored order for an insert: omitted columns take their defaults
   * (the current time, "Em Produção", "Pendente", "0", "0"), the database
   * assigns id, and createdAt is the current time.
   */
  function InsertRow(row: OrderInsert, id: int, now: int): (o: Order)
    ensures o.id == id && o.createdAt == now
    ensures o.clientId == row.clientId && o.productId == row.productId
    ensures o.quantity == row.quantity && o.total == row.total
    ensures o.orderDate == row.orderDate.GetOr(now)
    ensures row.status.None? ==> o.status == InProduction
    ensures row.paymentStatus.None? ==> o.paymentStatus == Pending
    ensures row.amountPaid.None? ==> o.amountPaid == "0"
    ensures row.remainingAmount.None? ==> o.remainingAmount == "0"
    ensures row.status.Some? ==> o.status == row.status.value
    ensures row.paymentStatus.Some? ==> o.paymentStatus == row.paymentStatus.value
    ensures row.amountPaid.Some? ==> o.amountPaid == row.amountPaid.value
    ensures row.remainingAmount.Some? ==> o.remainingAmount == row.remainingAmount.value
  {
    Order(id, row.clientId, row.productId, row.quantity, row.orderDate.GetOr(now),
          row.status.GetOr(InProduction), row.total, row.paymentStatus.GetOr(Pending),
          row.amountPaid.GetOr("0"), row.remainingAmount.GetOr("0"), now)
  }

  /** The insert that gives every editable column explicitly. */
  function FullInsert(v: OrderInput): OrderInsert {
    OrderInsert(v.clientId, v.productId, v.quantity, Some(v.orderDate), Some(v.status),
                v.total, Some(v.paymentStatus), Some(v.amountPaid), Some(v.remainingAmount))
  }

  /** Inserting all nine editable fields stores exactly them: the insert shape and the row agree. */
  lemma InsertKeepsEditableFields(v: OrderInput, id: int, now: int)
    ensures EditableFields(InsertRow(FullInsert(v), id, now)) == v
  {
  }

  /** An insert that names only the required columns stores a pending, unpaid order. */
  lemma MinimalInsertDefaults(clientId: int, productId: int, quantity: int, total: string, id: int, now: int)
    ensures var o := InsertRow(OrderInsert(clientId, productId, quantity, None, None, total, None, None, None), id, now);
            && o.status == "Em Produção" && o.paymentStatus == "Pendente"
            && o.amountPaid == "0" && o.remainingAmount == "0" && o.orderDate == now
  {
  }

  // ---------------------------------------------------------------------
  // Users

  datatype UserInput = UserInput(username: string, password: string, name: string, isAdmin: Option<bool>)

  datatype NewUser = NewUser(username: string, password: string, name: string, isAdmin: bool)

  const UsernameTooShort := "Usuário deve ter pelo menos 3 caracteres"
  const PasswordTooShort := "Senha deve ter pelo menos 6 caracteres"
  const NameTooShort := "Nome deve ter pelo menos 2 caracteres"

  /**
   * userSchema: username of at least 3 characters, password of at least 6,
   * name of at least 2; a missing isAdmin becomes false. Failures carry one
   * message per short field, in field order.
   */
  function ValidateUser(u: UserInput): (r: Result<NewUser, seq<string>>)
    ensures r.Success? <==> |u.username| >= 3 && |u.password| >= 6 && |u.name| >= 2
    ensures r.Success? ==> r.value == NewUser(u.username, u.password, u.name, u.isAdmin == Some(true))
    ensures r.Failure? ==> (UsernameTooShort in r.error <==> |u.username| < 3)
    ensures r.Failure? ==> (PasswordTooShort in r.error <==> |u.password| < 6)
    ensures r.Failure? ==> (NameTooShort in r.error <==> |u.name| < 2)
    ensures r.Failure? ==> |r.error| == (if |u.username| < 3 then 1 else 0) + (if |u.password| < 6 then 1 else 0) + (if |u.name| < 2 then 1 else 0)
    ensures r.Failure? && UsernameTooShort in r.error ==> r.error[0] == UsernameTooShort
    ensures r.Failure? && NameTooShort in r.error ==> r.error[|r.error| - 1] == NameTooShort
  {
    var errors :=
      (if |u.username| >= 3 then [] else [UsernameTooShort]) +
      (if |u.password| >= 6 then [] else [PasswordTooShort]) +
      (if |u.name| >= 2 then [] else [NameTooShort]);
    if errors == [] then Success(NewUser(u.username, u.password, u.name, u.isAdmin.GetOr(false)))
    else Failure(errors)
  }
}

/** What the three edit forms share: JavaScript `||` defaults and the create/update choice on submit. */
module Forms {
  import opened Wrappers

  /** `s || d` on text: the empty string is falsy. */
  function OrText(s: string, d: string): (r: string)
    ensures r == s || r == d
    ensures r == "" ==> d == ""
    ensures s != "" ==> r == s
  {
    if s != "" then s else d
  }

  /** `n || d` on numbers: zero is falsy. */
  function OrInt(n: int, d: int): (r: int)
    ensures n != 0 ==> r == n
    ensures n == 0 ==> r == d
  {
    if n != 0 then n else d
  }

  /** A submitted form: a POST of new data, or a PUT of the data to an existing id. */
  datatype Submission<T> = Create(data: T) | Update(id: int, data: T)

  /**
   * `if (editMode && editX) update else create`: the update path needs both
   * the edit flag and an entity being edited, and the data is sent as given.
   */
  function Choose<T>(editMode: bool, editId: Option<int>, data: T): (r: Submission<T>)
    ensures r.Update? <==> editMode && editId.Some?
    ensures r.Update? ==> r.id == editId.value
    ensures r.data == data
  {
    if editMode && editId.Some? then Update(editId.value, data) else Create(data)
  }
}
