/**
 * The orders, clients and products pages share one piece of state: whether
 * the form is open (editMode) and which entity it edits (null for a new
 * one), driven by three handlers.
 */
module Pages {
  import opened Wrappers
  import opened Schema

  /** What the page passes to its form while the form is shown. */
  datatype FormProps<T> = FormProps(editMode: bool, edit: Option<T>)

  class EditorPage<T> {
    var editMode: bool
    var edit: Option<T>

    /** The reachable states: an entity is only ever being edited while the form is open. */
    ghost predicate Valid()
      reads this
    {
      edit.Some? ==> editMode
    }

    /** `useState(false)`, `useState(null)`. */
    constructor ()
      ensures Valid()
      ensures !editMode && edit == None
    {
      editMode := false;
      edit := None;
    }

    /** handleEdit: open the form on an existing entity. */
    method HandleEdit(x: T)
      modifies this
      ensures Valid()
      ensures editMode && edit == Some(x)
    {
      edit := Some(x);
      editMode := true;
    }

    /** handleCancel: close the form and forget the entity. */
    method HandleCancel()
      modifies this
      ensures Valid()
      ensures !editMode && edit == None
    {
      edit := None;
      editMode := false;
    }

    /** handleAddNew: open an empty form. */
    method HandleAddNew()
      modifies this
      ensures Valid()
      ensures editMode && edit == None
    {
      edit := None;
      editMode := true;
    }

    /** `{editMode && <Form .../>}`: the form is rendered exactly while editMode holds, always in edit mode. */
    function RenderedForm(): (r: Option<FormProps<T>>)
      reads this
      ensures r.Some? <==> editMode
      ensures r.Some? ==> r.value.editMode && r.value.edit == edit
    {
      if editMode then Some(FormProps(editMode, edit)) else None
    }
  }

  type OrdersPage = EditorPage<Order>
  type ClientsPage = EditorPage<Client>
  type ProductsPage = EditorPage<Product>

  /** A session on the orders page: add, cancel, edit; the form is shown, hidden and shown on the order. */
  method OrdersPageSession(o: Order)
  {
    var page: OrdersPage := new EditorPage();
    assert page.RenderedForm() == None;
    page.HandleAddNew();
    assert page.RenderedForm() == Some(FormProps(true, None));
    page.HandleCancel();
    assert page.RenderedForm() == None;
    page.HandleEdit(o);
    assert page.RenderedForm() == Some(FormProps(true, Some(o)));
  }
}
