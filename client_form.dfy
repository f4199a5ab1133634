/** The client form: its length rules, default values and submit choice. */
module ClientForm {
  import opened Wrappers
  import opened Schema
  import Forms

  datatype ClientInput = ClientInput(name: string, phone: string, address: string)

  const NameTooShort := "Full name must be at least 2 characters"
  const PhoneTooShort := "Phone number must be at least 8 characters"
  const AddressTooShort := "Address must be at least 5 characters"

  /** clientSchema: name of at least 2 characters, phone of at least 8, address of at least 5; one message per failing field. */
  function ValidateClient(v: ClientInput): (errors: seq<string>)
    ensures errors == [] <==> |v.name| >= 2 && |v.phone| >= 8 && |v.address| >= 5
    ensures NameTooShort in errors <==> |v.name| < 2
    ensures PhoneTooShort in errors <==> |v.phone| < 8
    ensures AddressTooShort in errors <==> |v.address| < 5
    ensures |errors| == (if |v.name| < 2 then 1 else 0) + (if |v.phone| < 8 then 1 else 0) + (if |v.address| < 5 then 1 else 0)
    ensures NameTooShort in errors ==> errors[0] == NameTooShort
    ensures AddressTooShort in errors ==> errors[|errors| - 1] == AddressTooShort
  {
    (if |v.name| >= 2 then [] else [NameTooShort]) +
    (if |v.phone| >= 8 then [] else [PhoneTooShort]) +
    (if |v.address| >= 5 then [] else [AddressTooShort])
  }

  /** defaultValues: the edited client's fields, or "" for each field of a new client. */
  function DefaultValues(editClient: Option<Client>): (v: ClientInput)
    ensures editClient.None? ==> v == ClientInput("", "", "")
    ensures editClient.Some? ==> v == ClientInput(editClient.value.name, editClient.value.phone, editClient.value.address)
  {
    match editClient
    case None => ClientInput("", "", "")
    case Some(c) => ClientInput(Forms.OrText(c.name, ""), Forms.OrText(c.phone, ""), Forms.OrText(c.address, ""))
  }

  /** A fresh client form cannot be submitted as it opens: all three fields fail. */
  lemma FreshFormIsInvalid()
    ensures |ValidateClient(DefaultValues(None))| == 3
  {
  }

  /** An edited client that satisfies the rules opens a form that does, and vice versa. */
  lemma EditFormValidIffClientValid(c: Client)
    ensures ValidateClient(DefaultValues(Some(c))) == [] <==> |c.name| >= 2 && |c.phone| >= 8 && |c.address| >= 5
  {
  }

  /** handleSubmit(onSubmit): invalid values are not sent; valid ones update the edited client exactly in edit mode with a client. */
  function Submit(editMode: bool, editClient: Option<Client>, data: ClientInput): (r: Result<Forms.Submission<ClientInput>, seq<string>>)
    ensures r.Failure? <==> ValidateClient(data) != []
    ensures r.Failure? ==> r.error == ValidateClient(data)
    ensures r.Success? ==> r.value.data == data
    ensures r.Success? ==> (r.value.Update? <==> editMode && editClient.Some?)
    ensures r.Success? && r.value.Update? ==> r.value.id == editClient.value.id
  {
    var errors := ValidateClient(data);
    if errors != [] then Failure(errors)
    else Success(Forms.Choose(editMode, if editClient.Some? then Some(editClient.value.id) else None, data))
  }
}
