/** The product form: its name and price rules, default values and submit choice. */
module ProductForm {
  import opened Wrappers
  import opened Numbers
  import opened Schema
  import Forms

  datatype ProductInput = ProductInput(name: string, price: string)

  const NameTooShort := "Product name must be at least 2 characters"
  const PriceNotPositive := "Price must be a positive number"

  /** The price rule: `!isNaN(Number(val)) && Number(val) > 0`. */
  predicate PriceAccepted(price: string) {
    ToNumber(price).Finite? && ToNumber(price).cents > 0
  }

  /** The price rule accepts exactly the texts that parse to a positive amount; "" (which Number reads as 0) is rejected. */
  lemma PriceRule(price: string)
    ensures PriceAccepted(price) <==> ParseFloat(price).Finite? && ParseFloat(price).cents > 0
    ensures price == "" ==> !PriceAccepted(price)
  {
  }

  /**
   * Zero, negative and non-numeric prices are rejected; a positive price is
   * accepted. The amounts are given as the toFixed(2) texts of 0, -5 and
   * 12.50, that is "0.00", "-5.00" and "12.50".
   */
  lemma PriceExamples()
    ensures !PriceAccepted("") && !PriceAccepted("abc")
    ensures !PriceAccepted(ToFixed2(Finite(0))) && !PriceAccepted(ToFixed2(Finite(-500)))
    ensures PriceAccepted(ToFixed2(Finite(1250)))
  {
    assert IndexOfDot("abc") == 3;
    assert !IsDigit("abc"[0]);
    ParseToFixed2(Finite(0));
    ParseToFixed2(Finite(-500));
    ParseToFixed2(Finite(1250));
  }

  /** productSchema: a name of at least 2 characters and an accepted price; one message per failing field. */
  function ValidateProduct(v: ProductInput): (errors: seq<string>)
    ensures errors == [] <==> |v.name| >= 2 && PriceAccepted(v.price)
    ensures NameTooShort in errors <==> |v.name| < 2
    ensures PriceNotPositive in errors <==> !PriceAccepted(v.price)
    ensures |errors| == (if |v.name| < 2 then 1 else 0) + (if PriceAccepted(v.price) then 0 else 1)
    ensures |errors| == 2 ==> errors == [NameTooShort, PriceNotPositive]
  {
    (if |v.name| >= 2 then [] else [NameTooShort]) +
    (if PriceAccepted(v.price) then [] else [PriceNotPositive])
  }

  /** defaultValues: the edited product's name and price text, or "" for a new product. */
  function DefaultValues(editProduct: Option<Product>): (v: ProductInput)
    ensures editProduct.None? ==> v == ProductInput("", "")
    ensures editProduct.Some? ==> v == ProductInput(editProduct.value.name, editProduct.value.price)
  {
    match editProduct
    case None => ProductInput("", "")
    case Some(p) => ProductInput(Forms.OrText(p.name, ""), Forms.OrText(p.price, ""))
  }

  /** A fresh product form fails both rules as it opens. */
  lemma FreshFormIsInvalid()
    ensures ValidateProduct(DefaultValues(None)) == [NameTooShort, PriceNotPositive]
  {
  }

  /** handleSubmit(onSubmit): invalid values are not sent; valid ones update the edited product exactly in edit mode with a product. */
  function Submit(editMode: bool, editProduct: Option<Product>, data: ProductInput): (r: Result<Forms.Submission<ProductInput>, seq<string>>)
    ensures r.Failure? <==> ValidateProduct(data) != []
    ensures r.Failure? ==> r.error == ValidateProduct(data)
    ensures r.Success? ==> r.value.data == data
    ensures r.Success? ==> (r.value.Update? <==> editMode && editProduct.Some?)
    ensures r.Success? && r.value.Update? ==> r.value.id == editProduct.value.id
  {
    var errors := ValidateProduct(data);
    if errors != [] then Failure(errors)
    else Success(Forms.Choose(editMode, if editProduct.Some? then Some(editProduct.value.id) else None, data))
  }
}
