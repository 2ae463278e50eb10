/**
 * A product of the inventory store and its dictionary form, the record that
 * the store's data file holds for each product.
 */
module Products {
  import opened Wrappers
  import opened Decimal

  /** A stock-keeping unit: its code, name, stock on hand, reorder level and supplier. */
  datatype Product = Product(sku: string, name: string, quantity: int, reorderLevel: int, supplier: string)

  /** A value of a product record: text, or a whole number. */
  datatype Field = Text(text: string) | Number(number: int)

  type Record = map<string, Field>

  /** Why a record is not a product: a key is missing, or a count is not a whole number. */
  datatype RecordError = MissingKey(key: string) | NotAnInteger(key: string) | NotText(key: string)

  const Keys: set<string> := {"sku", "name", "quantity", "reorder_level", "supplier"}

  /** The record of a product: exactly the five keys, each holding its field. */
  function ToDict(p: Product): (d: Record)
    ensures d.Keys == Keys
  {
    map["sku" := Text(p.sku), "name" := Text(p.name), "quantity" := Number(p.quantity),
        "reorder_level" := Number(p.reorderLevel), "supplier" := Text(p.supplier)]
  }

  /** `int` of a field: a number as it is, text when it reads as a whole number. */
  function ToInt(d: Record, key: string): Result<int, RecordError> {
    if key !in d then Err(MissingKey(key))
    else match d[key]
      case Number(n) => Ok(n)
      case Text(s) => if ParseInt(s).Some? then Ok(ParseInt(s).value) else Err(NotAnInteger(key))
  }

  function TextOf(d: Record, key: string): Result<string, RecordError> {
    if key !in d then Err(MissingKey(key))
    else match d[key]
      case Text(s) => Ok(s)
      case Number(_) => Err(NotText(key))
  }

  /**
   * The product a record describes. The fields are read in the order sku,
   * name, quantity, reorder level, supplier, and the first that fails decides
   * the error.
   */
  function FromDict(d: Record): (r: Result<Product, RecordError>)
    ensures r.Ok? ==> Keys <= d.Keys
    ensures r.Ok? ==> d["sku"] == Text(r.value.sku) && d["name"] == Text(r.value.name) && d["supplier"] == Text(r.value.supplier)
    ensures r.Ok? ==> Ok(r.value.quantity) == ToInt(d, "quantity") && Ok(r.value.reorderLevel) == ToInt(d, "reorder_level")
    ensures TextOf(d, "sku").Ok? && TextOf(d, "name").Ok? && TextOf(d, "supplier").Ok? &&
            ToInt(d, "quantity").Ok? && ToInt(d, "reorder_level").Ok? ==>
              r.Ok?
    ensures "sku" !in d ==> r == Err(MissingKey("sku"))
  {
    var sku :- TextOf(d, "sku");
    var name :- TextOf(d, "name");
    var quantity :- ToInt(d, "quantity");
    var reorderLevel :- ToInt(d, "reorder_level");
    var supplier :- TextOf(d, "supplier");
    Ok(Product(sku, name, quantity, reorderLevel, supplier))
  }

  /** Reading back the record of a product gives the same product. */
  lemma FromDictToDict(p: Product)
    ensures FromDict(ToDict(p)) == Ok(p)
  {
  }

  /** A record whose counts are written as text reads as the same product. */
  lemma FromDictTextCounts(p: Product)
    ensures FromDict(ToDict(p)["quantity" := Text(IntText(p.quantity))]["reorder_level" := Text(IntText(p.reorderLevel))]) == Ok(p)
  {
    ParseIntText(p.quantity);
    ParseIntText(p.reorderLevel);
  }
}
