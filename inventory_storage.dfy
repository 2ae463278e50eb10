/**
 * The inventory store: products keyed by SKU, kept in the order in which
 * their SKUs were first added (the order of a Python dictionary), with SKU
 * validation, adding, updating, deleting, stock adjustment, the low-stock
 * query and the per-row step of a CSV import.
 *
 * Each operation is a function on a `Store` value; the class `Inventory`
 * holds the same state in fields and its methods are proved to follow those
 * functions. Saving to the data file after each change is left out.
 */
module Storage {
  import opened Wrappers
  import opened Decimal
  import opened Products

  /** The exceptions the store raises: InvalidSKUError, ValueError (two cases) and NegativeStockError. */
  datatype StoreError = InvalidSku | DuplicateSku | UnknownSku | NegativeStock

  // ---------------------------------------------------------------------------
  // SKU format: three capital letters, a dash, then two to four digits.

  predicate IsCapital(ch: char) {
    'A' <= ch <= 'Z'
  }

  /** The SKU check, position by position. */
  predicate ValidSku(s: string) {
    6 <= |s| <= 8 && IsCapital(s[0]) && IsCapital(s[1]) && IsCapital(s[2]) && s[3] == '-' && AllDigits(s[4..])
  }

  /**
   * What the pattern `^[A-Z]{3}-\d{2,4}$` matches under Python's `re.match`:
   * the format, or the format followed by one newline, since `$` also
   * matches just before a final newline.
   */
  predicate MatchesSkuPattern(s: string) {
    ValidSku(s) || (|s| > 0 && s[|s| - 1] == '\n' && ValidSku(s[..|s| - 1]))
  }

  /** The SKU check accepts exactly a three-letter prefix, a dash and two to four digits. */
  lemma SkuFormat(s: string)
    ensures ValidSku(s) <==>
      exists letters, digits :: s == letters + "-" + digits && |letters| == 3 && 2 <= |digits| <= 4 &&
        IsCapital(letters[0]) && IsCapital(letters[1]) && IsCapital(letters[2]) && AllDigits(digits)
  {
    if ValidSku(s) {
      var letters, digits := s[..3], s[4..];
      assert s == letters + "-" + digits;
    }
    if exists letters, digits :: s == letters + "-" + digits && |letters| == 3 && 2 <= |digits| <= 4 &&
        IsCapital(letters[0]) && IsCapital(letters[1]) && IsCapital(letters[2]) && AllDigits(digits) {
      var letters, digits :| s == letters + "-" + digits && |letters| == 3 && 2 <= |digits| <= 4 &&
        IsCapital(letters[0]) && IsCapital(letters[1]) && IsCapital(letters[2]) && AllDigits(digits);
      assert s[4..] == digits;
    }
  }

  /** The pattern as written lets a SKU with a trailing newline through. */
  lemma PatternAcceptsTrailingNewline()
    ensures MatchesSkuPattern("ABC-12\n") && !ValidSku("ABC-12\n")
  {
    assert "ABC-12\n"[..6] == "ABC-12";
    assert "ABC-12"[4..] == "12";
  }

  // ---------------------------------------------------------------------------
  // The store.

  /** The SKUs in dictionary order, and the product of each. */
  datatype Store = Store(order: seq<string>, products: map<string, Product>)

  /** The order lists each key once, and every key is its product's SKU. */
  predicate WellFormed(st: Store) {
    (forall i, j :: 0 <= i < j < |st.order| ==> st.order[i] != st.order[j]) &&
    (forall k :: k in st.products ==> k in st.order) &&
    (forall i :: 0 <= i < |st.order| ==> st.order[i] in st.products) &&
    (forall k :: k in st.products ==> st.products[k].sku == k)
  }

  /** No product has a negative stock. */
  predicate NonNegative(st: Store) {
    forall k :: k in st.products ==> st.products[k].quantity >= 0
  }

  /** Stores `p` under its SKU: a new SKU goes last, an existing one keeps its place. */
  function Put(st: Store, p: Product): (st': Store)
    ensures st'.products.Keys == st.products.Keys + {p.sku}
    ensures st'.products[p.sku] == p
    ensures forall k :: k in st.products && k != p.sku ==> st'.products[k] == st.products[k]
  {
    Store(if p.sku in st.products then st.order else st.order + [p.sku], st.products[p.sku := p])
  }

  /**
   * Adds a new product. The checks come in this order: the SKU format, then
   * a SKU already present, then a negative stock.
   */
  function Add(st: Store, p: Product): (r: Result<Store, StoreError>)
    ensures r.Ok? <==> ValidSku(p.sku) && p.sku !in st.products && p.quantity >= 0
    ensures !ValidSku(p.sku) ==> r == Err(InvalidSku)
    ensures ValidSku(p.sku) && p.sku in st.products ==> r == Err(DuplicateSku)
    ensures ValidSku(p.sku) && p.sku !in st.products && p.quantity < 0 ==> r == Err(NegativeStock)
    ensures r.Ok? ==>
      r.value.order == st.order + [p.sku] &&
      r.value.products.Keys == st.products.Keys + {p.sku} && r.value.products[p.sku] == p &&
      forall k :: k in st.products ==> r.value.products[k] == st.products[k]
  {
    if !ValidSku(p.sku) then Err(InvalidSku)
    else if p.sku in st.products then Err(DuplicateSku)
    else if p.quantity < 0 then Err(NegativeStock)
    else Ok(Put(st, p))
  }

  /** Replaces every field of a present product but its SKU. */
  function Update(st: Store, sku: string, name: string, quantity: int, reorderLevel: int, supplier: string)
    : (r: Result<Store, StoreError>)
    ensures r.Ok? <==> sku in st.products && quantity >= 0
    ensures sku !in st.products ==> r == Err(UnknownSku)
    ensures sku in st.products && quantity < 0 ==> r == Err(NegativeStock)
    ensures r.Ok? ==>
      r.value.order == st.order && r.value.products.Keys == st.products.Keys &&
      r.value.products[sku] == Product(st.products[sku].sku, name, quantity, reorderLevel, supplier) &&
      forall k :: k in st.products && k != sku ==> r.value.products[k] == st.products[k]
  {
    if sku !in st.products then Err(UnknownSku)
    else if quantity < 0 then Err(NegativeStock)
    else
      var p := st.products[sku];
      Ok(Store(st.order, st.products[sku := p.(name := name, quantity := quantity, reorderLevel := reorderLevel, supplier := supplier)]))
  }

  function Without(order: seq<string>, sku: string): (r: seq<string>)
    ensures forall k :: k in r <==> k in order && k != sku
  {
    if order == [] then []
    else (if order[0] == sku then [] else [order[0]]) + Without(order[1..], sku)
  }

  /** Removes a product if it is present; an unknown SKU is ignored. */
  function Delete(st: Store, sku: string): (st': Store)
    ensures st'.products.Keys == st.products.Keys - {sku}
    ensures forall k :: k in st'.products ==> st'.products[k] == st.products[k]
    ensures sku !in st.products ==> st' == st
  {
    if sku in st.products then Store(Without(st.order, sku), st.products - {sku}) else st
  }

  /** Adds `adjustment` (of either sign) to the stock of a present product, unless that makes it negative. */
  function Adjust(st: Store, sku: string, adjustment: int): (r: Result<Store, StoreError>)
    ensures r.Ok? <==> sku in st.products && st.products[sku].quantity + adjustment >= 0
    ensures sku !in st.products ==> r == Err(UnknownSku)
    ensures sku in st.products && st.products[sku].quantity + adjustment < 0 ==> r == Err(NegativeStock)
    ensures r.Ok? ==>
      r.value.order == st.order && r.value.products.Keys == st.products.Keys &&
      r.value.products[sku] == st.products[sku].(quantity := st.products[sku].quantity + adjustment) &&
      forall k :: k in st.products && k != sku ==> r.value.products[k] == st.products[k]
  {
    if sku !in st.products then Err(UnknownSku)
    else
      var p := st.products[sku];
      var newQuantity := p.quantity + adjustment;
      if newQuantity < 0 then Err(NegativeStock)
      else Ok(Store(st.order, st.products[sku := p.(quantity := newQuantity)]))
  }

  function LowStockOf(order: seq<string>, products: map<string, Product>): seq<Product>
    requires forall k :: k in order ==> k in products
  {
    if order == [] then []
    else
      var p := products[order[0]];
      (if p.quantity <= p.reorderLevel then [p] else []) + LowStockOf(order[1..], products)
  }

  /** The products whose stock is at or below their reorder level. */
  function LowStock(st: Store): (items: seq<Product>)
    requires WellFormed(st)
    ensures forall p :: p in items <==> exists k :: k in st.products && st.products[k] == p && p.quantity <= p.reorderLevel
    ensures |items| <= |st.order|
  {
    LowStockMembers(st.order, st.products);
    LowStockOf(st.order, st.products)
  }

  lemma {:induction false} LowStockMembers(order: seq<string>, products: map<string, Product>)
    requires forall k :: k in order ==> k in products
    ensures forall p :: p in LowStockOf(order, products) <==>
      exists k :: k in order && products[k] == p && p.quantity <= p.reorderLevel
    ensures |LowStockOf(order, products)| <= |order|
  {
    if order != [] {
      LowStockMembers(order[1..], products);
      forall p | exists k :: k in order && products[k] == p && p.quantity <= p.reorderLevel
        ensures p in LowStockOf(order, products)
      {
        var k :| k in order && products[k] == p && p.quantity <= p.reorderLevel;
        if k != order[0] {
          assert k in order[1..];
        }
      }
    }
  }

  // ---------------------------------------------------------------------------
  // Importing CSV rows.

  /** A CSV row: the cell under each column heading. */
  type Row = map<string, string>

  /**
   * The product a row describes: all five columns present and both counts
   * whole numbers. The SKU is not checked here.
   */
  function RowProduct(row: Row): (r: Option<Product>)
    ensures r.Some? <==>
      "SKU" in row && "Name" in row && "Quantity" in row && "Reorder Level" in row && "Supplier" in row &&
      ParseInt(row["Quantity"]).Some? && ParseInt(row["Reorder Level"]).Some?
    ensures r.Some? ==>
      r.value.sku == row["SKU"] && r.value.name == row["Name"] &&
      r.value.quantity == ParseInt(row["Quantity"]).value &&
      r.value.reorderLevel == ParseInt(row["Reorder Level"]).value && r.value.supplier == row["Supplier"]
  {
    if "SKU" in row && "Name" in row && "Quantity" in row && "Reorder Level" in row && "Supplier" in row then
      var quantity := ParseInt(row["Quantity"]);
      var reorderLevel := ParseInt(row["Reorder Level"]);
      if quantity.Some? && reorderLevel.Some? then
        Some(Product(row["SKU"], row["Name"], quantity.value, reorderLevel.value, row["Supplier"]))
      else None
    else None
  }

  /**
   * One row of an import: a row with a bad SKU or a malformed cell is skipped;
   * any other row is stored, replacing a product with the same SKU, and a
   * negative stock is not refused.
   */
  function ImportRow(st: Store, row: Row): (r: (Store, bool))
    ensures r.1 <==> RowProduct(row).Some? && ValidSku(RowProduct(row).value.sku)
    ensures !r.1 ==> r.0 == st
    ensures r.1 ==> r.0 == Put(st, RowProduct(row).value)
  {
    match RowProduct(row)
    case None => (st, false)
    case Some(p) => if ValidSku(p.sku) then (Put(st, p), true) else (st, false)
  }

  function ImportRows(st: Store, rows: seq<Row>): Store
    decreases |rows|
  {
    if rows == [] then st else ImportRows(ImportRow(st, rows[0]).0, rows[1..])
  }

  // ---------------------------------------------------------------------------
  // What the operations preserve.

  lemma PutWellFormed(st: Store, p: Product)
    requires WellFormed(st)
    ensures WellFormed(Put(st, p))
  {
    var st' := Put(st, p);
    if p.sku !in st.products {
      forall i, j | 0 <= i < j < |st'.order|
        ensures st'.order[i] != st'.order[j]
      {
        if j == |st.order| {
          assert st'.order[i] in st.order;
        }
      }
    }
  }

  /** Adding keeps the order a list of the keys, each key its product's SKU. */
  lemma AddWellFormed(st: Store, p: Product)
    requires WellFormed(st) && Add(st, p).Ok?
    ensures WellFormed(Add(st, p).value)
  {
    PutWellFormed(st, p);
  }

  lemma UpdateWellFormed(st: Store, sku: string, name: string, quantity: int, reorderLevel: int, supplier: string)
    requires WellFormed(st) && Update(st, sku, name, quantity, reorderLevel, supplier).Ok?
    ensures WellFormed(Update(st, sku, name, quantity, reorderLevel, supplier).value)
  {
  }

  lemma DeleteWellFormed(st: Store, sku: string)
    requires WellFormed(st)
    ensures WellFormed(Delete(st, sku))
  {
    var order := Without(st.order, sku);
    WithoutDistinct(st.order, sku);
    forall i | 0 <= i < |order|
      ensures order[i] in Delete(st, sku).products
    {
      assert order[i] in order;
    }
  }

  lemma AdjustWellFormed(st: Store, sku: string, adjustment: int)
    requires WellFormed(st) && Adjust(st, sku, adjustment).Ok?
    ensures WellFormed(Adjust(st, sku, adjustment).value)
  {
  }

  lemma ImportRowWellFormed(st: Store, row: Row)
    requires WellFormed(st)
    ensures WellFormed(ImportRow(st, row).0)
  {
    if RowProduct(row).Some? {
      PutWellFormed(st, RowProduct(row).value);
    }
  }

  lemma {:induction false} WithoutDistinct(order: seq<string>, sku: string)
    requires forall i, j :: 0 <= i < j < |order| ==> order[i] != order[j]
    ensures forall i, j :: 0 <= i < j < |Without(order, sku)| ==> Without(order, sku)[i] != Without(order, sku)[j]
  {
    if order != [] {
      WithoutDistinct(order[1..], sku);
      var rest := Without(order[1..], sku);
      if order[0] != sku {
        forall j | 0 < j < |Without(order, sku)|
          ensures Without(order, sku)[0] != Without(order, sku)[j]
        {
          assert Without(order, sku)[j] == rest[j - 1];
          assert rest[j - 1] in order[1..];
        }
      }
    }
  }

  /** Adding, updating, adjusting and deleting never leave a negative stock. */
  lemma NonNegativePreserved(st: Store, p: Product, sku: string, name: string, quantity: int,
                             reorderLevel: int, supplier: string, adjustment: int)
    requires NonNegative(st)
    ensures Add(st, p).Ok? ==> NonNegative(Add(st, p).value)
    ensures Update(st, sku, name, quantity, reorderLevel, supplier).Ok? ==>
      NonNegative(Update(st, sku, name, quantity, reorderLevel, supplier).value)
    ensures NonNegative(Delete(st, sku))
    ensures Adjust(st, sku, adjustment).Ok? ==> NonNegative(Adjust(st, sku, adjustment).value)
  {
  }

  /** An import, unlike an add, can store a negative stock. */
  lemma ImportAllowsNegativeStock()
    ensures var row := map["SKU" := "ABC-12", "Name" := "Bolt", "Quantity" := "-5", "Reorder Level" := "1", "Supplier" := "Acme"];
      var st := ImportRow(Store([], map[]), row);
      st.1 && !NonNegative(st.0)
  {
    var row := map["SKU" := "ABC-12", "Name" := "Bolt", "Quantity" := "-5", "Reorder Level" := "1", "Supplier" := "Acme"];
    assert "ABC-12"[4..] == "12";
    assert "-5"[1..] == "5";
    assert DigitsValue("5") == 5 by {
      assert "5"[..0] == "";
    }
    assert RowProduct(row) == Some(Product("ABC-12", "Bolt", -5, 1, "Acme")) by {
      assert ParseInt("1") == Some(1) by {
        assert "1"[..0] == "";
      }
    }
  }

  /** Deleting twice is deleting once. */
  lemma DeleteIdempotent(st: Store, sku: string)
    ensures Delete(Delete(st, sku), sku) == Delete(st, sku)
  {
  }

  /** Adjusting by `a` and then by `-a` restores the store, when the stock was not negative. */
  lemma AdjustUndo(st: Store, sku: string, a: int)
    requires NonNegative(st) && Adjust(st, sku, a).Ok?
    ensures Adjust(Adjust(st, sku, a).value, sku, -a) == Ok(st)
  {
    var p := st.products[sku];
    var st1 := Adjust(st, sku, a).value;
    assert st1.products[sku].quantity + -a == p.quantity >= 0;
    assert st1.products[sku := p] == st.products;
  }

  // ---------------------------------------------------------------------------
  // The store as an object.

  class Inventory {
    var order: seq<string>
    var products: map<string, Product>

    function Model(): Store
      reads this
    {
      Store(order, products)
    }

    ghost predicate Valid()
      reads this
    {
      WellFormed(Model())
    }

    /** An empty store; reading the data file is left out. */
    constructor()
      ensures Valid() && Model() == Store([], map[])
    {
      order := [];
      products := map[];
    }

    /** `validate_sku`: true, or the error. */
    static method ValidateSku(sku: string) returns (err: Option<StoreError>)
      ensures err == None <==> ValidSku(sku)
      ensures err != None ==> err == Some(InvalidSku)
    {
      if |sku| < 6 || |sku| > 8 || !IsCapital(sku[0]) || !IsCapital(sku[1]) || !IsCapital(sku[2]) || sku[3] != '-' {
        return Some(InvalidSku);
      }
      for i := 4 to |sku|
        invariant AllDigits(sku[4..i])
      {
        if !IsDigit(sku[i]) {
          assert !AllDigits(sku[4..]) by {
            assert sku[4..][i - 4] == sku[i];
          }
          return Some(InvalidSku);
        }
        assert sku[4..i + 1] == sku[4..i] + [sku[i]];
      }
      assert sku[4..|sku|] == sku[4..];
      return None;
    }

    method AddProduct(product: Product) returns (err: Option<StoreError>)
      requires Valid()
      modifies this
      ensures Valid()
      ensures match Add(old(Model()), product)
        case Ok(st) => err == None && Model() == st
        case Err(e) => err == Some(e) && Model() == old(Model())
    {
      err := ValidateSku(product.sku);
      if err != None {
        return;
      }
      if product.sku in products {
        return Some(DuplicateSku);
      }
      if product.quantity < 0 {
        return Some(NegativeStock);
      }
      AddWellFormed(Model(), product);
      products := products[product.sku := product];
      order := order + [product.sku];
    }

    method UpdateProduct(sku: string, name: string, quantity: int, reorderLevel: int, supplier: string)
      returns (err: Option<StoreError>)
      requires Valid()
      modifies this
      ensures Valid()
      ensures match Update(old(Model()), sku, name, quantity, reorderLevel, supplier)
        case Ok(st) => err == None && Model() == st
        case Err(e) => err == Some(e) && Model() == old(Model())
    {
      if sku !in products {
        return Some(UnknownSku);
      }
      if quantity < 0 {
        return Some(NegativeStock);
      }
      UpdateWellFormed(Model(), sku, name, quantity, reorderLevel, supplier);
      var product := products[sku];
      product := product.(name := name, quantity := quantity, reorderLevel := reorderLevel, supplier := supplier);
      products := products[sku := product];
      err := None;
    }

    method DeleteProduct(sku: string)
      requires Valid()
      modifies this
      ensures Valid()
      ensures Model() == Delete(old(Model()), sku)
    {
      if sku in products {
        DeleteWellFormed(Model(), sku);
        products := products - {sku};
        order := Without(order, sku);
      }
    }

    method AdjustStock(sku: string, adjustment: int) returns (err: Option<StoreError>)
      requires Valid()
      modifies this
      ensures Valid()
      ensures match Adjust(old(Model()), sku, adjustment)
        case Ok(st) => err == None && Model() == st
        case Err(e) => err == Some(e) && Model() == old(Model())
    {
      if sku !in products {
        return Some(UnknownSku);
      }
      var product := products[sku];
      var newQuantity := product.quantity + adjustment;
      if newQuantity < 0 {
        return Some(NegativeStock);
      }
      AdjustWellFormed(Model(), sku, adjustment);
      products := products[sku := product.(quantity := newQuantity)];
      err := None;
    }

    function GetLowStockItems(): (items: seq<Product>)
      reads this
      requires Valid()
      ensures forall p :: p in items <==> p in products.Values && p.quantity <= p.reorderLevel
    {
      LowStock(Model())
    }

    /** The rows of a CSV file, in order; each is stored or skipped as `ImportRow` says. */
    method ImportFromCsv(rows: seq<Row>)
      requires Valid()
      modifies this
      ensures Valid()
      ensures Model() == ImportRows(old(Model()), rows)
    {
      for i := 0 to |rows|
        invariant Valid()
        invariant ImportRows(old(Model()), rows) == ImportRows(Model(), rows[i..])
      {
        assert rows[i..][1..] == rows[i + 1..];
        var row := rows[i];
        ImportRowWellFormed(Model(), row);
        var product := RowProduct(row);
        if product.None? {
          continue;
        }
        var err := ValidateSku(product.value.sku);
        if err != None {
          continue;
        }
        if product.value.sku !in products {
          order := order + [product.value.sku];
        }
        products := products[product.value.sku := product.value];
      }
    }
  }
}
