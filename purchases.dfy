/**
 * The Purchases page: the list of recorded purchases and a draft purchase
 * whose product lines are edited by index, with a derived total and a
 * submission guard in front of the request that records the purchase.
 */
module Purchases {
  import opened Wrappers
  import opened JsArray
  import opened JsNumber
  import opened Catalog

  /** The fields of one draft line, as a value. */
  datatype LineValue = LineValue(productId: string, quantity: int, price: int, extra: map<string, string>)

  /** The line `addProduct` creates: `{productId: "", quantity: 1, price: 0}`. */
  const DefaultLine := LineValue("", 1, 0, map[])

  /**
   * One draft line. `handleProductChange` assigns its fields in place, so a
   * line is an object; a write to any field other than the three known ones
   * adds that property, kept in `extra`.
   */
  class PurchaseLine {
    var productId: string
    var quantity: int
    var price: int
    var extra: map<string, string>

    constructor ()
      ensures Value() == DefaultLine
    {
      productId, quantity, price, extra := "", 1, 0, map[];
    }

    function Value(): LineValue
      reads this
    {
      LineValue(productId, quantity, price, extra)
    }

    /**
     * The writes `handleProductChange` makes to this line:
     * `line[field] = field is quantity or price ? Number(value) : value`, and
     * for `productId` the purchase price of the first catalog product with
     * that `_id`, when there is one.
     */
    method Assign(field: string, value: string, catalog: seq<Product>)
      requires IsNumericField(field) ==> IsIntegerText(value)
      modifies this
      ensures Value() == Changed(old(Value()), field, value, catalog)
    {
      if field == "quantity" {
        quantity := NumberOf(value);
      } else if field == "price" {
        price := NumberOf(value);
      } else if field == "productId" {
        productId := value;
      } else {
        extra := extra[field := value];
      }
      if field == "productId" {
        var productInfo := Find(catalog, HasId(value));
        if productInfo.Some? {
          price := productInfo.value.purchasePrice;
        }
      }
    }
  }

  /** A recorded purchase as the list shows it; the page only stores these. */
  datatype PurchaseRecord = PurchaseRecord(id: string, supplierName: string, totalAmount: int, itemCount: nat)

  /** A failed request: `response.data.message`, when there was a response with one, and `message`. */
  datatype RequestError = RequestError(serverMessage: Option<string>, message: string)

  /** How the purchase-list request ended: `response.data.data`, possibly missing, or an error. */
  datatype ListOutcome = Listed(records: Option<seq<PurchaseRecord>>) | ListFailed(err: RequestError)

  /** How the create-purchase request ended. */
  datatype PostOutcome = Posted | PostFailed(err: RequestError)

  /** The body of the create-purchase request (the `date` field is left out). */
  datatype PurchasePayload = PurchasePayload(supplierId: string, products: seq<LineValue>, totalAmount: int)

  /** `err.response?.data?.message || err.message`: the server's text unless it is missing or empty. */
  function ErrorText(e: RequestError): string {
    if e.serverMessage.Some? && e.serverMessage.value != "" then e.serverMessage.value else e.message
  }

  /** Line objects hold the values `vs`, index by index. */
  ghost predicate Hold(ls: seq<PurchaseLine>, vs: seq<LineValue>)
    reads ls
  {
    |ls| == |vs| && forall i | 0 <= i < |ls| :: ls[i].Value() == vs[i]
  }

  /** Reads the values out of line objects, in order, as the request body and the total do. */
  method Values(ls: seq<PurchaseLine>, ghost vs: seq<LineValue>) returns (r: seq<LineValue>)
    requires Hold(ls, vs)
    ensures r == vs
  {
    r := [];
    var i := 0;
    while i < |ls|
      invariant i <= |ls| && r == vs[..i]
    {
      r := r + [ls[i].Value()];
      i := i + 1;
    }
  }

  /** The effect's `reduce` over the line objects: the sum of quantity times price. */
  method SumAmounts(ls: seq<PurchaseLine>, ghost vs: seq<LineValue>) returns (t: int)
    requires Hold(ls, vs)
    ensures t == Total(vs)
  {
    t := 0;
    var i := 0;
    while i < |ls|
      invariant i <= |ls| && t == Total(vs[..i])
    {
      TimesIsProduct(ls[i].quantity, ls[i].price);
      assert vs[..i + 1][..i] == vs[..i];
      t := t + ls[i].quantity * ls[i].price;
      i := i + 1;
    }
    assert vs[..i] == vs;
  }

  /** A line object appended to held lines holds its own value. */
  lemma HoldAppend(ls: seq<PurchaseLine>, vs: seq<LineValue>, l: PurchaseLine)
    requires Hold(ls, vs)
    ensures Hold(ls + [l], vs + [l.Value()])
  {
  }

  /** No line object occurs twice in the list. */
  predicate Distinct(ls: seq<PurchaseLine>) {
    forall i, j | 0 <= i < j < |ls| :: ls[i] != ls[j]
  }

  /** Appending an object not yet in the list keeps the list distinct. */
  lemma DistinctAppend(ls: seq<PurchaseLine>, l: PurchaseLine)
    requires Distinct(ls) && l !in ls
    ensures Distinct(ls + [l])
  {
  }

  /** `p.quantity * p.price`. */
  function Amount(v: LineValue): int {
    Times(v.quantity, v.price)
  }

  /** `selectedProducts.reduce((sum, p) => sum + p.quantity * p.price, 0)`. */
  function Total(vs: seq<LineValue>): int {
    SumOf(vs, Amount)
  }

  /** A field name that `handleProductChange` stores as a number. */
  predicate IsNumericField(field: string) {
    field == "quantity" || field == "price"
  }

  /**
   * The value of a line after `handleProductChange(index, field, value)`:
   * the field is written (as a number for `quantity` and `price`), and a
   * new `productId` found in the catalog also brings its purchase price.
   */
  function Changed(v: LineValue, field: string, value: string, catalog: seq<Product>): LineValue
    requires IsNumericField(field) ==> IsIntegerText(value)
  {
    if field == "quantity" then v.(quantity := NumberOf(value))
    else if field == "price" then v.(price := NumberOf(value))
    else if field == "productId" then
      match Find(catalog, HasId(value))
      case Some(info) => v.(productId := value, price := info.purchasePrice)
      case None => v.(productId := value)
    else v.(extra := v.extra[field := value])
  }

  /** Appending the default line leaves the total as it was. */
  lemma TotalWithDefaultLine(vs: seq<LineValue>)
    ensures Total(vs + [DefaultLine]) == Total(vs)
  {
    SumOfAppend(vs, [DefaultLine], Amount);
    assert [DefaultLine][..0] == [];
  }

  /** Changing one line moves the total by the change of that line's amount. */
  lemma TotalOfChange(vs: seq<LineValue>, index: nat, v: LineValue)
    requires index < |vs|
    ensures Total(vs[index := v]) == Total(vs) - Amount(vs[index]) + Amount(v)
  {
    SumOfUpdate(vs, index, v, Amount);
  }

  /** Writing `quantity` or `price` stores the number the text denotes. */
  lemma NumericFieldStoresNumber(v: LineValue, n: int, catalog: seq<Product>)
    ensures IsIntegerText(IntegerText(n))
    ensures Changed(v, "quantity", IntegerText(n), catalog) == v.(quantity := n)
    ensures Changed(v, "price", IntegerText(n), catalog) == v.(price := n)
  {
    NumberOfIntegerText(n);
  }

  /** A `productId` found in the catalog sets the price to the first such product's purchase price. */
  lemma KnownProductSetsPrice(v: LineValue, id: string, catalog: seq<Product>, i: nat)
    requires i < |catalog| && catalog[i].id == id
    requires forall k | 0 <= k < i :: catalog[k].id != id
    ensures Changed(v, "productId", id, catalog) == v.(productId := id, price := catalog[i].purchasePrice)
  {
    assert HasId(id)(catalog[i]);
    assert FindIndex(catalog, HasId(id)) == i;
  }

  /** A `productId` not in the catalog is stored and the price is left unchanged. */
  lemma UnknownProductKeepsPrice(v: LineValue, id: string, catalog: seq<Product>)
    requires forall k | 0 <= k < |catalog| :: catalog[k].id != id
    ensures Changed(v, "productId", id, catalog) == v.(productId := id)
  {
    assert Find(catalog, HasId(id)).None?;
  }

  /** Any other field stores the text as given and touches nothing else. */
  lemma OtherFieldStoresText(v: LineValue, field: string, value: string, catalog: seq<Product>)
    requires !IsNumericField(field) && field != "productId"
    ensures Changed(v, field, value, catalog) == v.(extra := v.extra[field := value])
  {
  }

  /** Distinct line objects that hold `vs`, with `total` the sum over them. */
  ghost predicate DraftOk(ls: seq<PurchaseLine>, vs: seq<LineValue>, total: int)
    reads ls
  {
    Hold(ls, vs) && Distinct(ls) && total == Total(vs)
  }

  /** The component's state. */
  class PurchasesPage {
    var data: seq<PurchaseRecord>
    var products: seq<Product>
    var selectedSupplier: string
    var selectedProducts: seq<PurchaseLine>
    var totalAmount: int
    var loading: bool
    var error: Option<string>
    var showModal: bool
    var formData: map<string, string>
    var submitting: bool
    /** The values the draft's line objects hold. */
    ghost var lines: seq<LineValue>

    /** The draft's line objects are distinct, hold `lines`, and the total is the sum over them. */
    ghost predicate Valid()
      reads this, selectedProducts
    {
      DraftOk(selectedProducts, lines, totalAmount)
    }

    /** The initial `useState` values. */
    constructor ()
      ensures Valid()
      ensures data == [] && products == [] && selectedSupplier == "" && selectedProducts == [] && lines == []
      ensures totalAmount == 0 && loading && error == None && !showModal && !submitting
      ensures formData == map["supplierId" := "", "date" := "", "totalAmount" := ""]
    {
      data, products, selectedSupplier, selectedProducts := [], [], "", [];
      totalAmount, loading, error, showModal, submitting := 0, true, None, false, false;
      formData := map["supplierId" := "", "date" := "", "totalAmount" := ""];
      lines := [];
    }

    /** The product catalog arrived: `setProducts(resp.data.data || [])`. */
    method ReceiveProducts(fetched: Option<seq<Product>>)
      requires Valid()
      modifies this`products
      ensures Valid()
      ensures products == fetched.GetOr([])
    {
      products := fetched.GetOr([]);
    }

    /** `addProduct`: append a fresh default line; nothing prevents repeated product ids. */
    method AddProduct()
      requires Valid()
      modifies this`selectedProducts, this`lines, this`totalAmount
      ensures Valid()
      ensures |selectedProducts| == |old(selectedProducts)| + 1
      ensures selectedProducts[..|old(selectedProducts)|] == old(selectedProducts)
      ensures fresh(selectedProducts[|old(selectedProducts)|])
      ensures lines == old(lines) + [DefaultLine]
      ensures totalAmount == old(totalAmount)
    {
      var line := new PurchaseLine();
      var ls := selectedProducts + [line];
      ghost var vs := lines + [DefaultLine];
      TotalWithDefaultLine(lines);
      HoldAppend(selectedProducts, lines, line);
      DistinctAppend(selectedProducts, line);
      var total := SumAmounts(ls, vs);
      assert DraftOk(ls, vs, total);
      selectedProducts, lines, totalAmount := ls, vs, total;
    }

    /**
     * `handleProductChange(index, field, value)` followed by the effect that
     * recomputes the total: the line object at `index` is changed in place,
     * the list keeps the same objects, and every other line is untouched.
     */
    method HandleProductChange(index: nat, field: string, value: string)
      requires Valid()
      requires index < |selectedProducts|
      requires IsNumericField(field) ==> IsIntegerText(value)
      modifies this`lines, this`totalAmount, selectedProducts[index]
      ensures Valid()
      ensures lines == old(lines)[index := Changed(old(lines)[index], field, value, products)]
      ensures totalAmount == old(totalAmount) - Amount(old(lines)[index]) + Amount(lines[index])
    {
      var line := selectedProducts[index];
      line.Assign(field, value, products);
      ghost var vs := lines[index := line.Value()];
      TotalOfChange(lines, index, line.Value());
      var total := SumAmounts(selectedProducts, vs);
      lines, totalAmount := vs, total;
    }

    /**
     * Writes `selectedSupplier`. No handler of the page does this: the
     * supplier `<select>` is wired to `handleInputChange` and writes
     * `formData.supplier`. This is the handler the guard evidently expects.
     */
    method SelectSupplier(id: string)
      requires Valid()
      modifies this`selectedSupplier
      ensures Valid()
      ensures selectedSupplier == id
    {
      selectedSupplier := id;
    }

    /** `handleInputChange`: an input of the modal form writes `formData[name]`. */
    method HandleInputChange(name: string, value: string)
      requires Valid()
      modifies this`formData
      ensures Valid()
      ensures formData == old(formData)[name := value]
    {
      formData := formData[name := value];
    }

    /** The "+ Add Purchase" and "Cancel" buttons. */
    method SetShowModal(show: bool)
      requires Valid()
      modifies this`showModal
      ensures Valid()
      ensures showModal == show
    {
      showModal := show;
    }

    /** `getPurchases`, given how its request ends. */
    method GetPurchases(outcome: ListOutcome)
      requires Valid()
      modifies this`loading, this`error, this`data
      ensures Valid()
      ensures !loading
      ensures outcome.Listed? ==> data == outcome.records.GetOr([]) && error == None
      ensures outcome.ListFailed? ==> data == old(data) && error == Some(ErrorText(outcome.err))
    {
      loading := true;
      error := None;
      match outcome {
        case Listed(records) =>
          data := records.GetOr([]);
          loading := false;
        case ListFailed(err) =>
          error := Some(ErrorText(err));
          loading := false;
      }
    }

    /**
     * `handleAddPurchase` up to its request: `submitting` is raised, then a
     * draft with no supplier or no line is refused (and `submitting` drops
     * again) before any request is built; otherwise the request body is
     * returned and `submitting` stays raised until `SubmitFinish`.
     */
    method SubmitStart() returns (payload: Option<PurchasePayload>)
      requires Valid()
      modifies this`submitting
      ensures Valid()
      ensures payload.None? <==> selectedSupplier == "" || |selectedProducts| == 0
      ensures payload.Some? ==> payload.value == PurchasePayload(selectedSupplier, lines, totalAmount)
      ensures submitting <==> payload.Some?
    {
      submitting := true;
      if selectedSupplier == "" || |selectedProducts| == 0 {
        submitting := false;
        return None;
      }
      var values := Values(selectedProducts, lines);
      payload := Some(PurchasePayload(selectedSupplier, values, totalAmount));
    }

    /**
     * The rest of `handleAddPurchase`, given how the create request and the
     * list refresh that follows a success end. On success the modal closes,
     * the form is reset and the list reloaded; on failure `error` holds the
     * message. Either way `submitting` drops and the draft is kept.
     */
    method SubmitFinish(post: PostOutcome, refresh: ListOutcome)
      requires Valid() && submitting
      modifies this`submitting, this`showModal, this`formData, this`loading, this`error, this`data
      ensures Valid()
      ensures !submitting
      ensures post.Posted? ==> !showModal && formData == map["supplierId" := "", "date" := "", "totalAmount" := ""] && !loading
      ensures post.Posted? && refresh.Listed? ==> data == refresh.records.GetOr([]) && error == None
      ensures post.Posted? && refresh.ListFailed? ==> data == old(data) && error == Some(ErrorText(refresh.err))
      ensures post.PostFailed? ==> error == Some(ErrorText(post.err)) && showModal == old(showModal)
      ensures post.PostFailed? ==> formData == old(formData) && data == old(data) && loading == old(loading)
    {
      match post {
        case Posted =>
          showModal := false;
          formData := map["supplierId" := "", "date" := "", "totalAmount" := ""];
          GetPurchases(refresh);
        case PostFailed(err) =>
          error := Some(ErrorText(err));
      }
      submitting := false;
    }
  }

  /**
   * The page after the catalog [p1] arrives, the purchase list request ends
   * (so the page leaves "Loading Purchases..." and shows its button), and
   * "+ Add Purchase" opens the modal.
   */
  method PageWithCatalog() returns (page: PurchasesPage)
    ensures fresh(page) && page.Valid()
    ensures page.products == [Product("p1", "Pen", 10, Some("s1"))]
    ensures !page.loading && page.showModal
    ensures page.selectedSupplier == "" && page.selectedProducts == [] && page.lines == []
  {
    page := new PurchasesPage();
    page.ReceiveProducts(Some([Product("p1", "Pen", 10, Some("s1"))]));
    page.GetPurchases(Listed(None));
    page.SetShowModal(true);
  }

  /**
   * The page exactly as rendered: the catalog and the (empty) purchase list
   * arrive, the modal opens, the user picks supplier s1 and submits. No control adds a line, so the draft
   * is empty and the guard refuses.
   */
  method SubmitAsRendered() returns (payload: Option<PurchasePayload>)
    ensures payload.None?
  {
    var page := PageWithCatalog();
    page.HandleInputChange("supplier", "s1");
    payload := page.SubmitStart();
  }

  /**
   * The page as written, up to the submission: the user picks supplier s1
   * in the `<select>`; then `addProduct` and `handleProductChange` are
   * called directly, since no control of the page calls them. The choice
   * of supplier went to `formData`, not to `selectedSupplier`.
   */
  method SessionWithSupplierInForm() returns (page: PurchasesPage)
    ensures fresh(page) && page.Valid()
    ensures "supplier" in page.formData && page.formData["supplier"] == "s1"
    ensures page.selectedSupplier == "" && |page.selectedProducts| == 1
  {
    page := PageWithCatalog();
    page.HandleInputChange("supplier", "s1");
    AddLineAndPickPen(page);
  }

  /**
   * A direct call of `addProduct`, then of `handleProductChange` giving the
   * new line product p1; no element of the page calls either handler.
   */
  method AddLineAndPickPen(page: PurchasesPage)
    requires page.Valid() && page.products == [Product("p1", "Pen", 10, Some("s1"))]
    modifies page`selectedProducts, page`lines, page`totalAmount
    ensures page.Valid() && |page.selectedProducts| == |old(page.selectedProducts)| + 1
    ensures page.lines == old(page.lines) + [LineValue("p1", 1, 10, map[])]
    ensures page.totalAmount == old(page.totalAmount) + 10
  {
    page.AddProduct();
    var n := |page.selectedProducts| - 1;
    KnownProductSetsPrice(DefaultLine, "p1", page.products, 0);
    TimesIsProduct(1, 0);
    TimesIsProduct(1, 10);
    page.HandleProductChange(n, "productId", "p1");
  }

  /**
   * Submitting that session: the guard refuses, because `selectedSupplier`
   * is still "".
   */
  method SubmitWithSupplierInForm() returns (payload: Option<PurchasePayload>)
    ensures payload.None?
  {
    var page := SessionWithSupplierInForm();
    payload := page.SubmitStart();
  }

  /**
   * The same session when the supplier choice reaches `selectedSupplier`, up
   * to the submission: one line for p1 at p1's purchase price.
   */
  method SessionWithSupplierSelected() returns (page: PurchasesPage)
    ensures fresh(page) && page.Valid()
    ensures page.selectedSupplier == "s1" && page.lines == [LineValue("p1", 1, 10, map[])]
    ensures |page.selectedProducts| == 1 && page.totalAmount == 10
  {
    page := PageWithCatalog();
    page.SelectSupplier("s1");
    AddLineAndPickPen(page);
  }

  /**
   * Submitting that session: the request carries the supplier, the one line
   * with p1's price, and the total.
   */
  method SubmitWithSupplierSelected() returns (payload: Option<PurchasePayload>)
    ensures payload == Some(PurchasePayload("s1", [LineValue("p1", 1, 10, map[])], 10))
  {
    var page := SessionWithSupplierSelected();
    payload := page.SubmitStart();
  }
}
