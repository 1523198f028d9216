/**
 * The "Add A Purchase" form: a Formik form whose values hold the chosen
 * supplier, the selected products (one line per product, toggled by a
 * checkbox) and the total, recomputed after every change of the lines.
 */
module AddPurchase {
  import opened Wrappers
  import opened JsArray
  import opened Catalog

  /** One entry of `values.products`: `{productId, qty, purchasePrice}`. */
  datatype SelectedLine = SelectedLine(productId: string, qty: int, purchasePrice: int)

  function Amount(l: SelectedLine): int {
    l.qty * l.purchasePrice
  }

  /** `prdVals.reduce((prev, acc) => prev + acc.qty * acc.purchasePrice, 0)`. */
  function Total(s: seq<SelectedLine>): int {
    SumOf(s, Amount)
  }

  /** The predicate `p => p.productId === id`. */
  function IsProduct(id: string): SelectedLine -> bool {
    (l: SelectedLine) => l.productId == id
  }

  /** The predicate `p => p.productId !== id`. */
  function NotProduct(id: string): SelectedLine -> bool {
    (l: SelectedLine) => l.productId != id
  }

  /** The checkbox of product `id` is on: some line carries that product. */
  predicate Selected(s: seq<SelectedLine>, id: string) {
    exists i | 0 <= i < |s| :: s[i].productId == id
  }

  /** No two lines carry the same product. */
  predicate UniqueByProduct(s: seq<SelectedLine>) {
    forall i, j | 0 <= i < j < |s| :: s[i].productId != s[j].productId
  }

  /** The predicate `p => p.supplier?._id === supplierId`. */
  function SuppliedBy(supplierId: string): Product -> bool {
    (p: Product) => p.supplier == Some(supplierId)
  }

  /** The products offered as checkboxes for the chosen supplier. */
  function ProductsForSupplier(catalog: seq<Product>, supplierId: string): seq<Product> {
    Filter(catalog, SuppliedBy(supplierId))
  }

  /** The line a checked product gets: quantity 1 at the catalog's purchase price. */
  function NewLine(prd: Product): SelectedLine {
    SelectedLine(prd.id, 1, prd.purchasePrice)
  }

  function WithoutProduct(s: seq<SelectedLine>, id: string): seq<SelectedLine> {
    Filter(s, NotProduct(id))
  }

  /** The lines after the checkbox of `prd` is clicked. */
  function Toggled(s: seq<SelectedLine>, prd: Product): seq<SelectedLine> {
    if Selected(s, prd.id) then WithoutProduct(s, prd.id) else s + [NewLine(prd)]
  }

  /** The lines after the quantity input of product `id` is set to `qty`. */
  function QuantityEdited(s: seq<SelectedLine>, id: string, qty: int): seq<SelectedLine> {
    var idx := FindIndex(s, IsProduct(id));
    if idx > -1 then s[idx := s[idx].(qty := qty)] else s
  }

  // ---------------------------------------------------------------------
  // The supplier filter

  /** Offered are exactly the catalog products whose supplier is the chosen one. */
  lemma OfferedExactly(catalog: seq<Product>, supplierId: string)
    ensures forall p :: p in ProductsForSupplier(catalog, supplierId) <==> p in catalog && p.supplier == Some(supplierId)
  {
    FilterMembers(catalog, SuppliedBy(supplierId));
  }

  /** The filter keeps catalog order: it splits over any cut of the catalog. */
  lemma OfferedInCatalogOrder(a: seq<Product>, b: seq<Product>, supplierId: string)
    ensures ProductsForSupplier(a + b, supplierId) == ProductsForSupplier(a, supplierId) + ProductsForSupplier(b, supplierId)
  {
    FilterAppend(a, b, SuppliedBy(supplierId));
  }

  // ---------------------------------------------------------------------
  // Removing a product

  /** Removal drops every line of the product and keeps every other line. */
  lemma WithoutProductMembers(s: seq<SelectedLine>, id: string)
    ensures !Selected(WithoutProduct(s, id), id)
    ensures forall l :: l in WithoutProduct(s, id) <==> l in s && l.productId != id
  {
    FilterMembers(s, NotProduct(id));
    var w := WithoutProduct(s, id);
    forall i | 0 <= i < |w| ensures w[i].productId != id {
      assert w[i] in w;
    }
  }

  /** Removing a product that has no line changes nothing. */
  lemma WithoutAbsentProduct(s: seq<SelectedLine>, id: string)
    requires !Selected(s, id)
    ensures WithoutProduct(s, id) == s
  {
    FilterKeepsAll(s, NotProduct(id));
  }

  /** In a unique list, removal takes out the one line of the product, keeping the order of the rest. */
  lemma WithoutProductOfUnique(s: seq<SelectedLine>, i: nat)
    requires UniqueByProduct(s) && i < |s|
    ensures WithoutProduct(s, s[i].productId) == s[..i] + s[i + 1..]
  {
    var id := s[i].productId;
    assert s == s[..i] + [s[i]] + s[i + 1..];
    FilterAppend(s[..i] + [s[i]], s[i + 1..], NotProduct(id));
    FilterAppend(s[..i], [s[i]], NotProduct(id));
    assert !Selected(s[..i], id) by {
      forall k | 0 <= k < i ensures s[..i][k].productId != id {
        assert s[..i][k] == s[k];
      }
    }
    var tail := s[i + 1..];
    assert !Selected(tail, id) by {
      forall k | 0 <= k < |tail| ensures tail[k].productId != id {
        assert tail[k] == s[i + 1 + k];
      }
    }
    WithoutAbsentProduct(s[..i], id);
    WithoutAbsentProduct(s[i + 1..], id);
    assert Filter([s[i]], NotProduct(id)) == [] by {
      assert [s[i]][1..] == [];
    }
  }

  lemma UniqueCons(x: SelectedLine, t: seq<SelectedLine>)
    ensures UniqueByProduct([x] + t) <==> UniqueByProduct(t) && !Selected(t, x.productId)
  {
    var s := [x] + t;
    if UniqueByProduct(s) {
      forall i, j | 0 <= i < j < |t| ensures t[i].productId != t[j].productId {
        assert s[i + 1] == t[i] && s[j + 1] == t[j];
      }
      forall i | 0 <= i < |t| ensures t[i].productId != x.productId {
        assert s[0] == x && s[i + 1] == t[i];
      }
    }
    if UniqueByProduct(t) && !Selected(t, x.productId) {
      forall i, j | 0 <= i < j < |s| ensures s[i].productId != s[j].productId {
        assert s[j] == t[j - 1];
        if i > 0 {
          assert s[i] == t[i - 1];
        }
      }
    }
  }

  /** Removing a product keeps a unique list unique. */
  lemma {:induction false} WithoutProductKeepsUnique(s: seq<SelectedLine>, id: string)
    requires UniqueByProduct(s)
    ensures UniqueByProduct(WithoutProduct(s, id))
  {
    if s != [] {
      assert s == [s[0]] + s[1..];
      UniqueCons(s[0], s[1..]);
      WithoutProductKeepsUnique(s[1..], id);
      var rest := WithoutProduct(s[1..], id);
      if s[0].productId != id {
        assert WithoutProduct(s, id) == [s[0]] + rest;
        FilterMembers(s[1..], NotProduct(id));
        forall k | 0 <= k < |rest| ensures rest[k].productId != s[0].productId {
          assert rest[k] in s[1..];
        }
        UniqueCons(s[0], rest);
      } else {
        assert WithoutProduct(s, id) == rest;
      }
    }
  }

  // ---------------------------------------------------------------------
  // Toggling a checkbox

  /** Checking a product with no line appends its line at the end and keeps the rest. */
  lemma ToggleOnAppends(s: seq<SelectedLine>, prd: Product)
    requires !Selected(s, prd.id)
    ensures Toggled(s, prd) == s + [SelectedLine(prd.id, 1, prd.purchasePrice)]
  {
  }

  /** Unchecking a product of a unique list removes its one line, keeping the order of the rest. */
  lemma ToggleOffRemoves(s: seq<SelectedLine>, prd: Product, i: nat)
    requires UniqueByProduct(s) && i < |s| && s[i].productId == prd.id
    ensures Toggled(s, prd) == s[..i] + s[i + 1..]
  {
    WithoutProductOfUnique(s, i);
  }

  /** Toggling keeps the lines unique by product. */
  lemma ToggleKeepsUnique(s: seq<SelectedLine>, prd: Product)
    requires UniqueByProduct(s)
    ensures UniqueByProduct(Toggled(s, prd))
  {
    if Selected(s, prd.id) {
      WithoutProductKeepsUnique(s, prd.id);
    }
  }

  /** Checking then unchecking a product with no line restores the lines exactly. */
  lemma ToggleTwiceRestores(s: seq<SelectedLine>, prd: Product)
    requires !Selected(s, prd.id)
    ensures Toggled(Toggled(s, prd), prd) == s
  {
    var t := s + [NewLine(prd)];
    assert t[|s|].productId == prd.id;
    FilterAppend(s, [NewLine(prd)], NotProduct(prd.id));
    WithoutAbsentProduct(s, prd.id);
    assert Filter([NewLine(prd)], NotProduct(prd.id)) == [] by {
      assert [NewLine(prd)][1..] == [];
    }
  }

  /** Unchecking then checking a product brings it back at the end with quantity 1. */
  lemma ReselectGoesToEnd(s: seq<SelectedLine>, prd: Product)
    requires Selected(s, prd.id)
    ensures Toggled(Toggled(s, prd), prd) == WithoutProduct(s, prd.id) + [SelectedLine(prd.id, 1, prd.purchasePrice)]
  {
    WithoutProductMembers(s, prd.id);
  }

  /** Checking a product adds its purchase price to the total. */
  lemma TotalToggleOn(s: seq<SelectedLine>, prd: Product)
    requires !Selected(s, prd.id)
    ensures Total(Toggled(s, prd)) == Total(s) + prd.purchasePrice
  {
    SumOfAppend(s, [NewLine(prd)], Amount);
    assert [NewLine(prd)][..0] == [];
  }

  /** Unchecking a product of a unique list subtracts that line's amount from the total. */
  lemma TotalToggleOff(s: seq<SelectedLine>, prd: Product, i: nat)
    requires UniqueByProduct(s) && i < |s| && s[i].productId == prd.id
    ensures Total(Toggled(s, prd)) == Total(s) - s[i].qty * s[i].purchasePrice
  {
    WithoutProductOfUnique(s, i);
    assert s == s[..i] + [s[i]] + s[i + 1..];
    SumOfAppend(s[..i] + [s[i]], s[i + 1..], Amount);
    SumOfAppend(s[..i], [s[i]], Amount);
    SumOfAppend(s[..i], s[i + 1..], Amount);
    assert [s[i]][..0] == [];
  }

  // ---------------------------------------------------------------------
  // Editing a quantity

  /**
   * A quantity edit keeps the length, every product id and every price, and
   * changes no line of another product; when the product has no line it
   * changes nothing.
   */
  lemma QuantityEditShape(s: seq<SelectedLine>, id: string, qty: int)
    ensures |QuantityEdited(s, id, qty)| == |s|
    ensures forall j | 0 <= j < |s| ::
      QuantityEdited(s, id, qty)[j].productId == s[j].productId &&
      QuantityEdited(s, id, qty)[j].purchasePrice == s[j].purchasePrice &&
      (s[j].productId != id ==> QuantityEdited(s, id, qty)[j] == s[j])
    ensures !Selected(s, id) ==> QuantityEdited(s, id, qty) == s
  {
  }

  /** In a unique list, the edit sets `qty` of the product's line and of no other. */
  lemma QuantityEditSets(s: seq<SelectedLine>, id: string, qty: int)
    requires UniqueByProduct(s)
    ensures forall j | 0 <= j < |s| ::
      QuantityEdited(s, id, qty)[j] == if s[j].productId == id then s[j].(qty := qty) else s[j]
  {
  }

  /** A quantity edit keeps the lines unique by product. */
  lemma QuantityEditKeepsUnique(s: seq<SelectedLine>, id: string, qty: int)
    requires UniqueByProduct(s)
    ensures UniqueByProduct(QuantityEdited(s, id, qty))
  {
    QuantityEditShape(s, id, qty);
  }

  /** A quantity edit moves the total by the change of that line's amount. */
  lemma TotalQuantityEdit(s: seq<SelectedLine>, i: nat, qty: int)
    requires i < |s| && forall k | 0 <= k < i :: s[k].productId != s[i].productId
    ensures Total(QuantityEdited(s, s[i].productId, qty)) == Total(s) - s[i].qty * s[i].purchasePrice + qty * s[i].purchasePrice
  {
    var id := s[i].productId;
    assert FindIndex(s, IsProduct(id)) == i;
    SumOfUpdate(s, i, s[i].(qty := qty), Amount);
  }

  // ---------------------------------------------------------------------
  // The form state

  /** The Formik `values` of the form. */
  class PurchaseForm {
    var supplierId: string
    var products: seq<SelectedLine>
    var totalAmount: int
    var newProducts: seq<SelectedLine>

    /** The lines are unique by product and the total is never stale. */
    predicate Valid()
      reads this
    {
      UniqueByProduct(products) && totalAmount == Total(products)
    }

    /** `initialValues`: no supplier, no lines, total 0. */
    constructor ()
      ensures Valid()
      ensures supplierId == "" && products == [] && totalAmount == 0 && newProducts == []
    {
      supplierId := "";
      products := [];
      totalAmount := 0;
      newProducts := [];
    }

    /** The checkbox rows: the catalog products of the chosen supplier. */
    function Offered(catalog: seq<Product>): (r: seq<Product>)
      reads this
      ensures forall p :: p in r <==> p in catalog && p.supplier == Some(supplierId)
    {
      OfferedExactly(catalog, supplierId);
      ProductsForSupplier(catalog, supplierId)
    }

    /** The supplier `<select>`: only `supplierId` changes; the lines are kept. */
    method ChangeSupplier(id: string)
      requires Valid()
      modifies this
      ensures Valid()
      ensures supplierId == id
      ensures products == old(products) && totalAmount == old(totalAmount) && newProducts == old(newProducts)
    {
      supplierId := id;
    }

    /** The checkbox handler of product `prd`. */
    method ToggleProduct(prd: Product)
      requires Valid()
      modifies this
      ensures Valid()
      ensures products == Toggled(old(products), prd)
      ensures totalAmount == Total(products)
      ensures supplierId == old(supplierId) && newProducts == old(newProducts)
    {
      var prdVals := products;
      var idx := FindIndex(prdVals, IsProduct(prd.id));
      if idx > -1 {
        prdVals := Filter(prdVals, NotProduct(prd.id));
      } else {
        prdVals := prdVals + [NewLine(prd)];
      }
      ToggleKeepsUnique(products, prd);
      products := prdVals;
      totalAmount := Total(prdVals);
    }

    /** The quantity input of product `productId`, with the integer `parseInt` gave. */
    method EditQuantity(productId: string, qty: int)
      requires Valid()
      modifies this
      ensures Valid()
      ensures products == QuantityEdited(old(products), productId, qty)
      ensures totalAmount == Total(products)
      ensures supplierId == old(supplierId) && newProducts == old(newProducts)
    {
      var prdVals := products;
      var idx := FindIndex(prdVals, IsProduct(productId));
      if idx > -1 {
        prdVals := prdVals[idx := prdVals[idx].(qty := qty)];
      }
      QuantityEditKeepsUnique(products, productId, qty);
      products := prdVals;
      totalAmount := Total(prdVals);
    }
  }

  /** With p1 from supplier s1 and p2 from s2, supplier s1 is offered p1 only. */
  lemma OfferedForOneSupplier()
    ensures ProductsForSupplier([Product("p1", "Pen", 10, Some("s1")), Product("p2", "Ink", 20, Some("s2"))], "s1")
         == [Product("p1", "Pen", 10, Some("s1"))]
  {
    var p1 := Product("p1", "Pen", 10, Some("s1"));
    var p2 := Product("p2", "Ink", 20, Some("s2"));
    assert [p1, p2] == [p1] + [p2];
    OfferedInCatalogOrder([p1], [p2], "s1");
    assert [p1][1..] == [] && [p2][1..] == [];
  }

  /** The form after supplier s1 is chosen and p1 (price 10) is checked. */
  method FormWithPen() returns (form: PurchaseForm)
    ensures fresh(form) && form.Valid()
    ensures form.products == [SelectedLine("p1", 1, 10)] && form.totalAmount == 10
  {
    form := new PurchaseForm();
    form.ChangeSupplier("s1");
    form.ToggleProduct(Product("p1", "Pen", 10, Some("s1")));
    assert form.products[..0] == [];
  }

  /** Setting the quantity of that one line to 3 makes the total 30. */
  method EditPenQuantity(form: PurchaseForm)
    requires form.Valid() && form.products == [SelectedLine("p1", 1, 10)]
    modifies form
    ensures form.Valid()
    ensures form.products == [SelectedLine("p1", 3, 10)] && form.totalAmount == 30
  {
    form.EditQuantity("p1", 3);
    assert form.products == [SelectedLine("p1", 3, 10)];
    assert [SelectedLine("p1", 3, 10)][..0] == [];
    assert Total([SelectedLine("p1", 3, 10)]) == 30;
  }

  /**
   * One session on the form: check p1 (price 10), set its quantity to 3,
   * uncheck it. Returns the totals after each step and the final lines.
   */
  method SelectEditDeselect() returns (totals: seq<int>, lines: seq<SelectedLine>)
    ensures totals == [10, 30, 0]
    ensures lines == []
  {
    var form := FormWithPen();
    var t1 := form.totalAmount;
    EditPenQuantity(form);
    var t2 := form.totalAmount;
    WithoutProductOfUnique(form.products, 0);
    form.ToggleProduct(Product("p1", "Pen", 10, Some("s1")));
    totals := [t1, t2, form.totalAmount];
    lines := form.products;
  }
}
