/**
 * The product snapshot embedded in an offer-creation payload: the fixed list
 * of product fields, each copied from the loaded product.
 */
module OfferSnapshot {
  import opened Wrappers
  import opened JsValue

  /** The fields `products.map(p => ({ ... }))` copies, in the order written. */
  const SnapshotFields: seq<string> := [
    "id", "name", "description", "originalPrice", "price", "wholesalePrice", "stock",
    "averageRating", "mainImageUrl", "categoryId", "sectionId", "supplierId", "createdAt",
    "updatedAt", "colors", "measurements", "category", "section", "supplier",
    "displayPrice", "availablePrices"
  ]

  /** The snapshot list names 21 distinct fields. */
  lemma SnapshotFieldsAreDistinct()
    ensures |SnapshotFields| == 21
    ensures forall i, j :: 0 <= i < j < |SnapshotFields| ==> SnapshotFields[i] != SnapshotFields[j]
  {
  }

  /**
   * `snap` is a faithful snapshot of `p`: it has exactly the listed fields,
   * each holding `p`'s value for it.
   */
  ghost predicate Mirrors(snap: map<string, Value>, p: Value) {
    && (forall k :: k in snap <==> k in SnapshotFields)
    && (forall k :: k in snap ==> Prop(p, k) == Ok(snap[k]))
  }

  /**
   * One product's snapshot, as the object literal builds it: every listed
   * field holds `p[field]` (`undefined` where the product lacks it), and
   * nothing else of the product is kept. Reading a field of a `null` or
   * `undefined` product throws.
   */
  function SnapshotOf(p: Value): (r: Result<map<string, Value>, JsError>)
    ensures r.Err? <==> !Readable(p)
    ensures r.Ok? ==> Mirrors(r.value, p)
  {
    if !Readable(p) then Err(TypeError)
    else Ok(map k | k in SnapshotFields :: Prop(p, k).value)
  }

  /**
   * Round trip: a product object carrying exactly the listed fields comes
   * back field for field from its snapshot.
   */
  lemma SnapshotOfExactProduct(p: Value)
    requires p.Obj? && p.fields.Keys == set k | k in SnapshotFields
    ensures SnapshotOf(p) == Ok(p.fields)
  {
    var r := SnapshotOf(p).value;
    assert forall k :: k in r <==> k in p.fields;
    assert forall k :: k in r ==> r[k] == p.fields[k];
    assert r == p.fields;
  }

  /**
   * `products.map(...)` over the loaded products: only an array has `map`,
   * and every element is read. The snapshots keep the products' order, one
   * per product, each with its product's `id`.
   */
  function Snapshots(products: Value): (r: Result<seq<map<string, Value>>, JsError>)
    ensures r.Ok? <==> products.Arr? && forall i :: 0 <= i < |products.items| ==> SnapshotOf(products.items[i]).Ok?
    ensures r.Ok? ==> |r.value| == |products.items|
    ensures r.Ok? ==> forall i :: 0 <= i < |r.value| ==> Ok(r.value[i]) == SnapshotOf(products.items[i])
    ensures r.Ok? ==> forall i :: 0 <= i < |r.value| ==> Prop(products.items[i], "id") == Ok(r.value[i]["id"])
  {
    match products
    case Arr(xs) =>
      (match SnapshotList(xs)
       case Ok(ss) => Ok(ss)
       case Err(e) => Err(e))
    case _ => Err(TypeError)
  }

  function SnapshotList(xs: seq<Value>): (r: Result<seq<map<string, Value>>, JsError>)
    ensures r.Ok? <==> forall i :: 0 <= i < |xs| ==> SnapshotOf(xs[i]).Ok?
    ensures r.Ok? ==> |r.value| == |xs|
    ensures r.Ok? ==> forall i :: 0 <= i < |xs| ==> Ok(r.value[i]) == SnapshotOf(xs[i])
    decreases |xs|
  {
    if xs == [] then Ok([])
    else
      match SnapshotOf(xs[0])
      case Err(e) => Err(e)
      case Ok(head) =>
        match SnapshotList(xs[1..])
        case Err(e) => Err(e)
        case Ok(rest) => Ok([head] + rest)
  }

  /** Per entry: each snapshot mirrors its product, and so carries its `id`. */
  lemma SnapshotsMirrorProducts(products: Value)
    requires Snapshots(products).Ok?
    ensures var ss := Snapshots(products).value;
            forall i :: 0 <= i < |ss| ==> Mirrors(ss[i], products.items[i]) && "id" in ss[i]
  {
    var ss := Snapshots(products).value;
    assert "id" in SnapshotFields;
    forall i | 0 <= i < |ss|
      ensures Mirrors(ss[i], products.items[i]) && "id" in ss[i]
    {
      assert Ok(ss[i]) == SnapshotOf(products.items[i]);
    }
  }

  /** A one-product list carrying exactly the listed fields maps to that product's fields. */
  lemma SnapshotsOfOneExactProduct(product: Value)
    requires product.Obj? && product.fields.Keys == set k | k in SnapshotFields
    ensures Snapshots(Arr([product])) == Ok([product.fields])
  {
    SnapshotOfExactProduct(product);
    var one := [product];
    assert one[0] == product && one[1..] == [];
    assert SnapshotOf(one[0]) == Ok(product.fields);
    assert SnapshotList(one[1..]) == Ok([]);
    assert SnapshotList(one) == Ok([product.fields] + []);
    assert [product.fields] + [] == [product.fields];
  }
}
