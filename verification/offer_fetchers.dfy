/**
 * The offers page's four collection fetchers and its two single-offer reads.
 * Each fetcher's completion is one step on the page state that writes its
 * own slot and nothing else.
 */
module OfferFetchers {
  import opened Wrappers
  import opened JsValue
  import opened Http

  /** The offers page's collection slots, each holding whatever was stored. */
  datatype PageState = PageState(offers: Value, products: Value, categories: Value, sections: Value)

  datatype Slot = OffersSlot | ProductsSlot | CategoriesSlot | SectionsSlot

  /** Every slot starts as `[]`. */
  const Initial := PageState(EmptyArray, EmptyArray, EmptyArray, EmptyArray)

  function Get(s: PageState, slot: Slot): Value {
    match slot
    case OffersSlot => s.offers
    case ProductsSlot => s.products
    case CategoriesSlot => s.categories
    case SectionsSlot => s.sections
  }

  function Set(s: PageState, slot: Slot, v: Value): (r: PageState)
    ensures Get(r, slot) == v
    ensures forall other :: other != slot ==> Get(r, other) == Get(s, other)
  {
    match slot
    case OffersSlot => s.(offers := v)
    case ProductsSlot => s.(products := v)
    case CategoriesSlot => s.(categories := v)
    case SectionsSlot => s.(sections := v)
  }

  /** The key a wrapped body is expected to carry its list under. */
  function ListKey(slot: Slot): string {
    match slot
    case OffersSlot => "offers"
    case ProductsSlot => "products"
    case CategoriesSlot => "categories"
    case SectionsSlot => "sections"
  }

  /**
   * The tolerant decoder `Array.isArray(data) ? data : data[key] || []`:
   * a bare array is kept as it is, an object yields its entry under `key`
   * when that is truthy and `[]` otherwise, a scalar body yields `[]`, and
   * only reading the key of `null` (or `undefined`) throws.
   */
  function Decode(data: Value, key: string): (r: Result<Value, JsError>)
    ensures data.Arr? ==> r == Ok(data)
    ensures data.Obj? && key in data.fields && Truthy(data.fields[key]) ==> r == Ok(data.fields[key])
    ensures data.Obj? && !(key in data.fields && Truthy(data.fields[key])) ==> r == Ok(EmptyArray)
    ensures data.Bool? || data.Num? || data.Str? ==> r == Ok(EmptyArray)
    ensures r.Err? <==> !Readable(data)
  {
    if data.Arr? then Ok(data)
    else match Prop(data, key)
      case Ok(v) => Ok(Or(v, EmptyArray))
      case Err(e) => Err(e)
  }

  /**
   * The completion of one fetcher, given the outcome of its request.
   * `fetchOffers` stores the parsed body raw and keeps the slot when
   * anything throws; the other three store the decoded list and reset their
   * slot to `[]` when anything throws (including the decoder on `null`).
   * No fetcher looks at `res.ok`.
   */
  function FetchStep(s: PageState, slot: Slot, o: Outcome): (r: PageState)
    ensures forall other :: other != slot ==> Get(r, other) == Get(s, other)
    ensures slot == OffersSlot ==>
              Get(r, slot) == (match JsonBody(o) case Some(data) => data case None => s.offers)
    ensures (slot != OffersSlot && JsonBody(o).Some? && Decode(JsonBody(o).value, ListKey(slot)).Ok?)
            ==> Get(r, slot) == Decode(JsonBody(o).value, ListKey(slot)).value
    ensures (slot != OffersSlot && (JsonBody(o).None? || Decode(JsonBody(o).value, ListKey(slot)).Err?))
            ==> Get(r, slot) == EmptyArray
  {
    if slot == OffersSlot then
      match JsonBody(o)
      case Some(data) => Set(s, slot, data)
      case None => s
    else
      match JsonBody(o)
      case None => Set(s, slot, EmptyArray)
      case Some(data) =>
        match Decode(data, ListKey(slot))
        case Ok(list) => Set(s, slot, list)
        case Err(_) => Set(s, slot, EmptyArray)
  }

  /**
   * Failure isolation: a fetch that throws leaves the offers slot as it was,
   * sets a list slot to `[]`, and leaves the other three slots untouched.
   */
  lemma ThrownFetchIsolated(s: PageState, slot: Slot)
    ensures slot == OffersSlot ==> FetchStep(s, slot, Thrown) == s
    ensures slot != OffersSlot ==> FetchStep(s, slot, Thrown) == Set(s, slot, EmptyArray)
  {
  }

  /**
   * The four initial fetches may complete in any order: steps on different
   * slots commute, so every completion order gives the same page state.
   */
  lemma FetchStepsCommute(s: PageState, a: Slot, oa: Outcome, b: Slot, ob: Outcome)
    requires a != b
    ensures FetchStep(FetchStep(s, a, oa), b, ob) == FetchStep(FetchStep(s, b, ob), a, oa)
  {
    var l := FetchStep(FetchStep(s, a, oa), b, ob);
    var r := FetchStep(FetchStep(s, b, ob), a, oa);
    assert forall k :: Get(l, k) == Get(r, k);
  }

  /**
   * The page's first load: the four fetches started on mount complete in
   * either order to the same page, and when every one of them throws the
   * page keeps its initial empty lists.
   */
  lemma InitialLoadAnyOrder(oOffers: Outcome, oProducts: Outcome, oCategories: Outcome, oSections: Outcome)
    ensures FetchStep(FetchStep(FetchStep(FetchStep(Initial, OffersSlot, oOffers), ProductsSlot, oProducts),
                                CategoriesSlot, oCategories), SectionsSlot, oSections)
            == FetchStep(FetchStep(FetchStep(FetchStep(Initial, SectionsSlot, oSections), CategoriesSlot, oCategories),
                                   ProductsSlot, oProducts), OffersSlot, oOffers)
    ensures oOffers.Thrown? && oProducts.Thrown? && oCategories.Thrown? && oSections.Thrown? ==>
              FetchStep(FetchStep(FetchStep(FetchStep(Initial, OffersSlot, oOffers), ProductsSlot, oProducts),
                                  CategoriesSlot, oCategories), SectionsSlot, oSections) == Initial
  {
  }

  /**
   * Later completions win: a list slot holds what its last fetch produced,
   * and so does the offers slot unless that last fetch threw.
   */
  lemma LastFetchWins(s: PageState, slot: Slot, o1: Outcome, o2: Outcome)
    requires slot != OffersSlot || JsonBody(o2).Some?
    ensures FetchStep(FetchStep(s, slot, o1), slot, o2) == FetchStep(s, slot, o2)
  {
    var l := FetchStep(FetchStep(s, slot, o1), slot, o2);
    var r := FetchStep(s, slot, o2);
    assert forall k :: Get(l, k) == Get(r, k);
  }

  /** `fetchOfferById`: the parsed body, or `null` when the call or parse throws. */
  function FetchOfferById(o: Outcome): (r: Value)
    ensures o.Thrown? ==> r == Null
    ensures o.Response? && o.body.Some? ==> r == o.body.value
    ensures o.Response? && o.body.None? ==> r == Null
  {
    JsonBody(o).GetOr(Null)
  }

  /** `fetchOfferProducts`: the body when it is an array, otherwise `[]`. */
  function FetchOfferProducts(o: Outcome): (r: seq<Value>)
    ensures JsonBody(o).Some? && JsonBody(o).value.Arr? ==> r == JsonBody(o).value.items
    ensures !(JsonBody(o).Some? && JsonBody(o).value.Arr?) ==> r == []
  {
    match JsonBody(o)
    case Some(Arr(xs)) => xs
    case _ => []
  }
}
