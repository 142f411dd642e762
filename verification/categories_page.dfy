/**
 * The categories page: the conditional list update done by
 * `fetchCategories`, and the two figures and the nested-section list it
 * renders from that list.
 */
module CategoriesPage {
  import opened Wrappers
  import opened JsValue
  import opened Http

  /**
   * `fetchCategories`: the list is replaced by `data.categories` only when
   * the parsed body is truthy and that entry is truthy; a thrown call, an
   * unparseable body or any other body keeps the list. The status is not
   * looked at.
   */
  function FetchCategories(categories: Value, o: Outcome): (r: Value)
    ensures r != categories ==>
              JsonBody(o).Some? && Truthy(JsonBody(o).value)
              && Prop(JsonBody(o).value, "categories") == Ok(r) && Truthy(r)
    ensures (JsonBody(o).Some? && JsonBody(o).value.Obj? && "categories" in JsonBody(o).value.fields
             && Truthy(JsonBody(o).value.fields["categories"]))
            ==> r == JsonBody(o).value.fields["categories"]
    ensures o.Thrown? ==> r == categories
  {
    match JsonBody(o)
    case None => categories
    case Some(data) =>
      if Truthy(data) && Truthy(Prop(data, "categories").value) then Prop(data, "categories").value
      else categories
  }

  /**
   * `cat.productsCount || 0` as the running sum adds it: a falsy count is
   * 0, a number counts as itself and `true` as 1. `None` where reading the
   * count throws (a `null` entry) or where the sum would turn into string
   * concatenation (a non-empty string, an array or an object).
   */
  function CountOf(cat: Value): (r: Option<int>)
    ensures Prop(cat, "productsCount").Ok? && !Truthy(Prop(cat, "productsCount").value) ==> r == Some(0)
    ensures Prop(cat, "productsCount").Ok? && Prop(cat, "productsCount").value.Num?
            ==> r == Some(Prop(cat, "productsCount").value.n)
    ensures Prop(cat, "productsCount") == Ok(Bool(true)) ==> r == Some(1)
    ensures r.None? <==> Prop(cat, "productsCount").Err?
                         || (Truthy(Prop(cat, "productsCount").value)
                             && !(Prop(cat, "productsCount").value.Num? || Prop(cat, "productsCount").value.Bool?))
  {
    match Prop(cat, "productsCount")
    case Err(_) => None
    case Ok(v) =>
      if !Truthy(v) then Some(0)
      else match v
        case Num(n) => Some(n)
        case Bool(_) => Some(1)
        case _ => None
  }

  /**
   * `categories.reduce((acc, cat) => acc + (cat.productsCount || 0), 0)`, a
   * left fold: `None` if any category throws (a `null` entry) or carries a
   * count the sum cannot add as a number.
   */
  function ProductsTotal(cats: seq<Value>): (r: Option<int>)
    ensures r.Some? <==> AllCounted(cats)
    decreases |cats|
  {
    if cats == [] then Some(0)
    else
      assert forall i :: 0 <= i < |cats| - 1 ==> cats[..|cats| - 1][i] == cats[i];
      match ProductsTotal(cats[..|cats| - 1])
      case None => None
      case Some(acc) =>
        match CountOf(cats[|cats| - 1])
        case None => None
        case Some(c) => Some(acc + c)
  }

  /** The two figures above the grid. */
  datatype Stats = Stats(categoryCount: nat, productsTotal: int)

  /**
   * The header figures for the stored list: the count is `categories.length`
   * and the total is the fold. `None` when rendering throws (a stored value
   * that is not an array has no `reduce`, a `null` entry has no count) and
   * also when a count would turn the sum into a string, which is not
   * modelled although the page still shows both figures then.
   */
  function StatsOf(categories: Value): (r: Option<Stats>)
    ensures r.Some? ==> categories.Arr? && r.value.categoryCount == |categories.items|
    ensures r.Some? ==> Some(r.value.productsTotal) == ProductsTotal(categories.items)
    ensures categories.Arr? && ProductsTotal(categories.items).Some? ==> r.Some?
  {
    match categories
    case Arr(xs) =>
      (match ProductsTotal(xs)
       case Some(t) => Some(Stats(|xs|, t))
       case None => None)
    case _ => None
  }

  /** Appending a category raises the total by its defaulted count. */
  lemma TotalAppend(cats: seq<Value>, cat: Value)
    ensures ProductsTotal(cats + [cat]).Some? <==> ProductsTotal(cats).Some? && CountOf(cat).Some?
    ensures ProductsTotal(cats + [cat]).Some? ==>
              ProductsTotal(cats + [cat]).value == ProductsTotal(cats).value + CountOf(cat).value
  {
    assert (cats + [cat])[..|cats|] == cats;
  }

  /** Every entry has a count the fold can add. */
  predicate AllCounted(cats: seq<Value>) {
    forall i :: 0 <= i < |cats| ==> CountOf(cats[i]).Some?
  }

  /** The total of two lists side by side is the sum of their totals. */
  lemma {:induction false} TotalConcat(a: seq<Value>, b: seq<Value>)
    ensures ProductsTotal(a + b).Some? <==> ProductsTotal(a).Some? && ProductsTotal(b).Some?
    ensures ProductsTotal(a + b).Some? ==>
              ProductsTotal(a + b).value == ProductsTotal(a).value + ProductsTotal(b).value
    decreases |b|
  {
    if b == [] {
      assert a + b == a;
    } else {
      var b' := b[..|b| - 1];
      var last := b[|b| - 1];
      assert a + b == (a + b') + [last];
      assert b == b' + [last];
      TotalConcat(a, b');
      TotalAppend(a + b', last);
      TotalAppend(b', last);
    }
  }

  /** When every count is non-negative, so is the total. */
  lemma {:induction false} TotalNonNegative(cats: seq<Value>)
    ensures ProductsTotal(cats).Some? && (forall i :: 0 <= i < |cats| ==> CountOf(cats[i]).value >= 0)
            ==> ProductsTotal(cats).value >= 0
    decreases |cats|
  {
    if cats != [] {
      var init := cats[..|cats| - 1];
      TotalNonNegative(init);
      assert forall i :: 0 <= i < |init| ==> init[i] == cats[i];
    }
  }

  /**
   * `v.length > 0` for the values the guard can meet: an array or a string
   * compares its length, an object its `length` entry. A number compares as
   * itself and a boolean as 0 or 1; `undefined` and anything else compare
   * false here.
   */
  predicate LengthPositive(v: Value) {
    match Length(v)
    case Some(n) => n > 0
    case None =>
      match Prop(v, "length")
      case Ok(Num(n)) => n > 0
      case Ok(Bool(b)) => b
      case _ => false
  }

  /**
   * `category.sections && category.sections.length > 0`: the nested list
   * is shown exactly when `sections` is truthy and its `length` is
   * positive; for an array that is exactly "present and non-empty". A
   * `null` entry in the list throws.
   */
  function ShowsSections(cat: Value): (r: Result<bool, JsError>)
    ensures r.Err? <==> !Readable(cat)
    ensures Readable(cat) && !cat.Obj? ==> r == Ok(false)
    ensures cat.Obj? && "sections" in cat.fields && cat.fields["sections"].Arr?
            ==> r == Ok(|cat.fields["sections"].items| > 0)
    ensures cat.Obj? && !("sections" in cat.fields && Truthy(cat.fields["sections"])) ==> r == Ok(false)
    ensures cat.Obj? && "sections" in cat.fields && cat.fields["sections"].Str? ==> r == Ok(Truthy(cat.fields["sections"]))
    ensures cat.Obj? && "sections" in cat.fields && (cat.fields["sections"].Num? || cat.fields["sections"].Bool?)
            ==> r == Ok(false)
    ensures (cat.Obj? && "sections" in cat.fields && cat.fields["sections"].Obj?
             && "length" in cat.fields["sections"].fields && cat.fields["sections"].fields["length"].Num?)
            ==> r == Ok(cat.fields["sections"].fields["length"].n > 0)
    ensures (cat.Obj? && "sections" in cat.fields && cat.fields["sections"].Obj?
             && "length" !in cat.fields["sections"].fields)
            ==> r == Ok(false)
  {
    match Prop(cat, "sections")
    case Err(e) => Err(e)
    case Ok(v) => Ok(Truthy(v) && LengthPositive(v))
  }

  /** Every entry can be read, so `section.id` and `section.name` do not throw. */
  predicate AllReadable(xs: seq<Value>) {
    forall i :: 0 <= i < |xs| ==> Readable(xs[i])
  }

  /**
   * The nested list a category card renders. When the guard fails nothing
   * is listed; when it holds, `category.sections.map` throws unless
   * `sections` is an array, and rendering an entry throws on a `null` or
   * `undefined` section.
   */
  function RenderedSections(cat: Value): (r: Result<seq<Value>, JsError>)
    ensures ShowsSections(cat).Err? ==> r.Err?
    ensures ShowsSections(cat) == Ok(false) ==> r == Ok([])
    ensures ShowsSections(cat) == Ok(true) ==>
              (r.Ok? <==> cat.fields["sections"].Arr? && AllReadable(cat.fields["sections"].items))
    ensures ShowsSections(cat) == Ok(true) && r.Ok? ==> r.value == cat.fields["sections"].items
  {
    match ShowsSections(cat)
    case Err(e) => Err(e)
    case Ok(false) => Ok([])
    case Ok(true) =>
      var v := cat.fields["sections"];
      if v.Arr? && AllReadable(v.items) then Ok(v.items) else Err(TypeError)
  }

  /**
   * A card lists sections exactly when `sections` is a non-empty array of
   * readable entries, and then it lists that array; a category whose guard
   * passes on a non-array `sections` (a string, an object with a positive
   * `length`) fails to render.
   */
  lemma SectionsListedOnlyFromArrays(cat: Value)
    ensures (RenderedSections(cat).Ok? && RenderedSections(cat).value != [])
            <==> (cat.Obj? && "sections" in cat.fields && cat.fields["sections"].Arr?
                  && cat.fields["sections"].items != [] && AllReadable(cat.fields["sections"].items))
    ensures RenderedSections(cat).Ok? && RenderedSections(cat).value != []
            ==> cat.fields["sections"] == Arr(RenderedSections(cat).value)
    ensures ShowsSections(cat) == Ok(true) && !cat.fields["sections"].Arr? ==> RenderedSections(cat).Err?
  {
  }
}
