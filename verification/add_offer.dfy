/**
 * The "add offer" form: its three loaders, and the submit handler that
 * checks the form, builds the creation payload, posts it and then either
 * clears the form or reports the server's message.
 */
module AddOffer {
  import opened Wrappers
  import opened JsValue
  import opened Http
  import JsString
  import opened OfferSnapshot

  /** The form's state hooks. */
  datatype Form = Form(
    title: string, description: string, image: string, isActive: bool,
    startDate: string, endDate: string,
    categories: Value, sections: Value,
    selectedCategory: string, selectedSection: string,
    products: Value)

  /** The value every hook starts with. */
  const InitialForm := Form("", "", "", true, "", "", EmptyArray, EmptyArray, "", "", EmptyArray)

  /**
   * One axios loader's completion: `current` is the slot's value before it.
   * A rejected request (transport failure or non-2xx status) is only logged.
   * An unparseable body stays a raw string, which has none of the keys read.
   * Reading a key of a `null` body throws inside `then` and is logged too.
   * Otherwise the slot becomes `data[key]`, or, when `fallback` names a key
   * and `data[key]` is falsy, `data[fallback]`.
   */
  function Load(current: Value, o: Outcome, key: string, fallback: Option<string>): (r: Value)
    ensures (o.Thrown? || !o.ok) ==> r == current
    ensures o.Response? && o.ok && o.body.None? ==> r == Undefined
    ensures o.Response? && o.ok && o.body.Some? && !Readable(o.body.value) ==> r == current
    ensures o.Response? && o.ok && o.body.Some? && Readable(o.body.value) && !o.body.value.Obj? ==> r == Undefined
  {
    match o
    case Thrown => current
    case Response(ok, body) =>
      if !ok then current
      else
        var data := body.GetOr(Str(""));
        match Prop(data, key)
        case Err(_) => current
        case Ok(v) =>
          match fallback
          case None => v
          case Some(alt) => Or(v, OptProp(data, alt))
  }

  /** `setProducts(res.data.products)`: no fallback, so a missing key stores `undefined`. */
  function LoadProducts(f: Form, o: Outcome): (r: Form)
    ensures r == f.(products := r.products)
    ensures o.Response? && o.ok && o.body.Some? && o.body.value.Obj?
            ==> r.products == Prop(o.body.value, "products").value
  {
    f.(products := Load(f.products, o, "products", None))
  }

  /** `setCategories(res.data.categories || res.data.products)`. */
  function LoadCategories(f: Form, o: Outcome): (r: Form)
    ensures r == f.(categories := r.categories)
  {
    f.(categories := Load(f.categories, o, "categories", Some("products")))
  }

  /** `setSections(res.data.sections || res.data.products)`. */
  function LoadSections(f: Form, o: Outcome): (r: Form)
    ensures r == f.(sections := r.sections)
  {
    f.(sections := Load(f.sections, o, "sections", Some("products")))
  }

  /**
   * The category and section loaders take the `products` entry whenever
   * their own key is missing or falsy, and their own entry otherwise.
   */
  lemma LoadersFallBackToProducts(f: Form, fields: map<string, Value>)
    ensures var c := LoadCategories(f, Response(true, Some(Obj(fields)))).categories;
            c == if "categories" in fields && Truthy(fields["categories"]) then fields["categories"]
                 else if "products" in fields then fields["products"] else Undefined
    ensures var s := LoadSections(f, Response(true, Some(Obj(fields)))).sections;
            s == if "sections" in fields && Truthy(fields["sections"]) then fields["sections"]
                 else if "products" in fields then fields["products"] else Undefined
  {
  }

  /** The creation payload built by `handleSubmit`. `None` ids stand for NaN. */
  datatype Payload = Payload(
    title: string, description: string, image: string, isActive: bool,
    startDate: string, endDate: string,
    categoryId: Option<nat>, sectionId: Option<nat>,
    products: seq<map<string, Value>>)

  /** Why a submit was refused before anything was sent, one alert each. */
  datatype Rejection = LoginRequired | SelectionRequired | NoProducts

  /** How a submit ended. `Threw`: an exception escaped the handler before the POST. */
  datatype SubmitEnd =
    | Rejected(reason: Rejection)
    | Threw(error: JsError)
    | Created
    | Failed(message: string)

  /** What a submit sent (if anything), how it ended, and the form afterwards. */
  datatype Submission = Submission(sent: Option<Payload>, end: SubmitEnd, form: Form)

  const FailurePrefix := "حدث خطأ أثناء إضافة العرض: "
  const UnknownError := "خطأ غير معروف"

  /** The JavaScript value `localStorage.getItem` returns: `null` or a string. */
  function StoredToken(token: Option<string>): Value {
    match token
    case None => Null
    case Some(t) => Str(t)
  }

  /** `!token` for what `localStorage.getItem` returns: absent or empty. */
  function MissingToken(token: Option<string>): (r: bool)
    ensures r <==> !Truthy(StoredToken(token))
  {
    token.None? || token.value == ""
  }

  /**
   * `products.length === 0`. Reading `length` of `null` or `undefined`
   * throws; values without a `length` compare unequal to 0.
   */
  function NoProductsLoaded(products: Value): (r: Result<bool, JsError>)
    ensures products.Arr? ==> r == Ok(|products.items| == 0)
    ensures r.Err? <==> !Readable(products)
  {
    match Length(products)
    case Some(n) => Ok(n == 0)
    case None =>
      match Prop(products, "length")
      case Err(e) => Err(e)
      case Ok(v) => Ok(v == Num(0))
  }

  /**
   * The payload literal. `toIso` is `new Date(s).toISOString()`, `None`
   * where that throws a RangeError. Fields are evaluated in the order
   * written, so a bad date is reported before an unmappable product list.
   */
  function BuildPayload(f: Form, toIso: string -> Option<string>): (r: Result<Payload, JsError>)
    ensures r.Ok? ==> && r.value.title == JsString.Trim(f.title)
                      && r.value.description == JsString.Trim(f.description)
                      && r.value.image == JsString.Trim(f.image)
                      && r.value.isActive == f.isActive
                      && r.value.categoryId == JsString.ToNumber(f.selectedCategory)
                      && r.value.sectionId == JsString.ToNumber(f.selectedSection)
                      && Ok(r.value.products) == Snapshots(f.products)
                      && Some(r.value.startDate) == toIso(f.startDate)
                      && Some(r.value.endDate) == toIso(f.endDate)
    ensures (toIso(f.startDate).None? || toIso(f.endDate).None?) ==> r == Err(RangeError)
    ensures toIso(f.startDate).Some? && toIso(f.endDate).Some? ==> (r.Ok? <==> Snapshots(f.products).Ok?)
  {
    match toIso(f.startDate)
    case None => Err(RangeError)
    case Some(start) =>
      match toIso(f.endDate)
      case None => Err(RangeError)
      case Some(end) =>
        match Snapshots(f.products)
        case Err(e) => Err(e)
        case Ok(snaps) =>
          Ok(Payload(JsString.Trim(f.title), JsString.Trim(f.description), JsString.Trim(f.image),
                     f.isActive, start, end,
                     JsString.ToNumber(f.selectedCategory), JsString.ToNumber(f.selectedSection),
                     snaps))
  }

  /** The success branch's resets: every form field back to its initial value. */
  function ResetFields(f: Form): (r: Form)
    ensures r.title == InitialForm.title && r.description == InitialForm.description && r.image == InitialForm.image
    ensures r.isActive == InitialForm.isActive
    ensures r.startDate == InitialForm.startDate && r.endDate == InitialForm.endDate
    ensures r.selectedCategory == InitialForm.selectedCategory && r.selectedSection == InitialForm.selectedSection
    ensures r.products == f.products && r.categories == f.categories && r.sections == f.sections
  {
    f.(title := "", description := "", image := "", isActive := true,
       startDate := "", endDate := "", selectedCategory := "", selectedSection := "")
  }

  /**
   * The message alerted when the POST fails: the fixed prefix followed by
   * `err.response?.data?.message` when that is truthy, else the fixed
   * default text. A transport failure has no response; an unparseable body
   * is a raw string without a `message`.
   */
  function FailureMessage(post: Outcome): (r: string)
    ensures |FailurePrefix| <= |r| && r[..|FailurePrefix|] == FailurePrefix
    ensures post.Thrown? || post.body.None? || !Truthy(OptProp(post.body.value, "message"))
            ==> r == FailurePrefix + UnknownError
    ensures post.Response? && post.body.Some? && OptProp(post.body.value, "message").Str?
            && Truthy(OptProp(post.body.value, "message"))
            ==> r == FailurePrefix + OptProp(post.body.value, "message").s
    ensures post.Response? && post.body.Some? && Truthy(OptProp(post.body.value, "message"))
            ==> r == FailurePrefix + ToJsString(OptProp(post.body.value, "message"))
  {
    var detail := match post
      case Thrown => Undefined
      case Response(_, None) => Undefined
      case Response(_, Some(data)) => OptProp(data, "message");
    FailurePrefix + (if Truthy(detail) then ToJsString(detail) else UnknownError)
  }

  /**
   * `handleSubmit`: the three guards in order, then the payload, then the
   * POST. axios resolves only on a 2xx status; every other status, like a
   * transport failure, lands in `catch`.
   */
  function Submit(f: Form, token: Option<string>, toIso: string -> Option<string>, post: Outcome): (r: Submission)
    ensures r.sent.None? ==> r.form == f
    ensures r.sent.Some? ==> !MissingToken(token) && f.selectedCategory != "" && f.selectedSection != ""
                             && f.products.Arr? && |f.products.items| > 0
                             && BuildPayload(f, toIso) == Ok(r.sent.value)
    ensures (!MissingToken(token) && f.selectedCategory != "" && f.selectedSection != ""
             && f.products.Arr? && |f.products.items| > 0 && BuildPayload(f, toIso).Ok?)
            ==> r.sent == Some(BuildPayload(f, toIso).value)
    ensures r.end.Rejected? || r.end.Threw? <==> r.sent.None?
    ensures r.end.Rejected? <==> MissingToken(token) || f.selectedCategory == "" || f.selectedSection == ""
                                 || NoProductsLoaded(f.products) == Ok(true)
    ensures (!MissingToken(token) && f.selectedCategory != "" && f.selectedSection != ""
             && NoProductsLoaded(f.products).Err?)
            ==> r.end == Threw(TypeError)
    ensures (!MissingToken(token) && f.selectedCategory != "" && f.selectedSection != ""
             && NoProductsLoaded(f.products) == Ok(false) && BuildPayload(f, toIso).Err?)
            ==> r.end == Threw(BuildPayload(f, toIso).error)
    ensures r.end.Created? <==> r.sent.Some? && post.Response? && post.ok
    ensures r.end.Created? ==> r.form == ResetFields(f)
    ensures r.end.Failed? ==> r.form == f && r.end.message == FailureMessage(post)
  {
    if MissingToken(token) then Submission(None, Rejected(LoginRequired), f)
    else if f.selectedCategory == "" || f.selectedSection == "" then Submission(None, Rejected(SelectionRequired), f)
    else match NoProductsLoaded(f.products)
      case Err(e) => Submission(None, Threw(e), f)
      case Ok(true) => Submission(None, Rejected(NoProducts), f)
      case Ok(false) =>
        match BuildPayload(f, toIso)
        case Err(e) => Submission(None, Threw(e), f)
        case Ok(payload) =>
          if post.Response? && post.ok then Submission(Some(payload), Created, ResetFields(f))
          else Submission(Some(payload), Failed(FailureMessage(post)), f)
  }

  /**
   * The guards run in order — token, then both selections, then a
   * non-empty product list — and a refused submit sends nothing and leaves
   * every form field as it was.
   */
  lemma GuardsRunInOrder(f: Form, token: Option<string>, toIso: string -> Option<string>, post: Outcome)
    ensures MissingToken(token) ==> Submit(f, token, toIso, post) == Submission(None, Rejected(LoginRequired), f)
    ensures !MissingToken(token) && (f.selectedCategory == "" || f.selectedSection == "")
            ==> Submit(f, token, toIso, post) == Submission(None, Rejected(SelectionRequired), f)
    ensures !MissingToken(token) && f.selectedCategory != "" && f.selectedSection != "" && f.products == EmptyArray
            ==> Submit(f, token, toIso, post) == Submission(None, Rejected(NoProducts), f)
  {
  }

  /**
   * The three text fields of the payload (the one `Submit` sends) are
   * trimmed: no whitespace at either end, and trimming them again changes
   * nothing.
   */
  lemma PayloadTextIsTrimmed(f: Form, toIso: string -> Option<string>)
    ensures BuildPayload(f, toIso).Ok? ==>
              var p := BuildPayload(f, toIso).value;
              && JsString.Trimmed(p.title) && JsString.Trim(p.title) == p.title
              && JsString.Trimmed(p.description) && JsString.Trim(p.description) == p.description
              && JsString.Trimmed(p.image) && JsString.Trim(p.image) == p.image
  {
    JsString.TrimIsWhitespaceFreeMiddle(f.title);
    JsString.TrimIsWhitespaceFreeMiddle(f.description);
    JsString.TrimIsWhitespaceFreeMiddle(f.image);
    JsString.TrimIdempotent(f.title);
    JsString.TrimIdempotent(f.description);
    JsString.TrimIdempotent(f.image);
  }

  /**
   * `isActive` is sent as chosen, and a category or section option whose
   * value was printed from a numeric id is sent as that id.
   */
  lemma PayloadSelectionsAreNumericIds(f: Form, toIso: string -> Option<string>, categoryId: nat, sectionId: nat)
    requires f.selectedCategory == JsString.ShowNat(categoryId)
    requires f.selectedSection == JsString.ShowNat(sectionId)
    ensures BuildPayload(f, toIso).Ok? ==>
              var p := BuildPayload(f, toIso).value;
              p.isActive == f.isActive && p.categoryId == Some(categoryId) && p.sectionId == Some(sectionId)
  {
    JsString.NumberOfShowNat(categoryId);
    JsString.NumberOfShowNat(sectionId);
  }

  /**
   * The payload's product list mirrors the loaded one: same length and
   * order, entry `i` carries product `i`'s `id`, exactly the 21 snapshot
   * fields, and product `i`'s value in each of them.
   */
  lemma PayloadProductsMirrorLoaded(f: Form, toIso: string -> Option<string>)
    ensures BuildPayload(f, toIso).Ok? ==>
              var p := BuildPayload(f, toIso).value;
              && f.products.Arr? && |p.products| == |f.products.items|
              && (forall i :: 0 <= i < |p.products| ==>
                    "id" in p.products[i] && Prop(f.products.items[i], "id") == Ok(p.products[i]["id"]))
              && (forall i :: 0 <= i < |p.products| ==> Mirrors(p.products[i], f.products.items[i]))
  {
    if BuildPayload(f, toIso).Ok? {
      var p := BuildPayload(f, toIso).value;
      assert Ok(p.products) == Snapshots(f.products);
      SnapshotsMirrorProducts(f.products);
    }
  }

  /**
   * A successful POST sends one payload and returns every form field to its
   * initial value, keeping only what the loaders fetched.
   */
  lemma CreatedResetsForm(f: Form, token: Option<string>, toIso: string -> Option<string>, post: Outcome)
    ensures Submit(f, token, toIso, post).end.Created? ==>
              && Submit(f, token, toIso, post).sent.Some?
              && Submit(f, token, toIso, post).form
                 == InitialForm.(categories := f.categories, sections := f.sections, products := f.products)
  {
  }

  /**
   * The failure message is the fixed prefix followed by the server's
   * `message` when one is given, else by the fixed default.
   */
  lemma FailureMessageShapes(post: Outcome, text: string)
    ensures text != "" && post == Response(false, Some(Obj(map["message" := Str(text)])))
            ==> FailureMessage(post) == FailurePrefix + text
    ensures post.Thrown? || post.body.None? || (post.body.value.Obj? && "message" !in post.body.value.fields)
            ==> FailureMessage(post) == FailurePrefix + UnknownError
  {
  }

  /**
   * A server that reports its validation errors as a list of strings gets
   * them joined with commas after the prefix.
   */
  lemma FailureMessageJoinsErrorList(ok: bool, a: string, b: string)
    ensures FailureMessage(Response(ok, Some(Obj(map["message" := Arr([Str(a), Str(b)])]))))
            == FailurePrefix + a + "," + b
  {
    var message := Arr([Str(a), Str(b)]);
    var post := Response(ok, Some(Obj(map["message" := message])));
    assert OptProp(post.body.value, "message") == message;
    assert ToJsString(message) == a + "," + b;
    assert FailurePrefix + (a + "," + b) == FailurePrefix + a + "," + b;
  }

  /** A failed POST resets nothing and alerts the failure message. */
  lemma FailedKeepsFormAndReportsMessage(f: Form, token: Option<string>, toIso: string -> Option<string>,
                                         post: Outcome, text: string)
    ensures Submit(f, token, toIso, post).end.Failed? ==>
              && Submit(f, token, toIso, post).form == f
              && !(post.Response? && post.ok)
              && (text != "" && post == Response(false, Some(Obj(map["message" := Str(text)])))
                  ==> Submit(f, token, toIso, post).end.message == FailurePrefix + text)
              && (post.Thrown? || post.body.None? || (post.body.value.Obj? && "message" !in post.body.value.fields)
                  ==> Submit(f, token, toIso, post).end.message == FailurePrefix + UnknownError)
  {
    FailureMessageShapes(post, text);
  }

  /**
   * End to end: with a token, category "1", section "2", parseable dates
   * and one loaded product carrying exactly the snapshot fields, the submit
   * posts one payload whose only product is that whole product object.
   */
  lemma SubmitEmbedsWholeProduct(f: Form, token: Option<string>, toIso: string -> Option<string>, post: Outcome,
                                 product: Value)
    requires !MissingToken(token)
    requires f.selectedCategory == "1" && f.selectedSection == "2"
    requires toIso(f.startDate).Some? && toIso(f.endDate).Some?
    requires product.Obj? && product.fields.Keys == set k | k in SnapshotFields
    requires f.products == Arr([product])
    ensures var r := Submit(f, token, toIso, post);
            && r.sent.Some?
            && r.sent.value.products == [product.fields]
            && r.sent.value.categoryId == Some(1) && r.sent.value.sectionId == Some(2)
  {
    SnapshotsOfOneExactProduct(product);
    assert JsString.ToNumber("1") == Some(1) by {
      assert JsString.ShowNat(1) == "1";
      JsString.NumberOfShowNat(1);
    }
    assert JsString.ToNumber("2") == Some(2) by {
      assert JsString.ShowNat(2) == "2";
      JsString.NumberOfShowNat(2);
    }
    var payload := BuildPayload(f, toIso);
    assert payload.Ok? && payload.value.products == [product.fields];
  }
}
