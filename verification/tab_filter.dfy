/**
 * The offers grid's tab filter: `offers.filter(offer => ...)` with the
 * callback chosen by `activeTab`.
 */
module TabFilter {
  import opened Wrappers
  import opened JsValue

  const AllTab := "all"
  const ActiveTab := "active"
  const InactiveTab := "inactive"

  /**
   * The filter callback. `all` keeps every offer without reading it, `active`
   * and `inactive` read `offer.isActive` (which throws on a null or undefined
   * offer), and any other tab falls off the end of the callback, returning
   * `undefined`, which drops the offer.
   */
  function Keep(tab: string, offer: Value): (r: Result<bool, JsError>)
    ensures tab == AllTab ==> r == Ok(true)
    ensures tab == ActiveTab ==> (r.Err? <==> !Readable(offer)) && (r.Ok? ==> r.value == IsActive(offer))
    ensures tab == InactiveTab ==> (r.Err? <==> !Readable(offer)) && (r.Ok? ==> r.value == !IsActive(offer))
    ensures tab != AllTab && tab != ActiveTab && tab != InactiveTab ==> r == Ok(false)
  {
    if tab == AllTab then Ok(true)
    else if tab == ActiveTab then
      (match Prop(offer, "isActive") case Ok(v) => Ok(Truthy(v)) case Err(e) => Err(e))
    else if tab == InactiveTab then
      (match Prop(offer, "isActive") case Ok(v) => Ok(!Truthy(v)) case Err(e) => Err(e))
    else Ok(false)
  }

  /** The offer is active: its `isActive` property is truthy. */
  predicate IsActive(offer: Value) {
    Prop(offer, "isActive").Ok? && Truthy(Prop(offer, "isActive").value)
  }

  /** `Array.prototype.filter` with the tab callback over the elements `xs`. */
  function FilterSeq(xs: seq<Value>, tab: string): (r: Result<seq<Value>, JsError>)
    ensures r.Ok? <==> forall i :: 0 <= i < |xs| ==> Keep(tab, xs[i]).Ok?
    ensures r.Ok? ==> IsSubsequence(r.value, xs)
    ensures r.Ok? ==> forall i :: 0 <= i < |r.value| ==> Keep(tab, r.value[i]) == Ok(true)
    decreases |xs|
  {
    if xs == [] then Ok([])
    else
      assert forall i :: 1 <= i < |xs| ==> xs[1..][i - 1] == xs[i];
      match Keep(tab, xs[0])
      case Err(e) => Err(e)
      case Ok(keep) =>
        match FilterSeq(xs[1..], tab)
        case Err(e) => Err(e)
        case Ok(rest) => Ok(if keep then [xs[0]] + rest else rest)
  }

  /**
   * The grid's list for `offers` (the raw state slot). Only an array has a
   * `filter` method; anything else stored in the slot throws a TypeError.
   */
  function Visible(offers: Value, tab: string): (r: Result<seq<Value>, JsError>)
    ensures !offers.Arr? ==> r == Err(TypeError)
    ensures offers.Arr? ==> (r.Ok? <==> forall i :: 0 <= i < |offers.items| ==> Keep(tab, offers.items[i]).Ok?)
    ensures r.Ok? ==> offers.Arr? && IsSubsequence(r.value, offers.items)
    ensures r.Ok? ==> forall i :: 0 <= i < |r.value| ==> Keep(tab, r.value[i]) == Ok(true)
  {
    match offers
    case Arr(xs) => FilterSeq(xs, tab)
    case _ => Err(TypeError)
  }

  /** `a` is `b` with some elements removed, order kept. */
  predicate IsSubsequence(a: seq<Value>, b: seq<Value>)
    decreases |b|
  {
    a == [] ||
    (b != [] && ((a[0] == b[0] && IsSubsequence(a[1..], b[1..])) || IsSubsequence(a, b[1..])))
  }

  lemma {:induction false} SubsequenceNoLonger(a: seq<Value>, b: seq<Value>)
    requires IsSubsequence(a, b)
    ensures |a| <= |b|
    decreases |b|
  {
    if a != [] {
      if a[0] == b[0] && IsSubsequence(a[1..], b[1..]) {
        SubsequenceNoLonger(a[1..], b[1..]);
      } else {
        SubsequenceNoLonger(a, b[1..]);
      }
    }
  }

  /**
   * Reference definition of a tab's list: the offers whose activeness is
   * `want`, in their original order.
   */
  function Select(xs: seq<Value>, want: bool): (r: seq<Value>)
    ensures forall v :: v in r <==> v in xs && IsActive(v) == want
    ensures IsSubsequence(r, xs)
    decreases |xs|
  {
    if xs == [] then []
    else if IsActive(xs[0]) == want then [xs[0]] + Select(xs[1..], want)
    else Select(xs[1..], want)
  }

  /** The active and inactive lists split the offers: sizes add up, as multisets. */
  lemma {:induction false} SelectPartitions(xs: seq<Value>)
    ensures multiset(Select(xs, true)) + multiset(Select(xs, false)) == multiset(xs)
    ensures |Select(xs, true)| + |Select(xs, false)| == |xs|
    decreases |xs|
  {
    if xs != [] {
      SelectPartitions(xs[1..]);
      assert xs == [xs[0]] + xs[1..];
    }
  }

  /** `active` reads every offer; it fails exactly when some offer is unreadable. */
  lemma {:induction false} ActiveTabSelects(xs: seq<Value>)
    ensures FilterSeq(xs, ActiveTab).Ok? <==> forall i :: 0 <= i < |xs| ==> Readable(xs[i])
    ensures FilterSeq(xs, ActiveTab).Ok? ==> FilterSeq(xs, ActiveTab).value == Select(xs, true)
    decreases |xs|
  {
    if xs != [] {
      ActiveTabSelects(xs[1..]);
      assert forall i :: 1 <= i < |xs| ==> xs[i] == xs[1..][i - 1];
    }
  }

  /** `inactive` reads every offer and keeps exactly the complement of `active`. */
  lemma {:induction false} InactiveTabSelects(xs: seq<Value>)
    ensures FilterSeq(xs, InactiveTab).Ok? <==> forall i :: 0 <= i < |xs| ==> Readable(xs[i])
    ensures FilterSeq(xs, InactiveTab).Ok? ==> FilterSeq(xs, InactiveTab).value == Select(xs, false)
    decreases |xs|
  {
    if xs != [] {
      InactiveTabSelects(xs[1..]);
      assert forall i :: 1 <= i < |xs| ==> xs[i] == xs[1..][i - 1];
    }
  }

  /** The `all` tab lists every offer, unchanged and in order. */
  lemma {:induction false} AllTabIsIdentity(xs: seq<Value>)
    ensures FilterSeq(xs, AllTab) == Ok(xs)
    decreases |xs|
  {
    if xs != [] {
      AllTabIsIdentity(xs[1..]);
      assert [xs[0]] + xs[1..] == xs;
    }
  }

  /** A tab other than the three buttons' values lists nothing. */
  lemma {:induction false} UnknownTabIsEmpty(xs: seq<Value>, tab: string)
    requires tab != AllTab && tab != ActiveTab && tab != InactiveTab
    ensures FilterSeq(xs, tab) == Ok([])
    decreases |xs|
  {
    if xs != [] {
      UnknownTabIsEmpty(xs[1..], tab);
    }
  }

  /**
   * Whatever the tab, a successfully filtered list is an order-preserving
   * subsequence of the stored offers array, so never longer than it; a slot
   * that does not hold an array cannot be filtered at all.
   */
  lemma VisibleIsSubsequence(offers: Value, tab: string)
    ensures !offers.Arr? ==> Visible(offers, tab).Err?
    ensures Visible(offers, tab).Ok? ==>
              offers.Arr? && IsSubsequence(Visible(offers, tab).value, offers.items)
              && |Visible(offers, tab).value| <= |offers.items|
  {
    if offers.Arr? {
      var xs := offers.items;
      if tab == AllTab {
        AllTabIsIdentity(xs);
        SubsequenceReflexive(xs);
      } else if tab == ActiveTab {
        ActiveTabSelects(xs);
      } else if tab == InactiveTab {
        InactiveTabSelects(xs);
      } else {
        UnknownTabIsEmpty(xs, tab);
      }
      if Visible(offers, tab).Ok? {
        SubsequenceNoLonger(Visible(offers, tab).value, xs);
      }
    }
  }

  lemma {:induction false} SubsequenceReflexive(xs: seq<Value>)
    ensures IsSubsequence(xs, xs)
    decreases |xs|
  {
    if xs != [] {
      SubsequenceReflexive(xs[1..]);
    }
  }

  /**
   * When both tabs filter without throwing, `active` and `inactive` split
   * the stored offers: their sizes add up to the whole, together they hold
   * every offer as often as the array does, and no offer appears in both.
   */
  lemma ActiveInactivePartition(xs: seq<Value>)
    requires FilterSeq(xs, ActiveTab).Ok? && FilterSeq(xs, InactiveTab).Ok?
    ensures |FilterSeq(xs, ActiveTab).value| + |FilterSeq(xs, InactiveTab).value| == |xs|
    ensures multiset(FilterSeq(xs, ActiveTab).value) + multiset(FilterSeq(xs, InactiveTab).value)
            == multiset(xs)
    ensures forall v :: v in FilterSeq(xs, ActiveTab).value ==> v !in FilterSeq(xs, InactiveTab).value
    ensures forall v :: v in FilterSeq(xs, ActiveTab).value <==> v in xs && IsActive(v)
    ensures forall v :: v in FilterSeq(xs, InactiveTab).value <==> v in xs && !IsActive(v)
  {
    ActiveTabSelects(xs);
    InactiveTabSelects(xs);
    SelectPartitions(xs);
  }
}
