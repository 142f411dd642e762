/**
 * The offers page's lifecycle mutations. Each sends one request and then,
 * depending on how that request ended, re-runs `fetchOffers`; no mutation
 * edits the page state in any other way.
 */
module OfferMutations {
  import opened Wrappers
  import opened JsValue
  import opened Http
  import opened OfferFetchers

  datatype Mutation =
    | AddProduct(offerId: Value, product: Value)        // addProductToOffer
    | Toggle(id: Value)                                 // toggleOffer
    | Deactivate(id: Value)                             // deactivateOffer
    | Delete(id: Value)                                 // deleteOffer
    | DeleteProduct(offerId: Value, productId: Value)   // deleteProductFromOffer

  datatype Verb = Post | Patch | Remove

  /** The `/offers/general/...` resource a mutation addresses. */
  datatype Endpoint =
    | OfferProducts(offerId: Value)                     // /:offerId/products
    | OfferToggle(id: Value)                            // /:id/toggle
    | OfferDeactivate(id: Value)                        // /:id/deactivate
    | OfferItem(id: Value)                              // /:id
    | OfferProduct(offerId: Value, productId: Value)    // /:offerId/products/:productId

  datatype Request = Request(verb: Verb, endpoint: Endpoint, authorization: string, body: Option<Value>)

  /** The body `addProductToOffer` sends: `{ products: [product] }`. */
  function AddProductBody(product: Value): (r: Value)
    ensures Prop(r, "products") == Ok(Arr([product]))
    ensures r.Obj? && r.fields.Keys == {"products"}
  {
    Obj(map["products" := Arr([product])])
  }

  /**
   * The request a mutation sends. The token is put in the header as it is,
   * `null` included: the page never checks that one is present.
   */
  function RequestFor(m: Mutation, token: Option<string>): (r: Request)
    ensures r.authorization == BearerHeader(token)
    ensures m.AddProduct? ==> r.body == Some(AddProductBody(m.product))
    ensures !m.AddProduct? ==> r.body.None?
  {
    var auth := BearerHeader(token);
    match m
    case AddProduct(offerId, product) => Request(Post, OfferProducts(offerId), auth, Some(AddProductBody(product)))
    case Toggle(id) => Request(Patch, OfferToggle(id), auth, None)
    case Deactivate(id) => Request(Patch, OfferDeactivate(id), auth, None)
    case Delete(id) => Request(Remove, OfferItem(id), auth, None)
    case DeleteProduct(offerId, productId) => Request(Remove, OfferProduct(offerId, productId), auth, None)
  }

  /**
   * The page state once a mutation and any refresh it triggers have
   * completed, given the outcome `sent` of the mutation's request and the
   * outcome `refresh` of the `fetchOffers` that may follow. A thrown request
   * is only logged. `addProductToOffer` reads the error body and returns on a
   * non-ok status; the other four call `fetchOffers` after any status.
   */
  function Perform(s: PageState, m: Mutation, sent: Outcome, refresh: Outcome): (r: PageState)
    ensures r.products == s.products && r.categories == s.categories && r.sections == s.sections
    ensures r == s || r == FetchStep(s, OffersSlot, refresh)
  {
    match sent
    case Thrown => s
    case Response(ok, _) =>
      if m.AddProduct? && !ok then s
      else FetchStep(s, OffersSlot, refresh)
  }

  /** `addProductToOffer` refreshes exactly when its request answers `ok`. */
  lemma AddProductRefreshesOnlyOnOk(s: PageState, offerId: Value, product: Value, sent: Outcome, refresh: Outcome)
    ensures sent.Response? && sent.ok ==>
              Perform(s, AddProduct(offerId, product), sent, refresh) == FetchStep(s, OffersSlot, refresh)
    ensures !(sent.Response? && sent.ok) ==> Perform(s, AddProduct(offerId, product), sent, refresh) == s
  {
  }

  /**
   * Toggle, deactivate, delete and delete-product refresh after any answer,
   * whatever its status, and never when the request throws.
   */
  lemma OtherMutationsRefreshOnAnyStatus(s: PageState, m: Mutation, sent: Outcome, refresh: Outcome)
    requires !m.AddProduct?
    ensures sent.Response? ==> Perform(s, m, sent, refresh) == FetchStep(s, OffersSlot, refresh)
    ensures sent.Thrown? ==> Perform(s, m, sent, refresh) == s
  {
  }

  /**
   * No optimistic change: whatever the mutation and however its request
   * ended, if the refresh does not deliver a body the page is exactly as it
   * was; if it does, the offers slot holds precisely what the server sent.
   */
  lemma OnlyRefreshChangesOffers(s: PageState, m: Mutation, sent: Outcome, refresh: Outcome)
    ensures JsonBody(refresh).None? ==> Perform(s, m, sent, refresh) == s
    ensures Perform(s, m, sent, refresh).offers == s.offers
            || Perform(s, m, sent, refresh).offers == JsonBody(refresh).value
  {
  }
}
