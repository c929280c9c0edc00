/** The feature wired to the live client: each action the view sends is
    reduced, and the effect it returns runs to completion against the client,
    its one follow-up action reduced in turn, before the next action. */
module AppRuntime {
  import opened Outcomes
  import opened StoreKitClient
  import opened MainFeature

  class Runtime {
    var state: State
    const client: LiveClient

    /** The products shown are exactly those the client has cached. */
    ghost predicate Valid()
      reads this, client
    {
      state.products == client.allProducts
    }

    /** The store starts from the initial state with an empty cache. */
    constructor ()
      ensures Valid() && fresh(client)
      ensures state == Initial && client.allProducts == []
    {
      state := Initial;
      client := new LiveClient();
    }

    /** Sends one of the two intents the view dispatches (on appearing, and
        per Buy button) and runs what follows from it. */
    method Send(action: Action, fetch: FetchCall, buy: PurchaseCall)
      requires Valid()
      requires action.ViewLoaded? || action.PurchaseButtonTapped?
      modifies this, client
      ensures Valid()
      ensures action.ViewLoaded? ==>
        state.purchaseStatus == old(state.purchaseStatus) &&
        state.products == (if fetch(ProductIds).Success? then fetch(ProductIds).value else old(state.products))
      ensures action.PurchaseButtonTapped? ==>
        state.products == old(state.products) &&
        state == Core(old(state), PurchaseFollowUp(action.productId, PurchaseOutcome(old(state.products), action.productId, buy))).state
      ensures action.PurchaseButtonTapped? && (exists p | p in old(state.products) :: p.id == action.productId) ==>
        state.purchaseStatus != "\U{1F534} product not found: " + action.productId
    {
      var step := Core(state, action);
      state := step.state;
      match step.effect
      case NoEffect =>
      case Run(Purchase(productId)) =>
        var outcome := client.Purchase(productId, buy);
        state := Core(state, PurchaseFollowUp(productId, outcome)).state;
        if exists p | p in client.allProducts :: p.id == productId {
          NotFoundStatusOnlyForMissing(productId, outcome);
        }
      case Run(FetchProducts(productIds)) =>
        var outcome := client.Products(productIds, fetch);
        var followUp := FetchFollowUp(outcome);
        if followUp.Some? {
          state := Core(state, followUp.value).state;
        }
    }
  }

  /** The not-found status line arises only from a `productNotFound` error. */
  lemma NotFoundStatusOnlyForMissing(productId: string, outcome: Result<bool, ClientError>)
    requires outcome != Failure(ProductNotFound(productId))
    ensures PurchaseFollowUp(productId, outcome).status != "\U{1F534} product not found: " + productId
  {
    var status := PurchaseFollowUp(productId, outcome).status;
    var notFound := "\U{1F534} product not found: " + productId;
    match outcome
    case Success(_) =>
      assert |status| == 2 + |productId| < |notFound|;
    case Failure(ProductNotFound(p)) =>
      assert p != productId;
      assert status[21..] == p && notFound[21..] == productId;
    case Failure(OtherError(d)) =>
      assert status[3] == 'u' && notFound[3] == 'r';
  }

  /** The store answers a product request only with products it was asked for. */
  ghost predicate ReturnsOnlyRequested(fetch: FetchCall)
  {
    forall ids, p | fetch(ids).Success? && p in fetch(ids).value :: p.id in ids
  }

  /** Every product shown is one of the identifiers the view requests. */
  ghost predicate ShowsOnlyRequested(s: State)
  {
    forall p | p in s.products :: p.id in ProductIds
  }

  /** The products shown are always among those most recently requested,
      provided the store returns nothing it was not asked for: the initial
      state shows none, and every intent the view sends keeps it so. */
  method SendKeepsRequestedIds(app: Runtime, action: Action, fetch: FetchCall, buy: PurchaseCall)
    requires app.Valid() && ShowsOnlyRequested(app.state)
    requires action.ViewLoaded? || action.PurchaseButtonTapped?
    requires ReturnsOnlyRequested(fetch)
    modifies app, app.client
    ensures app.Valid() && ShowsOnlyRequested(app.state)
  {
    app.Send(action, fetch, buy);
  }

  /** Loading, then buying a product the store returned, then buying an
      identifier it did not: the list stays as fetched, and the status line
      reports first the purchase and then the missing product. */
  method LoadThenBuyKnownThenUnknown(catalog: seq<Product>, known: Product, unknown: string)
    returns (loaded: State, bought: State, missed: State)
    requires known in catalog
    requires forall p | p in catalog :: p.id != unknown
    ensures loaded == State(catalog, "")
    ensures bought == State(catalog, "\U{1F7E2} " + known.id)
    ensures missed == State(catalog, "\U{1F534} product not found: " + unknown)
  {
    var app := new Runtime();
    var fetch: FetchCall := ids => Success(catalog);
    var buy: PurchaseCall := p => Success(Succeeded(true));
    app.Send(ViewLoaded, fetch, buy);
    loaded := app.state;
    app.Send(PurchaseButtonTapped(known.id), fetch, buy);
    bought := app.state;
    app.Send(PurchaseButtonTapped(unknown), fetch, buy);
    missed := app.state;
  }

  /** Tapping Buy before the products have loaded reports the product as not found. */
  method BuyBeforeLoad(productId: string, buy: PurchaseCall) returns (s: State)
    ensures s == State([], "\U{1F534} product not found: " + productId)
  {
    var app := new Runtime();
    app.Send(PurchaseButtonTapped(productId), ids => Failure(""), buy);
    s := app.state;
  }
}
