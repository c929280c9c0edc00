/** The live purchase client: a one-slot product cache that each fetch
    overwrites, and a purchase that looks the requested identifier up in it.
    The StoreKit calls themselves are parameters of the operations. */
module StoreKitClient {
  import opened Outcomes

  /** A purchasable product as StoreKit describes it. */
  datatype Product = Product(id: string, displayName: string, displayPrice: string)

  /** What StoreKit's purchase call reports when it does not throw.
      `Succeeded` stands for `.success` whatever its verification result. */
  datatype PurchaseResult = Succeeded(verified: bool) | UserCancelled | Pending

  /** The errors a client call can throw: the client's own `productNotFound`,
      and any other error, known only by its localized description. */
  datatype ClientError = ProductNotFound(productId: string) | OtherError(description: string)

  /** StoreKit's product lookup: success with the products, or a thrown error's description. */
  type FetchCall = seq<string> -> Result<seq<Product>, string>

  /** StoreKit's purchase of one product: its result, or a thrown error's description. */
  type PurchaseCall = Product -> Result<PurchaseResult, string>

  /** The index of the first product with identifier `productId`, if any
      (the `first(where:)` search over the cache). */
  function FirstMatching(products: seq<Product>, productId: string): (r: Option<nat>)
    ensures r.Some? ==> r.value < |products| && products[r.value].id == productId
    ensures r.Some? ==> forall j | 0 <= j < r.value :: products[j].id != productId
    ensures r.None? <==> forall j | 0 <= j < |products| :: products[j].id != productId
  {
    if |products| == 0 then None
    else if products[0].id == productId then Some(0)
    else
      match FirstMatching(products[1..], productId)
      case None => None
      case Some(k) => Some(k + 1)
  }

  /** The store result collapsed to a flag: only `.success` counts as bought. */
  function Collapse(result: PurchaseResult): (bought: bool)
  {
    match result
    case Succeeded(_) => true
    case _ => false
  }

  /** What `purchase(productId)` returns or throws when the cache holds `cache`. */
  function PurchaseOutcome(cache: seq<Product>, productId: string, buy: PurchaseCall): (r: Result<bool, ClientError>)
    ensures r == Failure(ProductNotFound(productId)) <==> forall p | p in cache :: p.id != productId
    ensures r.Failure? && r.error.ProductNotFound? ==> r.error.productId == productId
  {
    match FirstMatching(cache, productId)
    case None => Failure(ProductNotFound(productId))
    case Some(i) =>
      match buy(cache[i])
      case Success(result) => Success(Collapse(result))
      case Failure(description) => Failure(OtherError(description))
  }

  /** Purchase acts on the first cached product carrying the identifier,
      and its outcome is that product's store result collapsed to a flag. */
  lemma PurchaseActsOnFirst(cache: seq<Product>, productId: string, buy: PurchaseCall, i: nat)
    requires i < |cache| && cache[i].id == productId
    requires forall j | 0 <= j < i :: cache[j].id != productId
    ensures buy(cache[i]).Success? ==> PurchaseOutcome(cache, productId, buy) == Success(buy(cache[i]).value.Succeeded?)
    ensures buy(cache[i]).Failure? ==> PurchaseOutcome(cache, productId, buy) == Failure(OtherError(buy(cache[i]).error))
  {
    var found := FirstMatching(cache, productId);
    assert found == Some(i);
  }

  /** Only `.success` is reported as bought; cancelled and pending are not. */
  lemma CollapseIsSuccessOnly(result: PurchaseResult)
    ensures Collapse(result) <==> result.Succeeded?
    ensures Collapse(Succeeded(false))
  {
  }

  /** The live client. `allProducts` is the cache every fetch overwrites. */
  class LiveClient {
    var allProducts: seq<Product>

    /** The cache starts empty. */
    constructor ()
      ensures allProducts == []
    {
      allProducts := [];
    }

    /** `products(productIds)`: asks the store, stores exactly what it returned
        and returns that same list; when the store throws, the cache is left as
        it was and the error is rethrown. */
    method Products(productIds: seq<string>, fetch: FetchCall) returns (r: Result<seq<Product>, ClientError>)
      modifies this
      ensures fetch(productIds).Success? ==> allProducts == fetch(productIds).value && r == Success(allProducts)
      ensures fetch(productIds).Failure? ==>
        allProducts == old(allProducts) && r == Failure(OtherError(fetch(productIds).error))
    {
      var response := fetch(productIds);
      match response
      case Success(all) =>
        allProducts := all;
        r := Success(all);
      case Failure(description) =>
        r := Failure(OtherError(description));
    }

    /** `purchase(productId)`: reads the cache (and never writes it), throws
        `productNotFound` with the requested identifier when no cached product
        has it, and otherwise buys the first one that does. */
    method Purchase(productId: string, buy: PurchaseCall) returns (r: Result<bool, ClientError>)
      ensures r == PurchaseOutcome(allProducts, productId, buy)
      ensures r == Failure(ProductNotFound(productId)) <==> forall p | p in allProducts :: p.id != productId
    {
      var all := allProducts;
      var found := FirstMatching(all, productId);
      match found
      case None =>
        r := Failure(ProductNotFound(productId));
      case Some(i) =>
        var result := buy(all[i]);
        match result
        case Success(purchase) =>
          r := Success(Collapse(purchase));
        case Failure(description) =>
          r := Failure(OtherError(description));
    }
  }

  /** A purchase made before any fetch always throws `productNotFound`. */
  method PurchaseBeforeFetch(productId: string, buy: PurchaseCall) returns (r: Result<bool, ClientError>)
    ensures r == Failure(ProductNotFound(productId))
  {
    var client := new LiveClient();
    r := client.Purchase(productId, buy);
  }
}
