# In-app purchase feature of TCAStoreKit2, modelled in Dafny

The app shows three StoreKit products and a Buy button for each one. It also shows a single
purchase-status line. Its logic has two parts:

- the `Main` feature. This is a reducer over `{products, purchaseStatus}` with four actions.
  Two are intents (`viewLoaded`, `purchaseButtonTapped`) that start an effect, and two are
  setters (`setProducts`, `setPurchaseStatus`) that the effects send back.
- the live `StoreKitClient`. It keeps a one-slot product cache that every fetch overwrites.
  A purchase looks the requested identifier up in that cache.

Modules:

- `Outcomes`: `Option` and `Result`. A `Result`'s `Failure` stands for a thrown error.
- `StoreKitClient` (`TCATemplate/StoreKitClient.swift`):
  - `Product`, the store's `PurchaseResult` and `ClientError`.
  - `productNotFound` is the client's own error. Any other thrown error is `OtherError`, and
    it carries the error's localized description.
  - The class `LiveClient` holds the cache `allProducts`. Its methods are `Products` (overwrite
    the cache) and `Purchase` (read-only lookup).
  - `FirstMatching` is the `first(where:)` search. `PurchaseOutcome` is the function that
    specifies a purchase.
  - StoreKit's `Product.products(for:)` and `product.purchase()` are function parameters
    (`FetchCall`, `PurchaseCall`). Each one either returns or throws a description.
- `MainFeature` (`TCATemplate/ContentView.swift`):
  - `State`, `Action`, and `Core`, the reducer. `core` takes its value-typed state `inout`;
    here it returns the new state together with the effect (`NoEffect`, or `Run` of one
    `Command`).
  - The effect bodies are the interpreter functions `PurchaseFollowUp` and `FetchFollowUp`.
    Each one maps a client outcome to the action the effect sends back.
  - `Replay` reduces a sequence of actions in order. Its lemmas show that the latest setter
    wins, whatever order the follow-ups arrive in.
- `MainView`: the `ViewState` projection.
- `AppRuntime`: the feature wired to a `LiveClient`, the way the app's store runs it.
  - Each effect runs to completion before the next action is taken.
  - `Valid()` says the products on screen are exactly the cached ones.
  - From that invariant, tapping Buy on a displayed product never reports "product not found".
  - If the store returns only requested products, every product shown is one of the three
    requested identifiers.
  - Two scenario methods cover the end-to-end flows.

The status strings follow the code character for character. The green circle U+1F7E2 and the red circle
U+1F534 are each followed by a space, then the product id, `product not found: <id>` or
`purchase error: <description>`. Any `.success` result counts as bought, even when its
transaction is unverified (`Collapse(Succeeded(false))` is `true`), because the code does not
look at the verification result.

## Model

| member | source | states |
|---|---|---|
| `StoreKitClient.FirstMatching` | TCATemplate/StoreKitClient.swift:37 | the index found holds the id and no earlier product does; none is found exactly when no product has the id |
| `StoreKitClient.PurchaseOutcome` | TCATemplate/StoreKitClient.swift:35-48 | the result is `productNotFound` exactly when no cached product has the id, and that error carries the requested id |
| `StoreKitClient.PurchaseActsOnFirst` | TCATemplate/StoreKitClient.swift:37-46 | the purchase acts on the first cached product with the id: its store result collapsed to a flag, or its thrown error |
| `StoreKitClient.CollapseIsSuccessOnly` | TCATemplate/StoreKitClient.swift:39-44 | `.success` maps to true, even when unverified; cancelled and pending map to false |
| `StoreKitClient.LiveClient.constructor` | TCATemplate/StoreKitClient.swift:26 | the cache starts empty |
| `StoreKitClient.LiveClient.Products` | TCATemplate/StoreKitClient.swift:30-34 | a successful fetch stores exactly the fetched list and returns it; a throwing fetch leaves the cache unchanged and rethrows |
| `StoreKitClient.LiveClient.Purchase` | TCATemplate/StoreKitClient.swift:35-48 | has no modifies clause, so it never writes the cache; its result is `PurchaseOutcome` of the cache; it throws `productNotFound(id)` exactly when no cached product has the id |
| `StoreKitClient.PurchaseBeforeFetch` | TCATemplate/StoreKitClient.swift:26-47 | on a fresh client, every purchase throws `productNotFound` with the requested id |
| `MainFeature.Core` | TCATemplate/ContentView.swift:25-51 | `setProducts` replaces only the products and `setPurchaseStatus` replaces only the status, with no effect; `purchaseButtonTapped(id)` and `viewLoaded` leave the state alone and run a purchase of `id` or a fetch of the three fixed ids |
| `MainFeature.PurchaseFollowUp` | TCATemplate/ContentView.swift:28-38 | every purchase effect sends exactly one `setPurchaseStatus`; the line starts with the green mark exactly when the purchase returned true, and with the red mark otherwise |
| `MainFeature.StatusNamesTheSubject` | TCATemplate/ContentView.swift:30-37 | the line is the mark, a space and the id for a flag; "product not found: " and the error's id for a missing product; "purchase error: " and the description for any other error |
| `MainFeature.FetchFollowUp` | TCATemplate/ContentView.swift:46-49 | the fetch effect sends `setProducts` with the fetched list unchanged, and sends nothing when the fetch throws |
| `MainFeature.SetProductsIdempotent` | TCATemplate/ContentView.swift:39-41 | applying `setProducts(list)` twice gives the state that one application gives, and its products are `list` |
| `MainFeature.LatestStatusWins` | TCATemplate/ContentView.swift:42-44 | after any sequence of actions, the status is that of the last `setPurchaseStatus` |
| `MainFeature.StatusKeptWithoutSetter` | TCATemplate/ContentView.swift:25-51 | a sequence without `setPurchaseStatus` leaves the status unchanged |
| `MainFeature.LatestProductsWin` | TCATemplate/ContentView.swift:39-41 | after any sequence of actions, the products are exactly the list of the last `setProducts`, in its order |
| `MainFeature.ProductsKeptWithoutSetter` | TCATemplate/ContentView.swift:25-51 | a sequence without `setProducts` leaves the products unchanged |
| `MainView.ViewStateOf` | TCATemplate/ContentView.swift:63-66 | the view state holds the state's products and status unchanged |
| `MainView.ViewStateDeterminesState` | TCATemplate/ContentView.swift:59-67 | the projection loses nothing: two states project alike exactly when they are equal |
| `AppRuntime.Runtime.constructor` | TCATemplate/ContentView.swift:9-12 | the store starts from the state's defaults, empty products and an empty status, over a client whose cache starts empty (TCATemplate/StoreKitClient.swift:26) |
| `AppRuntime.Runtime.Send` | TCATemplate/ContentView.swift:25-51 | keeps shown products equal to cached ones; `viewLoaded` shows the fetched list, or changes nothing when the fetch throws; a tap leaves the products alone, sets the status from the purchase outcome, and never reports a displayed product as not found |
| `AppRuntime.SendKeepsRequestedIds` | TCATemplate/ContentView.swift:45-48 | if the store returns only products it was asked for, every product shown stays among the three requested identifiers across each intent the view sends |
| `AppRuntime.NotFoundStatusOnlyForMissing` | TCATemplate/ContentView.swift:30-34 | the "product not found: id" line arises only from a `productNotFound(id)` error |
| `AppRuntime.LoadThenBuyKnownThenUnknown` | TCATemplate/ContentView.swift:25-51 | load, then buy a fetched product, then buy an unknown id: the products stay as fetched, and the status becomes the green line for the product and then the not-found line for the unknown id |
| `AppRuntime.BuyBeforeLoad` | TCATemplate/ContentView.swift:27-38 | tapping Buy before loading leaves the products empty and reports the product as not found |

## Left out

- StoreKit itself is not modelled. `Product.products(for:)` and `product.purchase()` become function parameters, and a thrown error is known only by its `localizedDescription`.
- `Transaction.currentEntitlements` and `Transaction.updates` are not modelled. They are StoreKit APIs.
- The `purchased` stream (TCATemplate/StoreKitClient.swift:49-56) is not modelled. Its body yields one empty batch and finishes, and its comments say the real logic is still to do.
- `start` (TCATemplate/StoreKitClient.swift:57-82) is not modelled. It walks the current entitlements and then waits on `Transaction.updates` without end. For each verified update it only calls `transaction.finish()`, and for each unverified one it logs a line; adding and removing purchased products is still placeholder comments.
- Concurrency is not modelled: the actor isolation of the cache, `.run` tasks and taps that race each other. `Runtime` runs each effect to completion before the next action. `Replay` and its lemmas cover follow-up actions that arrive in any order.
- The dependency injection (`@Dependency`, `DependencyValues`) is replaced by passing the client explicitly.
- Fetch errors: the `viewLoaded` effect has no catch, so `FetchFollowUp` sends nothing when the fetch throws. TCA's runtime diagnostics for an unhandled error are not modelled.
- SwiftUI is not modelled: the `MainView.body` rendering and the previews. Line 79 (one Buy button per displayed product) is what motivates the precondition of `Send`, which accepts only the two intents the view dispatches.
- `StoreKitClient.FirstMatching` compares product identifiers character by character (by Unicode scalar). Swift's `String ==` treats canonically equivalent strings as equal, so an identifier written with a combining accent would match a precomposed one in the app and not in the model. App Store product identifiers are ASCII, and a tapped identifier is copied from `product.id` (TCATemplate/ContentView.swift:79), so the app never meets such a pair.
- The `Equatable`/`Sendable` conformances are not modelled.
- The app entry point is not modelled beyond the initial state it builds.
