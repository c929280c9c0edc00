/** The `Main` feature: its state, its four actions, the reducer `core`, and
    the bodies of the two effects it returns, interpreted as the one follow-up
    action each sends back. */
module MainFeature {
  import opened Outcomes
  import opened StoreKitClient

  /** The feature's state: the products shown and the purchase status line. */
  datatype State = State(products: seq<Product>, purchaseStatus: string)

  /** The state the app starts in. */
  const Initial := State([], "")

  datatype Action =
    | PurchaseButtonTapped(productId: string)
    | SetProducts(products: seq<Product>)
    | SetPurchaseStatus(status: string)
    | ViewLoaded

  /** The asynchronous work an effect describes. */
  datatype Command =
    | Purchase(productId: string)
    | FetchProducts(productIds: seq<string>)

  /** The reducer's return value: `.none`, or `.run` of one command. */
  datatype Effect = NoEffect | Run(command: Command)

  datatype Step = Step(state: State, effect: Effect)

  /** The identifiers requested when the view loads. */
  const ProductIds: seq<string> := ["com.temp.productA", "com.temp.productB", "com.temp.productC"]

  /** `core(state:action:)`: the two setters replace one field each and run
      nothing; the two intents leave the state alone and run one command. */
  function Core(s: State, a: Action): (r: Step)
    ensures r.state.products == (if a.SetProducts? then a.products else s.products)
    ensures r.state.purchaseStatus == (if a.SetPurchaseStatus? then a.status else s.purchaseStatus)
    ensures r.effect == NoEffect <==> a.SetProducts? || a.SetPurchaseStatus?
    ensures a.PurchaseButtonTapped? ==> r.effect == Run(Purchase(a.productId))
    ensures a.ViewLoaded? ==> r.effect == Run(FetchProducts(ProductIds))
  {
    match a
    case PurchaseButtonTapped(productId) => Step(s, Run(Purchase(productId)))
    case SetProducts(products) => Step(s.(products := products), NoEffect)
    case SetPurchaseStatus(status) => Step(s.(purchaseStatus := status), NoEffect)
    case ViewLoaded => Step(s, Run(FetchProducts(ProductIds)))
  }

  const Green: char := '\U{1F7E2}'
  const Red: char := '\U{1F534}'

  /** The action the purchase effect sends once `purchase(productId)` has
      returned or thrown: always exactly one status update, green only when
      the purchase went through. */
  function PurchaseFollowUp(productId: string, outcome: Result<bool, ClientError>): (a: Action)
    ensures a.SetPurchaseStatus? && |a.status| >= 2 && a.status[1] == ' '
    ensures a.status[0] == Green <==> outcome == Success(true)
    ensures a.status[0] == Red <==> outcome != Success(true)
  {
    match outcome
    case Success(bought) =>
      SetPurchaseStatus((if bought then "\U{1F7E2} " else "\U{1F534} ") + productId)
    case Failure(ProductNotFound(product)) =>
      SetPurchaseStatus("\U{1F534} product not found: " + product)
    case Failure(OtherError(description)) =>
      SetPurchaseStatus("\U{1F534} purchase error: " + description)
  }

  /** The action the fetch effect sends once `products(ids)` has returned:
      the fetched list, unchanged. The effect catches nothing, so when the
      fetch throws no action is sent. */
  function FetchFollowUp(outcome: Result<seq<Product>, ClientError>): (a: Option<Action>)
    ensures a.Some? <==> outcome.Success?
    ensures a.Some? ==> a.value == SetProducts(outcome.value)
  {
    match outcome
    case Success(products) => Some(SetProducts(products))
    case Failure(_) => None
  }

  /** The status line names the product for a flag or a missing product,
      and carries the error's description for any other error. */
  lemma {:induction false} StatusNamesTheSubject(productId: string, outcome: Result<bool, ClientError>)
    ensures var status := PurchaseFollowUp(productId, outcome).status;
      match outcome
      case Success(bought) => status == [if bought then Green else Red, ' '] + productId
      case Failure(ProductNotFound(p)) => status == [Red] + " product not found: " + p
      case Failure(OtherError(d)) => status == [Red] + " purchase error: " + d
  {
  }

  /** Applying `setProducts(list)` twice leaves the state as once does. */
  lemma SetProductsIdempotent(s: State, list: seq<Product>)
    ensures var once := Core(s, SetProducts(list)).state;
      Core(once, SetProducts(list)).state == once && once.products == list
  {
  }

  /** The state after the actions are reduced in order, their effects aside. */
  function Replay(s: State, actions: seq<Action>): State
    decreases |actions|
  {
    if |actions| == 0 then s
    else Core(Replay(s, actions[..|actions| - 1]), actions[|actions| - 1]).state
  }

  /** The status line is that of the most recent `setPurchaseStatus`: it
      never accumulates history, whichever order the follow-ups arrive in. */
  lemma {:induction false} LatestStatusWins(s: State, actions: seq<Action>, i: nat)
    requires i < |actions| && actions[i].SetPurchaseStatus?
    requires forall j | i < j < |actions| :: !actions[j].SetPurchaseStatus?
    ensures Replay(s, actions).purchaseStatus == actions[i].status
  {
    var n := |actions|;
    if i < n - 1 {
      var prefix := actions[..n - 1];
      assert forall j | i < j < |prefix| :: prefix[j] == actions[j];
      LatestStatusWins(s, prefix, i);
      assert !actions[n - 1].SetPurchaseStatus?;
    }
  }

  /** Without a `setPurchaseStatus`, the status line is left as it was. */
  lemma {:induction false} StatusKeptWithoutSetter(s: State, actions: seq<Action>)
    requires forall j | 0 <= j < |actions| :: !actions[j].SetPurchaseStatus?
    ensures Replay(s, actions).purchaseStatus == s.purchaseStatus
  {
    var n := |actions|;
    if n > 0 {
      var prefix := actions[..n - 1];
      assert forall j | 0 <= j < |prefix| :: prefix[j] == actions[j];
      StatusKeptWithoutSetter(s, prefix);
      assert !actions[n - 1].SetPurchaseStatus?;
    }
  }

  /** The products shown are exactly the list of the most recent
      `setProducts`, in its order. */
  lemma {:induction false} LatestProductsWin(s: State, actions: seq<Action>, i: nat)
    requires i < |actions| && actions[i].SetProducts?
    requires forall j | i < j < |actions| :: !actions[j].SetProducts?
    ensures Replay(s, actions).products == actions[i].products
  {
    var n := |actions|;
    if i < n - 1 {
      var prefix := actions[..n - 1];
      assert forall j | i < j < |prefix| :: prefix[j] == actions[j];
      LatestProductsWin(s, prefix, i);
      assert !actions[n - 1].SetProducts?;
    }
  }

  /** Without a `setProducts`, the products shown are left as they were. */
  lemma {:induction false} ProductsKeptWithoutSetter(s: State, actions: seq<Action>)
    requires forall j | 0 <= j < |actions| :: !actions[j].SetProducts?
    ensures Replay(s, actions).products == s.products
  {
    var n := |actions|;
    if n > 0 {
      var prefix := actions[..n - 1];
      assert forall j | 0 <= j < |prefix| :: prefix[j] == actions[j];
      ProductsKeptWithoutSetter(s, prefix);
      assert !actions[n - 1].SetProducts?;
    }
  }
}
