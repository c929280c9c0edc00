/** The projection the view observes. Rendering is not modelled. */
module MainView {
  import opened StoreKitClient
  import opened MainFeature

  datatype ViewState = ViewState(products: seq<Product>, status: string)

  /** `ViewState.init(state:)`: a plain copy, nothing filtered or reordered. */
  function ViewStateOf(s: State): (v: ViewState)
    ensures v.products == s.products && v.status == s.purchaseStatus
  {
    ViewState(s.products, s.purchaseStatus)
  }

  /** The projection loses nothing: two states look alike exactly when they are equal. */
  lemma ViewStateDeterminesState(s: State, t: State)
    ensures ViewStateOf(s) == ViewStateOf(t) <==> s == t
  {
  }
}
