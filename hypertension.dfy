/** The diabetes-products page: the category filter applied to the reply,
    the search over names and descriptions, the order hand-off and the
    message shown when nothing is listed. */
module Hypertension {
  import opened Js
  import opened Text
  import opened Seqs
  import opened Catalog

  const FetchFailedMessage := "Failed to fetch diabetes products"
  const NoSearchMatch := "No diabetes products match your search"
  const NoneAvailable := "No diabetes products available currently"

  /** The filter applied to the category endpoint's reply. */
  predicate IsDiabetesProduct(p: Product)
  {
    || Lower(p.category) == "diabetes"
    || Contains(Lower(p.healthBenefits), "blood sugar")
    || Contains(Lower(p.name), "bitter")
    || Contains(Lower(p.name), "moringa")
  }

  function DiabetesFilter(): Product -> bool
  {
    p => IsDiabetesProduct(p)
  }

  /** `diabetesProducts`: the reply's products that pass the filter, in the
      order they came. */
  function DiabetesProducts(products: seq<Product>): (r: seq<Product>)
    ensures forall p :: p in r <==> p in products && IsDiabetesProduct(p)
    ensures forall p :: multiset(r)[p] == if IsDiabetesProduct(p) then multiset(products)[p] else 0
    ensures IsSubsequence(r, products)
  {
    FilterCounts(products, DiabetesFilter());
    Filter(products, DiabetesFilter())
  }

  /** Any spelling of the category "Diabetes" passes, whatever the rest. */
  lemma CategoryAloneSuffices(p: Product)
    requires Lower(p.category) == "diabetes"
    ensures p in DiabetesProducts([p])
  {
  }

  /** The search: the lower-cased term occurs in the lower-cased name, or in
      the description when there is a non-empty one. */
  predicate MatchesSearch(p: Product, term: string)
  {
    || Contains(Lower(p.name), Lower(term))
    || (p.description.Some? && p.description.value != "" && Contains(Lower(p.description.value), Lower(term)))
  }

  function Matcher(term: string): Product -> bool
  {
    p => MatchesSearch(p, term)
  }

  /** `filteredProducts` of this page. */
  function SearchProducts(products: seq<Product>, term: string): (r: seq<Product>)
    ensures forall p :: p in r <==> p in products && MatchesSearch(p, term)
    ensures forall p :: multiset(r)[p] == if MatchesSearch(p, term) then multiset(products)[p] else 0
    ensures IsSubsequence(r, products)
  {
    FilterCounts(products, Matcher(term));
    Filter(products, Matcher(term))
  }

  /** The search never looks at the category: two products that differ only
      there are kept or dropped together. */
  lemma SearchIgnoresCategory(p: Product, category: string, term: string)
    ensures p in SearchProducts([p], term) <==> p.(category := category) in SearchProducts([p.(category := category)], term)
  {
  }

  /** An empty search term hides nothing. */
  lemma EmptySearchKeepsAll(products: seq<Product>)
    ensures SearchProducts(products, "") == products
  {
    forall p | p in products
      ensures Matcher("")(p)
    {
      ContainsEmpty(Lower(p.name));
    }
    FilterAll(products, Matcher(""));
  }

  /** `handleOrderNow`: the four copied fields and a quantity of one. */
  function OrderNow(p: Product): (r: Route)
    ensures r.path == PaymentPath && r.state.Some?
    ensures r.state.value.quantity == Some(1)
    ensures r.state.value.product.Summary? && r.state.value.product.Price() == p.price
    ensures r.state.value.product.productId == p.productId && r.state.value.product.name == p.name
    ensures r.state.value.product.imageUrl == p.imageUrl
  {
    Route(PaymentPath, Some(OrderIntent(Summary(p.productId, p.name, p.price, p.imageUrl), Some(1))))
  }

  /** How the request ended. `Fetched(None)` is a reply without a
      `products` list: reading it throws inside the `try`. A failure carries
      the `error` field of the error reply's body when there is one. */
  datatype DiabetesReply = Fetched(products: Option<seq<Product>>) | FetchFailed(error: Option<string>)

  datatype PageState = PageState(products: seq<Product>, loading: bool, error: Option<string>, searchTerm: string)

  const Initial := PageState([], true, None, "")

  /** The fetch effect: a list is filtered and stored and the error
      cleared; any failure keeps the products and shows the server's
      `error` or the default. */
  function AfterFetch(s: PageState, reply: DiabetesReply): (t: PageState)
    ensures !t.loading && t.searchTerm == s.searchTerm
    ensures reply.Fetched? && reply.products.Some? ==>
              t.products == DiabetesProducts(reply.products.value) && t.error.None?
    ensures reply.FetchFailed? ==> t.products == s.products && t.error == Some(Or(reply.error, FetchFailedMessage))
    ensures reply == Fetched(None) ==> t.products == s.products && t.error == Some(FetchFailedMessage)
    ensures t.error.None? || t.error.value != ""
  {
    match reply
    case Fetched(Some(items)) => s.(products := DiabetesProducts(items), loading := false, error := None)
    case Fetched(None) => s.(loading := false, error := Some(FetchFailedMessage))
    case FetchFailed(error) => s.(loading := false, error := Some(Or(error, FetchFailedMessage)))
  }

  /** The alert shown when the search leaves nothing. */
  function EmptyMessage(term: string): (r: string)
    ensures r == NoSearchMatch <==> term != ""
    ensures r == NoSearchMatch || r == NoneAvailable
  {
    if term != "" then NoSearchMatch else NoneAvailable
  }

  datatype View = Spinner | ErrorAlert(message: string) | EmptyAlert(message: string) | Grid(products: seq<Product>)

  /** What the page renders: the spinner, then an error, then the empty
      alert, then the products the search keeps. */
  function Render(s: PageState): (v: View)
    ensures v.Spinner? <==> s.loading
    ensures v.ErrorAlert? <==> !s.loading && s.error.Some? && s.error.value != ""
    ensures v.ErrorAlert? ==> v.message == s.error.value
    ensures v.EmptyAlert? ==> v.message == EmptyMessage(s.searchTerm) && SearchProducts(s.products, s.searchTerm) == []
    ensures v.Grid? ==> v.products == SearchProducts(s.products, s.searchTerm) && v.products != []
  {
    if s.loading then Spinner
    else if s.error.Some? && s.error.value != "" then ErrorAlert(s.error.value)
    else
      var shown := SearchProducts(s.products, s.searchTerm);
      if shown == [] then EmptyAlert(EmptyMessage(s.searchTerm)) else Grid(shown)
  }

  /** Every product on the grid is a diabetes product of the last reply
      that the search term matches. */
  lemma GridShowsDiabetesMatches(s: PageState, items: seq<Product>, p: Product)
    requires Render(AfterFetch(s, Fetched(Some(items)))).Grid?
    ensures p in Render(AfterFetch(s, Fetched(Some(items)))).products <==>
              p in items && IsDiabetesProduct(p) && MatchesSearch(p, s.searchTerm)
  {
  }

  class DiabetesPage {
    var products: seq<Product>
    var loading: bool
    var error: Option<string>
    var searchTerm: string
    var route: Option<Route>

    function State(): PageState
      reads this
    {
      PageState(products, loading, error, searchTerm)
    }

    constructor ()
      ensures State() == Initial && route.None?
    {
      products, loading, error, searchTerm, route := [], true, None, "", None;
    }

    /** `fetchDiabetesProducts`, from the spinner to the `finally`. */
    method Fetch(reply: DiabetesReply)
      modifies this
      ensures State() == AfterFetch(old(State()), reply) && route == old(route)
    {
      loading := true;
      match reply {
        case Fetched(items) =>
          if items.Some? {
            products := DiabetesProducts(items.value);
            error := None;
          } else {
            error := Some(FetchFailedMessage);
          }
        case FetchFailed(message) =>
          error := Some(Or(message, FetchFailedMessage));
      }
      loading := false;
    }

    method Search(term: string)
      modifies this
      ensures State() == old(State()).(searchTerm := term) && route == old(route)
    {
      searchTerm := term;
    }

    method Order(p: Product)
      modifies this
      ensures State() == old(State()) && route == Some(OrderNow(p))
    {
      route := Some(OrderNow(p));
    }
  }
}
