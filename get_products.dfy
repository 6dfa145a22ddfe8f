/** The catalog screen: the response shapes it accepts, search, grouping by
    category, the per-product like toggle, the image preview and the hand-off
    of a product to the payment screen. */
module GetProducts {
  import opened Js
  import opened Text
  import opened Seqs
  import opened Catalog

  const UnexpectedFormat := "Unexpected API response format."
  const FetchFailedMessage := "Failed to fetch products. Please try again."
  const Uncategorized := "Uncategorized"
  const ImageBase := "https://ttok.pythonanywhere.com/static/images/"
  const SearchNotice := "Try a different search term"
  const EmptyCatalogNotice := "No products available yet"

  // ---------------------------------------------------------------------
  // Search

  /** The search test: the lower-cased term occurs in the lower-cased name
      or the lower-cased category. */
  predicate MatchesSearch(p: Product, term: string)
  {
    Contains(Lower(p.name), Lower(term)) || Contains(Lower(p.category), Lower(term))
  }

  function Matcher(term: string): Product -> bool
  {
    p => MatchesSearch(p, term)
  }

  /** `filteredProducts`: the products the search term matches, in catalog
      order; an empty term keeps them all. */
  function FilterProducts(products: seq<Product>, term: string): (r: seq<Product>)
    ensures forall p :: p in r <==> p in products && MatchesSearch(p, term)
    ensures forall p :: multiset(r)[p] == if MatchesSearch(p, term) then multiset(products)[p] else 0
    ensures IsSubsequence(r, products)
  {
    FilterCounts(products, Matcher(term));
    Filter(products, Matcher(term))
  }

  /** An empty search term hides nothing. */
  lemma EmptySearchKeepsAll(products: seq<Product>)
    ensures FilterProducts(products, "") == products
  {
    forall p | p in products
      ensures Matcher("")(p)
    {
      ContainsEmpty(Lower(p.name));
    }
    FilterAll(products, Matcher(""));
  }

  // ---------------------------------------------------------------------
  // Grouping

  /** The group a product lands in: its category, or "Uncategorized" when
      the category is empty. */
  function CategoryKey(p: Product): (k: string)
    ensures k != ""
    ensures p.category != "" ==> k == p.category
    ensures p.category == "" ==> k == Uncategorized
  {
    if p.category != "" then p.category else Uncategorized
  }

  function InCategory(key: string): Product -> bool
  {
    p => CategoryKey(p) == key
  }

  /** The products of one group, in the order the reduce pushed them. */
  function GroupMembers(s: seq<Product>, key: string): (r: seq<Product>)
    ensures forall p :: p in r <==> p in s && CategoryKey(p) == key
  {
    Filter(s, InCategory(key))
  }

  predicate Distinct(keys: seq<string>)
  {
    forall i, j :: 0 <= i < j < |keys| ==> keys[i] != keys[j]
  }

  /** The group keys in the order the reduce first creates them, which is
      the order the screen lists the groups in. */
  function GroupKeys(s: seq<Product>): (keys: seq<string>)
    ensures Distinct(keys)
    decreases |s|
  {
    if s == [] then []
    else
      var front := s[..|s| - 1];
      var keys := GroupKeys(front);
      var k := CategoryKey(s[|s| - 1]);
      if k in keys then keys else keys + [k]
  }

  /** A key is created exactly when some product has it. */
  lemma {:induction false} GroupKeysMembers(s: seq<Product>, key: string)
    ensures key in GroupKeys(s) <==> exists p :: p in s && CategoryKey(p) == key
    decreases |s|
  {
    if s != [] {
      var front := s[..|s| - 1];
      assert s == front + [s[|s| - 1]];
      GroupKeysMembers(front, key);
    }
  }

  /** `order` and `groups` are what the reduce has built from `s`: the
      keys in order of creation, each with its products in order. */
  ghost predicate Grouped(s: seq<Product>, order: seq<string>, groups: map<string, seq<Product>>)
  {
    && order == GroupKeys(s)
    && (forall k :: k in groups <==> k in order)
    && (forall k :: k in groups ==> groups[k] == GroupMembers(s, k))
  }

  /** `groupedProducts`: the `reduce` that pushes each product onto the
      array of its category, creating the array on first sight. `order`
      records the order in which the keys were created. */
  method GroupByCategory(filtered: seq<Product>) returns (order: seq<string>, groups: map<string, seq<Product>>)
    ensures order == GroupKeys(filtered)
    ensures forall k :: k in groups <==> k in order
    ensures forall k :: k in groups ==> groups[k] == GroupMembers(filtered, k)
  {
    order, groups := [], map[];
    var i := 0;
    while i < |filtered|
      invariant 0 <= i <= |filtered|
      invariant Grouped(filtered[..i], order, groups)
    {
      var p := filtered[i];
      var category := CategoryKey(p);
      var members := if category in groups then groups[category] else [];
      GroupStep(filtered[..i], p, order, groups);
      assert filtered[..i + 1] == filtered[..i] + [p];
      order := if category in groups then order else order + [category];
      groups := groups[category := members + [p]];
      i := i + 1;
    }
    assert filtered[..i] == filtered;
  }

  /** One step of the reduce keeps `Grouped`: the product's key is created
      when new, and the product is pushed onto its array. */
  lemma GroupStep(front: seq<Product>, p: Product, order: seq<string>, groups: map<string, seq<Product>>)
    requires Grouped(front, order, groups)
    ensures var k := CategoryKey(p);
            var members := if k in groups then groups[k] else [];
            Grouped(front + [p], if k in groups then order else order + [k], groups[k := members + [p]])
  {
    var k := CategoryKey(p);
    var members := if k in groups then groups[k] else [];
    var order' := if k in groups then order else order + [k];
    var groups' := groups[k := members + [p]];
    GroupKeysStep(front, p);
    if k !in groups {
      NoMembersOutsideKeys(front, k);
    }
    forall key | key in groups'
      ensures groups'[key] == GroupMembers(front + [p], key)
    {
      GroupMembersStep(front, p, key);
    }
  }

  /** Appending a product adds its key at the end, unless already there. */
  lemma GroupKeysStep(front: seq<Product>, p: Product)
    ensures GroupKeys(front + [p]) ==
      if CategoryKey(p) in GroupKeys(front) then GroupKeys(front) else GroupKeys(front) + [CategoryKey(p)]
  {
    assert (front + [p])[..|front|] == front;
  }

  /** Appending a product adds it to the end of its own group only. */
  lemma GroupMembersStep(front: seq<Product>, p: Product, key: string)
    ensures GroupMembers(front + [p], key) ==
      GroupMembers(front, key) + (if CategoryKey(p) == key then [p] else [])
  {
    FilterAppend(front, [p], InCategory(key));
    assert [p][1..] == [];
  }

  /** A key the reduce has not created yet has no products so far. */
  lemma NoMembersOutsideKeys(s: seq<Product>, key: string)
    requires key !in GroupKeys(s)
    ensures GroupMembers(s, key) == []
  {
    GroupKeysMembers(s, key);
    FilterNone(s, InCategory(key));
  }

  /** Every filtered product sits in the group of its own category, and a
      group holds nothing else. */
  lemma GroupsPartition(filtered: seq<Product>, p: Product, key: string)
    ensures p in filtered ==> CategoryKey(p) in GroupKeys(filtered) && p in GroupMembers(filtered, CategoryKey(p))
    ensures p in GroupMembers(filtered, key) ==> key == CategoryKey(p) && p in filtered
  {
    GroupKeysMembers(filtered, CategoryKey(p));
  }

  /** The total size of the groups named by `keys`. */
  function SizeSum(keys: seq<string>, s: seq<Product>): nat
  {
    if keys == [] then 0 else |GroupMembers(s, keys[0])| + SizeSum(keys[1..], s)
  }

  /** The groups together hold exactly as many products as were filtered:
      grouping loses and duplicates nothing. */
  lemma {:induction false} GroupSizesSum(s: seq<Product>)
    ensures SizeSum(GroupKeys(s), s) == |s|
    decreases |s|
  {
    if s != [] {
      var front, p := s[..|s| - 1], s[|s| - 1];
      assert s == front + [p];
      var keys := GroupKeys(front);
      var k := CategoryKey(p);
      GroupSizesSum(front);
      SizeSumStep(keys, front, p);
      if k !in keys {
        SizeSumAppend(keys, k, s);
        NoMembersOutsideKeys(front, k);
        FilterAppend(front, [p], InCategory(k));
      }
    }
  }

  /** Adding one product grows the sum over distinct keys by one exactly
      when its key is among them. */
  lemma {:induction false} SizeSumStep(keys: seq<string>, front: seq<Product>, p: Product)
    requires Distinct(keys)
    ensures SizeSum(keys, front + [p]) == SizeSum(keys, front) + (if CategoryKey(p) in keys then 1 else 0)
    decreases |keys|
  {
    if keys != [] {
      FilterAppend(front, [p], InCategory(keys[0]));
      assert Distinct(keys[1..]) by {
        forall i, j | 0 <= i < j < |keys[1..]|
          ensures keys[1..][i] != keys[1..][j]
        {
          assert keys[1..][i] == keys[i + 1] && keys[1..][j] == keys[j + 1];
        }
      }
      assert CategoryKey(p) in keys <==> CategoryKey(p) == keys[0] || CategoryKey(p) in keys[1..] by {
        assert keys == [keys[0]] + keys[1..];
      }
      if CategoryKey(p) == keys[0] {
        assert keys[0] !in keys[1..] by {
          forall j | 0 <= j < |keys[1..]|
            ensures keys[1..][j] != keys[0]
          {
            assert keys[1..][j] == keys[j + 1];
          }
        }
      }
      SizeSumStep(keys[1..], front, p);
    }
  }

  lemma {:induction false} SizeSumAppend(keys: seq<string>, k: string, s: seq<Product>)
    ensures SizeSum(keys + [k], s) == SizeSum(keys, s) + |GroupMembers(s, k)|
    decreases |keys|
  {
    if keys != [] {
      assert (keys + [k])[0] == keys[0] && (keys + [k])[1..] == keys[1..] + [k];
      SizeSumAppend(keys[1..], k, s);
    }
  }

  // ---------------------------------------------------------------------
  // Likes

  /** The count a product's like button shows: `ratings[id] || 0`. */
  function RatingOf(ratings: map<int, int>, id: int): int
  {
    if id in ratings then ratings[id] else 0
  }

  predicate ZeroOrOne(ratings: map<int, int>)
  {
    forall id :: id in ratings ==> ratings[id] == 0 || ratings[id] == 1
  }

  /** `handleRating`: a liked product is set to 0, any other to 1; every
      other product keeps its entry. */
  function ToggleRating(ratings: map<int, int>, id: int): (r: map<int, int>)
    ensures r.Keys == ratings.Keys + {id}
    ensures RatingOf(r, id) == (if RatingOf(ratings, id) != 0 then 0 else 1)
    ensures forall other :: other in ratings && other != id ==> r[other] == ratings[other]
    ensures ZeroOrOne(ratings) ==> ZeroOrOne(r)
  {
    ratings[id := if RatingOf(ratings, id) != 0 then 0 else 1]
  }

  /** Two presses restore the count shown; from a product showing 0 they
      leave an entry of 0 behind and touch nothing else. */
  lemma ToggleTwice(ratings: map<int, int>, id: int)
    requires ZeroOrOne(ratings)
    ensures RatingOf(ToggleRating(ToggleRating(ratings, id), id), id) == RatingOf(ratings, id)
    ensures RatingOf(ratings, id) == 0 ==> ToggleRating(ToggleRating(ratings, id), id) == ratings[id := 0]
  {
  }

  // ---------------------------------------------------------------------
  // Loading

  /** The `products` field of an object body. */
  datatype ProductsField = Missing | ProductList(items: seq<Product>) | NotAList

  /** The body of a successful reply. A `null` body has no `products`
      field to read: that read throws and lands in the catch. */
  datatype ProductsBody =
    | ListBody(items: seq<Product>)
    | ObjectBody(products: ProductsField)
    | NullBody
    | ScalarBody

  /** How the request ended: a reply, or a rejection carrying the
      `message` of the error reply's body when there is one. */
  datatype FetchResult = Received(body: ProductsBody) | Failed(message: Option<string>)

  /** The product list a reply carries, if it carries one. */
  function ReceivedList(result: FetchResult): Option<seq<Product>>
  {
    match result
    case Received(ListBody(items)) => Some(items)
    case Received(ObjectBody(ProductList(items))) => Some(items)
    case _ => None
  }

  datatype CatalogState = CatalogState(
    products: seq<Product>,
    loading: bool,
    error: string,
    ratings: map<int, int>,
    selectedImage: Option<string>,
    searchTerm: string,
    route: Option<Route>)

  const Initial := CatalogState([], false, "", map[], None, "", None)

  /** `fetchProducts` from the moment the reply settles: a list (bare or
      under `products`) replaces the products; any other reply empties them
      with the format message; a failure keeps them and shows the server's
      message or the default. */
  function AfterFetch(s: CatalogState, result: FetchResult): (t: CatalogState)
    ensures !t.loading
    ensures t.ratings == s.ratings && t.selectedImage == s.selectedImage
    ensures t.searchTerm == s.searchTerm && t.route == s.route
    ensures ReceivedList(result).Some? ==> t.products == ReceivedList(result).value && t.error == ""
    ensures result.Received? && ReceivedList(result).None? && !result.body.NullBody? ==>
              t.products == [] && t.error == UnexpectedFormat
    ensures result.Failed? ==> t.products == s.products && t.error == Or(result.message, FetchFailedMessage)
    ensures result == Received(NullBody) ==> t.products == s.products && t.error == FetchFailedMessage
    ensures t.error == "" <==> ReceivedList(result).Some?
  {
    match result
    case Received(ListBody(items)) => s.(products := items, loading := false, error := "")
    case Received(ObjectBody(ProductList(items))) => s.(products := items, loading := false, error := "")
    case Received(NullBody) => s.(loading := false, error := FetchFailedMessage)
    case Received(_) => s.(products := [], loading := false, error := UnexpectedFormat)
    case Failed(message) => s.(loading := false, error := Or(message, FetchFailedMessage))
  }

  /** Any failed request leaves some message on screen. */
  lemma FailureAlwaysExplained(s: CatalogState, message: Option<string>)
    ensures AfterFetch(s, Failed(message)).error != ""
    ensures message.None? ==> AfterFetch(s, Failed(message)).error == FetchFailedMessage
  {
  }

  /** The order button: navigate to the payment screen with `{product}`. */
  function OrderRoute(p: Product): (r: Route)
    ensures r.path == PaymentPath && r.state.Some?
    ensures r.state.value.product.Price() == p.price && r.state.value.quantity.None?
  {
    Route(PaymentPath, Some(OrderIntent(Listed(p), None)))
  }

  /** The line under "No products found" when no group is shown. */
  function EmptyNotice(term: string): (r: string)
    ensures r == SearchNotice <==> term != ""
    ensures r == SearchNotice || r == EmptyCatalogNotice
  {
    if term != "" then SearchNotice else EmptyCatalogNotice
  }

  // ---------------------------------------------------------------------
  // The component

  class ProductCatalog {
    var products: seq<Product>
    var loading: bool
    var error: string
    var ratings: map<int, int>
    var selectedImage: Option<string>
    var searchTerm: string
    var route: Option<Route>

    function State(): CatalogState
      reads this
    {
      CatalogState(products, loading, error, ratings, selectedImage, searchTerm, route)
    }

    constructor ()
      ensures State() == Initial
    {
      products, loading, error := [], false, "";
      ratings, selectedImage, searchTerm, route := map[], None, "", None;
    }

    /** `fetchProducts`: clear the message and show the spinner, handle the
        reply, then the `finally` that hides the spinner. */
    method Fetch(result: FetchResult)
      modifies this
      ensures State() == AfterFetch(old(State()), result)
    {
      error := "";
      loading := true;
      match result {
        case Received(body) =>
          match body {
            case ListBody(items) =>
              products := items;
            case ObjectBody(field) =>
              if field.ProductList? {
                products := field.items;
              } else {
                products := [];
                error := UnexpectedFormat;
              }
            case NullBody =>
              error := FetchFailedMessage;
            case ScalarBody =>
              products := [];
              error := UnexpectedFormat;
          }
        case Failed(message) =>
          error := Or(message, FetchFailedMessage);
      }
      loading := false;
    }

    /** The alert's close button. */
    method DismissError()
      modifies this
      ensures State() == old(State()).(error := "")
    {
      error := "";
    }

    method Search(term: string)
      modifies this
      ensures State() == old(State()).(searchTerm := term)
    {
      searchTerm := term;
    }

    method Like(id: int)
      modifies this
      ensures State() == old(State()).(ratings := ToggleRating(old(ratings), id))
    {
      ratings := ratings[id := if id in ratings && ratings[id] != 0 then 0 else 1];
    }

    /** A click on a product image opens the preview of that image. */
    method OpenImage(p: Product)
      modifies this
      ensures State() == old(State()).(selectedImage := Some(ImageBase + p.imageUrl))
    {
      selectedImage := Some(ImageBase + p.imageUrl);
    }

    method CloseImage()
      modifies this
      ensures State() == old(State()).(selectedImage := None)
    {
      selectedImage := None;
    }

    method Order(p: Product)
      modifies this
      ensures State() == old(State()).(route := Some(OrderRoute(p)))
    {
      route := Some(Route(PaymentPath, Some(OrderIntent(Listed(p), None))));
    }

    /** What the screen renders from its state: the groups in creation order. */
    method Groups() returns (order: seq<string>, groups: map<string, seq<Product>>)
      ensures order == GroupKeys(FilterProducts(products, searchTerm))
      ensures forall k :: k in groups <==> k in order
      ensures forall k :: k in groups ==> groups[k] == GroupMembers(FilterProducts(products, searchTerm), k)
    {
      var filtered := FilterProducts(products, searchTerm);
      order, groups := GroupByCategory(filtered);
    }
  }

  // ---------------------------------------------------------------------
  // A worked example

  const Moringa := Product(1, 1, "Moringa", 50000, "Diabetes", None, "", "moringa.jpg", 10)
  const Garlic := Product(2, 2, "Garlic", 30000, "Immunity", None, "", "garlic.jpg", 5)

  const Shelf := [Moringa, Garlic]

  lemma MoringaMatches()
    ensures MatchesSearch(Moringa, "mor")
  {
    LowerKeeps("mor");
    var name := Lower("Moringa");
    assert name[..3] == "mor";
    assert StartsWith(name, "mor");
  }

  lemma GarlicMisses()
    ensures !MatchesSearch(Garlic, "mor")
  {
    LowerKeeps("mor");
    LowerLacks("Garlic", "mor", 0);
    LowerLacks("Immunity", "mor", 1);
  }

  /** A word none of whose letters lower-cases to `sub[j]` does not include
      `sub` once lower-cased. */
  lemma LowerLacks(s: string, sub: string, j: nat)
    requires j < |sub| && forall i :: 0 <= i < |s| ==> LowerChar(s[i]) != sub[j]
    ensures !Contains(Lower(s), sub)
  {
    ContainsNeedsChar(Lower(s), sub, j);
  }

  /** Searching "mor" over Moringa (Diabetes) and Garlic (Immunity) keeps
      Moringa alone ... */
  lemma SearchExample()
    ensures FilterProducts(Shelf, "mor") == [Moringa]
  {
    MoringaMatches();
    GarlicMisses();
    FilterPair(Moringa, Garlic, Matcher("mor"));
  }

  lemma FilterPair(a: Product, b: Product, keep: Product -> bool)
    requires keep(a) && !keep(b)
    ensures Filter([a, b], keep) == [a]
  {
    assert [a, b][1..] == [b];
  }

  /** ... which leaves one group, "Diabetes", holding Moringa. */
  lemma GroupExample()
    ensures GroupKeys([Moringa]) == ["Diabetes"]
    ensures GroupMembers([Moringa], "Diabetes") == [Moringa]
  {
    assert [Moringa][..0] == [];
  }
}
