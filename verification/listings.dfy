/**
  The listings hook (`api/hooks/useListings.js`): its filters and their
  setters, the list query, the 24-item mock catalogue with its search,
  sort and page pipeline, and the state updates of fetch, create, update
  and delete, where a failed network call is answered from local state.
 */
module Listings {
  import opened Js
  import opened Lists
  import opened Resource

  const CatalogueSize := 24
  const DayMs := 86400000
  const Titles := ["Vintage Denim Jacket", "Retro Armchair", "Classic Leather Boots", "Mid-century Lamp", "Silk Scarf"]
  const Prices := [65, 240, 120, 90, 35]
  const Sellers := ["Ava", "Liam", "Mia", "Noah"]
  const Conditions := ["Excellent", "Good", "Fair"]
  const Categories := ["Clothing", "Furniture", "Accessories"]
  const Description := "A lovely vintage item with character and charm."

  datatype Listing = Listing(
    id: string, title: string, price: int, currency: string, region: string, likes: nat,
    images: seq<string>, sellerId: string, sellerName: string, createdAt: int,
    condition: string, category: string, description: string)

  /** The listing as the page sees it, with `createdAt` printed as an ISO timestamp. */
  function ListingJson(l: Listing, iso: int -> string): Json {
    Obj(map[
      "id" := Str(l.id), "title" := Str(l.title), "price" := Num(l.price),
      "currency" := Str(l.currency), "region" := Str(l.region), "likes" := Num(l.likes),
      "images" := Arr(seq(|l.images|, k requires 0 <= k < |l.images| => Str(l.images[k]))),
      "seller" := Obj(map["id" := Str(l.sellerId), "name" := Str(l.sellerName)]),
      "createdAt" := Str(iso(l.createdAt)), "condition" := Str(l.condition),
      "category" := Str(l.category), "description" := Str(l.description)])
  }

  // ---------------------------------------------------------------------
  // filters

  datatype ListingFilters = ListingFilters(region: string, search: string, sort: string, page: nat, pageSize: nat)

  /** The hook's starting filters, each `initial.x || default` ("" and 0 stand for absent). */
  function InitialFilters(region: string, search: string, sort: string, page: nat, pageSize: nat): (f: ListingFilters)
    ensures f.region == (if region == "" then "Global" else region)
    ensures f.search == search
    ensures f.sort == (if sort == "" then "newest" else sort)
    ensures page == 0 ==> f.page == 1
    ensures page != 0 ==> f.page == page
    ensures pageSize == 0 ==> f.pageSize == 20
    ensures pageSize != 0 ==> f.pageSize == pageSize
  {
    ListingFilters(if region == "" then "Global" else region, search,
                   if sort == "" then "newest" else sort,
                   EffectivePage(page), EffectiveSize(pageSize))
  }

  function SetRegion(f: ListingFilters, region: string): (g: ListingFilters)
    ensures g.region == region && g.page == 1
    ensures g.search == f.search && g.sort == f.sort && g.pageSize == f.pageSize
  {
    f.(region := region, page := 1)
  }

  function SetSearch(f: ListingFilters, search: string): (g: ListingFilters)
    ensures g.search == search && g.page == 1
    ensures g.region == f.region && g.sort == f.sort && g.pageSize == f.pageSize
  {
    f.(search := search, page := 1)
  }

  function SetSort(f: ListingFilters, sort: string): (g: ListingFilters)
    ensures g.sort == sort && g.page == 1
    ensures g.region == f.region && g.search == f.search && g.pageSize == f.pageSize
  {
    f.(sort := sort, page := 1)
  }

  function SetPage(f: ListingFilters, page: nat): (g: ListingFilters)
    ensures g.page == page
    ensures g.region == f.region && g.search == f.search && g.sort == f.sort && g.pageSize == f.pageSize
  {
    f.(page := page)
  }

  function SetPageSize(f: ListingFilters, pageSize: nat): (g: ListingFilters)
    ensures g.pageSize == pageSize
    ensures g.region == f.region && g.search == f.search && g.sort == f.sort && g.page == f.page
  {
    f.(pageSize := pageSize)
  }

  /**
    The `/listings` query: `q`, `region`, `sort`, `page`, `pageSize` in that
    order, the two numbers printed with their defaults applied.
   */
  function ListingsQuery(f: ListingFilters): (q: Query)
    ensures |q| == 5
    ensures q[0] == ("q", f.search) && q[1] == ("region", f.region) && q[2] == ("sort", f.sort)
    ensures q[3].0 == "page" && ParseNat(q[3].1) == Some(EffectivePage(f.page))
    ensures q[4].0 == "pageSize" && ParseNat(q[4].1) == Some(EffectiveSize(f.pageSize))
  {
    ParseNatToString(EffectivePage(f.page));
    ParseNatToString(EffectiveSize(f.pageSize));
    [("q", f.search), ("region", f.region), ("sort", f.sort),
     ("page", NatToString(EffectivePage(f.page))), ("pageSize", NatToString(EffectiveSize(f.pageSize)))]
  }

  /** Changing the region, search or sort always asks the server for page 1. */
  lemma FilterChangeQueriesFirstPage(f: ListingFilters, region: string, search: string, sort: string)
    ensures ParseNat(ListingsQuery(SetRegion(f, region))[3].1) == Some(1)
    ensures ParseNat(ListingsQuery(SetSearch(f, search))[3].1) == Some(1)
    ensures ParseNat(ListingsQuery(SetSort(f, sort))[3].1) == Some(1)
  {
  }

  // ---------------------------------------------------------------------
  // the mock catalogue

  /** Catalogue entry `i`; `likes` is the random draw the source makes for it. */
  function MockListing(i: nat, region: string, now: int, likes: nat): Listing {
    Listing(
      id := "mock-" + NatToString(i + 1),
      title := Titles[i % 5] + " #" + NatToString(i + 1),
      price := Prices[i % 5],
      currency := "USD",
      region := region,
      likes := likes,
      images := ["https://picsum.photos/seed/vintage-" + NatToString(i) + "/600/600"],
      sellerId := "seller-" + NatToString(i % 4 + 1),
      sellerName := Sellers[i % 4],
      createdAt := now - i * DayMs,
      condition := Conditions[i % 3],
      category := Categories[i % 3],
      description := Description)
  }

  /** The 24 synthetic listings, newest first; `likes[i]` is item i's draw from [0, 200). */
  function Catalogue(region: string, now: int, likes: seq<nat>): (c: seq<Listing>)
    requires |likes| == CatalogueSize
    ensures |c| == CatalogueSize
    ensures forall i :: 0 <= i < |c| ==> c[i] == MockListing(i, if region == "" then "Global" else region, now, likes[i])
  {
    seq(CatalogueSize, i requires 0 <= i < CatalogueSize =>
      MockListing(i, if region == "" then "Global" else region, now, likes[i]))
  }

  /** `it.title.toLowerCase().includes(search.toLowerCase())` */
  predicate MatchesSearch(l: Listing, search: string) {
    Includes(Lower(l.title), Lower(search))
  }

  /** The search step: a non-empty search keeps the case-insensitive title matches. */
  function SearchFilter(items: seq<Listing>, search: string): (r: seq<Listing>)
    ensures search == "" ==> r == items
    ensures search != "" ==> forall k :: 0 <= k < |r| ==> MatchesSearch(r[k], search)
    ensures search != "" ==> forall x :: x in items && MatchesSearch(x, search) ==> x in r
    ensures forall x :: x in r ==> x in items
    // one in-order pass of the search test, which the empty search passes everywhere
    ensures r == Filter(items, SearchHit(search))
  {
    if search == "" then
      FilterAll(items, SearchHit(search));
      items
    else
      FilterSame(items, l => MatchesSearch(l, search), SearchHit(search));
      Filter(items, l => MatchesSearch(l, search))
  }

  function PriceKey(l: Listing): int { l.price }
  function PriceDescKey(l: Listing): int { -l.price }
  function LikesDescKey(l: Listing): int { -(l.likes as int) }
  function NewestKey(l: Listing): int { -l.createdAt }

  /** The comparator each sort value selects; anything unrecognised means newest first. */
  function SortKey(sort: string): Listing -> int {
    if sort == "price_low_high" then PriceKey
    else if sort == "price_high_low" then PriceDescKey
    else if sort == "popular" then LikesDescKey
    else NewestKey
  }

  predicate KnownSort(sort: string) {
    sort == "price_low_high" || sort == "price_high_low" || sort == "popular"
  }

  /** The search result in the order the sort value asks for, before paging. */
  function SortedResult(p: ListingFilters, now: int, likes: seq<nat>): (r: seq<Listing>)
    requires |likes| == CatalogueSize
    ensures |r| == Count(Catalogue(p.region, now, likes), SearchHit(p.search))
    ensures SortedBy(r, SortKey(p.sort))
    ensures multiset(r) == multiset(SearchFilter(Catalogue(p.region, now, likes), p.search))
  {
    var all := Catalogue(p.region, now, likes);
    SearchTotal(all, p.search);
    SortByKey(SearchFilter(all, p.search), SortKey(p.sort))
  }

  /** `generateMockListings(params)`: search, then sort, then one page. */
  function GenerateMockListings(p: ListingFilters, now: int, likes: seq<nat>): (r: MockPage<Listing>)
    requires |likes| == CatalogueSize
    ensures r.total == Count(Catalogue(p.region, now, likes), SearchHit(p.search))
    ensures |r.items| == PageLength(r.total, p.page, p.pageSize)
    ensures forall k :: 0 <= k < |r.items| ==>
              r.items[k] == SortedResult(p, now, likes)[Start(p.page, p.pageSize) + k]
  {
    var sorted := SortedResult(p, now, likes);
    MockPage(PageOf(sorted, p.page, p.pageSize), |sorted|)
  }

  /** A mock page holds catalogue items only, and with a search only matching ones. */
  lemma MockPageContents(p: ListingFilters, now: int, likes: seq<nat>)
    requires |likes| == CatalogueSize
    ensures var r := GenerateMockListings(p, now, likes);
            forall k :: 0 <= k < |r.items| ==> r.items[k] in Catalogue(p.region, now, likes)
    ensures var r := GenerateMockListings(p, now, likes);
            p.search != "" ==> forall k :: 0 <= k < |r.items| ==> MatchesSearch(r.items[k], p.search)
  {
    var all := Catalogue(p.region, now, likes);
    var filtered := SearchFilter(all, p.search);
    var r := GenerateMockListings(p, now, likes);
    assert r.items == PageOf(SortByKey(filtered, SortKey(p.sort)), p.page, p.pageSize);
    SortedMembers(filtered, SortKey(p.sort), p.page, p.pageSize);
    forall k | 0 <= k < |r.items|
      ensures r.items[k] in all
      ensures p.search != "" ==> MatchesSearch(r.items[k], p.search)
    {
      assert r.items[k] in filtered;
      if p.search != "" {
        assert filtered == Filter(all, l => MatchesSearch(l, p.search));
      }
    }
  }

  /** A mock page is in the order its sort value asks for; unrecognised values mean newest first. */
  lemma MockPageOrder(p: ListingFilters, now: int, likes: seq<nat>)
    requires |likes| == CatalogueSize
    ensures var r := GenerateMockListings(p, now, likes).items;
            && (p.sort == "price_low_high" ==>
                  forall i, j :: 0 <= i < j < |r| ==> r[i].price <= r[j].price)
            && (p.sort == "price_high_low" ==>
                  forall i, j :: 0 <= i < j < |r| ==> r[i].price >= r[j].price)
            && (p.sort == "popular" ==>
                  forall i, j :: 0 <= i < j < |r| ==> r[i].likes >= r[j].likes)
            && (!KnownSort(p.sort) ==>
                  forall i, j :: 0 <= i < j < |r| ==> r[i].createdAt >= r[j].createdAt)
  {
    var filtered := SearchFilter(Catalogue(p.region, now, likes), p.search);
    PageOrder(SortByKey(filtered, SortKey(p.sort)), p);
  }

  /** Every item on a page of a sorted search result was in that search result. */
  lemma SortedMembers(filtered: seq<Listing>, key: Listing -> int, page: nat, pageSize: nat)
    ensures var r := PageOf(SortByKey(filtered, key), page, pageSize);
            forall k :: 0 <= k < |r| ==> r[k] in filtered
  {
    var sorted := SortByKey(filtered, key);
    var r := PageOf(sorted, page, pageSize);
    forall k | 0 <= k < |r|
      ensures r[k] in filtered
    {
      assert r[k] == sorted[Start(page, pageSize) + k];
      assert r[k] in multiset(sorted);
    }
  }

  /** The order a page of the sorted result is in, spelled out per sort value. */
  lemma PageOrder(sorted: seq<Listing>, p: ListingFilters)
    requires SortedBy(sorted, SortKey(p.sort))
    ensures var r := PageOf(sorted, p.page, p.pageSize);
            && (p.sort == "price_low_high" ==>
                  forall i, j :: 0 <= i < j < |r| ==> r[i].price <= r[j].price)
            && (p.sort == "price_high_low" ==>
                  forall i, j :: 0 <= i < j < |r| ==> r[i].price >= r[j].price)
            && (p.sort == "popular" ==>
                  forall i, j :: 0 <= i < j < |r| ==> r[i].likes >= r[j].likes)
            && (!KnownSort(p.sort) ==>
                  forall i, j :: 0 <= i < j < |r| ==> r[i].createdAt >= r[j].createdAt)
  {
    var r := PageOf(sorted, p.page, p.pageSize);
    PageKeepsSorted(sorted, p.page, p.pageSize, SortKey(p.sort));
    forall i, j | 0 <= i < j < |r|
      ensures SortKey(p.sort)(r[i]) <= SortKey(p.sort)(r[j])
    {
    }
  }

  /** The test the search step applies, with the empty search passing everything. */
  function SearchHit(search: string): Listing -> bool {
    l => search == "" || MatchesSearch(l, search)
  }

  lemma SearchTotal(all: seq<Listing>, search: string)
    ensures |SearchFilter(all, search)| == Count(all, SearchHit(search))
  {
    if search == "" {
      CountAll(all, SearchHit(search));
    } else {
      CountPointwise(all, SearchHit(search), all, l => MatchesSearch(l, search));
    }
  }

  /** An empty search keeps the whole catalogue: the total is 24. */
  lemma EmptySearchKeepsAll(p: ListingFilters, now: int, likes: seq<nat>)
    requires |likes| == CatalogueSize
    requires p.search == ""
    ensures GenerateMockListings(p, now, likes).total == CatalogueSize
  {
    SearchTotal(Catalogue(p.region, now, likes), "");
  }

  /**
    The total depends on the search alone: not on the page, the page size,
    the sort, the region, the clock or the random likes.
   */
  lemma TotalIgnoresPaging(p: ListingFilters, q: ListingFilters, now: int, now': int,
                           likes: seq<nat>, likes': seq<nat>)
    requires |likes| == CatalogueSize && |likes'| == CatalogueSize
    requires p.search == q.search
    ensures GenerateMockListings(p, now, likes).total == GenerateMockListings(q, now', likes').total
  {
    var a := Catalogue(p.region, now, likes);
    var b := Catalogue(q.region, now', likes');
    forall k | 0 <= k < |a|
      ensures a[k].title == b[k].title
    {
    }
    CountPointwise(a, SearchHit(p.search), b, SearchHit(q.search));
  }

  lemma DaysIncrease(i: nat, j: nat)
    requires i < j
    ensures i * DayMs < j * DayMs
  {
  }

  /** The catalogue is built newest first. */
  lemma CatalogueIsNewestFirst(region: string, now: int, likes: seq<nat>)
    requires |likes| == CatalogueSize
    ensures SortedBy(Catalogue(region, now, likes), NewestKey)
  {
    var c := Catalogue(region, now, likes);
    forall i, j | 0 <= i < j < |c|
      ensures NewestKey(c[i]) <= NewestKey(c[j])
    {
      DaysIncrease(i, j);
    }
  }

  /**
    `newest` (and any sort value not recognised) keeps catalogue order:
    the page is cut straight out of the search result.
   */
  lemma NewestIsCatalogueOrder(p: ListingFilters, now: int, likes: seq<nat>)
    requires |likes| == CatalogueSize
    requires !KnownSort(p.sort)
    ensures GenerateMockListings(p, now, likes).items
            == PageOf(SearchFilter(Catalogue(p.region, now, likes), p.search), p.page, p.pageSize)
  {
    var all := Catalogue(p.region, now, likes);
    CatalogueIsNewestFirst(p.region, now, likes);
    if p.search != "" {
      FilterKeepsSorted(all, l => MatchesSearch(l, p.search), NewestKey);
    }
    SortSortedIsIdentity(SearchFilter(all, p.search), NewestKey);
  }

  /** After any filter setter the mock result starts at the first item. */
  lemma FilterChangeShowsFirstPage(f: ListingFilters, search: string, now: int, likes: seq<nat>)
    requires |likes| == CatalogueSize
    ensures var r := GenerateMockListings(SetSearch(f, search), now, likes);
            |r.items| == Min(EffectiveSize(f.pageSize), r.total)
  {
  }

  // ---------------------------------------------------------------------
  // hook state

  datatype ListingsState = ListingsState(listings: seq<Json>, total: int, filters: ListingFilters)

  /** `fetchListings()`: the server's list, or on any failure the mock page for the current filters. */
  function FetchListings(st: ListingsState, net: Net<Json>, clock: Clock, likes: seq<nat>): (s: ListingsState)
    requires |likes| == CatalogueSize
    ensures s.filters == st.filters
    ensures net.Ok? ==> s.listings == DecodeList(net.data).items && s.total == DecodeList(net.data).total
    ensures net.Fail? ==>
              var mock := GenerateMockListings(st.filters, clock.now, likes);
              s.total == mock.total && |s.listings| == |mock.items| &&
              |s.listings| <= EffectiveSize(st.filters.pageSize) &&
              forall k :: 0 <= k < |s.listings| ==> s.listings[k] == ListingJson(mock.items[k], clock.iso)
  {
    match net
    case Ok(data) =>
      var d := DecodeList(data);
      st.(listings := d.items, total := d.total)
    case Fail =>
      var mock := GenerateMockListings(st.filters, clock.now, likes);
      st.(listings := seq(|mock.items|, k requires 0 <= k < |mock.items| => ListingJson(mock.items[k], clock.iso)),
          total := mock.total)
  }

  /** The item the fallback of `createListing` prepends. */
  function CreatedListing(payload: Json, clock: Clock): (c: Json)
    ensures c.Obj?
    ensures "id" !in Props(payload) ==> Get(c, "id") == Str("mock-" + NatToString(clock.now))
    ensures Get(c, "price") == ToNumber(Or(Get(payload, "price"), Num(0)))
    ensures Get(c, "images") == Or(Get(payload, "images"), Arr([]))
    ensures Get(c, "likes") == Num(0)
    ensures Get(c, "createdAt") == Str(clock.iso(clock.now))
    ensures forall k :: k in Props(payload) && k != "images" && k != "price" && k != "createdAt" && k != "likes"
              ==> Get(c, k) == Props(payload)[k]
  {
    Obj(map["id" := Str("mock-" + NatToString(clock.now))]
        + Props(payload)
        + map["images" := Or(Get(payload, "images"), Arr([])),
              "price" := ToNumber(Or(Get(payload, "price"), Num(0))),
              "createdAt" := Str(clock.iso(clock.now)),
              "likes" := Num(0)])
  }

  /**
    `createListing(payload)`: on success refetch; on failure prepend the
    mock item and count it, unless the payload is null or undefined, whose
    `.images` throws.
   */
  function CreateListing(st: ListingsState, payload: Json, net: Net<Json>, refetch: Net<Json>,
                         clock: Clock, likes: seq<nat>): (r: Step<ListingsState>)
    requires |likes| == CatalogueSize
    ensures net.Ok? ==> r == Done(FetchListings(st, refetch, clock, likes), net.data)
    ensures net.Fail? ==> (r.Threw? <==> Nullish(payload))
    ensures r.Threw? ==> r.state == st
    ensures net.Fail? && r.Done? ==>
              && |r.state.listings| == |st.listings| + 1
              && r.state.listings[0] == r.result
              && r.state.listings[1..] == st.listings
              && r.state.total == st.total + 1
              && r.state.filters == st.filters
              && r.result == CreatedListing(payload, clock)
  {
    match net
    case Ok(data) => Done(FetchListings(st, refetch, clock, likes), data)
    case Fail =>
      if Nullish(payload) then Threw(st)
      else
        var created := CreatedListing(payload, clock);
        Done(st.(listings := [created] + st.listings, total := st.total + 1), created)
  }

  /** `updateListing(id, payload)`: on failure merge the payload into the items with that id. */
  function UpdateListing(st: ListingsState, id: Json, payload: Json, net: Net<Json>, refetch: Net<Json>,
                         clock: Clock, likes: seq<nat>): (r: Step<ListingsState>)
    requires |likes| == CatalogueSize
    ensures r.Done?
    ensures net.Ok? ==> r.result == net.data && r.state == FetchListings(st, refetch, clock, likes)
    ensures net.Fail? ==>
              && |r.state.listings| == |st.listings|
              && r.state.total == st.total && r.state.filters == st.filters
              && (forall k :: 0 <= k < |st.listings| && !HasId(st.listings[k], id) ==>
                    r.state.listings[k] == st.listings[k])
              && (forall k, f :: 0 <= k < |st.listings| && HasId(st.listings[k], id) && f in Props(payload) ==>
                    Get(r.state.listings[k], f) == Props(payload)[f])
              && (forall k, f :: 0 <= k < |st.listings| && HasId(st.listings[k], id) && f !in Props(payload) ==>
                    Get(r.state.listings[k], f) == Get(st.listings[k], f))
              && Get(r.result, "id") == (if "id" in Props(payload) then Props(payload)["id"] else id)
  {
    match net
    case Ok(data) => Done(FetchListings(st, refetch, clock, likes), data)
    case Fail =>
      Done(st.(listings := PatchById(st.listings, id, Props(payload))),
           Obj(map["id" := id] + Props(payload)))
  }

  /** `deleteListing(id)`: on failure drop every item with that id and count one down, never below 0. */
  function DeleteListing(st: ListingsState, id: Json, net: Net<Json>, refetch: Net<Json>,
                         clock: Clock, likes: seq<nat>): (r: Step<ListingsState>)
    requires |likes| == CatalogueSize
    ensures r.Done? && r.result == Bool(true)
    ensures net.Ok? ==> r.state == FetchListings(st, refetch, clock, likes)
    ensures net.Fail? ==>
              && r.state.listings == RemoveById(st.listings, id)
              && (forall k :: 0 <= k < |r.state.listings| ==> !HasId(r.state.listings[k], id))
              && (forall x :: x in st.listings && !HasId(x, id) ==> x in r.state.listings)
              && (forall x :: x in r.state.listings ==> x in st.listings)
              && r.state.total >= 0
              && r.state.total == (if st.total >= 1 then st.total - 1 else 0)
              && r.state.filters == st.filters
  {
    match net
    case Ok(_) => Done(FetchListings(st, refetch, clock, likes), Bool(true))
    case Fail =>
      Done(st.(listings := RemoveById(st.listings, id),
               total := if st.total - 1 >= 0 then st.total - 1 else 0), Bool(true))
  }

  /** `getListing(id)`: the server's record, or a fixed mock detail carrying the asked-for id. */
  function GetListing(id: Json, net: Net<Json>, clock: Clock): (r: Json)
    ensures net.Ok? ==> r == net.data
    ensures net.Fail? ==> Get(r, "id") == id && Get(r, "price") == Num(75) && Get(r, "likes") == Num(42)
                          && Get(r, "title") == Str("Vintage Denim Jacket")
                          && Get(r, "createdAt") == Str(clock.iso(clock.now))
  {
    match net
    case Ok(data) => data
    case Fail =>
      Obj(map[
        "id" := id, "title" := Str("Vintage Denim Jacket"), "price" := Num(75),
        "currency" := Str("USD"), "region" := Str("Global"), "likes" := Num(42),
        "images" := Arr([Str("https://picsum.photos/seed/vintage-detail/800/800")]),
        "createdAt" := Str(clock.iso(clock.now)), "condition" := Str("Good"), "category" := Str("Clothing"),
        "description" := Str("Classic piece from the 80s, well preserved and stylish."),
        "measurements" := Obj(map["chest" := Str("40in"), "length" := Str("25in")]),
        "seller" := Obj(map["id" := Str("seller-1"), "name" := Str("Ava")])])
  }

  /** A mock create followed by a mock delete of the same fresh id restores the list and the count. */
  lemma CreateThenDeleteRestores(st: ListingsState, payload: Json, clock: Clock, likes: seq<nat>, refetch: Net<Json>)
    requires |likes| == CatalogueSize
    requires st.total >= 0
    requires payload.Obj? && "id" !in payload.props
    requires forall k :: 0 <= k < |st.listings| ==> !HasId(st.listings[k], Str("mock-" + NatToString(clock.now)))
    ensures var created := CreateListing(st, payload, Fail, refetch, clock, likes).state;
            var deleted := DeleteListing(created, Str("mock-" + NatToString(clock.now)), Fail, refetch, clock, likes).state;
            deleted.listings == st.listings && deleted.total == st.total
  {
    var id := Str("mock-" + NatToString(clock.now));
    var created := CreateListing(st, payload, Fail, refetch, clock, likes).state;
    var c := CreatedListing(payload, clock);
    assert HasId(c, id);
    assert created.listings == [c] + st.listings;
    RemoveAbsentId(st.listings, id);
    assert created.listings[1..] == st.listings;
    RemoveByIdSingle(c, id);
    RemoveByIdConcat([c], st.listings, id);
  }

  /**
    The mock detail is shaped like a catalogue listing: it has every field a
    catalogue entry has, plus `measurements`, and it describes the first
    catalogue title at its first seller.
   */
  lemma DetailHasCatalogueFields(id: Json, clock: Clock, l: Listing)
    ensures var d := GetListing(id, Fail, clock);
            && d.Obj?
            && d.props.Keys == ListingJson(l, clock.iso).props.Keys + {"measurements"}
            && Get(d, "title") == Str(Titles[0])
            && Get(Get(d, "seller"), "name") == Str(Sellers[0])
  {
    ListingJsonKeys(l, clock.iso);
    MockDetailKeys(id, clock);
    MockDetailSeller(id, clock);
  }

  /** The twelve fields of a listing record. */
  const ListingKeys: set<string> := {"id", "title", "price", "currency", "region", "likes", "images", "seller",
                                     "createdAt", "condition", "category", "description"}

  /** A listing record has exactly the twelve listing fields. */
  lemma ListingJsonKeys(l: Listing, iso: int -> string)
    ensures ListingJson(l, iso).props.Keys == ListingKeys
  {
  }

  /** The mock detail has the twelve listing fields and `measurements`. */
  lemma MockDetailKeys(id: Json, clock: Clock)
    ensures GetListing(id, Fail, clock).props.Keys == ListingKeys + {"measurements"}
  {
  }

  /** The mock detail is sold by the first catalogue seller. */
  lemma MockDetailSeller(id: Json, clock: Clock)
    ensures Get(Get(GetListing(id, Fail, clock), "seller"), "name") == Str(Sellers[0])
  {
    var d := GetListing(id, Fail, clock);
    assert "seller" in d.props && d.props["seller"] == Obj(map["id" := Str("seller-1"), "name" := Str("Ava")]);
  }
}
