/**
  The swaps hook (`api/hooks/useSwaps.js`): role/status filters, the mock
  swap builder and its 10-swap catalogue, the create request and its mock,
  the detail view, and the status update with its routing to the accept and
  decline endpoints and its local fallback.
 */
module Swaps {
  import opened Js
  import opened Lists
  import opened Resource

  const SwapCount := 10
  const SeedStatuses := ["open", "accepted", "declined", "open"]
  const SeedRoles := ["mine", "theirs", "mine", "theirs"]
  const SeedNotes := ["Let's trade?", "Looks cool!", "Interested in swapping?", "Can add cash on top."]

  // ---------------------------------------------------------------------
  // the mock swap

  /** The options of `buildMockSwap` once their defaults are applied. */
  datatype MockSwap = MockSwap(id: Json, myListingId: Json, theirListingId: Json, status: Json, note: Json, role: Json)

  /**
    `buildMockSwap(id, { myListingId = "mock-1", theirListingId = "mock-2",
    status = "open", note = "", role = "mine" })`, before it is rendered.
   */
  function SwapOf(id: Json, opts: map<string, Json>): (s: MockSwap)
    ensures s.id == id
    ensures s.myListingId == Default(Get(Obj(opts), "myListingId"), Str("mock-1"))
    ensures s.theirListingId == Default(Get(Obj(opts), "theirListingId"), Str("mock-2"))
    ensures s.status == Default(Get(Obj(opts), "status"), Str("open"))
    ensures s.note == Default(Get(Obj(opts), "note"), Str(""))
    ensures s.role == Default(Get(Obj(opts), "role"), Str("mine"))
  {
    var o := Obj(opts);
    MockSwap(id, Default(Get(o, "myListingId"), Str("mock-1")), Default(Get(o, "theirListingId"), Str("mock-2")),
             Default(Get(o, "status"), Str("open")), Default(Get(o, "note"), Str("")),
             Default(Get(o, "role"), Str("mine")))
  }

  /** A listing of a mock swap: the jacket at 75 (side `a`) or the armchair at 240 (side `b`). */
  function SwapListing(side: string, id: Json): (l: Json)
    requires side == "a" || side == "b"
    ensures l.Obj? && Get(l, "id") == id
    ensures Get(l, "price") == Num(if side == "a" then 75 else 240)
  {
    Obj(map[
      "id" := id,
      "title" := Str(if side == "a" then "Vintage Denim Jacket" else "Retro Armchair"),
      "image" := Str("https://picsum.photos/seed/swap-" + side + "-" + ToJsString(id) + "/600/600"),
      "price" := Num(if side == "a" then 75 else 240),
      "currency" := Str("USD")])
  }

  /** `s.mine`: my listing when the role is `mine`, their listing for any other role. */
  function MineSide(s: MockSwap): (l: Json)
    ensures l.Obj? && Get(l, "id") == (if s.role == Str("mine") then s.myListingId else s.theirListingId)
  {
    if s.role == Str("mine") then SwapListing("a", s.myListingId) else SwapListing("b", s.theirListingId)
  }

  /** `s.theirs`: the other listing. */
  function TheirsSide(s: MockSwap): (l: Json)
    ensures l.Obj? && Get(l, "id") == (if s.role == Str("mine") then s.theirListingId else s.myListingId)
  {
    if s.role == Str("mine") then SwapListing("b", s.theirListingId) else SwapListing("a", s.myListingId)
  }

  /** The swap object the page sees. */
  function SwapJson(s: MockSwap, clock: Clock): (j: Json)
    ensures Get(j, "id") == s.id && Get(j, "status") == s.status && Get(j, "note") == s.note
    ensures Get(j, "mine") == MineSide(s) && Get(j, "theirs") == TheirsSide(s)
  {
    var stamp := Str(clock.iso(clock.now));
    Obj(map["id" := s.id, "mine" := MineSide(s), "theirs" := TheirsSide(s), "status" := s.status,
            "note" := s.note, "createdAt" := stamp, "updatedAt" := stamp])
  }

  /** `buildMockSwap(id, opts)` */
  function BuildMockSwap(id: Json, opts: map<string, Json>, clock: Clock): (j: Json)
    ensures Get(j, "id") == id
    ensures Get(j, "status") == Default(Get(Obj(opts), "status"), Str("open"))
    ensures var isMine := Default(Get(Obj(opts), "role"), Str("mine")) == Str("mine");
            var mine := Default(Get(Obj(opts), "myListingId"), Str("mock-1"));
            var theirs := Default(Get(Obj(opts), "theirListingId"), Str("mock-2"));
            && Get(Get(j, "mine"), "id") == (if isMine then mine else theirs)
            && Get(Get(j, "theirs"), "id") == (if isMine then theirs else mine)
  {
    SwapJson(SwapOf(id, opts), clock)
  }

  /** Catalogue swap `i`: its two listings, and a status, role and note that cycle with period 4. */
  function SeedSwap(i: nat): MockSwap {
    MockSwap(Str("swap-" + NatToString(i + 1)),
             Str("mock-" + NatToString(i % 5 + 1)), Str("mock-" + NatToString((i + 1) % 5 + 1)),
             Str(SeedStatuses[i % 4]), Str(SeedNotes[i % 4]), Str(SeedRoles[i % 4]))
  }

  /** Each catalogue swap is what `buildMockSwap` makes of its seed options. */
  lemma SeedSwapIsBuilt(i: nat)
    ensures SeedSwap(i) == SwapOf(Str("swap-" + NatToString(i + 1)), map[
              "myListingId" := Str("mock-" + NatToString(i % 5 + 1)),
              "theirListingId" := Str("mock-" + NatToString((i + 1) % 5 + 1)),
              "status" := Str(SeedStatuses[i % 4]),
              "role" := Str(SeedRoles[i % 4]),
              "note" := Str(SeedNotes[i % 4])])
  {
  }

  function SwapCatalogue(): (c: seq<MockSwap>)
    ensures |c| == SwapCount
    ensures forall i :: 0 <= i < |c| ==> c[i] == SeedSwap(i)
  {
    seq(SwapCount, i requires 0 <= i < SwapCount => SeedSwap(i))
  }

  // ---------------------------------------------------------------------
  // the mock pipeline

  /** `s => params.role === "mine" ? s.mine : s.theirs`: the side the role names must be truthy. */
  function SwapRoleIs(role: string): MockSwap -> bool {
    (s: MockSwap) => Truthy(if role == "mine" then MineSide(s) else TheirsSide(s))
  }

  function SwapStatusIs(status: string): MockSwap -> bool {
    (s: MockSwap) => s.status == Str(status)
  }

  /** What the two filter steps keep together; `all` switches a step off. */
  function SwapHit(role: string, status: string): MockSwap -> bool {
    (s: MockSwap) => (role == "all" || SwapRoleIs(role)(s)) && (status == "all" || SwapStatusIs(status)(s))
  }

  /** The role step, then the status step. */
  function MatchingSwaps(base: seq<MockSwap>, role: string, status: string): (r: seq<MockSwap>)
    ensures |r| == Count(base, SwapHit(role, status))
    ensures forall k :: 0 <= k < |r| ==> r[k] in base && SwapHit(role, status)(r[k])
    ensures forall x :: x in base && SwapHit(role, status)(x) ==> x in r
    ensures r == Filter(base, SwapHit(role, status))
  {
    var byRole := if role != "all" then Filter(base, SwapRoleIs(role)) else base;
    var items := if status != "all" then Filter(byRole, SwapStatusIs(status)) else byRole;
    SwapOnePass(base, role, status);
    items
  }

  lemma SwapOnePass(base: seq<MockSwap>, role: string, status: string)
    ensures var byRole := if role != "all" then Filter(base, SwapRoleIs(role)) else base;
            (if status != "all" then Filter(byRole, SwapStatusIs(status)) else byRole)
            == Filter(base, SwapHit(role, status))
  {
    if role != "all" && status != "all" {
      FilterTwice(base, SwapRoleIs(role), SwapStatusIs(status), SwapHit(role, status));
    } else if role != "all" {
      FilterSame(base, SwapRoleIs(role), SwapHit(role, status));
    } else if status != "all" {
      FilterSame(base, SwapStatusIs(status), SwapHit(role, status));
    } else {
      FilterAll(base, SwapHit(role, status));
    }
  }

  /** One page of the swaps of `base` that the filters keep, with their count. */
  function PageOfMatching(base: seq<MockSwap>, p: RoleStatusFilters): (r: MockPage<MockSwap>)
    ensures r.total == Count(base, SwapHit(p.role, p.status))
    ensures |r.items| == PageLength(r.total, p.page, p.pageSize)
    ensures forall k :: 0 <= k < |r.items| ==>
              r.items[k] == MatchingSwaps(base, p.role, p.status)[Start(p.page, p.pageSize) + k]
  {
    var items := MatchingSwaps(base, p.role, p.status);
    MockPage(PageOf(items, p.page, p.pageSize), |items|)
  }

  /** `generateMockSwaps(params)`: role, then status, then one page of the catalogue. */
  function GenerateMockSwaps(p: RoleStatusFilters): (r: MockPage<MockSwap>)
    ensures r.total == Count(SwapCatalogue(), SwapHit(p.role, p.status))
    ensures |r.items| == PageLength(r.total, p.page, p.pageSize)
    ensures r == PageOfMatching(SwapCatalogue(), p)
  {
    PageOfMatching(SwapCatalogue(), p)
  }

  /** A mock page holds catalogue swaps only, each of the asked-for status. */
  lemma MockSwapsContents(p: RoleStatusFilters)
    ensures var r := GenerateMockSwaps(p);
            forall k :: 0 <= k < |r.items| ==>
              r.items[k] in SwapCatalogue() && (p.status == "all" || r.items[k].status == Str(p.status))
  {
    var items := MatchingSwaps(SwapCatalogue(), p.role, p.status);
    var page := GenerateMockSwaps(p).items;
    assert page == PageOf(items, p.page, p.pageSize);
    forall k | 0 <= k < |page|
      ensures page[k] in items
    {
      assert page[k] == items[Start(p.page, p.pageSize) + k];
    }
  }

  /**
    Every mock swap has both sides, so the role step keeps every swap: the
    mock result is the same whatever role is chosen.
   */
  lemma RoleFilterKeepsAll(p: RoleStatusFilters)
    ensures GenerateMockSwaps(p) == GenerateMockSwaps(p.(role := "all"))
    ensures p.status == "all" ==> GenerateMockSwaps(p).total == SwapCount
  {
    var base := SwapCatalogue();
    MatchingIgnoresRole(base, p.role, p.status);
    assert PageOfMatching(base, p) == PageOfMatching(base, p.(role := "all"));
    if p.status == "all" {
      CountAll(base, SwapHit("all", "all"));
    }
  }

  /** Both sides of a swap are objects, so the role step passes every swap of any list. */
  lemma MatchingIgnoresRole(base: seq<MockSwap>, role: string, status: string)
    ensures MatchingSwaps(base, role, status) == MatchingSwaps(base, "all", status)
  {
    forall s: MockSwap
      ensures SwapHit(role, status)(s) <==> SwapHit("all", status)(s)
    {
      assert Truthy(MineSide(s)) && Truthy(TheirsSide(s));
      assert SwapRoleIs(role)(s);
    }
    FilterSame(base, SwapHit(role, status), SwapHit("all", status));
  }

  /** No mock swap is ever cancelled, so that status filter leaves the mock empty. */
  lemma NoCancelledSwaps(p: RoleStatusFilters)
    requires p.status == "cancelled"
    ensures GenerateMockSwaps(p).total == 0
    ensures GenerateMockSwaps(p).items == []
  {
    var base := SwapCatalogue();
    forall k | 0 <= k < |base|
      ensures !SwapHit(p.role, p.status)(base[k])
    {
      var i := k % 4;
      assert base[k].status == Str(SeedStatuses[i]);
      assert i == 0 || i == 1 || i == 2 || i == 3;
      assert SeedStatuses[i] != "cancelled";
      assert !SwapStatusIs(p.status)(base[k]);
    }
    FilterNone(base, SwapHit(p.role, p.status));
  }

  // ---------------------------------------------------------------------
  // hook state

  datatype SwapsState = SwapsState(swaps: seq<Json>, total: int, filters: RoleStatusFilters)

  /** The hook's starting filters: any role, any status, page 1, 20 per page. */
  function InitialSwapFilters(role: string, status: string, page: nat, pageSize: nat): (f: RoleStatusFilters)
    ensures f.role == (if role == "" then "all" else role)
    ensures f.status == (if status == "" then "all" else status)
    ensures page == 0 ==> f.page == 1
    ensures page != 0 ==> f.page == page
    ensures pageSize == 0 ==> f.pageSize == 20
    ensures pageSize != 0 ==> f.pageSize == pageSize
  {
    RoleStatusFilters(if role == "" then "all" else role, if status == "" then "all" else status,
                      EffectivePage(page), EffectiveSize(pageSize))
  }

  /** `fetchSwaps()`: the server's list, or on any failure the mock page for the current filters. */
  function FetchSwaps(st: SwapsState, net: Net<Json>, clock: Clock): (s: SwapsState)
    ensures s.filters == st.filters
    ensures net.Ok? ==> s.swaps == DecodeList(net.data).items && s.total == DecodeList(net.data).total
    ensures net.Fail? ==>
              var mock := GenerateMockSwaps(st.filters);
              s.total == mock.total && |s.swaps| == |mock.items| &&
              forall k :: 0 <= k < |s.swaps| ==> s.swaps[k] == SwapJson(mock.items[k], clock)
  {
    match net
    case Ok(data) =>
      var d := DecodeList(data);
      st.(swaps := d.items, total := d.total)
    case Fail =>
      var mock := GenerateMockSwaps(st.filters);
      st.(swaps := SwapsJson(mock.items, clock), total := mock.total)
  }

  /** The mock swaps as the hook stores them, one record per swap, in order. */
  function SwapsJson(items: seq<MockSwap>, clock: Clock): (r: seq<Json>)
    ensures |r| == |items|
    ensures forall k :: 0 <= k < |r| ==> r[k] == SwapJson(items[k], clock)
  {
    seq(|items|, k requires 0 <= k < |items| => SwapJson(items[k], clock))
  }

  /** The body `createSwap` posts: the two listing ids and the note under the server's names. */
  function CreateSwapBody(args: Json): (b: Json)
    ensures Get(b, "proposer_listing_id") == Get(args, "myListingId")
    ensures Get(b, "recipient_listing_id") == Get(args, "theirListingId")
    ensures Get(b, "notes") == Default(Get(args, "note"), Str(""))
    ensures b.Obj? && |b.props| == 3
  {
    Obj(map["proposer_listing_id" := Get(args, "myListingId"),
            "recipient_listing_id" := Get(args, "theirListingId"),
            "notes" := Default(Get(args, "note"), Str(""))])
  }

  /** The swap a failed `createSwap` adds: open, mine, under a fresh id. */
  function CreatedSwap(args: Json, clock: Clock): (s: Json)
    ensures Get(s, "id") == Str("swap-" + NatToString(clock.now))
    ensures Get(s, "status") == Str("open")
    ensures Get(s, "note") == Default(Get(args, "note"), Str(""))
    ensures Get(Get(s, "mine"), "id") == Default(Get(args, "myListingId"), Str("mock-1"))
    ensures Get(Get(s, "theirs"), "id") == Default(Get(args, "theirListingId"), Str("mock-2"))
  {
    var id := Str("swap-" + NatToString(clock.now));
    var opts := map["myListingId" := Get(args, "myListingId"),
                    "theirListingId" := Get(args, "theirListingId"),
                    "status" := Str("open"),
                    "note" := Default(Get(args, "note"), Str("")),
                    "role" := Str("mine")];
    var o := SwapOf(id, opts);
    assert o.role == Str("mine") && o.status == Str("open") && o.note == Default(Get(args, "note"), Str(""));
    assert o.myListingId == Default(Get(args, "myListingId"), Str("mock-1"));
    assert o.theirListingId == Default(Get(args, "theirListingId"), Str("mock-2"));
    BuildMockSwap(id, opts, clock)
  }

  /**
    `createSwap(args)`: on success refetch; on failure prepend the mock swap
    and count it. Destructuring a null or undefined argument throws.
   */
  function CreateSwap(st: SwapsState, args: Json, net: Net<Json>, refetch: Net<Json>, clock: Clock): (r: Step<SwapsState>)
    ensures Nullish(args) ==> r == Threw(st)
    ensures !Nullish(args) && net.Ok? ==> r == Done(FetchSwaps(st, refetch, clock), net.data)
    ensures !Nullish(args) && net.Fail? ==>
              && r.Done?
              && r.state.swaps == [r.result] + st.swaps
              && r.state.total == st.total + 1
              && r.state.filters == st.filters
              && r.result == CreatedSwap(args, clock)
  {
    if Nullish(args) then Threw(st)
    else match net
      case Ok(data) => Done(FetchSwaps(st, refetch, clock), data)
      case Fail =>
        var created := CreatedSwap(args, clock);
        Done(st.(swaps := [created] + st.swaps, total := st.total + 1), created)
  }

  /** `getSwap(id)`: the server's record, or an open mock swap under that id. */
  function GetSwap(id: Json, net: Net<Json>, clock: Clock): (r: Json)
    ensures net.Ok? ==> r == net.data
    ensures net.Fail? ==> Get(r, "id") == id && Get(r, "status") == Str("open") &&
                          Get(Get(r, "mine"), "id") == Str("mock-1") && Get(Get(r, "theirs"), "id") == Str("mock-2")
  {
    match net
    case Ok(data) => data
    case Fail => BuildMockSwap(id, map["status" := Str("open")], clock)
  }

  /** The mock detail is `buildMockSwap(id)` with every option at its default. */
  lemma MockDetailIsDefaultSwap(id: Json, clock: Clock)
    ensures GetSwap(id, Fail, clock) == BuildMockSwap(id, map[], clock)
  {
    assert SwapOf(id, map["status" := Str("open")]) == SwapOf(id, map[]);
  }

  // ---------------------------------------------------------------------
  // status updates

  datatype Route = AcceptRoute | DeclineRoute | NoRoute

  /** Which endpoint a requested status goes to; other statuses have none. */
  function RouteOf(status: Json): (r: Route)
    ensures r == AcceptRoute <==> status == Str("accepted") || status == Str("accept")
    ensures r == DeclineRoute <==> status == Str("declined") || status == Str("reject") || status == Str("decline")
  {
    if status == Str("accepted") || status == Str("accept") then AcceptRoute
    else if status == Str("declined") || status == Str("reject") || status == Str("decline") then DeclineRoute
    else NoRoute
  }

  /**
    `updateSwapStatus(id, status)`: a routed status that the server accepts
    refetches; a failed call, or a status with no route, writes the status
    as given into the swaps with that id.
   */
  function UpdateSwapStatus(st: SwapsState, id: Json, status: Json, net: Net<Json>, refetch: Net<Json>,
                            clock: Clock): (r: Step<SwapsState>)
    ensures r.Done?
    ensures RouteOf(status) != NoRoute && net.Ok? ==>
              r.state == FetchSwaps(st, refetch, clock) && r.result == net.data
    ensures RouteOf(status) == NoRoute || net.Fail? ==>
              && r.state.swaps == PatchById(st.swaps, id, map["status" := status])
              && r.state.total == st.total && r.state.filters == st.filters
              && r.result == Obj(map["id" := id, "status" := status])
  {
    if RouteOf(status) != NoRoute && net.Ok? then Done(FetchSwaps(st, refetch, clock), net.data)
    else
      Done(st.(swaps := PatchById(st.swaps, id, map["status" := status])),
           Obj(map["id" := id, "status" := status]))
  }

  /** A status with no route never depends on the network: the local update happens either way. */
  lemma UnroutedIgnoresNetwork(st: SwapsState, id: Json, status: Json, net: Net<Json>, net': Net<Json>,
                               refetch: Net<Json>, clock: Clock)
    requires RouteOf(status) == NoRoute
    ensures UpdateSwapStatus(st, id, status, net, refetch, clock)
            == UpdateSwapStatus(st, id, status, net', refetch, clock)
  {
  }

  /** The local update stores the literal status asked for, so `accept` is stored as `accept`. */
  lemma LocalStatusIsLiteral(st: SwapsState, id: Json, status: Json, refetch: Net<Json>, clock: Clock)
    ensures var s := UpdateSwapStatus(st, id, status, Fail, refetch, clock).state;
            forall k :: 0 <= k < |st.swaps| && HasId(st.swaps[k], id) ==> Get(s.swaps[k], "status") == status
  {
  }

  /**
    A swap created by the fallback can then have its status set by the
    fallback under its fresh id: the new swap, first in the list, takes it.
   */
  lemma CreateThenUpdateSwap(st: SwapsState, args: Json, status: Json, refetch: Net<Json>, clock: Clock)
    requires !Nullish(args)
    ensures var created := CreateSwap(st, args, Fail, refetch, clock).state;
            var id := Str("swap-" + NatToString(clock.now));
            var updated := UpdateSwapStatus(created, id, status, Fail, refetch, clock).state;
            && |updated.swaps| == |st.swaps| + 1
            && Get(updated.swaps[0], "status") == status
            && Get(updated.swaps[0], "id") == id
            && updated.total == st.total + 1
  {
    var created := CreateSwap(st, args, Fail, refetch, clock).state;
    assert HasId(created.swaps[0], Str("swap-" + NatToString(clock.now)));
  }
}
