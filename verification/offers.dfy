/**
  The offers hook (`api/hooks/useOffers.js`): role/status filters, the
  14-thread mock catalogue with its role, status and page pipeline, the
  mock offer a failed create adds, the thread view with its mock
  negotiation, accept and decline with their local fallbacks, and the
  message a buyer sends into a thread.
 */
module Offers {
  import opened Js
  import opened Lists
  import opened Resource
  import Listings

  const ThreadCount := 14
  const HourMs := 3600000
  const Roles := ["buyer", "seller"]
  const Statuses := ["open", "accepted", "declined"]
  const Amounts := [55, 220, 100, 80, 30]
  const Texts := ["Is this still available?", "Could you do a better price?", "Can you ship to EU?", "Thanks!"]

  /** One negotiation thread of the mock catalogue. */
  datatype OfferThread = OfferThread(
    id: string, listingId: string, title: string, image: string, price: int,
    text: string, at: int, seller: string, status: string, amount: int, sender: string, role: string)

  /** The thread as the page sees it; its last message and its update share the instant `at`. */
  function OfferJson(t: OfferThread, iso: int -> string): Json {
    Obj(map[
      "id" := Str(t.id),
      "listing" := Obj(map["id" := Str(t.listingId), "title" := Str(t.title), "image" := Str(t.image),
                           "price" := Num(t.price), "currency" := Str("USD")]),
      "lastMessage" := Obj(map["text" := Str(t.text), "createdAt" := Str(iso(t.at))]),
      "participants" := Obj(map["buyer" := Obj(map["name" := Str("You")]),
                                "seller" := Obj(map["name" := Str(t.seller)])]),
      "status" := Str(t.status),
      "latestOffer" := Obj(map["amount" := Num(t.amount), "currency" := Str("USD"), "by" := Str(t.sender)]),
      "updatedAt" := Str(iso(t.at)),
      "role" := Str(t.role)])
  }

  // ---------------------------------------------------------------------
  // filters

  /** The hook's starting filters: buyer, any status, page 1, 20 per page. */
  function InitialOfferFilters(role: string, status: string, page: nat, pageSize: nat): (f: RoleStatusFilters)
    ensures f.role == (if role == "" then "buyer" else role)
    ensures f.status == (if status == "" then "all" else status)
    ensures page == 0 ==> f.page == 1
    ensures page != 0 ==> f.page == page
    ensures pageSize == 0 ==> f.pageSize == 20
    ensures pageSize != 0 ==> f.pageSize == pageSize
  {
    RoleStatusFilters(if role == "" then "buyer" else role, if status == "" then "all" else status,
                      EffectivePage(page), EffectiveSize(pageSize))
  }

  // ---------------------------------------------------------------------
  // the mock catalogue

  /** Thread `i`: buyer and seller alternate, statuses cycle through three, and it is `i` hours old. */
  function MockOffer(i: nat, now: int): OfferThread {
    OfferThread(
      id := "thread-" + NatToString(i + 1),
      listingId := "mock-" + NatToString(i + 1),
      title := Listings.Titles[i % 5],
      image := "https://picsum.photos/seed/offers-" + NatToString(i) + "/600/600",
      price := Listings.Prices[i % 5],
      text := Texts[i % 4],
      at := now - i * HourMs,
      seller := Listings.Sellers[i % 4],
      status := Statuses[i % 3],
      amount := Amounts[i % 5],
      sender := Roles[i % 2],
      role := Roles[i % 2])
  }

  function OfferCatalogue(now: int): (c: seq<OfferThread>)
    ensures |c| == ThreadCount
    ensures forall i :: 0 <= i < |c| ==> c[i] == MockOffer(i, now)
  {
    seq(ThreadCount, i requires 0 <= i < ThreadCount => MockOffer(i, now))
  }

  function RoleIs(role: string): OfferThread -> bool {
    (t: OfferThread) => t.role == role
  }

  function StatusIs(status: string): OfferThread -> bool {
    (t: OfferThread) => t.status == status
  }

  /** What the two filter steps keep together; `all` switches a step off. */
  function OfferHit(role: string, status: string): OfferThread -> bool {
    (t: OfferThread) => (role == "all" || t.role == role) && (status == "all" || t.status == status)
  }

  /** The role step, then the status step; each runs unless its filter is `all`. */
  function MatchingOffers(base: seq<OfferThread>, role: string, status: string): (r: seq<OfferThread>)
    ensures |r| == Count(base, OfferHit(role, status))
    ensures forall k :: 0 <= k < |r| ==> r[k] in base && OfferHit(role, status)(r[k])
    ensures forall x :: x in base && OfferHit(role, status)(x) ==> x in r
    ensures r == Filter(base, OfferHit(role, status))
  {
    var byRole := if role != "all" then Filter(base, RoleIs(role)) else base;
    var items := if status != "all" then Filter(byRole, StatusIs(status)) else byRole;
    OnePass(base, role, status);
    items
  }

  /** The two filter steps keep what one pass by `OfferHit` keeps. */
  lemma OnePass(base: seq<OfferThread>, role: string, status: string)
    ensures var byRole := if role != "all" then Filter(base, RoleIs(role)) else base;
            (if status != "all" then Filter(byRole, StatusIs(status)) else byRole)
            == Filter(base, OfferHit(role, status))
  {
    if role != "all" && status != "all" {
      FilterTwice(base, RoleIs(role), StatusIs(status), OfferHit(role, status));
    } else if role != "all" {
      FilterSame(base, RoleIs(role), OfferHit(role, status));
    } else if status != "all" {
      FilterSame(base, StatusIs(status), OfferHit(role, status));
    } else {
      FilterAll(base, OfferHit(role, status));
    }
  }

  /** `generateMockOffers(params)`: role, then status, then one page. */
  function GenerateMockOffers(p: RoleStatusFilters, now: int): (r: MockPage<OfferThread>)
    ensures r.total == Count(OfferCatalogue(now), OfferHit(p.role, p.status))
    ensures |r.items| == PageLength(r.total, p.page, p.pageSize)
    ensures forall k :: 0 <= k < |r.items| ==>
              r.items[k] == MatchingOffers(OfferCatalogue(now), p.role, p.status)[Start(p.page, p.pageSize) + k]
  {
    var items := MatchingOffers(OfferCatalogue(now), p.role, p.status);
    MockPage(PageOf(items, p.page, p.pageSize), |items|)
  }

  /** A mock page holds catalogue threads only, each of the asked-for role and status. */
  lemma MockOffersContents(p: RoleStatusFilters, now: int)
    ensures var r := GenerateMockOffers(p, now);
            forall k :: 0 <= k < |r.items| ==>
              r.items[k] in OfferCatalogue(now) &&
              (p.role == "all" || r.items[k].role == p.role) &&
              (p.status == "all" || r.items[k].status == p.status)
  {
    var items := MatchingOffers(OfferCatalogue(now), p.role, p.status);
    var page := GenerateMockOffers(p, now).items;
    assert page == PageOf(items, p.page, p.pageSize);
    forall k | 0 <= k < |page|
      ensures page[k] in items
    {
      assert page[k] == items[Start(p.page, p.pageSize) + k];
    }
  }

  /** Buyer and seller threads alternate: each role owns 7 of the 14, and `all` shows all 14. */
  lemma RoleTotals(p: RoleStatusFilters, now: int)
    requires p.status == "all"
    ensures p.role == "buyer" || p.role == "seller" ==> GenerateMockOffers(p, now).total == 7
    ensures p.role == "all" ==> GenerateMockOffers(p, now).total == ThreadCount
  {
    var base := OfferCatalogue(now);
    var hit := OfferHit(p.role, p.status);
    if p.role == "buyer" || p.role == "seller" {
      var parity := if p.role == "buyer" then 0 else 1;
      forall k | 0 <= k < |base|
        ensures hit(base[k]) <==> k % 2 == parity
      {
        assert base[k].role == Roles[k % 2];
      }
      FilterAlternating(base, hit, parity, 7);
    } else if p.role == "all" {
      FilterAll(base, hit);
    }
  }

  /**
    A role other than `all`, `buyer` or `seller` (the empty role included)
    leaves the mock empty, although the query for an empty role asks the
    server for every thread.
   */
  lemma UnknownRoleIsEmpty(p: RoleStatusFilters, now: int)
    requires p.role != "all" && p.role != "buyer" && p.role != "seller"
    ensures GenerateMockOffers(p, now).total == 0
    ensures GenerateMockOffers(p, now).items == []
    ensures p.role == "" ==> Lookup(StatusMineQuery(p), "mine").None?
  {
    var base := OfferCatalogue(now);
    forall k | 0 <= k < |base|
      ensures !OfferHit(p.role, p.status)(base[k])
    {
      assert base[k].role == Roles[k % 2];
    }
    FilterNone(base, OfferHit(p.role, p.status));
  }

  // ---------------------------------------------------------------------
  // hook state

  datatype OffersState = OffersState(
    offers: seq<Json>, total: int, thread: Json, messages: seq<Json>, filters: RoleStatusFilters)

  /** `fetchOffers()`: the server's list, or on any failure the mock page for the current filters. */
  function FetchOffers(st: OffersState, net: Net<Json>, clock: Clock): (s: OffersState)
    ensures s.filters == st.filters && s.thread == st.thread && s.messages == st.messages
    ensures net.Ok? ==> s.offers == DecodeList(net.data).items && s.total == DecodeList(net.data).total
    ensures net.Fail? ==>
              var mock := GenerateMockOffers(st.filters, clock.now);
              s.total == mock.total && |s.offers| == |mock.items| &&
              forall k :: 0 <= k < |s.offers| ==> s.offers[k] == OfferJson(mock.items[k], clock.iso)
  {
    match net
    case Ok(data) =>
      var d := DecodeList(data);
      st.(offers := d.items, total := d.total)
    case Fail =>
      var mock := GenerateMockOffers(st.filters, clock.now);
      st.(offers := seq(|mock.items|, k requires 0 <= k < |mock.items| => OfferJson(mock.items[k], clock.iso)),
          total := mock.total)
  }

  /** `Math.floor((amount || 50) * 1.3)`, read in exact arithmetic. */
  function MockListPrice(amount: Json): (r: Json)
    ensures ToNumber(Or(amount, Num(50))).NaN? <==> r.NaN?
    ensures r.Num? ==> var n := ToNumber(Or(amount, Num(50))).n;
                       10 * r.n <= 13 * n < 10 * r.n + 10
    ensures !Truthy(amount) ==> r == Num(65)
  {
    match ToNumber(Or(amount, Num(50)))
    case Num(n) => Num((13 * n) / 10)
    case _ => NaN
  }

  /** The thread a failed `createOffer` adds, built from its `{ listingId, amount, currency, note }`. */
  function CreatedOffer(args: Json, clock: Clock): (c: Json)
    ensures Get(c, "id") == Str("thread-" + NatToString(clock.now))
    ensures Get(c, "status") == Str("open")
    ensures Get(Get(c, "listing"), "id") == Get(args, "listingId")
    ensures Get(Get(c, "listing"), "price") == MockListPrice(Get(args, "amount"))
    ensures Get(Get(c, "latestOffer"), "amount") == Get(args, "amount")
    ensures Get(Get(c, "latestOffer"), "by") == Str("buyer")
    ensures Get(Get(c, "latestOffer"), "currency") == Default(Get(args, "currency"), Str("USD"))
    ensures Get(Get(c, "lastMessage"), "text") == Or(Default(Get(args, "note"), Str("")), Str("Offer created"))
  {
    var listingId := Get(args, "listingId");
    var amount := Get(args, "amount");
    var currency := Default(Get(args, "currency"), Str("USD"));
    var note := Default(Get(args, "note"), Str(""));
    var stamp := Str(clock.iso(clock.now));
    Obj(map[
      "id" := Str("thread-" + NatToString(clock.now)),
      "listing" := Obj(map[
        "id" := listingId, "title" := Str("Vintage Item"),
        "image" := Str("https://picsum.photos/seed/listing-" + ToJsString(listingId) + "/600/600"),
        "price" := MockListPrice(amount), "currency" := currency]),
      "lastMessage" := Obj(map["text" := Or(note, Str("Offer created")), "createdAt" := stamp]),
      "participants" := Obj(map["buyer" := Obj(map["name" := Str("You")]),
                                "seller" := Obj(map["name" := Str("Ava")])]),
      "status" := Str("open"),
      "latestOffer" := Obj(map["amount" := amount, "currency" := currency, "by" := Str("buyer")]),
      "updatedAt" := stamp])
  }

  /**
    `createOffer(args)`: on success refetch; on failure prepend the mock
    thread and count it. Destructuring a null or undefined argument throws.
   */
  function CreateOffer(st: OffersState, args: Json, net: Net<Json>, refetch: Net<Json>, clock: Clock): (r: Step<OffersState>)
    ensures Nullish(args) ==> r == Threw(st)
    ensures !Nullish(args) && net.Ok? ==> r == Done(FetchOffers(st, refetch, clock), net.data)
    ensures !Nullish(args) && net.Fail? ==>
              && r.Done?
              && r.state.offers == [r.result] + st.offers
              && r.state.total == st.total + 1
              && r.state.thread == st.thread && r.state.messages == st.messages
              && r.state.filters == st.filters
              && r.result == CreatedOffer(args, clock)
  {
    if Nullish(args) then Threw(st)
    else match net
      case Ok(data) => Done(FetchOffers(st, refetch, clock), data)
      case Fail =>
        var created := CreatedOffer(args, clock);
        Done(st.(offers := [created] + st.offers, total := st.total + 1), created)
  }

  // ---------------------------------------------------------------------
  // one thread

  /** A message of the mock negotiation. */
  datatype Message = Message(id: string, sender: string, text: string, amount: int, at: int)

  function MessageJson(m: Message, iso: int -> string): Json {
    Obj(map["id" := Str(m.id), "by" := Str(m.sender), "text" := Str(m.text), "amount" := Num(m.amount),
            "currency" := Str("USD"), "createdAt" := Str(iso(m.at))])
  }

  /** The three-step haggle of the mock thread: 60, then 68, then 65, about an hour ago. */
  function MockMessages(now: int): (ms: seq<Message>)
    ensures |ms| == 3
    ensures forall i, j :: 0 <= i < j < |ms| ==> ms[i].at < ms[j].at
    ensures forall i :: 0 <= i < |ms| ==> ms[i].sender == Roles[i % 2]
    ensures forall i :: 0 <= i < |ms| ==> now - HourMs <= ms[i].at < now
  {
    [Message("m1", "buyer", "Hi! Would you take 60?", 60, now - 3600000),
     Message("m2", "seller", "Could you do 68?", 68, now - 3200000),
     Message("m3", "buyer", "Meet at 65?", 65, now - 3000000)]
  }

  /** `generateMockThread(threadId)`: an open thread over a 75 USD listing, with its messages. */
  function MockThread(threadId: Json, clock: Clock): (r: (Json, seq<Json>))
    ensures Get(r.0, "id") == threadId && Get(r.0, "status") == Str("open")
    ensures Get(Get(r.0, "latestOffer"), "amount") == Num(60)
    ensures Get(Get(r.0, "listing"), "price") == Num(75)
    ensures |r.1| == 3
    ensures forall i :: 0 <= i < 3 ==> r.1[i] == MessageJson(MockMessages(clock.now)[i], clock.iso)
  {
    var ms := MockMessages(clock.now);
    (Obj(map[
       "id" := threadId,
       "listing" := Obj(map["id" := Str("mock-1"), "title" := Str("Vintage Denim Jacket"),
                            "image" := Str("https://picsum.photos/seed/offer-thread/800/800"),
                            "price" := Num(75), "currency" := Str("USD")]),
       "participants" := Obj(map["buyer" := Obj(map["name" := Str("You")]),
                                 "seller" := Obj(map["name" := Str("Ava")])]),
       "status" := Str("open"),
       "latestOffer" := Obj(map["amount" := Num(60), "currency" := Str("USD"), "by" := Str("buyer")]),
       "updatedAt" := Str(clock.iso(clock.now))]),
     seq(3, i requires 0 <= i < 3 => MessageJson(ms[i], clock.iso)))
  }

  /** The thread view of a server offer: its amount becomes both the price and the latest offer. */
  function NormalizeOffer(offer: Json): (t: Json)
    ensures Get(t, "id") == Get(offer, "id") && Get(t, "status") == Get(offer, "status")
    ensures Get(Get(t, "latestOffer"), "amount") == Get(offer, "amount")
    ensures Get(Get(t, "listing"), "price") == Get(offer, "amount")
    ensures Get(Get(t, "listing"), "id") == Get(offer, "listing_id")
    ensures Get(Get(t, "latestOffer"), "currency") == Or(Get(offer, "currency"), Str("USD"))
    ensures Get(t, "updatedAt") == Or(Get(offer, "updated_at"), Get(offer, "created_at"))
  {
    var currency := Or(Get(offer, "currency"), Str("USD"));
    Obj(map[
      "id" := Get(offer, "id"),
      "listing" := Obj(map["id" := Get(offer, "listing_id"), "title" := Str("Listing"), "image" := Str(""),
                           "price" := Get(offer, "amount"), "currency" := currency]),
      "participants" := Obj(map[]),
      "status" := Get(offer, "status"),
      "latestOffer" := Obj(map["amount" := Get(offer, "amount"), "currency" := currency]),
      "updatedAt" := Or(Get(offer, "updated_at"), Get(offer, "created_at"))])
  }

  /**
    `getThread(threadId)`: the normalised server offer with no messages;
    when the call fails, or its data is null or undefined (reading `.id`
    throws inside the same `try`), the mock thread.
   */
  function GetThread(st: OffersState, threadId: Json, net: Net<Json>, clock: Clock): (r: Step<OffersState>)
    ensures r.Done?
    ensures r.state.offers == st.offers && r.state.total == st.total && r.state.filters == st.filters
    ensures Get(r.result, "thread") == r.state.thread
    ensures Get(r.result, "messages") == Arr(r.state.messages)
    ensures net.Ok? && !Nullish(net.data) ==>
              r.state.thread == NormalizeOffer(net.data) && r.state.messages == []
    ensures net.Fail? || Nullish(net.data) ==>
              r.state.thread == MockThread(threadId, clock).0 && r.state.messages == MockThread(threadId, clock).1
  {
    var (thread, messages) :=
      if net.Ok? && !Nullish(net.data) then (NormalizeOffer(net.data), [])
      else MockThread(threadId, clock);
    Done(st.(thread := thread, messages := messages),
         Obj(map["thread" := thread, "messages" := Arr(messages)]))
  }

  /** `thread && thread.id === offerId`: a thread is open and it is that offer. */
  predicate IsOpenThread(thread: Json, offerId: Json) {
    Truthy(thread) && HasId(thread, offerId)
  }

  /**
    The open thread after the server settled offer `offerId`: when it is
    that offer it takes the server's status and amount, keeps who made the
    latest offer (the buyer when unknown), and is stamped now.
   */
  function SettledThread(thread: Json, offerId: Json, offer: Json, clock: Clock): (t: Json)
    ensures !IsOpenThread(thread, offerId) ==> t == thread
    ensures IsOpenThread(thread, offerId) ==>
              && Get(t, "status") == Get(offer, "status")
              && Get(Get(t, "latestOffer"), "amount") == Get(offer, "amount")
              && Get(Get(t, "latestOffer"), "by") == Or(Get(Get(thread, "latestOffer"), "by"), Str("buyer"))
              && Get(t, "id") == Get(thread, "id")
              && Get(t, "listing") == Get(thread, "listing")
  {
    if !IsOpenThread(thread, offerId) then thread
    else
      var latest := Obj(map[
        "amount" := Get(offer, "amount"),
        "currency" := Or(Get(offer, "currency"), Str("USD")),
        "by" := Or(Get(Get(thread, "latestOffer"), "by"), Str("buyer"))]);
      Spread(thread, Obj(map["status" := Get(offer, "status"), "latestOffer" := latest,
                             "updatedAt" := Str(clock.iso(clock.now))]))
  }

  /** The open thread after a local verdict: the status changes, and nothing else but the stamp. */
  function VerdictThread(thread: Json, offerId: Json, verdict: string, clock: Clock): (t: Json)
    ensures !IsOpenThread(thread, offerId) ==> t == thread
    ensures IsOpenThread(thread, offerId) ==>
              && Get(t, "status") == Str(verdict)
              && forall f :: f != "status" && f != "updatedAt" ==> Get(t, f) == Get(thread, f)
  {
    if !IsOpenThread(thread, offerId) then thread
    else Spread(thread, Obj(map["status" := Str(verdict), "updatedAt" := Str(clock.iso(clock.now))]))
  }

  /**
    What accept and decline share. On success the open thread is updated
    from the server's offer and the list is refetched; on failure the
    verdict is written into the list and the open thread.
   */
  function Settle(st: OffersState, offerId: Json, verdict: string, net: Net<Json>, refetch: Net<Json>,
                  clock: Clock): (r: Step<OffersState>)
    ensures r.Done?
    ensures r.state.messages == st.messages && r.state.filters == st.filters
    ensures net.Ok? ==>
              && r.result == net.data
              && r.state == FetchOffers(st.(thread := SettledThread(st.thread, offerId, net.data, clock)), refetch, clock)
    ensures net.Fail? ==>
              && r.state.offers == PatchById(st.offers, offerId, map["status" := Str(verdict)])
              && r.state.total == st.total
              && r.state.thread == VerdictThread(st.thread, offerId, verdict, clock)
              && r.result == Obj(map["id" := offerId, "status" := Str(verdict)])
  {
    match net
    case Ok(offer) =>
      Done(FetchOffers(st.(thread := SettledThread(st.thread, offerId, offer, clock)), refetch, clock), offer)
    case Fail =>
      Done(st.(offers := PatchById(st.offers, offerId, map["status" := Str(verdict)]),
               thread := VerdictThread(st.thread, offerId, verdict, clock)),
           Obj(map["id" := offerId, "status" := Str(verdict)]))
  }

  /** `acceptOffer(offerId)`; the local fallback marks the offer accepted. */
  function AcceptOffer(st: OffersState, offerId: Json, net: Net<Json>, refetch: Net<Json>, clock: Clock): (r: Step<OffersState>)
    ensures r.Done? && r.state.messages == st.messages
    ensures net.Fail? ==>
              && |r.state.offers| == |st.offers|
              && (forall k :: 0 <= k < |st.offers| && HasId(st.offers[k], offerId) ==>
                    Get(r.state.offers[k], "status") == Str("accepted"))
              && (forall k :: 0 <= k < |st.offers| && !HasId(st.offers[k], offerId) ==>
                    r.state.offers[k] == st.offers[k])
              && Get(r.result, "status") == Str("accepted")
  {
    Settle(st, offerId, "accepted", net, refetch, clock)
  }

  /** `declineOffer(offerId)`; the local fallback marks the offer declined. */
  function DeclineOffer(st: OffersState, offerId: Json, net: Net<Json>, refetch: Net<Json>, clock: Clock): (r: Step<OffersState>)
    ensures r.Done? && r.state.messages == st.messages
    ensures net.Fail? ==>
              && |r.state.offers| == |st.offers|
              && (forall k :: 0 <= k < |st.offers| && HasId(st.offers[k], offerId) ==>
                    Get(r.state.offers[k], "status") == Str("declined"))
              && (forall k :: 0 <= k < |st.offers| && !HasId(st.offers[k], offerId) ==>
                    r.state.offers[k] == st.offers[k])
              && Get(r.result, "status") == Str("declined")
  {
    Settle(st, offerId, "declined", net, refetch, clock)
  }

  /** Settling an offer locally a second time with the same verdict changes nothing more. */
  lemma SettleTwice(st: OffersState, offerId: Json, verdict: string, refetch: Net<Json>, clock: Clock)
    ensures var once := Settle(st, offerId, verdict, Fail, refetch, clock).state;
            Settle(once, offerId, verdict, Fail, refetch, clock).state.offers == once.offers
  {
    PatchTwice(st.offers, offerId, map["status" := Str(verdict)]);
  }

  /** A thread created by the fallback can then be accepted by the fallback under its fresh id. */
  lemma CreateThenAccept(st: OffersState, args: Json, refetch: Net<Json>, clock: Clock)
    requires !Nullish(args)
    ensures var created := CreateOffer(st, args, Fail, refetch, clock).state;
            var id := Str("thread-" + NatToString(clock.now));
            Get(AcceptOffer(created, id, Fail, refetch, clock).state.offers[0], "status") == Str("accepted")
  {
    var created := CreateOffer(st, args, Fail, refetch, clock).state;
    assert HasId(created.offers[0], Str("thread-" + NatToString(clock.now)));
  }

  /**
    A thread shown from the server and then settled by the local fallback
    takes the verdict and keeps its listing and latest offer.
   */
  lemma FetchedThreadTakesVerdict(st: OffersState, threadId: Json, offer: Json, verdict: string,
                                  refetch: Net<Json>, clock: Clock)
    requires !Nullish(offer) && Primitive(Get(offer, "id"))
    ensures var shown := GetThread(st, threadId, Net.Ok(offer), clock).state;
            var settled := Settle(shown, Get(offer, "id"), verdict, Fail, refetch, clock).state;
            && Get(settled.thread, "status") == Str(verdict)
            && Get(settled.thread, "listing") == Get(shown.thread, "listing")
            && Get(settled.thread, "latestOffer") == Get(shown.thread, "latestOffer")
            && settled.messages == []
  {
    var shown := GetThread(st, threadId, Net.Ok(offer), clock).state;
    assert IsOpenThread(shown.thread, Get(offer, "id"));
  }

  /** The mock thread shown when the server is unreachable is settled by the fallback under its id. */
  lemma MockThreadTakesVerdict(st: OffersState, threadId: Json, verdict: string, refetch: Net<Json>, clock: Clock)
    requires Primitive(threadId)
    ensures var shown := GetThread(st, threadId, Fail, clock).state;
            var settled := Settle(shown, threadId, verdict, Fail, refetch, clock).state;
            && Get(settled.thread, "status") == Str(verdict)
            && Get(Get(settled.thread, "latestOffer"), "amount") == Num(60)
            && settled.messages == MockThread(threadId, clock).1
  {
    var shown := GetThread(st, threadId, Fail, clock).state;
    assert IsOpenThread(shown.thread, threadId);
  }

  // ---------------------------------------------------------------------
  // messages

  /** The text a message carries: a counter-offer without text says what it countered to. */
  function MessageText(text: Json, amount: Json): Json {
    if Truthy(amount) then Or(text, Str("Countered to " + ToJsString(amount))) else text
  }

  /** The buyer's message object. */
  function BuyerMessage(text: Json, amount: Json, currency: Json, clock: Clock): (m: Json)
    ensures Get(m, "text") == text && Get(m, "amount") == amount && Get(m, "currency") == currency
    ensures Get(m, "by") == Str("buyer") && Get(m, "createdAt") == Str(clock.iso(clock.now))
  {
    Obj(map["id" := Str("msg-" + NatToString(clock.now)), "text" := text, "amount" := amount,
            "currency" := currency, "by" := Str("buyer"), "createdAt" := Str(clock.iso(clock.now))])
  }

  /** The open thread after a message: new latest offer, update stamp and last message; the rest is kept. */
  function ThreadAfterMessage(thread: Json, latest: Json, text: Json, clock: Clock): (t: Json)
    ensures Get(t, "latestOffer") == latest
    ensures Get(Get(t, "lastMessage"), "text") == text
    ensures forall f :: f != "latestOffer" && f != "updatedAt" && f != "lastMessage" ==> Get(t, f) == Get(thread, f)
  {
    var stamp := Str(clock.iso(clock.now));
    Spread(thread, Obj(map["latestOffer" := latest, "updatedAt" := stamp,
                           "lastMessage" := Obj(map["text" := text, "createdAt" := stamp])]))
  }

  /**
    `sendMessage(threadId, { text, amount = null, currency = "USD" })` when
    it succeeds: a buyer message joins the thread; a truthy amount is a
    counter-offer whose server reply `counter` sets the latest offer, and
    otherwise the latest offer is kept. A null or undefined second argument
    throws while destructuring.
   */
  function SendMessage(st: OffersState, args: Json, counter: Json, clock: Clock): (r: Step<OffersState>)
    ensures Nullish(args) ==> r == Threw(st)
    ensures !Nullish(args) ==>
              var amount := Default(Get(args, "amount"), Null);
              && r.Done?
              && r.state.messages == st.messages + [r.result]
              && r.state.offers == st.offers && r.state.total == st.total && r.state.filters == st.filters
              && Get(r.result, "by") == Str("buyer")
              && Get(r.result, "amount") == amount
              && Get(r.result, "text") == MessageText(Get(args, "text"), amount)
              && Get(Get(r.state.thread, "lastMessage"), "text") == Get(r.result, "text")
              && (Truthy(amount) ==> Get(Get(r.state.thread, "latestOffer"), "amount") == Get(counter, "amount"))
              && (!Truthy(amount) ==> Get(r.state.thread, "latestOffer") == Get(st.thread, "latestOffer"))
              && Get(r.state.thread, "status") == Get(st.thread, "status")
              && Get(r.state.thread, "id") == Get(st.thread, "id")
  {
    if Nullish(args) then Threw(st)
    else
      var amount := Default(Get(args, "amount"), Null);
      var currency := Default(Get(args, "currency"), Str("USD"));
      var text := MessageText(Get(args, "text"), amount);
      var message := BuyerMessage(text, amount, currency, clock);
      var latest :=
        if Truthy(amount) then Obj(map["amount" := Get(counter, "amount"), "currency" := currency, "by" := Str("buyer")])
        else Get(st.thread, "latestOffer");
      Done(st.(messages := st.messages + [message], thread := ThreadAfterMessage(st.thread, latest, text, clock)),
           message)
  }

  /** Two messages sent in a row join the thread in the order they were sent; the thread shows the second. */
  lemma SendTwice(st: OffersState, first: Json, second: Json, c1: Json, c2: Json, clock1: Clock, clock2: Clock)
    requires !Nullish(first) && !Nullish(second)
    ensures var s1 := SendMessage(st, first, c1, clock1);
            var s2 := SendMessage(s1.state, second, c2, clock2);
            && s2.state.messages == st.messages + [s1.result, s2.result]
            && Get(Get(s2.state.thread, "lastMessage"), "text") == Get(s2.result, "text")
            && s2.state.offers == st.offers
  {
    var s1 := SendMessage(st, first, c1, clock1);
    var s2 := SendMessage(s1.state, second, c2, clock2);
    assert s2.state.messages == (st.messages + [s1.result]) + [s2.result];
  }
}
