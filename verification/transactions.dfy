/**
  The transactions hook (`api/hooks/useTransactions.js`): its filters and
  query, the 12-transaction mock catalogue, the mock detail whose listing
  number is read back out of the transaction id, and the checkout call with
  its normalised client secret.
 */
module Transactions {
  import opened Js
  import opened Lists
  import opened Resource
  import Listings

  const TxnCount := 12
  const TxnStatuses := ["processing", "succeeded", "failed"]
  const DetailStatuses := ["processing", "succeeded", "refunded", "failed"]
  const TxnRoles := ["buyer", "seller"]

  datatype Txn = Txn(id: string, listingId: string, title: string, image: string, price: int,
                     role: string, status: string, total: int, at: int)

  function TxnJson(t: Txn, iso: int -> string): Json {
    Obj(map[
      "id" := Str(t.id),
      "listing" := Obj(map["id" := Str(t.listingId), "title" := Str(t.title), "image" := Str(t.image),
                           "price" := Num(t.price), "currency" := Str("USD")]),
      "role" := Str(t.role), "status" := Str(t.status), "total" := Num(t.total),
      "currency" := Str("USD"), "createdAt" := Str(iso(t.at))])
  }

  // ---------------------------------------------------------------------
  // filters and query

  datatype TxnFilters = TxnFilters(role: string, page: nat, pageSize: nat)

  /** The hook's starting filters: any role, page 1, 20 per page. */
  function InitialTxnFilters(role: string, page: nat, pageSize: nat): (f: TxnFilters)
    ensures f.role == (if role == "" then "all" else role)
    ensures page == 0 ==> f.page == 1
    ensures page != 0 ==> f.page == page
    ensures pageSize == 0 ==> f.pageSize == 20
    ensures pageSize != 0 ==> f.pageSize == pageSize
  {
    TxnFilters(if role == "" then "all" else role, EffectivePage(page), EffectiveSize(pageSize))
  }

  function SetRole(f: TxnFilters, role: string): (g: TxnFilters)
    ensures g.role == role && g.page == 1 && g.pageSize == f.pageSize
  {
    f.(role := role, page := 1)
  }

  function SetPage(f: TxnFilters, page: nat): (g: TxnFilters)
    ensures g.page == page && g.role == f.role && g.pageSize == f.pageSize
  {
    f.(page := page)
  }

  function SetPageSize(f: TxnFilters, pageSize: nat): (g: TxnFilters)
    ensures g.pageSize == pageSize && g.role == f.role && g.page == f.page
  {
    f.(pageSize := pageSize)
  }

  /**
    The `/transactions` query: `mine` is "true" for a chosen role and empty
    otherwise, and the page and page size are printed as they are, with no
    default applied.
   */
  function TxnQuery(f: TxnFilters): (q: Query)
    ensures |q| == 3 && q[0].0 == "mine" && q[1].0 == "page" && q[2].0 == "page_size"
    ensures q[0].1 == "true" <==> f.role != "" && f.role != "all"
    ensures q[0].1 != "true" ==> q[0].1 == ""
    ensures ParseNat(q[1].1) == Some(f.page) && ParseNat(q[2].1) == Some(f.pageSize)
  {
    ParseNatToString(f.page);
    ParseNatToString(f.pageSize);
    [("mine", if f.role != "" && f.role != "all" then "true" else ""),
     ("page", NatToString(f.page)), ("page_size", NatToString(f.pageSize))]
  }

  // ---------------------------------------------------------------------
  // the mock catalogue

  /** Transaction `i`: buyer and seller alternate, three statuses cycle, and it is `i` days old. */
  function MockTxn(i: nat, now: int): Txn {
    Txn(id := "txn_" + NatToString(i + 1),
        listingId := "mock-" + NatToString(i + 1),
        title := Listings.Titles[i % 5],
        image := "https://picsum.photos/seed/txn-" + NatToString(i) + "/600/600",
        price := Listings.Prices[i % 5],
        role := TxnRoles[i % 2],
        status := TxnStatuses[i % 3],
        total := Listings.Prices[i % 5],
        at := now - i * Listings.DayMs)
  }

  function TxnCatalogue(now: int): (c: seq<Txn>)
    ensures |c| == TxnCount
    ensures forall i :: 0 <= i < |c| ==> c[i] == MockTxn(i, now)
  {
    seq(TxnCount, i requires 0 <= i < TxnCount => MockTxn(i, now))
  }

  function TxnRoleIs(role: string): Txn -> bool {
    (t: Txn) => t.role == role
  }

  /** The role step's test, with `all` passing everything. */
  function TxnHit(role: string): Txn -> bool {
    (t: Txn) => role == "all" || t.role == role
  }

  /** The catalogue transactions of the chosen role (all of them for `all`), before paging. */
  function TxnResult(f: TxnFilters, now: int): (r: seq<Txn>)
    ensures f.role == "all" ==> r == TxnCatalogue(now)
    ensures f.role != "all" ==> |r| == Count(TxnCatalogue(now), TxnRoleIs(f.role))
    ensures forall k :: 0 <= k < |r| ==> r[k] in TxnCatalogue(now) && (f.role == "all" || r[k].role == f.role)
    ensures forall t :: t in TxnCatalogue(now) && (f.role == "all" || t.role == f.role) ==> t in r
    // one in-order pass of the role test over the catalogue
    ensures r == Filter(TxnCatalogue(now), TxnHit(f.role))
  {
    var base := TxnCatalogue(now);
    if f.role != "all" then
      FilterSame(base, TxnRoleIs(f.role), TxnHit(f.role));
      Filter(base, TxnRoleIs(f.role))
    else
      FilterAll(base, TxnHit(f.role));
      base
  }

  /** `generateMockTransactions(params)`: the role step unless it is `all`, then one page. */
  function GenerateMockTransactions(f: TxnFilters, now: int): (r: MockPage<Txn>)
    ensures f.role == "all" ==> r.total == TxnCount
    ensures f.role != "all" ==> r.total == Count(TxnCatalogue(now), TxnRoleIs(f.role))
    ensures |r.items| == PageLength(r.total, f.page, f.pageSize)
    ensures forall k :: 0 <= k < |r.items| ==> r.items[k] == TxnResult(f, now)[Start(f.page, f.pageSize) + k]
  {
    var items := TxnResult(f, now);
    MockPage(PageOf(items, f.page, f.pageSize), |items|)
  }

  /** A mock page holds catalogue transactions of the chosen role, and none is ever refunded. */
  lemma MockTxnsContents(f: TxnFilters, now: int)
    ensures var r := GenerateMockTransactions(f, now);
            forall k :: 0 <= k < |r.items| ==>
              r.items[k] in TxnCatalogue(now) &&
              (f.role == "all" || r.items[k].role == f.role) &&
              r.items[k].status != "refunded"
  {
    var items := TxnResult(f, now);
    var page := GenerateMockTransactions(f, now).items;
    CatalogueNeverRefunded(now);
    forall k | 0 <= k < |page|
      ensures page[k] == items[Start(f.page, f.pageSize) + k]
    {
    }
  }

  /** The catalogue cycles through processing, succeeded and failed, never refunded. */
  lemma CatalogueNeverRefunded(now: int)
    ensures forall t :: t in TxnCatalogue(now) ==> t.status != "refunded"
  {
    var base := TxnCatalogue(now);
    forall t | t in base
      ensures t.status != "refunded"
    {
      var i :| 0 <= i < |base| && base[i] == t;
      assert t.status == TxnStatuses[i % 3];
    }
  }

  /** Buyer and seller transactions alternate: each role owns 6 of the 12. */
  lemma RoleTotals(f: TxnFilters, now: int)
    requires f.role == "buyer" || f.role == "seller"
    ensures GenerateMockTransactions(f, now).total == 6
  {
    var base := TxnCatalogue(now);
    var parity := if f.role == "buyer" then 0 else 1;
    forall k | 0 <= k < |base|
      ensures TxnRoleIs(f.role)(base[k]) <==> k % 2 == parity
    {
      assert base[k].role == TxnRoles[k % 2];
    }
    FilterAlternating(base, TxnRoleIs(f.role), parity, 6);
  }

  // ---------------------------------------------------------------------
  // the mock detail

  /**
    `Number(id?.split("_")?.[1]) || 1`: the number between the first and second `_`, or 1
    when there is none (or it is 0 or not a number); `None` when `id` is
    neither a string nor null/undefined, whose `.split` throws.
   */
  function ListingNumber(id: Json): (n: Option<Json>)
    ensures Nullish(id) ==> n == Some(Num(1))
    ensures n.Some? <==> Nullish(id) || id.Str?
    ensures n.Some? ==> Truthy(n.value)
    // a string without `_` has no second piece
    ensures id.Str? && '_' !in id.s ==> n == Some(Num(1))
    // otherwise the second piece runs from after the first `_` up to the next `_` or the end
    ensures id.Str? && '_' in id.s ==>
              var rest := id.s[IndexOf(id.s, '_') + 1..];
              n == Some(Or(ToNumber(Str(rest[..IndexOf(rest, '_')])), Num(1)))
  {
    if Nullish(id) then Some(Num(1))
    else if !id.Str? then None
    else
      var parts := SplitOn(id.s, '_');
      SecondPiece(id.s);
      if |parts| >= 2 then
        assert '_' in id.s;
        Some(Or(ToNumber(Str(parts[1])), Num(1)))
      else
        Some(Or(ToNumber(Undefined), Num(1)))
  }

  /** The second piece of a split, located by `indexOf`; none when there is no separator. */
  lemma SecondPiece(s: string)
    ensures '_' !in s ==> |SplitOn(s, '_')| == 1
    ensures '_' in s ==>
              var rest := s[IndexOf(s, '_') + 1..];
              |SplitOn(s, '_')| >= 2 && SplitOn(s, '_')[1] == rest[..IndexOf(rest, '_')]
  {
    if '_' in s {
      var rest := s[IndexOf(s, '_') + 1..];
      SplitOnAtFirst(s, '_');
      SplitOnFirstPiece(rest, '_');
    } else {
      SplitOnWithoutSep(s, '_');
    }
  }

  /** The catalogue's ids read back: `txn_<n>` gives listing number `n`. */
  lemma ListingNumberOfTxnId(n: nat)
    requires n >= 1
    ensures ListingNumber(Str("txn_" + NatToString(n))) == Some(Num(n))
  {
    var digits := NatToString(n);
    var s := "txn_" + digits;
    assert s[3] == '_' && s[0] != '_' && s[1] != '_' && s[2] != '_';
    assert IndexOf(s, '_') == 3 by {
      assert IndexOf(s, '_') <= 3;
    }
    assert s[4..] == digits;
    assert '_' !in digits by {
      assert forall i :: 0 <= i < |digits| ==> IsDigit(digits[i]);
    }
    assert digits[..IndexOf(digits, '_')] == digits;
    ParseNatToString(n);
    assert ToNumber(Str(digits)) == Num(n);
  }

  /**
    `buildMockTransaction(id)`: a 75 USD buyer transaction for the listing
    whose number the id carries; `roll` is the random draw that picks its
    status. `None` when reading the id throws.
   */
  function BuildMockTransaction(id: Json, roll: nat, clock: Clock): (r: Option<Json>)
    requires roll < 4
    ensures r.Some? <==> ListingNumber(id).Some?
    ensures r.Some? ==>
              && Get(r.value, "id") == id
              && Get(Get(r.value, "listing"), "id") == Str("listing-" + ToJsString(ListingNumber(id).value))
              && Get(r.value, "role") == Str("buyer")
              && Get(r.value, "status") == Str(DetailStatuses[roll])
              && Get(r.value, "total") == Num(75)
  {
    match ListingNumber(id)
    case None => None
    case Some(n) => Some(MockTxnDetail(id, n, DetailStatuses[roll], clock))
  }

  /** The detail record itself, for listing number `n` and the drawn status. */
  function MockTxnDetail(id: Json, n: Json, status: string, clock: Clock): (d: Json)
    ensures Get(d, "id") == id
    ensures Get(Get(d, "listing"), "id") == Str("listing-" + ToJsString(n))
    ensures Get(d, "role") == Str("buyer") && Get(d, "status") == Str(status) && Get(d, "total") == Num(75)
  {
    Obj(map[
      "id" := id,
      "listing" := Obj(map["id" := Str("listing-" + ToJsString(n)), "title" := Str("Vintage Denim Jacket"),
                           "image" := Str("https://picsum.photos/seed/txn/640/640"),
                           "price" := Num(75), "currency" := Str("USD")]),
      "role" := Str("buyer"),
      "status" := Str(status),
      "total" := Num(75),
      "currency" := Str("USD"),
      "createdAt" := Str(clock.iso(clock.now))])
  }

  /**
    The mock detail of catalogue transaction `i` names `listing-<i+1>`, while
    the catalogue entry itself names `mock-<i+1>`.
   */
  lemma DetailOfCatalogueTxn(i: nat, now: int, roll: nat, clock: Clock)
    requires i < TxnCount && roll < 4
    ensures var t := TxnCatalogue(now)[i];
            var d := BuildMockTransaction(Str(t.id), roll, clock);
            && d.Some?
            && Get(Get(d.value, "listing"), "id") == Str("listing-" + NatToString(i + 1))
            && t.listingId == "mock-" + NatToString(i + 1)
  {
    var t := TxnCatalogue(now)[i];
    assert t == MockTxn(i, now);
    ListingNumberOfTxnId(i + 1);
    assert ListingNumber(Str(t.id)) == Some(Num(i + 1));
    assert ToJsString(Num(i + 1)) == NatToString(i + 1);
  }

  /**
    `getTransaction(id)`: the server's record, or the mock detail. The mock
    is built inside the `catch`, so an id whose `.split` throws makes the
    whole call throw (`None`).
   */
  function GetTransaction(id: Json, net: Net<Json>, roll: nat, clock: Clock): (r: Option<Json>)
    requires roll < 4
    ensures net.Ok? ==> r == Some(net.data)
    ensures net.Fail? ==> r == BuildMockTransaction(id, roll, clock)
    ensures net.Fail? && (Nullish(id) || id.Str?) ==> r.Some? && Get(r.value, "id") == id
  {
    match net
    case Ok(data) => Some(data)
    case Fail => BuildMockTransaction(id, roll, clock)
  }

  // ---------------------------------------------------------------------
  // hook state

  datatype TransactionsState = TransactionsState(transactions: seq<Json>, total: int, filters: TxnFilters)

  /** `listTransactions()`: the server's list or the mock page, returned as `{ items, total }` too. */
  function ListTransactions(st: TransactionsState, net: Net<Json>, clock: Clock): (r: Step<TransactionsState>)
    ensures r.Done? && r.state.filters == st.filters
    ensures Get(r.result, "items") == Arr(r.state.transactions)
    ensures Get(r.result, "total") == Num(r.state.total)
    ensures net.Ok? ==> r.state.transactions == DecodeList(net.data).items &&
                        r.state.total == DecodeList(net.data).total
    ensures net.Fail? ==>
              var mock := GenerateMockTransactions(st.filters, clock.now);
              r.state.total == mock.total && |r.state.transactions| == |mock.items| &&
              forall k :: 0 <= k < |mock.items| ==> r.state.transactions[k] == TxnJson(mock.items[k], clock.iso)
  {
    var s :=
      match net
      case Ok(data) =>
        var d := DecodeList(data);
        st.(transactions := d.items, total := d.total)
      case Fail =>
        var mock := GenerateMockTransactions(st.filters, clock.now);
        st.(transactions := seq(|mock.items|, k requires 0 <= k < |mock.items| => TxnJson(mock.items[k], clock.iso)),
            total := mock.total);
    Done(s, Obj(map["items" := Arr(s.transactions), "total" := Num(s.total)]))
  }

  // ---------------------------------------------------------------------
  // checkout

  /** The body `startCheckout` posts. */
  function CheckoutBody(args: Json): (b: Json)
    ensures Get(b, "listing_id") == Get(args, "listingId")
    ensures Get(b, "amount") == Get(args, "amount")
    ensures Get(b, "currency") == Default(Get(args, "currency"), Str("USD"))
  {
    Obj(map["listing_id" := Get(args, "listingId"), "amount" := Get(args, "amount"),
            "currency" := Default(Get(args, "currency"), Str("USD"))])
  }

  /** The secret the mock hands out: `mock_secret_<now>`. */
  function MockSecret(clock: Clock): string {
    "mock_secret_" + NatToString(clock.now)
  }

  /** The checkout the fallback makes up; `draw` is the random part of its transaction id. */
  function MockCheckout(args: Json, clock: Clock, draw: string): (c: Json)
    ensures Get(c, "clientSecret") == Str(MockSecret(clock))
    ensures Get(c, "transactionId") == Str("txn_" + draw)
    ensures Get(c, "listingId") == Get(args, "listingId") && Get(c, "amount") == Get(args, "amount")
    ensures Get(c, "currency") == Default(Get(args, "currency"), Str("USD"))
  {
    Obj(map["clientSecret" := Str(MockSecret(clock)), "transactionId" := Str("txn_" + draw),
            "listingId" := Get(args, "listingId"), "amount" := Get(args, "amount"),
            "currency" := Default(Get(args, "currency"), Str("USD"))])
  }

  /**
    The success path of `startCheckout`: a falsy reply becomes `{}`; a reply
    without a truthy `clientSecret` gets one, from `client_secret` or made
    up. Setting a property on a truthy primitive throws in strict code, so
    such a reply is `None` here and the caller falls back to the mock.
   */
  function NormalizeCheckout(reply: Json, clock: Clock): (r: Option<Json>)
    ensures Truthy(Get(reply, "clientSecret")) ==> r == Some(reply)
    ensures !Truthy(reply) ==> r == Some(Obj(map["clientSecret" := Str(MockSecret(clock))]))
    ensures reply.Obj? && !Truthy(Get(reply, "clientSecret")) ==>
              r == Some(Obj(reply.props["clientSecret" := Or(Get(reply, "client_secret"), Str(MockSecret(clock)))]))
    ensures r.None? <==> Truthy(reply) && !reply.Obj? && !reply.Arr?
  {
    var data := if Truthy(reply) then reply else Obj(map[]);
    if Truthy(Get(data, "clientSecret")) then Some(data)
    else if data.Obj? then
      Some(Obj(data.props["clientSecret" := Or(Get(reply, "client_secret"), Str(MockSecret(clock)))]))
    else if data.Arr? then Some(data)
    else None
  }

  /**
    `startCheckout(args)`: the normalised server reply, or the mock checkout
    when the call fails or the reply cannot be normalised. Destructuring a
    null or undefined argument throws (`None`).
   */
  function StartCheckout(args: Json, net: Net<Json>, clock: Clock, draw: string): (r: Option<Json>)
    ensures r.None? <==> Nullish(args)
    ensures !Nullish(args) && net.Fail? ==> r == Some(MockCheckout(args, clock, draw))
    ensures !Nullish(args) && net.Ok? && NormalizeCheckout(net.data, clock).Some? ==> r == NormalizeCheckout(net.data, clock)
    ensures !Nullish(args) && net.Ok? && NormalizeCheckout(net.data, clock).None? ==> r == Some(MockCheckout(args, clock, draw))
  {
    if Nullish(args) then None
    else match net
      case Ok(reply) =>
        (match NormalizeCheckout(reply, clock)
         case Some(data) => Some(data)
         case None => Some(MockCheckout(args, clock, draw)))
      case Fail => Some(MockCheckout(args, clock, draw))
  }

  /** Whatever the server answers (short of an array), the payment widget gets a truthy client secret. */
  lemma CheckoutHasSecret(args: Json, net: Net<Json>, clock: Clock, draw: string)
    requires !Nullish(args)
    requires net.Ok? ==> !net.data.Arr?
    ensures var r := StartCheckout(args, net, clock, draw);
            r.Some? && Truthy(Get(r.value, "clientSecret"))
  {
    var r := StartCheckout(args, net, clock, draw);
    assert Truthy(Str(MockSecret(clock))) by {
      assert |MockSecret(clock)| > 0;
    }
    if net.Ok? && Truthy(net.data) && net.data.Obj? && !Truthy(Get(net.data, "clientSecret")) {
      var v := Or(Get(net.data, "client_secret"), Str(MockSecret(clock)));
      assert Get(r.value, "clientSecret") == v;
    }
  }
}
