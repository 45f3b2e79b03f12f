# Vintage market storefront: the data layer in Dafny

This project models the client-side data layer of a React storefront for
second-hand goods:

- the `fetch` wrapper that every call goes through (`api/client.js`);
- the five resource hooks (`useListings`, `useOffers`, `useSwaps`,
  `useTransactions`, `useAuth`);
- the state of the listing editor (`ListingForm.jsx`).

Most hook actions have the same shape. They try the backend. On any failure
they either make up a mock result or apply the change optimistically to the
local state.

Each action is a pure function from the hook's state to its new state and
its result. Everything outside the module is a parameter:
- the network outcome;
- the clock, as `Date.now()` plus the ISO formatter;
- the random draws;
- `localStorage`, as a value that may be unavailable.

Modules, in dependency order:

| file | module | what it holds |
|---|---|---|
| `js.dfy` | `Js` | JavaScript values (`Json`), truthiness, `\|\|`, `??`-style defaults, object spread, `Number()`, `String()`, `toLowerCase`, `includes`, `split` |
| `lists.dfy` | `Lists` | `filter`, a stable sort by key, `slice`-based paging, with their laws |
| `storage.dfy` | `Storage` | `localStorage` with swallowed exceptions |
| `client.dfy` | `Client` | URL building, `getToken`, `buildOptions`, `handleError`, `request`, `http` |
| `resource.dfy` | `Resource` | what the hooks share: tolerant list decoding, patch and remove by id, the role and status filters and their query |
| `listings.dfy` | `Listings` | `useListings`: filters, the 24-item mock catalogue and its search, sort and paging, and the CRUD actions |
| `offers.dfy` | `Offers` | `useOffers`: the 14 mock threads, create, get thread, accept and decline, send message |
| `swaps.dfy` | `Swaps` | `useSwaps`: `buildMockSwap`, the 10 mock swaps, create, get, status update routing |
| `transactions.dfy` | `Transactions` | `useTransactions`: the 12 mock transactions, the detail mock, checkout |
| `auth.dfy` | `Auth` | `useAuth`: token persistence, `me`, login, register, logout, hydration |
| `listing_form.dfy` | `ListingForm` | the editor's initial form, `setField`, `addImage`, `removeImage` |

Source paths below are relative to the repository root. Every hook file is
under `ecommerce_frontend/src/api/hooks/`.

## Model

| member | source | states |
|---|---|---|
| Js.Spread | ecommerce_frontend/src/api/hooks/useListings.js:112 | `{...a, ...b}` is an object; `b`'s own properties win, `a`'s others survive, and no other property appears, for operands that are objects, null, undefined, numbers or booleans |
| Js.ToNumber | ecommerce_frontend/src/api/hooks/useListings.js:89 | `Number(v)`: always a number or NaN; a string is 0 when empty, its value when a decimal numeral, else NaN; an array goes through its joined text |
| Js.Lower | ecommerce_frontend/src/api/hooks/useListings.js:183 | `toLowerCase` keeps the length and lower-cases each character by itself (ASCII letters only) |
| Js.ParseNatToString | ecommerce_frontend/src/api/hooks/useListings.js:39-40 | the decimal text `String(n)` puts in a query reads back as `n` |
| Js.SplitOn | ecommerce_frontend/src/api/hooks/useAuth.js:117 | `split(sep)` yields at least one piece and no piece contains the separator |
| Js.SplitOnAfterSep | ecommerce_frontend/src/api/hooks/useAuth.js:117 | the first piece of `a + sep + b` is `a` when `a` has no separator, and the rest is the split of `b` |
| Js.SplitOnWithoutSep | ecommerce_frontend/src/api/hooks/useTransactions.js:144 | text without the separator splits into itself alone |
| Js.IndexOf | ecommerce_frontend/src/api/hooks/useTransactions.js:144 | the first position holding the character, with every earlier position free of it; the length exactly when it does not occur |
| Js.SplitOnAtFirst | ecommerce_frontend/src/api/hooks/useTransactions.js:144 | text holding the separator splits into the text before its first occurrence followed by the pieces of the text after it |
| Js.SplitOnFirstPiece | ecommerce_frontend/src/api/hooks/useAuth.js:117 | the first piece of a split is the text up to the first separator, or the whole text |
| Lists.Filter | ecommerce_frontend/src/api/hooks/useOffers.js:306-312 | `filter` keeps exactly the elements passing the test: as many as pass, each passing, each from the input, none passing left out |
| Lists.FilterAll | ecommerce_frontend/src/api/hooks/useSwaps.js:199-201 | a filter every element passes returns the list unchanged |
| Lists.FilterNone | ecommerce_frontend/src/api/hooks/useSwaps.js:202-204 | a filter no element passes returns the empty list |
| Lists.CountAll | ecommerce_frontend/src/api/hooks/useListings.js:181-184 | a test every element passes counts every position, so an empty search counts the whole catalogue |
| Lists.FilterConcat | ecommerce_frontend/src/api/hooks/useOffers.js:306-312 | filtering distributes over concatenation |
| Lists.FilterSame | ecommerce_frontend/src/api/hooks/useListings.js:181-184 | two tests that agree everywhere filter alike |
| Lists.FilterTwice | ecommerce_frontend/src/api/hooks/useOffers.js:306-312 | a role filter followed by a status filter keeps what one filter by both keeps |
| Lists.FilterAlternating | ecommerce_frontend/src/api/hooks/useOffers.js:282-284 | when a test holds exactly on the even (or odd) positions of a list of length 2m, m elements pass |
| Lists.FilterKeepsSorted | ecommerce_frontend/src/api/hooks/useListings.js:181-194 | filtering a list in key order leaves it in key order |
| Lists.InsertByKey | ecommerce_frontend/src/api/hooks/useListings.js:185-194 | inserting into a key-ordered list keeps it ordered and adds exactly that element |
| Lists.SortByKey | ecommerce_frontend/src/api/hooks/useListings.js:185-194 | `slice().sort(cmp)` returns a permutation of the input in non-decreasing key order |
| Lists.SortSortedIsIdentity | ecommerce_frontend/src/api/hooks/useListings.js:191-194 | sorting a list already in key order changes nothing |
| Lists.EffectivePage | ecommerce_frontend/src/api/hooks/useListings.js:196 | `page \|\| 1`: a missing page (0) becomes 1 and any other page is kept |
| Lists.EffectiveSize | ecommerce_frontend/src/api/hooks/useListings.js:196-197 | `pageSize \|\| 20`: a missing size (0) becomes 20 and any other size is kept |
| Lists.PageOf | ecommerce_frontend/src/api/hooks/useListings.js:196-199 | the page is the run of items from `(page-1)*size`, never longer than the page size, clipped at the end |
| Lists.PageOfIndex | ecommerce_frontend/src/api/hooks/useListings.js:196-197 | item k appears on page `k / size + 1` at position `k % size` |
| Lists.PageKeepsSorted | ecommerce_frontend/src/api/hooks/useListings.js:196-197 | a page of a key-ordered list is key-ordered |
| Storage.ReadItem | ecommerce_frontend/src/api/hooks/useAuth.js:24-30 | `getItem` gives the stored string, or null when the key is missing or storage throws |
| Storage.ReadAfterWrite | ecommerce_frontend/src/api/hooks/useAuth.js:43-53 | a write is read back while storage works, is silently lost when it does not, and leaves other keys alone |
| Storage.ReadAfterRemove | ecommerce_frontend/src/api/hooks/useAuth.js:47-48 | after `removeItem` the key reads as null and other keys are unchanged |
| Client.Url | ecommerce_frontend/src/api/client.js:89-90 | the request URL is the configured base (empty when unset) followed by the path |
| Client.GetToken | ecommerce_frontend/src/api/client.js:24-30 | the token is the stored string or null, a string exactly when storage works and holds the key |
| Client.BuildOptions | ecommerce_frontend/src/api/client.js:66-84 | a stored truthy token becomes `Bearer <token>`; a truthy non-form body is stringified and marked JSON; form data and falsy bodies pass through; custom headers, body and method replace the computed ones |
| Client.HandleError | ecommerce_frontend/src/api/client.js:35-61 | the thrown error carries the response status and URL; an unreadable or empty body gives `Request failed`; text that is not JSON, or JSON `null`, is the message itself with no details; a JSON object gives its `message`, else `detail`, else `Request failed`, with the object as details; any other JSON value gives `Request failed` with the value as details |
| Client.DecodeBody | ecommerce_frontend/src/api/client.js:97-104 | a JSON content type yields the parsed body or fails; otherwise the text, with an empty body as null |
| Client.Request | ecommerce_frontend/src/api/client.js:89-112 | an unreachable server is a network error; a non-2xx reply becomes the normalised error with its status; only a 2xx reply returns, with its status, URL and decoded body |
| Client.Send | ecommerce_frontend/src/api/client.js:118-124 | every successful `http` call has a 2xx status |
| Client.ServerMessageReachesCaller | ecommerce_frontend/src/api/client.js:40-61 | a non-2xx reply whose JSON object has a non-empty `message` rejects the request with exactly that message, its status and URL, and the body as details |
| Client.NonObjectErrorBody | ecommerce_frontend/src/api/client.js:43-50 | a non-2xx reply with a JSON body that is not an object rejects with `Request failed`, or with the raw text when the body is `null` |
| Client.BearerReachesServer | ecommerce_frontend/src/api/client.js:66-69 | with no custom headers the server sees `Bearer <token>` exactly when a non-empty token is stored |
| Client.BlockedStorageSendsNoToken | ecommerce_frontend/src/api/client.js:24-30 | with blocked storage the bearer header is left out |
| Client.CustomHeadersDropBearer | ecommerce_frontend/src/api/client.js:78-83 | custom headers replace the computed ones wholesale, bearer header included |
| Resource.DecodeList | ecommerce_frontend/src/api/hooks/useListings.js:44-46 | items are `data.items` if an array, else `data` if an array, else empty; total is a truthy numeric `total`, else the item count |
| Resource.DecodeEnvelope | ecommerce_frontend/src/api/hooks/useListings.js:44-46 | an `{items, total}` envelope decodes to its items, with the total when it is non-zero |
| Resource.DecodeBareArray | ecommerce_frontend/src/api/hooks/useListings.js:44-46 | a bare array decodes to itself, counted by its length |
| Resource.DecodeOther | ecommerce_frontend/src/api/hooks/useListings.js:44-46 | any other reply decodes to no items and total 0 |
| Resource.HasId | ecommerce_frontend/src/api/hooks/useListings.js:112 | `it.id === id`: the item's id equals a primitive id; NaN, array and object ids match nothing |
| Resource.PatchById | ecommerce_frontend/src/api/hooks/useListings.js:112 | items with the id get the patch's fields and keep their others; other items are untouched; the length is kept |
| Resource.PatchKeepsIds | ecommerce_frontend/src/api/hooks/useListings.js:112 | a patch without an `id` field changes no item's id match |
| Resource.PatchTwice | ecommerce_frontend/src/api/hooks/useOffers.js:163 | applying the same id-free patch twice equals applying it once |
| Resource.RemoveById | ecommerce_frontend/src/api/hooks/useListings.js:133 | the items without that id, as `filter` keeps them: each remaining item lacks the id, every item without it remains, nothing new appears, and the count is the number of items without it |
| Resource.RemoveByIdSingle | ecommerce_frontend/src/api/hooks/useListings.js:133 | one item is dropped exactly when it carries the id |
| Resource.RemoveByIdConcat | ecommerce_frontend/src/api/hooks/useListings.js:133 | removal distributes over concatenation, so order and repetitions of the kept items are preserved |
| Resource.RemoveAbsentId | ecommerce_frontend/src/api/hooks/useListings.js:133 | removing an id no item has changes nothing |
| Resource.SetRole | ecommerce_frontend/src/api/hooks/useOffers.js:268 | sets the role, goes back to page 1, keeps status and page size |
| Resource.SetStatus | ecommerce_frontend/src/api/hooks/useOffers.js:269 | sets the status, goes back to page 1, keeps role and page size |
| Resource.SetPage | ecommerce_frontend/src/api/hooks/useOffers.js:270 | sets the page and nothing else |
| Resource.SetPageSize | ecommerce_frontend/src/api/hooks/useOffers.js:271 | sets the page size and nothing else |
| Resource.StatusMineQuery | ecommerce_frontend/src/api/hooks/useOffers.js:44-46 | `status` is sent exactly when it is set and not `all`; `mine=true` exactly when the role is set and not `all`; nothing else is sent |
| Listings.InitialFilters | ecommerce_frontend/src/api/hooks/useListings.js:21-27 | region defaults to Global and sort to newest; a missing page becomes 1 and a missing page size 20, while given ones are kept |
| Listings.SetRegion | ecommerce_frontend/src/api/hooks/useListings.js:151 | sets the region, back to page 1, the rest kept |
| Listings.SetSearch | ecommerce_frontend/src/api/hooks/useListings.js:152 | sets the search, back to page 1, the rest kept |
| Listings.SetSort | ecommerce_frontend/src/api/hooks/useListings.js:153 | sets the sort, back to page 1, the rest kept |
| Listings.SetPage | ecommerce_frontend/src/api/hooks/useListings.js:154 | sets the page, the rest kept |
| Listings.SetPageSize | ecommerce_frontend/src/api/hooks/useListings.js:155 | sets the page size, the rest kept |
| Listings.ListingsQuery | ecommerce_frontend/src/api/hooks/useListings.js:35-41 | the query sends q, region and sort verbatim, and page and pageSize as decimal text of their effective values |
| Listings.FilterChangeQueriesFirstPage | ecommerce_frontend/src/api/hooks/useListings.js:151-153 | after a region, search or sort change the server is asked for page 1 |
| Listings.Catalogue | ecommerce_frontend/src/api/hooks/useListings.js:166-179 | the mock catalogue has 24 entries, entry i built from i, the region (Global by default), the clock and its likes draw |
| Listings.SearchFilter | ecommerce_frontend/src/api/hooks/useListings.js:181-184 | an empty search keeps everything; otherwise exactly the items whose lower-cased title contains the lower-cased search, in their order and each as often as it occurs (one `filter` pass of `SearchHit`) |
| Listings.GenerateMockListings | ecommerce_frontend/src/api/hooks/useListings.js:165-200 | the total counts the catalogue items matching the search; the page holds the items of the sorted search result from `(page-1)*size` on, as many as fit |
| Listings.SortedResult | ecommerce_frontend/src/api/hooks/useListings.js:181-194 | the search result in the key order of the sort value: a permutation of the matches, as many as match |
| Listings.MockPageContents | ecommerce_frontend/src/api/hooks/useListings.js:181-199 | a mock page holds catalogue items only, and only matching ones under a search |
| Listings.MockPageOrder | ecommerce_frontend/src/api/hooks/useListings.js:185-197 | a mock page is ordered by ascending price, descending price, descending likes or newest first, as the sort value says |
| Listings.SortedMembers | ecommerce_frontend/src/api/hooks/useListings.js:185-197 | every item on a page of the sorted search result was in the search result |
| Listings.PageOrder | ecommerce_frontend/src/api/hooks/useListings.js:185-197 | a page of the sorted result is in the order of its sort key |
| Listings.SearchTotal | ecommerce_frontend/src/api/hooks/useListings.js:181-199 | the mock total is the number of catalogue items the search accepts |
| Listings.EmptySearchKeepsAll | ecommerce_frontend/src/api/hooks/useListings.js:181-199 | without a search the mock total is 24 |
| Listings.TotalIgnoresPaging | ecommerce_frontend/src/api/hooks/useListings.js:196-199 | the mock total depends on the search only: not on page, size, sort, region, clock or likes |
| Listings.CatalogueIsNewestFirst | ecommerce_frontend/src/api/hooks/useListings.js:175 | the catalogue is built newest first |
| Listings.NewestIsCatalogueOrder | ecommerce_frontend/src/api/hooks/useListings.js:191-194 | `newest` or an unrecognised sort value gives the page cut straight from the search result in catalogue order |
| Listings.FilterChangeShowsFirstPage | ecommerce_frontend/src/api/hooks/useListings.js:151-153 | after a search change the mock page holds min(page size, total) items, as page 1 does |
| Listings.FetchListings | ecommerce_frontend/src/api/hooks/useListings.js:29-58 | a reply is decoded tolerantly; a failure shows the mock page for the current filters and its total |
| Listings.CreatedListing | ecommerce_frontend/src/api/hooks/useListings.js:89 | the optimistic item: a `mock-<now>` id unless the payload has one, numeric price (0 by default), images `[]` by default, no likes, `createdAt` from the clock, other payload fields kept |
| Listings.CreateListing | ecommerce_frontend/src/api/hooks/useListings.js:79-100 | success refetches and returns the reply; failure prepends the created item and counts one up; a null payload throws and changes nothing |
| Listings.UpdateListing | ecommerce_frontend/src/api/hooks/useListings.js:102-121 | success refetches; failure merges the payload into the items with that id and returns `{id, ...payload}` |
| Listings.DeleteListing | ecommerce_frontend/src/api/hooks/useListings.js:123-143 | always resolves to true; failure leaves exactly `RemoveById` of the listings (order kept) and counts one down, never below 0 |
| Listings.GetListing | ecommerce_frontend/src/api/hooks/useListings.js:60-77 | the server's record, or the fixed 75 USD mock detail carrying the id asked for |
| Listings.DetailHasCatalogueFields | ecommerce_frontend/src/api/hooks/useListings.js:202-218 | the mock detail has every field of a catalogue listing plus `measurements`, with the first title and seller |
| Listings.CreateThenDeleteRestores | ecommerce_frontend/src/api/hooks/useListings.js:89-134 | an offline create followed by an offline delete of the new id restores the list and the total |
| Offers.InitialOfferFilters | ecommerce_frontend/src/api/hooks/useOffers.js:31-36 | role defaults to buyer and status to all; a missing page becomes 1 and a missing page size 20, while given ones are kept |
| Offers.OfferCatalogue | ecommerce_frontend/src/api/hooks/useOffers.js:283-304 | the mock holds 14 threads, thread i built from i and the clock |
| Offers.MatchingOffers | ecommerce_frontend/src/api/hooks/useOffers.js:306-312 | the role and status steps keep exactly the threads of that role and status, `all` switching a step off; the result is one in-order `filter` pass of `OfferHit` over the catalogue |
| Offers.OnePass | ecommerce_frontend/src/api/hooks/useOffers.js:306-312 | the two filter steps equal one filter by both tests |
| Offers.GenerateMockOffers | ecommerce_frontend/src/api/hooks/useOffers.js:281-316 | the total counts the matching threads; the page holds the matching threads from `(page-1)*size` on, as many as fit |
| Offers.MockOffersContents | ecommerce_frontend/src/api/hooks/useOffers.js:306-315 | a mock page holds catalogue threads of the asked-for role and status only |
| Offers.RoleTotals | ecommerce_frontend/src/api/hooks/useOffers.js:282-312 | with any status, buyer and seller each own 7 threads and `all` shows 14 |
| Offers.UnknownRoleIsEmpty | ecommerce_frontend/src/api/hooks/useOffers.js:306-315 | a role other than buyer, seller or all shows no threads, and an empty role sends no `mine` |
| Offers.FetchOffers | ecommerce_frontend/src/api/hooks/useOffers.js:38-67 | a reply is decoded tolerantly; a failure shows the mock page; thread and messages are untouched |
| Offers.MockListPrice | ecommerce_frontend/src/api/hooks/useOffers.js:86 | the mock list price is `floor(1.3 × (amount \|\| 50))`, 65 without an amount, NaN for a non-numeric amount |
| Offers.CreatedOffer | ecommerce_frontend/src/api/hooks/useOffers.js:80-100 | the optimistic thread is open, `thread-<now>`, on the asked-for listing at the mock price, with the buyer's amount and currency (USD by default) and the note (or `Offer created`) as last message |
| Offers.CreateOffer | ecommerce_frontend/src/api/hooks/useOffers.js:69-108 | success refetches; failure prepends the created thread and counts one up; a null argument throws |
| Offers.MockMessages | ecommerce_frontend/src/api/hooks/useOffers.js:333-337 | three messages within the last hour, in time order, buyer and seller alternating |
| Offers.MockThread | ecommerce_frontend/src/api/hooks/useOffers.js:318-339 | an open thread with the asked-for id, offer 60 on a 75 listing, and the three mock messages |
| Offers.NormalizeOffer | ecommerce_frontend/src/api/hooks/useOffers.js:116-125 | a server offer becomes a thread: its amount is both price and latest offer, currency defaults to USD, updated is `updated_at` or else `created_at` |
| Offers.GetThread | ecommerce_frontend/src/api/hooks/useOffers.js:110-141 | a non-null reply is normalised with no messages; a failure or empty reply loads the mock thread; either way the result is the new thread and messages |
| Offers.FetchedThreadTakesVerdict | ecommerce_frontend/src/api/hooks/useOffers.js:110-175 | a thread loaded from the server and then settled offline takes the verdict and keeps its listing and latest offer |
| Offers.MockThreadTakesVerdict | ecommerce_frontend/src/api/hooks/useOffers.js:110-175 | the mock thread shown offline is settled offline under its id and keeps its 60 USD offer and messages |
| Offers.SettledThread | ecommerce_frontend/src/api/hooks/useOffers.js:150-157 | the open thread takes the server's status and amount, only when its id matches |
| Offers.VerdictThread | ecommerce_frontend/src/api/hooks/useOffers.js:163-166 | offline, the open thread with that id takes the verdict status and nothing else but its stamp |
| Offers.Settle | ecommerce_frontend/src/api/hooks/useOffers.js:143-175 | success updates the open thread and refetches; failure marks the offer in the list and the open thread with the verdict and returns `{id, status}` |
| Offers.AcceptOffer | ecommerce_frontend/src/api/hooks/useOffers.js:143-175 | offline acceptance marks exactly the offers with that id `accepted` |
| Offers.DeclineOffer | ecommerce_frontend/src/api/hooks/useOffers.js:177-208 | offline refusal marks exactly the offers with that id `declined` |
| Offers.SettleTwice | ecommerce_frontend/src/api/hooks/useOffers.js:163 | an offline verdict given twice leaves the list as once |
| Offers.CreateThenAccept | ecommerce_frontend/src/api/hooks/useOffers.js:80-167 | an offline-created thread is found and accepted offline under its fresh id |
| Offers.BuyerMessage | ecommerce_frontend/src/api/hooks/useOffers.js:220-227 | the message carries the text, amount and currency, is the buyer's, and is stamped now |
| Offers.ThreadAfterMessage | ecommerce_frontend/src/api/hooks/useOffers.js:229-234 | the thread gets the new latest offer and last message, and every other field is kept |
| Offers.SendMessage | ecommerce_frontend/src/api/hooks/useOffers.js:210-261 | the buyer's message is appended and becomes the thread's last message; a counter-offer without text reads `Countered to <amount>` and sets the latest offer from the reply; without an amount the latest offer is kept |
| Offers.SendTwice | ecommerce_frontend/src/api/hooks/useOffers.js:210-256 | two messages in a row are appended in the order sent, and the thread shows the second |
| Swaps.SwapOf | ecommerce_frontend/src/api/hooks/useSwaps.js:161 | missing options default to mock-1, mock-2, open, an empty note, and mine |
| Swaps.SwapListing | ecommerce_frontend/src/api/hooks/useSwaps.js:162-175 | side a is the 75 jacket, side b the 240 armchair, each under the id given |
| Swaps.MineSide | ecommerce_frontend/src/api/hooks/useSwaps.js:178 | `mine` is my listing when the role is mine, theirs otherwise |
| Swaps.TheirsSide | ecommerce_frontend/src/api/hooks/useSwaps.js:179 | `theirs` is the other listing |
| Swaps.SwapJson | ecommerce_frontend/src/api/hooks/useSwaps.js:176-184 | the swap object carries the id, status, note and the two sides |
| Swaps.BuildMockSwap | ecommerce_frontend/src/api/hooks/useSwaps.js:161-185 | the id given, status open by default, and sides chosen by the role |
| Swaps.SeedSwapIsBuilt | ecommerce_frontend/src/api/hooks/useSwaps.js:188-196 | catalogue swap i is what `buildMockSwap` makes of its seed options |
| Swaps.SwapCatalogue | ecommerce_frontend/src/api/hooks/useSwaps.js:188-196 | the mock holds 10 swaps, swap i built from its seed |
| Swaps.MatchingSwaps | ecommerce_frontend/src/api/hooks/useSwaps.js:198-204 | the role and status steps keep exactly the swaps both tests accept, every such swap included; the result is one in-order `filter` pass of `SwapHit` |
| Swaps.SwapOnePass | ecommerce_frontend/src/api/hooks/useSwaps.js:198-204 | the two filter steps equal one filter by both tests |
| Swaps.GenerateMockSwaps | ecommerce_frontend/src/api/hooks/useSwaps.js:187-209 | the total counts the matching swaps, and the result is the generic page of the matching catalogue swaps |
| Swaps.PageOfMatching | ecommerce_frontend/src/api/hooks/useSwaps.js:196-209 | for any list of swaps: the total counts the matches and the page holds the matches from `(page-1)*size` on, as many as fit |
| Swaps.MockSwapsContents | ecommerce_frontend/src/api/hooks/useSwaps.js:198-208 | a mock page holds catalogue swaps of the asked-for status only |
| Swaps.RoleFilterKeepsAll | ecommerce_frontend/src/api/hooks/useSwaps.js:199-201 | the role step keeps every swap, since both sides are always present; with any status the total is 10 |
| Swaps.MatchingIgnoresRole | ecommerce_frontend/src/api/hooks/useSwaps.js:199-201 | for any list of swaps the role step keeps everything, since both sides of a swap are objects: matching by role and status equals matching by status alone |
| Swaps.NoCancelledSwaps | ecommerce_frontend/src/api/hooks/useSwaps.js:192 | no mock swap is cancelled, so that filter shows nothing |
| Swaps.InitialSwapFilters | ecommerce_frontend/src/api/hooks/useSwaps.js:29-34 | role and status default to all; a missing page becomes 1 and a missing page size 20, while given ones are kept |
| Swaps.FetchSwaps | ecommerce_frontend/src/api/hooks/useSwaps.js:36-65 | a reply is decoded tolerantly; a failure shows the mock page |
| Swaps.CreateSwapBody | ecommerce_frontend/src/api/hooks/useSwaps.js:72 | the body renames the two listing ids and the note (empty by default), and has nothing else |
| Swaps.CreatedSwap | ecommerce_frontend/src/api/hooks/useSwaps.js:77-83 | the optimistic swap is open, mine, `swap-<now>`, with the listings and note given |
| Swaps.CreateSwap | ecommerce_frontend/src/api/hooks/useSwaps.js:67-94 | success refetches; failure prepends the created swap and counts one up; a null argument throws |
| Swaps.GetSwap | ecommerce_frontend/src/api/hooks/useSwaps.js:96-112 | the server's record, or an open mock swap under the id asked for |
| Swaps.MockDetailIsDefaultSwap | ecommerce_frontend/src/api/hooks/useSwaps.js:96-112 | the offline detail is `buildMockSwap(id)` with every option at its default |
| Swaps.RouteOf | ecommerce_frontend/src/api/hooks/useSwaps.js:120-127 | accepted/accept go to the accept endpoint, declined/reject/decline to decline, anything else to none |
| Swaps.UpdateSwapStatus | ecommerce_frontend/src/api/hooks/useSwaps.js:114-141 | a routed success refetches and returns the reply; otherwise the swaps with that id take the status asked for and `{id, status}` is returned |
| Swaps.CreateThenUpdateSwap | ecommerce_frontend/src/api/hooks/useSwaps.js:67-141 | a swap created offline takes an offline status update under its fresh `swap-<now>` id |
| Swaps.UnroutedIgnoresNetwork | ecommerce_frontend/src/api/hooks/useSwaps.js:124-127 | a status with no route gives the same outcome whatever the network does |
| Swaps.LocalStatusIsLiteral | ecommerce_frontend/src/api/hooks/useSwaps.js:132-133 | the offline update stores the literal status, so `accept` stays `accept` |
| Transactions.InitialTxnFilters | ecommerce_frontend/src/api/hooks/useTransactions.js:27-31 | role defaults to all; a missing page becomes 1 and a missing page size 20, while given ones are kept |
| Transactions.SetRole | ecommerce_frontend/src/api/hooks/useTransactions.js:121 | sets the role, back to page 1, page size kept |
| Transactions.SetPage | ecommerce_frontend/src/api/hooks/useTransactions.js:122 | sets the page and nothing else |
| Transactions.SetPageSize | ecommerce_frontend/src/api/hooks/useTransactions.js:123 | sets the page size and nothing else |
| Transactions.TxnQuery | ecommerce_frontend/src/api/hooks/useTransactions.js:39-43 | `mine` is `true` exactly for a set role other than all and empty otherwise; page and page_size are sent as their decimal text, without defaults |
| Transactions.TxnCatalogue | ecommerce_frontend/src/api/hooks/useTransactions.js:159-173 | the mock holds 12 transactions, transaction i built from i and the clock |
| Transactions.GenerateMockTransactions | ecommerce_frontend/src/api/hooks/useTransactions.js:158-182 | the total is 12 for all roles and otherwise counts that role's transactions; the page holds the role's transactions from `(page-1)*size` on, as many as fit |
| Transactions.TxnResult | ecommerce_frontend/src/api/hooks/useTransactions.js:158-177 | the whole catalogue for `all`; otherwise every catalogue transaction of that role and no other, in catalogue order (one `filter` pass of `TxnHit`) |
| Transactions.MockTxnsContents | ecommerce_frontend/src/api/hooks/useTransactions.js:168-181 | a mock page holds catalogue transactions of the chosen role, none of them refunded |
| Transactions.CatalogueNeverRefunded | ecommerce_frontend/src/api/hooks/useTransactions.js:169 | no catalogue transaction is refunded, since the statuses cycle through processing, succeeded and failed |
| Transactions.RoleTotals | ecommerce_frontend/src/api/hooks/useTransactions.js:168-177 | buyer and seller each own 6 of the 12 |
| Transactions.ListingNumber | ecommerce_frontend/src/api/hooks/useTransactions.js:144 | null/undefined gives 1; a string gives `Number` of the text between its first `_` and the next `_` (or the end), or 1 when that is 0, not a number, or there is no `_`; any other id throws at `.split` |
| Transactions.SecondPiece | ecommerce_frontend/src/api/hooks/useTransactions.js:144 | the second piece of `split("_")` is the text after the first `_` up to the next one; without `_` there is no second piece |
| Transactions.ListingNumberOfTxnId | ecommerce_frontend/src/api/hooks/useTransactions.js:144 | `txn_<n>` with n at least 1 gives listing number n |
| Transactions.BuildMockTransaction | ecommerce_frontend/src/api/hooks/useTransactions.js:140-156 | the detail mock keeps the id, links `listing-<n>`, is the buyer's, costs 75 USD, and takes the status the draw picks |
| Transactions.MockTxnDetail | ecommerce_frontend/src/api/hooks/useTransactions.js:141-155 | the detail record carries the id asked for, `listing-<n>` as its listing id, the buyer role, the drawn status and the 75 total |
| Transactions.DetailOfCatalogueTxn | ecommerce_frontend/src/api/hooks/useTransactions.js:140-162 | the detail for catalogue transaction i names `listing-(i+1)`, while the list names `mock-(i+1)` |
| Transactions.GetTransaction | ecommerce_frontend/src/api/hooks/useTransactions.js:72-88 | the server's record, or the detail mock under the id asked for |
| Transactions.ListTransactions | ecommerce_frontend/src/api/hooks/useTransactions.js:33-70 | the state and the returned `{items, total}` agree; a reply is decoded tolerantly, a failure gives the mock page |
| Transactions.CheckoutBody | ecommerce_frontend/src/api/hooks/useTransactions.js:95 | the body carries the listing id, amount and currency (USD by default) |
| Transactions.MockCheckout | ecommerce_frontend/src/api/hooks/useTransactions.js:105-111 | the mock checkout has secret `mock_secret_<now>`, a `txn_` id, and echoes listing, amount and currency |
| Transactions.NormalizeCheckout | ecommerce_frontend/src/api/hooks/useTransactions.js:97-102 | a reply with a client secret is kept; an object without one gets `client_secret` or a mock secret; an empty reply becomes just a mock secret; a truthy primitive throws |
| Transactions.StartCheckout | ecommerce_frontend/src/api/hooks/useTransactions.js:90-119 | a null argument throws; a failure or an unusable reply gives the mock checkout; otherwise the normalised reply |
| Transactions.CheckoutHasSecret | ecommerce_frontend/src/api/hooks/useTransactions.js:90-112 | whatever the server answers, short of an array, the payment widget gets a truthy client secret |
| Auth.InitialAuth | ecommerce_frontend/src/api/hooks/useAuth.js:24-33 | the token is what storage holds (null when missing or blocked), no user, loading exactly while a token is held |
| Auth.PersistToken | ecommerce_frontend/src/api/hooks/useAuth.js:43-54 | a truthy token is written as text and kept, anything else removes the key and leaves null; signed in exactly for a truthy token |
| Auth.StatusOf | ecommerce_frontend/src/api/hooks/useAuth.js:65 | `err?.status \|\| err?.response?.status`: a status exactly for a non-2xx reply with a non-zero status, and then that status |
| Auth.Me | ecommerce_frontend/src/api/hooks/useAuth.js:56-72 | success sets the user; failure clears the user, records and rethrows the error, and drops the token exactly on 401 or 403 |
| Auth.ExtractToken | ecommerce_frontend/src/api/hooks/useAuth.js:80 | `access_token` when truthy, else `token` when truthy, else null; truthy exactly when one of them is |
| Auth.Login | ecommerce_frontend/src/api/hooks/useAuth.js:74-106 | succeeds exactly when the reply has a token; then it persists it and loads the user, ignoring that call's failure, and returns `{success: true, token}`; a failure records the error and touches nothing else |
| Auth.LoginAuthenticates | ecommerce_frontend/src/api/hooks/useAuth.js:80-97 | a token reply and a working profile call leave the session holding that token |
| Auth.LoginThenUnauthorizedMe | ecommerce_frontend/src/api/hooks/useAuth.js:83-97 | when the profile call answers 401 the login still reports success, but the token is gone and the error stays |
| Auth.FailedLoginKeepsSession | ecommerce_frontend/src/api/hooks/useAuth.js:98-100 | a failed login leaves the stored token and the session token as they were |
| Auth.RegisterBody | ecommerce_frontend/src/api/hooks/useAuth.js:115-120 | email and password pass through; username is given or taken from the email; full name is `fullName` or `name`; a non-string email without a username throws |
| Auth.UsernameFromEmail | ecommerce_frontend/src/api/hooks/useAuth.js:117 | without a username, the part of the email before its first `@` becomes the username |
| Auth.Register | ecommerce_frontend/src/api/hooks/useAuth.js:108-154 | a null payload throws; success returns the reply and logs in with email and password when both are present, otherwise persists a returned token and loads the user |
| Auth.Logout | ecommerce_frontend/src/api/hooks/useAuth.js:156-162 | the token leaves state and storage and the user is cleared |
| Auth.Hydrate | ecommerce_frontend/src/api/hooks/useAuth.js:164-182 | with a token the user is loaded; either way loading ends |
| Auth.HydrateUnauthorized | ecommerce_frontend/src/api/hooks/useAuth.js:164-182 | a stored token rejected with 401 or 403 ends hydration signed out, not loading, with the error kept, and the next mount is signed out |
| Auth.PersistThenReload | ecommerce_frontend/src/api/hooks/useAuth.js:24-54 | a persisted token is what the next mount starts with, signed in |
| Auth.LogoutThenReload | ecommerce_frontend/src/api/hooks/useAuth.js:24-32 | after logout the next mount starts signed out and not loading |
| Auth.PersistedTokenIsSent | ecommerce_frontend/src/api/hooks/useAuth.js:43-54 | once a token is persisted every plain request carries it as `Bearer <token>` |
| ListingForm.InitialForm | ecommerce_frontend/src/components/listings/ListingForm.jsx:11-26 | each of the ten fields is the initial value if truthy, else its default; the URL input starts empty; a null `initial` throws |
| ListingForm.BlankForm | ecommerce_frontend/src/components/listings/ListingForm.jsx:11-25 | with no `initial` the form opens on the defaults |
| ListingForm.ReopenKeepsValues | ecommerce_frontend/src/components/listings/ListingForm.jsx:12-25 | reopening on a form whose fields are all filled in keeps every value |
| ListingForm.SetField | ecommerce_frontend/src/components/listings/ListingForm.jsx:28 | the field takes the value and every other field is kept |
| ListingForm.SetFieldTwice | ecommerce_frontend/src/components/listings/ListingForm.jsx:28 | a second write to a field wins, and writes to different fields commute |
| ListingForm.SpreadImages | ecommerce_frontend/src/components/listings/ListingForm.jsx:32 | `[...(images \|\| [])]` gives an array's elements, nothing for a falsy value, a string's characters, and throws otherwise |
| ListingForm.AddImage | ecommerce_frontend/src/components/listings/ListingForm.jsx:30-34 | an empty URL does nothing; otherwise the URL is appended to the images and the input is cleared |
| ListingForm.WithoutIndex | ecommerce_frontend/src/components/listings/ListingForm.jsx:36 | every element except the one at the index, in order; an out-of-range index keeps all |
| ListingForm.RemoveImage | ecommerce_frontend/src/components/listings/ListingForm.jsx:35-37 | the image at the index is dropped from an array; a non-array throws |
| ListingForm.AddThenRemoveRestores | ecommerce_frontend/src/components/listings/ListingForm.jsx:30-37 | removing the image just added restores the form |

## Left out

- React mechanics are not modelled: effects, re-renders, `useCallback` dependencies and the `active` flag of the hydration effect. The effect that re-runs `me` when the token changes is out too.
- Every hook's `loading` and `error` flags are left out, except in `useAuth`, where they are modelled.
- The `overrides` argument of the fetch actions is not modelled; the current filters are used.
- The network, the clock and randomness are parameters:
  - the network is an outcome `Ok(data)` or `Fail`, or, for the auth hook, the request layer's result;
  - the clock is `now` plus an ISO formatter whose format is not modelled;
  - randomness is a likes draw per listing, a status draw for the transaction detail and the text of the mock transaction id.
- Numbers are integers: `Num(int)` and `NaN`. Floating point and negative page values are out.
- Offers.MockListPrice: computes `floor(1.3 × amount)` exactly as `floor(13 × amount / 10)`, without the floating-point rounding of `* 1.3`.
- Js.ToNumber: reads only unsigned decimal digit strings. `"-5"`, `"1e3"`, `" 7 "` and `"0x10"` become NaN instead of their JavaScript values. An array converts through its joined text, so `[]` is 0, `[7]` is 7 and `["-5"]` is NaN, with the same restriction on the text.
- Js.Spread: an array or string operand contributes nothing, although JavaScript copies its index properties (`{...["x"]}` is `{"0": "x"}`). The spreads of `payload` in `Listings.CreatedListing` and `Listings.UpdateListing`, of the patch in `Resource.PatchById`, and of the thread in `Offers.SettledThread`, `Offers.VerdictThread` and `Offers.ThreadAfterMessage` inherit this. The hooks' callers pass objects there.
- Js.Lower: lower-cases the ASCII letters only. JavaScript's `toLowerCase` also maps other characters, so the mock search misses matches: a search for the Kelvin sign U+212A lower-cases to `k` in JavaScript and finds 9 of the 24 titles, while the model finds none. A character whose lower case is longer, such as U+0130, also keeps its length here.
- Listings.SearchFilter: matches through `Js.Lower`, so it has the same ASCII-only limit.
- Resource.HasId: an array or object id never matches. In the source `===` matches it by reference, which the model does not track; ids of every other kind compare as `===` does.
- Resource.DecodeList: states the total only for a numeric or falsy `total`. A truthy non-numeric `total`, such as a string, is passed on by the source and is outside the model.
- Lists.SortByKey: its contract states ordering and permutation, not stability. The insertion order keeps ties in input order, but no contract says so.
- Header names are exact strings; the `Headers` object's case-insensitive names are not modelled.
- The `AuthContext` calls in login, register and logout are outside the model, and so are their failures.
- Offers.SendMessage: only the success path is modelled. A failing counter-offer request is out. The inner `try` at `useOffers.js:214` has neither a `catch` nor a `finally`, so that file is not valid JavaScript as written and cannot load. The `Offers` members model what the code evidently means: the inner `try` behaves as a plain block, so errors reach the outer `catch`, which records them and rethrows.
- State updaters that throw inside React are out. An example is accepting a thread while the server reply is null.
- Transactions.StartCheckout: an array reply gets a `clientSecret` property in the source; the model returns the array unchanged.
- ListingForm.AddImage and ListingForm.RemoveImage: an updater that throws is modelled as `None`; the error React then raises is not modelled.
- The pages and presentational components are not part of this model, nor `AuthContext.jsx` and `RegionContext.jsx`.
- `client.js` parses a success body with the JSON content type without a catch, so an unparsable body fails the request. The model follows the code.
