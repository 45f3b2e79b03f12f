/**
  What the four resource hooks (listings, offers, swaps, transactions)
  share: the network outcome a hook action sees, the tolerant decoding of
  a list response, the local patch/remove-by-id updates of the fallback
  path, and the role/status filters and query of the offers and swaps hooks.
 */
module Resource {
  import opened Js
  import opened Lists

  /** What an `http` call gave a hook: the response data, or a thrown error of any kind. */
  datatype Net<+T> = Ok(data: T) | Fail

  /** `{ items, total }` as a mock generator returns it. */
  datatype MockPage<+T> = MockPage(items: seq<T>, total: nat)

  /**
    The two outcomes of a hook action: it resolves to `result`, or it
    throws (a `TypeError` of its own) and the state keeps its lists.
   */
  datatype Step<+S> = Done(state: S, result: Json) | Threw(state: S)

  /**
    `Date.now()` in milliseconds, and what `new Date(t).toISOString()`
    prints for an instant `t`.
   */
  datatype Clock = Clock(now: nat, iso: int -> string)

  /** `v.x` throws for these two values only. */
  predicate Nullish(v: Json) {
    v.Undefined? || v.Null?
  }

  // ---------------------------------------------------------------------
  // list responses

  datatype Decoded = Decoded(items: seq<Json>, total: int)

  /**
    `Array.isArray(data?.items) ? data.items : Array.isArray(data) ? data : []`
    and `data?.total || items.length`.
   */
  function DecodeList(data: Json): (d: Decoded)
    ensures Get(data, "items").Arr? ==> d.items == Get(data, "items").elems
    ensures !Get(data, "items").Arr? && data.Arr? ==> d.items == data.elems
    ensures !Get(data, "items").Arr? && !data.Arr? ==> d.items == []
    ensures Truthy(Get(data, "total")) && Get(data, "total").Num? ==> d.total == Get(data, "total").n
    ensures !Truthy(Get(data, "total")) ==> d.total == |d.items|
  {
    var items :=
      if Get(data, "items").Arr? then Get(data, "items").elems
      else if data.Arr? then data.elems
      else [];
    var total := Or(Get(data, "total"), Num(|items|));
    Decoded(items, if total.Num? then total.n else |items|)
  }

  /** The `{ items, total }` envelope decodes to its items and (non-zero) total. */
  lemma DecodeEnvelope(xs: seq<Json>, n: int, extra: map<string, Json>)
    requires "items" !in extra && "total" !in extra
    ensures DecodeList(Obj(extra["items" := Arr(xs)]["total" := Num(n)]))
            == Decoded(xs, if n != 0 then n else |xs|)
  {
  }

  /** A bare array decodes to itself, with its length as the total. */
  lemma DecodeBareArray(xs: seq<Json>)
    ensures DecodeList(Arr(xs)) == Decoded(xs, |xs|)
  {
  }

  /** Anything else (null, text, an object without an `items` array) decodes to an empty list. */
  lemma DecodeOther(data: Json)
    requires !data.Arr? && !Get(data, "items").Arr?
    requires !Truthy(Get(data, "total"))
    ensures DecodeList(data) == Decoded([], 0)
  {
  }

  // ---------------------------------------------------------------------
  // local updates on the fallback path

  /**
    The ids `===` can match by value: undefined, null, booleans, numbers
    other than NaN, and strings. NaN equals nothing, not even itself.
   */
  predicate Primitive(v: Json) {
    !v.NaN? && !v.Arr? && !v.Obj?
  }

  /** `it.id === id`; an array or object id is taken to be a reference no item holds. */
  predicate HasId(it: Json, id: Json) {
    Primitive(id) && Get(it, "id") == id
  }

  /** `prev.map(it => it.id === id ? { ...it, ...patch } : it)` */
  function PatchById(items: seq<Json>, id: Json, patch: map<string, Json>): (r: seq<Json>)
    ensures |r| == |items|
    ensures forall k :: 0 <= k < |r| && !HasId(items[k], id) ==> r[k] == items[k]
    ensures forall k, f :: 0 <= k < |r| && HasId(items[k], id) && f in patch ==> Get(r[k], f) == patch[f]
    ensures forall k, f :: 0 <= k < |r| && HasId(items[k], id) && f !in patch ==> Get(r[k], f) == Get(items[k], f)
  {
    seq(|items|, k requires 0 <= k < |items| =>
      if HasId(items[k], id) then Spread(items[k], Obj(patch)) else items[k])
  }

  /** A patch that leaves `id` alone keeps the matching items matching. */
  lemma PatchKeepsIds(items: seq<Json>, id: Json, patch: map<string, Json>)
    requires "id" !in patch
    ensures forall k :: 0 <= k < |items| ==> (HasId(PatchById(items, id, patch)[k], id) <==> HasId(items[k], id))
  {
  }

  /** Merging the same patch a second time changes nothing more. */
  lemma PatchTwice(items: seq<Json>, id: Json, patch: map<string, Json>)
    requires "id" !in patch
    ensures PatchById(PatchById(items, id, patch), id, patch) == PatchById(items, id, patch)
  {
    var once := PatchById(items, id, patch);
    var twice := PatchById(once, id, patch);
    forall k | 0 <= k < |items|
      ensures twice[k] == once[k]
    {
      if HasId(items[k], id) {
        assert Props(once[k]) + patch == Props(items[k]) + patch;
      }
    }
  }

  /** The test `it => it.id !== id`. */
  function OtherId(id: Json): Json -> bool {
    it => !HasId(it, id)
  }

  /** `prev.filter(it => it.id !== id)` */
  function RemoveById(items: seq<Json>, id: Json): (r: seq<Json>)
    ensures r == Filter(items, OtherId(id))
    ensures forall k :: 0 <= k < |r| ==> !HasId(r[k], id)
    ensures forall x :: x in items && !HasId(x, id) ==> x in r
    ensures forall x :: x in r ==> x in items
    ensures |r| == Count(items, OtherId(id))
  {
    Filter(items, OtherId(id))
  }

  /**
    Removal keeps order and multiplicity: it works item by item, dropping a
    matching item and keeping any other, so together with the concatenation
    law it fixes the result completely.
   */
  lemma RemoveByIdSingle(x: Json, id: Json)
    ensures RemoveById([x], id) == (if HasId(x, id) then [] else [x])
  {
    assert [x][1..] == [];
  }

  /** Removal distributes over concatenation, so the kept items stay in order and keep their repetitions. */
  lemma RemoveByIdConcat(a: seq<Json>, b: seq<Json>, id: Json)
    ensures RemoveById(a + b, id) == RemoveById(a, id) + RemoveById(b, id)
  {
    FilterConcat(a, b, OtherId(id));
  }

  /** Removing an id no item carries keeps the list as it was. */
  lemma RemoveAbsentId(items: seq<Json>, id: Json)
    requires forall k :: 0 <= k < |items| ==> !HasId(items[k], id)
    ensures RemoveById(items, id) == items
  {
    FilterAll(items, OtherId(id));
  }

  // ---------------------------------------------------------------------
  // role/status filters (offers and swaps)

  datatype RoleStatusFilters = RoleStatusFilters(role: string, status: string, page: nat, pageSize: nat)

  /** `setRole`: sets the role and goes back to the first page. */
  function SetRole(f: RoleStatusFilters, role: string): (g: RoleStatusFilters)
    ensures g.role == role && g.page == 1
    ensures g.status == f.status && g.pageSize == f.pageSize
  {
    f.(role := role, page := 1)
  }

  /** `setStatus`: sets the status and goes back to the first page. */
  function SetStatus(f: RoleStatusFilters, status: string): (g: RoleStatusFilters)
    ensures g.status == status && g.page == 1
    ensures g.role == f.role && g.pageSize == f.pageSize
  {
    f.(status := status, page := 1)
  }

  /** `setPage`: changes nothing but the page. */
  function SetPage(f: RoleStatusFilters, page: nat): (g: RoleStatusFilters)
    ensures g.page == page
    ensures g.role == f.role && g.status == f.status && g.pageSize == f.pageSize
  {
    f.(page := page)
  }

  /** `setPageSize`: changes nothing but the page size. */
  function SetPageSize(f: RoleStatusFilters, pageSize: nat): (g: RoleStatusFilters)
    ensures g.pageSize == pageSize
    ensures g.role == f.role && g.status == f.status && g.page == f.page
  {
    f.(pageSize := pageSize)
  }

  /** A query string as the ordered `(key, value)` pairs of a `URLSearchParams`. */
  type Query = seq<(string, string)>

  function Lookup(q: Query, key: string): Option<string> {
    if |q| == 0 then None
    else if q[0].0 == key then Some(q[0].1)
    else Lookup(q[1..], key)
  }

  /**
    The offers and swaps list query: `status` only when a status other than
    `all` is chosen, then `mine=true` only when a role other than `all` is.
   */
  function StatusMineQuery(f: RoleStatusFilters): (q: Query)
    ensures Lookup(q, "status").Some? <==> f.status != "" && f.status != "all"
    ensures Lookup(q, "status").Some? ==> Lookup(q, "status").value == f.status
    ensures Lookup(q, "mine").Some? <==> f.role != "" && f.role != "all"
    ensures Lookup(q, "mine").Some? ==> Lookup(q, "mine").value == "true"
    ensures forall k :: 0 <= k < |q| ==> q[k].0 == "status" || q[k].0 == "mine"
  {
    (if f.status != "" && f.status != "all" then [("status", f.status)] else [])
    + (if f.role != "" && f.role != "all" then [("mine", "true")] else [])
  }
}
