/**
  The state of the listing editor (`components/listings/ListingForm.jsx`):
  the form object seeded from `initial` with per-field defaults, the pending
  image URL, and the three updaters the inputs call. An updater that would
  throw inside React yields `None`.
 */
module ListingForm {
  import opened Js

  datatype FormState = FormState(form: map<string, Json>, imageUrl: string)

  /** The ten fields of the form with the value each falls back to. */
  const Defaults: map<string, Json> := map[
    "title" := Str(""), "price" := Str(""), "currency" := Str("USD"),
    "region" := Str("Global"), "category" := Str("Clothing"), "condition" := Str("Good"),
    "description" := Str(""), "images" := Arr([]), "region_id" := Str(""), "category_id" := Str("")]

  /**
    The first render: each field is `initial[field] || default`. A missing
    `initial` prop means `{}`; an explicit `null` throws at `initial.title`.
   */
  function InitialForm(initial: Json): (st: Option<FormState>)
    ensures st.None? <==> initial == Null
    ensures st.Some? ==> st.value.imageUrl == "" && st.value.form.Keys == Defaults.Keys
    ensures st.Some? ==> forall k :: k in Defaults ==>
              st.value.form[k] == (if Truthy(Get(initial, k)) then Get(initial, k) else Defaults[k])
  {
    if initial == Null then None
    else Some(FormState(map k | k in Defaults :: Or(Get(initial, k), Defaults[k]), ""))
  }

  /** With no `initial`, the form opens on the defaults. */
  lemma BlankForm()
    ensures InitialForm(Undefined) == Some(FormState(Defaults, ""))
  {
    var f := InitialForm(Undefined).value.form;
    forall k | k in Defaults
      ensures f[k] == Defaults[k]
    {
      assert Get(Undefined, k) == Undefined;
    }
    assert f == Defaults;
  }

  /** Reopening the editor on a form whose fields are all filled in keeps every value. */
  lemma ReopenKeepsValues(form: map<string, Json>)
    requires form.Keys == Defaults.Keys
    requires forall k :: k in form ==> Truthy(form[k])
    ensures InitialForm(Obj(form)) == Some(FormState(form, ""))
  {
    var f := InitialForm(Obj(form)).value.form;
    forall k | k in Defaults
      ensures f[k] == form[k]
    {
      assert Get(Obj(form), k) == form[k];
    }
    assert f == form;
  }

  /** `setField(k, v)`: `{ ...prev, [k]: v }`. */
  function SetField(st: FormState, k: string, v: Json): (s: FormState)
    ensures s.form.Keys == st.form.Keys + {k}
    ensures s.form[k] == v
    ensures forall j :: j in st.form && j != k ==> s.form[j] == st.form[j]
    ensures s.imageUrl == st.imageUrl
  {
    st.(form := st.form[k := v])
  }

  /** Only the last of two writes to one field is kept, and writes to different fields commute. */
  lemma SetFieldTwice(st: FormState, k: string, j: string, v: Json, w: Json)
    ensures SetField(SetField(st, k, v), k, w) == SetField(st, k, w)
    ensures k != j ==> SetField(SetField(st, k, v), j, w) == SetField(SetField(st, j, w), k, v)
  {
  }

  /** `[...(images || [])]`: the elements of the images value, or `None` when spreading it throws. */
  function SpreadImages(images: Json): (r: Option<seq<Json>>)
    ensures !Truthy(images) ==> r == Some([])
    ensures images.Arr? ==> r == Some(images.elems)
    ensures images.Str? ==> r == Some(Chars(images.s))
    ensures r.None? <==> Truthy(images) && !images.Arr? && !images.Str?
  {
    if !Truthy(images) then Some([])
    else match images
      case Arr(xs) => Some(xs)
      case Str(s) => Some(Chars(s))
      case _ => None
  }

  /** A string spreads into its one-character strings. */
  function Chars(s: string): (r: seq<Json>)
    ensures |r| == |s|
    ensures forall i :: 0 <= i < |s| ==> r[i] == Str([s[i]])
  {
    if s == "" then [] else [Str([s[0]])] + Chars(s[1..])
  }

  /** `addImage()`: an empty URL is ignored; otherwise it is appended to the images and the input is cleared. */
  function AddImage(st: FormState): (r: Option<FormState>)
    ensures st.imageUrl == "" ==> r == Some(st)
    ensures st.imageUrl != "" ==>
              (r.Some? <==> SpreadImages(Get(Obj(st.form), "images")).Some?)
    ensures st.imageUrl != "" && r.Some? ==>
              && r.value.imageUrl == ""
              && r.value.form == st.form["images" := Arr(SpreadImages(Get(Obj(st.form), "images")).value + [Str(st.imageUrl)])]
  {
    if st.imageUrl == "" then Some(st)
    else match SpreadImages(Get(Obj(st.form), "images"))
      case None => None
      case Some(xs) => Some(FormState(st.form["images" := Arr(xs + [Str(st.imageUrl)])], ""))
  }

  /** `filter((_, i) => i !== idx)`: every element but the one at position `idx`. */
  function WithoutIndex(xs: seq<Json>, idx: int): (r: seq<Json>)
    ensures 0 <= idx < |xs| ==> |r| == |xs| - 1
    ensures 0 <= idx < |xs| ==> forall k :: 0 <= k < |r| ==> r[k] == xs[if k < idx then k else k + 1]
    ensures !(0 <= idx < |xs|) ==> r == xs
    decreases |xs|
  {
    if xs == [] then []
    else (if idx == 0 then [] else [xs[0]]) + WithoutIndex(xs[1..], idx - 1)
  }

  /** `removeImage(idx)`: drop the image at `idx`; `None` when the images value has no `filter`. */
  function RemoveImage(st: FormState, idx: int): (r: Option<FormState>)
    ensures r.Some? <==> Get(Obj(st.form), "images").Arr?
    ensures r.Some? ==> r.value.imageUrl == st.imageUrl && r.value.form.Keys == st.form.Keys
    ensures r.Some? ==>
              var xs := st.form["images"].elems;
              r.value.form == st.form["images" := Arr(WithoutIndex(xs, idx))]
  {
    match Get(Obj(st.form), "images")
    case Arr(xs) => Some(st.(form := st.form["images" := Arr(WithoutIndex(xs, idx))]))
    case _ => None
  }

  /** Removing the image just added restores the image list and the rest of the form. */
  lemma AddThenRemoveRestores(st: FormState, xs: seq<Json>)
    requires "images" in st.form && st.form["images"] == Arr(xs)
    requires st.imageUrl != ""
    ensures AddImage(st).Some?
    ensures RemoveImage(AddImage(st).value, |xs|) == Some(FormState(st.form, ""))
  {
    var added := AddImage(st).value;
    var ys := xs + [Str(st.imageUrl)];
    assert added.form["images"] == Arr(ys);
    assert WithoutIndex(ys, |xs|) == xs;
    assert added.form["images" := Arr(xs)] == st.form;
  }
}
