/**
 * The vehicle-listing controller: its coercion helpers, the normalisation
 * of a request body, the create and update guards, and the translation of
 * a list query into a filter, a sort and a page window.
 */
module VehicleListings {
  import opened Wrappers
  import opened Strings
  import opened JsonValues
  import opened Http
  import opened Patterns
  import opened Filters
  import opened Pagination
  import Schema = VehicleListingSchema

  // ---- coercion helpers ----

  const TrueWords: seq<string> := ["true", "1", "yes"]
  const FalseWords: seq<string> := ["false", "0", "no"]

  /**
   * `parseBool`: a boolean is kept, `null`/`undefined` give `None`, any other
   * value is printed, lower-cased and trimmed and then read as one of the
   * two word lists; anything else gives `None`.
   */
  function ParseBool(v: Option<Json>): (r: Option<bool>)
    ensures v.Some? && v.value.JBool? ==> r == Some(v.value.b)
    ensures v.None? || v == Some(JNull) ==> r.None?
  {
    match v
    case None => None
    case Some(JNull) => None
    case Some(JBool(b)) => Some(b)
    case Some(x) => ReadWord(Trim(Lower(JsString(x))))
  }

  /** The two word lists of `parseBool`. */
  function ReadWord(s: string): Option<bool> {
    if s in TrueWords then Some(true) else if s in FalseWords then Some(false) else None
  }

  /** Case and surrounding white space do not matter to `parseBool`. */
  lemma ParseBoolNormalised(s: string)
    ensures ParseBool(Some(JStr(s))) == ParseBool(Some(JStr(Lower(Trim(s)))))
  {
    TrimLowerCommute(s);
    LowerIdempotent(Trim(s));
    TrimIdempotent(Lower(s));
  }

  /** The word lists: these six strings, in any case and with any padding, are the readable ones. */
  lemma ParseBoolWords(s: string)
    ensures ParseBool(Some(JStr(s))) == Some(true) <==> Trim(Lower(s)) in {"true", "1", "yes"}
    ensures ParseBool(Some(JStr(s))) == Some(false) <==> Trim(Lower(s)) in {"false", "0", "no"}
    ensures ParseBool(Some(JStr(s))).None? <==> Trim(Lower(s)) !in {"true", "1", "yes", "false", "0", "no"}
  {
  }

  /** A numeral is one of the words only when it is "1" or "0". */
  lemma ReadWordOfNumeral(s: string)
    requires s != [] && (s[0] == '-' || IsDigit(s[0]))
    ensures ReadWord(s) == if s == "1" then Some(true) else if s == "0" then Some(false) else None
  {
    assert s != "true" && s != "yes" && s != "false" && s != "no" by {
      assert s[0] != 't' && s[0] != 'y' && s[0] != 'f' && s[0] != 'n';
    }
  }

  /** A number is read through its decimal form: 1 is true, 0 is false, any other number is `None`. */
  lemma ParseBoolNumber(n: int)
    ensures ParseBool(Some(JNum(n))) == if n == 1 then Some(true) else if n == 0 then Some(false) else None
  {
    var s := IntToString(n);
    IntToStringShape(n);
    assert forall i :: 0 <= i < |s| ==> IsPlain(s[i]);
    TrimLowerOfPlain(s);
    assert ParseBool(Some(JNum(n))) == ReadWord(s);
    ReadWordOfNumeral(s);
    if s == "1" || s == "0" {
      assert 0 <= n < 10 && s == [DigitChar(n)];
    }
  }

  /** What `String(b)` prints reads back as `b`. */
  lemma ParseBoolOfPrinted(b: bool)
    ensures ParseBool(Some(JStr(JsString(JBool(b))))) == Some(b)
  {
    if b {
      TrimLowerOfPlain("true");
      assert ReadWord("true") == Some(true);
    } else {
      TrimLowerOfPlain("false");
      assert ReadWord("false") == Some(false);
    }
  }

  /** `parseNumber`: `null`, `undefined` and "" give `None`, otherwise `Number(v)` when finite. */
  function ParseNumber(v: Option<Json>): (r: Option<int>)
    ensures v.None? || v == Some(JNull) || v == Some(JStr("")) ==> r.None?
    ensures v.Some? && v.value.JNum? ==> r == Some(v.value.n)
  {
    if v.None? || v.value == JNull || v.value == JStr("") then None else ToNumber(v.value)
  }

  /** A decimal numeral reads back as its number; a blank string reads as 0, as `Number(" ")` does. */
  lemma ParseNumberOfPrinted(n: int)
    ensures ParseNumber(Some(JStr(IntToString(n)))) == Some(n)
    ensures ParseNumber(Some(JStr(" "))) == Some(0)
  {
    IntToStringParts(n);
    NumberOfIntToString(n);
    assert JStr(IntToString(n)) != JStr("");
    assert ToNumber(JStr(IntToString(n))) == NumberOf(IntToString(n));
    assert Trim(" ") == "" by {
      assert LeadingSpaces(" ") == 1;
    }
    assert ToNumber(JStr(" ")) == NumberOf(" ");
  }

  // ---- pickListingBody ----

  /** The keys `pickListingBody` copies from the body. `listing_type` is not among them. */
  const ListingBodyKeys: set<string> :=
    {"name", "images", "price", "description", "category", "coords", "brand", "model", "version",
     "condition", "kilometers", "year", "fuel_type", "transmission_type", "body_type", "power",
     "consumption", "air_conditioning", "color", "number_of_seats", "number_of_doors", "interior",
     "payment_option", "extra_features", "is_featured", "is_sponsored", "is_listed", "on_sale",
     "number_of_views", "user_id"}

  lemma ListingTypeNotPicked()
    ensures "listing_type" !in ListingBodyKeys
  {
  }

  const TrimmedKeys: set<string> := {"name", "price", "description", "brand", "model", "version", "year", "color"}
  const BoolFields: seq<string> := ["is_featured", "is_sponsored", "is_listed", "on_sale"]
  const NumFields: seq<string> := ["kilometers", "power", "consumption", "number_of_seats", "number_of_doors", "number_of_views"]

  /** `data.coords.map((x) => Number(x))`. */
  function NumbersOf(items: seq<Json>): (r: seq<Json>)
    ensures |r| == |items|
    ensures forall i :: 0 <= i < |r| ==> r[i] == NumberValue(items[i])
  {
    seq(|items|, i requires 0 <= i < |items| => NumberValue(items[i]))
  }

  /** The first pass: trim the eight text fields, convert the coords. */
  function TrimStep(k: string, v: Json): Json {
    if k in TrimmedKeys && v.JStr? then JStr(Trim(v.s))
    else if k == "coords" && v.JArr? then JArr(NumbersOf(v.items))
    else v
  }

  /** The boolean pass: a flag that `parseBool` reads is replaced by the boolean. */
  function BoolStep(k: string, v: Json): Json {
    if k in BoolFields && ParseBool(Some(v)).Some? then JBool(ParseBool(Some(v)).value) else v
  }

  /** The number pass: a numeric field that `parseNumber` reads is replaced by the number. */
  function NumStep(k: string, v: Json): Json {
    if k in NumFields && ParseNumber(Some(v)).Some? then JNum(ParseNumber(Some(v)).value) else v
  }

  /** What `pickListingBody` makes of the field `k` with value `v`. */
  function NormaliseField(k: string, v: Json): Json {
    NumStep(k, BoolStep(k, TrimStep(k, v)))
  }

  /** What `pickListingBody` returns, field by field (a missing field stays `undefined`). */
  function NormalisedBody(body: Object): (data: Object)
    ensures forall k :: k in data <==> k in ListingBodyKeys && k in body
    ensures "listing_type" !in data
  {
    ListingTypeNotPicked();
    map k | k in ListingBodyKeys && k in body :: NormaliseField(k, body[k])
  }

  /** `if (typeof data.k === "string") data.k = data.k.trim();` */
  function TrimmedField(data: Object, k: string): (r: Object)
    ensures r.Keys == data.Keys
    ensures forall j :: j in r && j != k ==> r[j] == data[j]
    ensures k in data ==> r[k] == (if data[k].JStr? then JStr(Trim(data[k].s)) else data[k])
  {
    if k in data && data[k].JStr? then data[k := JStr(Trim(data[k].s))] else data
  }

  /** `data` is `picked` with the string fields named in `done` trimmed. */
  predicate TrimmedIn(data: Object, picked: Object, done: set<string>) {
    && data.Keys == picked.Keys
    && forall k :: k in data ==>
         data[k] == if k in done && picked[k].JStr? then JStr(Trim(picked[k].s)) else picked[k]
  }

  /** One trimming statement extends the trimmed fields by its own. */
  lemma TrimmedFieldStep(data: Object, picked: Object, done: set<string>, k: string)
    requires TrimmedIn(data, picked, done) && k !in done
    ensures TrimmedIn(TrimmedField(data, k), picked, done + {k})
  {
  }

  /** The eight trimming statements. */
  method TrimTextFields(picked: Object) returns (data: Object)
    ensures TrimmedIn(data, picked, TrimmedKeys)
  {
    data := picked;
    TrimmedFieldStep(data, picked, {}, "name");
    data := TrimmedField(data, "name");
    TrimmedFieldStep(data, picked, {"name"}, "price");
    data := TrimmedField(data, "price");
    TrimmedFieldStep(data, picked, {"name", "price"}, "description");
    data := TrimmedField(data, "description");
    TrimmedFieldStep(data, picked, {"name", "price", "description"}, "brand");
    data := TrimmedField(data, "brand");
    TrimmedFieldStep(data, picked, {"name", "price", "description", "brand"}, "model");
    data := TrimmedField(data, "model");
    TrimmedFieldStep(data, picked, {"name", "price", "description", "brand", "model"}, "version");
    data := TrimmedField(data, "version");
    TrimmedFieldStep(data, picked, {"name", "price", "description", "brand", "model", "version"}, "year");
    data := TrimmedField(data, "year");
    TrimmedFieldStep(data, picked, {"name", "price", "description", "brand", "model", "version", "year"}, "color");
    data := TrimmedField(data, "color");
    assert {"name", "price", "description", "brand", "model", "version", "year"} + {"color"} == TrimmedKeys;
  }

  /** `if (Array.isArray(data.coords)) data.coords = data.coords.map((x) => Number(x));` */
  method ConvertCoords(trimmed: Object, picked: Object) returns (data: Object)
    requires TrimmedIn(trimmed, picked, TrimmedKeys)
    ensures data.Keys == picked.Keys
    ensures forall k :: k in data ==> data[k] == TrimStep(k, picked[k])
  {
    data := trimmed;
    if "coords" in data && data["coords"].JArr? {
      data := data["coords" := JArr(NumbersOf(data["coords"].items))];
    }
  }

  /** `for (const f of boolFields) { const b = parseBool(data[f]); if (b !== undefined) data[f] = b; }` */
  method ParseFlags(before: Object) returns (data: Object)
    ensures data.Keys == before.Keys
    ensures forall k :: k in data ==> data[k] == BoolStep(k, before[k])
  {
    data := before;
    for i := 0 to |BoolFields|
      invariant data.Keys == before.Keys
      invariant forall k :: k in data ==> data[k] == if k in BoolFields[..i] then BoolStep(k, before[k]) else before[k]
    {
      var f := BoolFields[i];
      var b := ParseBool(Get(data, f));
      if b.Some? {
        data := data[f := JBool(b.value)];
      }
      assert BoolFields[..i + 1] == BoolFields[..i] + [f];
    }
    assert BoolFields[..|BoolFields|] == BoolFields;
  }

  /** `for (const f of numFields) { const n = parseNumber(data[f]); if (n !== undefined) data[f] = n; }` */
  method ParseNumbers(before: Object) returns (data: Object)
    ensures data.Keys == before.Keys
    ensures forall k :: k in data ==> data[k] == NumStep(k, before[k])
  {
    data := before;
    for i := 0 to |NumFields|
      invariant data.Keys == before.Keys
      invariant forall k :: k in data ==> data[k] == if k in NumFields[..i] then NumStep(k, before[k]) else before[k]
    {
      var f := NumFields[i];
      var n := ParseNumber(Get(data, f));
      if n.Some? {
        data := data[f := JNum(n.value)];
      }
      assert NumFields[..i + 1] == NumFields[..i] + [f];
    }
    assert NumFields[..|NumFields|] == NumFields;
  }

  /** `pickListingBody`: copy the listing keys, trim, then coerce the flags and the numbers. */
  method PickListingBody(body: Object) returns (data: Object)
    ensures data == NormalisedBody(body)
  {
    var picked := ListingFields(body);
    var trimmed := TrimTextFields(picked);
    var converted := ConvertCoords(trimmed, picked);
    var flagged := ParseFlags(converted);
    data := ParseNumbers(flagged);
    NormalisedFromSteps(body, converted, flagged, data);
  }

  /** The three passes, applied one after the other to the picked fields, give `NormalisedBody`. */
  lemma NormalisedFromSteps(body: Object, converted: Object, flagged: Object, data: Object)
    requires converted.Keys == ListingFields(body).Keys
    requires forall k :: k in converted ==> converted[k] == TrimStep(k, ListingFields(body)[k])
    requires flagged.Keys == converted.Keys && forall k :: k in flagged ==> flagged[k] == BoolStep(k, converted[k])
    requires data.Keys == flagged.Keys && forall k :: k in data ==> data[k] == NumStep(k, flagged[k])
    ensures data == NormalisedBody(body)
  {
    var fields := ListingFields(body);
    forall k | k in data ensures data[k] == NormaliseField(k, fields[k]) {
    }
    NormalisedPicked(body);
    SameEntries(data, NormalisedBody(body));
  }

  /** Two objects with the same keys and the same value at each key are equal. */
  lemma SameEntries(a: Object, b: Object)
    requires a.Keys == b.Keys && forall k :: k in a ==> a[k] == b[k]
    ensures a == b
  {
  }

  /** The listing keys the body defines, with their values: the object literal of `pickListingBody`. */
  function ListingFields(body: Object): Object {
    map k | k in ListingBodyKeys && k in body :: body[k]
  }

  /** `NormalisedBody` normalises the picked fields one by one. */
  lemma NormalisedPicked(body: Object)
    ensures NormalisedBody(body).Keys == ListingFields(body).Keys
    ensures forall k :: k in ListingFields(body) ==> NormalisedBody(body)[k] == NormaliseField(k, ListingFields(body)[k])
  {
  }

  /** Normalising twice changes nothing more. */
  lemma NormaliseFieldIdempotent(k: string, v: Json)
    ensures NormaliseField(k, NormaliseField(k, v)) == NormaliseField(k, v)
  {
    if k in BoolFields {
      assert k !in TrimmedKeys && k != "coords" && k !in NumFields;
      assert NormaliseField(k, v) == BoolStep(k, v);
    } else if k in NumFields {
      assert k !in TrimmedKeys && k != "coords";
      assert NormaliseField(k, v) == NumStep(k, v);
    } else if k in TrimmedKeys {
      assert NormaliseField(k, v) == TrimStep(k, v);
      if v.JStr? {
        TrimIdempotent(v.s);
      }
    } else if k == "coords" && v.JArr? {
      var w := NumbersOf(v.items);
      assert forall i :: 0 <= i < |w| ==> NumberValue(w[i]) == w[i];
      assert NumbersOf(w) == w;
    }
  }

  lemma NormalisedBodyIdempotent(body: Object)
    ensures NormalisedBody(NormalisedBody(body)) == NormalisedBody(body)
  {
    var d := NormalisedBody(body);
    forall k | k in d ensures NormaliseField(k, d[k]) == d[k] {
      NormaliseFieldIdempotent(k, body[k]);
    }
  }

  // ---- createVehicleListing ----

  /** `!x || !isValidObjectId(String(x))`, negated: a truthy value whose string form is an id. */
  predicate IdField(v: Option<Json>, isId: Json -> bool) {
    Truthy(v) && isId(JStr(JsString(v.value)))
  }

  /** The coords check: an array of exactly two finite numbers. */
  predicate CoordsPair(v: Option<Json>) {
    v.Some? && v.value.JArr? && |v.value.items| == 2
    && IsFiniteNumber(v.value.items[0]) && IsFiniteNumber(v.value.items[1])
  }

  predicate IsArray(v: Option<Json>) {
    v.Some? && v.value.JArr?
  }

  /** The checks `createVehicleListing` makes before storage, in its order. */
  function CreateCheck(data: Object, isId: Json -> bool): (r: Step<Object>)
    ensures r.Proceed? <==>
      Truthy(Get(data, "name")) && IsArray(Get(data, "images")) && Truthy(Get(data, "price"))
      && Truthy(Get(data, "description")) && IdField(Get(data, "category"), isId)
      && CoordsPair(Get(data, "coords")) && IdField(Get(data, "user_id"), isId)
    ensures r.Proceed? ==> r.call == data
    ensures r.Reject? ==> r.status == 400
    ensures r.Reject? && !Truthy(Get(data, "name")) ==> r.message == "name is required"
  {
    if !Truthy(Get(data, "name")) then Reject(400, "name is required")
    else if !IsArray(Get(data, "images")) then Reject(400, "images must be an array")
    else if !Truthy(Get(data, "price")) then Reject(400, "price is required")
    else if !Truthy(Get(data, "description")) then Reject(400, "description is required")
    else if !IdField(Get(data, "category"), isId) then Reject(400, "category is invalid")
    else if !CoordsPair(Get(data, "coords")) then Reject(400, "coords must be [lat,lng] numbers")
    else if !IdField(Get(data, "user_id"), isId) then Reject(400, "user_id is invalid")
    else Proceed(data)
  }

  /**
   * `createVehicleListing`: 400 with the first failed check's message, else
   * the schema decides between 400 "Validation error" and 201 with the
   * stored document, which is the normalised body with the defaults.
   */
  method CreateVehicleListing(body: Object, isId: Json -> bool) returns (status: nat, message: string, stored: Option<Object>)
    ensures status == 201 || status == 400
    ensures status == 201 <==> stored.Some?
    ensures CreateCheck(NormalisedBody(body), isId).Reject? ==>
      status == 400 && message == CreateCheck(NormalisedBody(body), isId).message
    ensures stored.Some? <==>
      CreateCheck(NormalisedBody(body), isId).Proceed? && Schema.Valid(Schema.WithDefaults(NormalisedBody(body)), isId)
    ensures stored.Some? ==> stored.value == Schema.WithDefaults(NormalisedBody(body)) && Schema.IsVehicle(stored.value)
  {
    var data := PickListingBody(body);
    var check := CreateCheck(data, isId);
    if check.Reject? {
      return check.status, check.message, None;
    }
    var doc := Schema.WithDefaults(data);
    Schema.DefaultsApplied(data);
    if !Schema.Valid(doc, isId) {
      return 400, "Validation error", None;
    }
    return 201, "", Some(doc);
  }

  /** A name that is blank once trimmed is refused, whatever else the body holds. */
  lemma BlankNameRefused(body: Object, s: string, isId: Json -> bool)
    requires "name" in body && body["name"] == JStr(s) && Trim(s) == ""
    ensures CreateCheck(NormalisedBody(body), isId) == Reject(400, "name is required")
  {
  }

  /**
   * A listing that is stored is a vehicle with every vehicle field set, its
   * coords are two finite numbers, and its category and owner are ids.
   */
  lemma StoredListing(body: Object, isId: Json -> bool)
    requires CreateCheck(NormalisedBody(body), isId).Proceed?
    requires Schema.Valid(Schema.WithDefaults(NormalisedBody(body)), isId)
    ensures var doc := Schema.WithDefaults(NormalisedBody(body));
      Schema.IsVehicle(doc) && CoordsPair(Get(doc, "coords"))
      && forall f :: f in Schema.VehicleRequired ==> f in doc && doc[f] != JNull
  {
    var data := NormalisedBody(body);
    var doc := Schema.WithDefaults(data);
    Schema.DefaultsApplied(data);
    assert Schema.IsVehicle(doc);
    assert "coords" in data;
  }

  // ---- updateVehicleListing ----

  /** The checks `updateVehicleListing` makes on the normalised body, in its order. */
  function UpdateCheck(data: Object, isId: Json -> bool): (r: Step<Object>)
    ensures r.Proceed? <==>
      (Truthy(Get(data, "category")) ==> IdField(Get(data, "category"), isId))
      && (Truthy(Get(data, "user_id")) ==> IdField(Get(data, "user_id"), isId))
      && ("coords" in data ==> CoordsPair(Get(data, "coords")))
    ensures r.Proceed? ==> r.call == data
    ensures r.Reject? ==> r.status == 400
  {
    if Truthy(Get(data, "category")) && !IdField(Get(data, "category"), isId) then Reject(400, "category is invalid")
    else if Truthy(Get(data, "user_id")) && !IdField(Get(data, "user_id"), isId) then Reject(400, "user_id is invalid")
    else if "coords" in data && !CoordsPair(Get(data, "coords")) then Reject(400, "coords must be [lat,lng] numbers")
    else Proceed(data)
  }

  /**
   * `updateVehicleListing` up to the storage call: the id check first, then
   * the body checks; on success the update sent for `id` is the normalised
   * body, which never names `listing_type`.
   */
  method UpdateVehicleListing(id: string, body: Object, isId: Json -> bool) returns (r: Step<(string, Object)>)
    ensures !isId(JStr(id)) ==> r == Reject(400, "Invalid id")
    ensures isId(JStr(id)) && UpdateCheck(NormalisedBody(body), isId).Reject? ==>
      r == Reject(400, UpdateCheck(NormalisedBody(body), isId).message)
    ensures r.Proceed? <==> isId(JStr(id)) && UpdateCheck(NormalisedBody(body), isId).Proceed?
    ensures r.Proceed? ==> r.call == (id, NormalisedBody(body)) && "listing_type" !in r.call.1
  {
    var idCheck := RequireValidId(id, isId);
    if idCheck.Reject? {
      return Reject(idCheck.status, idCheck.message);
    }
    var data := PickListingBody(body);
    var check := UpdateCheck(data, isId);
    if check.Reject? {
      return Reject(check.status, check.message);
    }
    return Proceed((id, data));
  }

  // ---- getVehicleListings ----

  /** The fields the text search looks at. */
  const SearchFields: seq<string> := ["name", "description", "brand", "model", "color"]

  /** `String(req.query?.k ?? "").trim()`. */
  function TrimmedParam(query: Query, k: string): string {
    Trim(ParamOr(query, k, ""))
  }

  /** An id parameter that is given (non-empty after trimming) but is not an id. */
  predicate BadId(t: string, isId: Json -> bool) {
    t != "" && !isId(JStr(t))
  }

  /** The filter document of `getVehicleListings`, one entry per key it may set (`None`: key absent). */
  datatype VehicleFilter = VehicleFilter(
    search: Option<Cond>, category: Option<Cond>, userId: Option<Cond>,
    isFeatured: Option<Cond>, isSponsored: Option<Cond>, isListed: Option<Cond>, onSale: Option<Cond>,
    condition: Option<Cond>, brand: Option<Cond>, model: Option<Cond>, fuelType: Option<Cond>,
    transmissionType: Option<Cond>, bodyType: Option<Cond>, paymentOption: Option<Cond>,
    year: Option<Cond>, kilometers: Option<Cond>)

  /** `if (x) filter.k = x`: the key is there exactly when `x` is not empty, and holds `x`. */
  predicate EqKey(c: Option<Cond>, x: string) {
    (c.Some? <==> x != "") && (c.Some? ==> c.value == Eq(VStr(x)))
  }

  /** `if (b !== undefined) filter.k = b`. */
  predicate BoolKey(c: Option<Cond>, b: Option<bool>) {
    (c.Some? <==> b.Some?) && (c.Some? ==> c.value == Eq(VBool(b.value)))
  }

  /** `if (x) filter.k = { $regex: `^${escapeRegex(x)}$`, $options: "i" }`. */
  predicate AnchoredKey(c: Option<Cond>, x: string) {
    (c.Some? <==> x != "") && (c.Some? ==> c.value == CaseInsensitiveRegex(Escape(x), true))
  }

  /** A range key: there exactly when one of its bounds is, with those bounds. */
  predicate RangeKey(c: Option<Cond>, lo: Option<Value>, hi: Option<Value>) {
    (c.Some? <==> lo.Some? || hi.Some?) && (c.Some? ==> c.value == Range(lo, hi))
  }

  /** A year bound is stored as the number's decimal string. */
  function YearBound(n: Option<int>): Option<Value> {
    if n.Some? then Some(VStr(IntToString(n.value))) else None
  }

  /** `if (brand) filter.brand = …`, the anchored, escaped pattern. */
  function AnchoredText(x: string): Option<Cond> {
    if x != "" then Some(CaseInsensitiveRegex(Escape(x), true)) else None
  }

  /** `if (q) filter.$or = [{ name: r }, …]` with the escaped, unanchored `r`. */
  function TextSearch(q: string): Option<Cond> {
    if q != "" then Some(SearchOver(SearchFields, CaseInsensitiveRegex(Escape(q), false))) else None
  }

  /** The query `getVehicleListings` sends to storage for the request `query`. */
  predicate VehicleQuery(query: Query, lq: ListQuery<VehicleFilter>) {
    var f := lq.filter;
    var q := TrimmedParam(query, "q");
    && lq.page == PageOf(Param(query, "page"))
    && lq.limit == LimitOf(Param(query, "limit"))
    && lq.skip == SkipOf(lq.page, lq.limit)
    && lq.sort == Sort(ParamOr(query, "sortBy", "createdAt"), SortDirection(ParamOr(query, "sortDir", "desc")))
    && (f.search.Some? <==> q != "")
    && (f.search.Some? ==> f.search.value == SearchOver(SearchFields, CaseInsensitiveRegex(Escape(q), false)))
    && EqKey(f.category, TrimmedParam(query, "category"))
    && EqKey(f.userId, TrimmedParam(query, "user_id"))
    && BoolKey(f.isFeatured, ParseBool(QueryValue(query, "is_featured")))
    && BoolKey(f.isSponsored, ParseBool(QueryValue(query, "is_sponsored")))
    && BoolKey(f.isListed, ParseBool(QueryValue(query, "is_listed")))
    && BoolKey(f.onSale, ParseBool(QueryValue(query, "on_sale")))
    && EqKey(f.condition, TrimmedParam(query, "condition"))
    && AnchoredKey(f.brand, TrimmedParam(query, "brand"))
    && AnchoredKey(f.model, TrimmedParam(query, "model"))
    && EqKey(f.fuelType, TrimmedParam(query, "fuel_type"))
    && EqKey(f.transmissionType, TrimmedParam(query, "transmission_type"))
    && EqKey(f.bodyType, TrimmedParam(query, "body_type"))
    && EqKey(f.paymentOption, TrimmedParam(query, "payment_option"))
    && RangeKey(f.year, YearBound(ParseNumber(QueryValue(query, "year_min"))),
                        YearBound(ParseNumber(QueryValue(query, "year_max"))))
    && RangeKey(f.kilometers, NumBound(ParseNumber(QueryValue(query, "km_min"))),
                              NumBound(ParseNumber(QueryValue(query, "km_max"))))
  }

  /**
   * `getVehicleListings` up to the storage calls: 400 for a given category
   * or user id that is not an id (the category is checked first), else the
   * query described by `VehicleQuery`.
   */
  method GetVehicleListings(query: Query, isId: Json -> bool) returns (r: Step<ListQuery<VehicleFilter>>)
    ensures r.Reject? <==> BadId(TrimmedParam(query, "category"), isId) || BadId(TrimmedParam(query, "user_id"), isId)
    ensures r.Reject? ==> r.status == 400
    ensures r.Reject? ==>
      (r.message == if BadId(TrimmedParam(query, "category"), isId) then "Invalid category id" else "Invalid user_id")
    ensures r.Proceed? ==> VehicleQuery(query, r.call)
  {
    var page := PageOf(Param(query, "page"));
    var limit := LimitOf(Param(query, "limit"));
    var skip := SkipOf(page, limit);

    var q := TrimmedParam(query, "q");
    var category := TrimmedParam(query, "category");
    var userId := TrimmedParam(query, "user_id");

    var isFeatured := ParseBool(QueryValue(query, "is_featured"));
    var isSponsored := ParseBool(QueryValue(query, "is_sponsored"));
    var isListed := ParseBool(QueryValue(query, "is_listed"));
    var onSale := ParseBool(QueryValue(query, "on_sale"));

    var condition := TrimmedParam(query, "condition");
    var brand := TrimmedParam(query, "brand");
    var model := TrimmedParam(query, "model");
    var fuelType := TrimmedParam(query, "fuel_type");
    var transmissionType := TrimmedParam(query, "transmission_type");
    var bodyType := TrimmedParam(query, "body_type");
    var paymentOption := TrimmedParam(query, "payment_option");

    var yearMin := ParseNumber(QueryValue(query, "year_min"));
    var yearMax := ParseNumber(QueryValue(query, "year_max"));
    var kmMin := ParseNumber(QueryValue(query, "km_min"));
    var kmMax := ParseNumber(QueryValue(query, "km_max"));

    if category != "" && !isId(JStr(category)) {
      return Reject(400, "Invalid category id");
    }
    if userId != "" && !isId(JStr(userId)) {
      return Reject(400, "Invalid user_id");
    }

    var filter := VehicleFilter(
      TextSearch(q), TextEq(category), TextEq(userId),
      FlagEq(isFeatured), FlagEq(isSponsored), FlagEq(isListed), FlagEq(onSale),
      TextEq(condition), AnchoredText(brand), AnchoredText(model), TextEq(fuelType),
      TextEq(transmissionType), TextEq(bodyType), TextEq(paymentOption),
      RangeOf(YearBound(yearMin), YearBound(yearMax)), RangeOf(NumBound(kmMin), NumBound(kmMax)));

    var sortBy := ParamOr(query, "sortBy", "createdAt");
    var sortDir := SortDirection(ParamOr(query, "sortDir", "desc"));

    return Proceed(ListQuery(filter, Sort(sortBy, sortDir), page, limit, skip));
  }

  /**
   * The text search of a vehicle query holds on a listing exactly when its
   * name, description, brand, model or color contains the trimmed `q`
   * ignoring case; metacharacters in `q` are matched as themselves.
   */
  lemma VehicleSearchMeaning(query: Query, lq: ListQuery<VehicleFilter>, doc: Doc)
    requires VehicleQuery(query, lq) && lq.filter.search.Some?
    ensures Holds("$or", lq.filter.search.value, doc)
         == Some(exists i :: 0 <= i < |SearchFields| && SearchFields[i] in doc && doc[SearchFields[i]].VStr?
                              && ContainsIgnoreCase(doc[SearchFields[i]].s, TrimmedParam(query, "q")))
  {
    SearchOverEscaped(SearchFields, TrimmedParam(query, "q"), doc);
  }

  /** The brand filter holds exactly on the listings whose brand equals the trimmed parameter ignoring case. */
  lemma VehicleBrandMeaning(query: Query, lq: ListQuery<VehicleFilter>, doc: Doc)
    requires VehicleQuery(query, lq) && lq.filter.brand.Some?
    ensures FieldHolds(lq.filter.brand.value, Field(doc, "brand"))
         == Some("brand" in doc && doc["brand"].VStr? && EqualsIgnoreCase(doc["brand"].s, TrimmedParam(query, "brand")))
  {
    AnchoredEscaped(TrimmedParam(query, "brand"), Field(doc, "brand"));
  }

  /**
   * A kilometre key holds exactly on the listings whose kilometres are a
   * number within the bounds that parsed.
   */
  lemma KilometresMeaning(c: Option<Cond>, lo: Option<int>, hi: Option<int>, doc: Doc)
    requires RangeKey(c, NumBound(lo), NumBound(hi)) && c.Some?
    ensures FieldHolds(c.value, Field(doc, "kilometers"))
         == Some("kilometers" in doc && doc["kilometers"].VNum?
                 && (lo.None? || lo.value <= doc["kilometers"].n) && (hi.None? || doc["kilometers"].n <= hi.value))
  {
  }

  /** Capitals do not matter: `"YES"` is true. */
  lemma ParseBoolCapitalYes()
    ensures ParseBool(Some(JStr("YES"))) == Some(true)
  {
    assert Lower("YES") == "yes";
    TrimLowerOfPlain("yes");
    assert ReadWord("yes") == Some(true);
  }

  /** Capitals do not matter: `"FALSE"` is false. */
  lemma ParseBoolCapitalFalse()
    ensures ParseBool(Some(JStr("FALSE"))) == Some(false)
  {
    assert Lower("FALSE") == "false";
    TrimLowerOfPlain("false");
    assert ReadWord("false") == Some(false);
  }

  /** A word outside the two lists is not read: `"2"` gives `None`. */
  lemma ParseBoolOtherWord()
    ensures ParseBool(Some(JStr("2"))) == None
  {
    TrimLowerOfPlain("2");
    assert ReadWord("2") == None;
  }

  /**
   * Year bounds compare as text: a lower bound of 1000 admits the year
   * "999", and a year stored as a number never meets a string bound.
   */
  lemma YearBoundsAreText()
    ensures FieldHolds(Range(YearBound(Some(1000)), None), Some(VStr("999"))) == Some(true)
    ensures FieldHolds(Range(YearBound(Some(2010)), None), Some(VNum(2015))) == Some(false)
  {
    assert IntToString(1000) == "1000" by {
      assert NatToString(1000) == NatToString(100) + [DigitChar(0)];
    }
  }
}
