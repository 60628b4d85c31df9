/**
 * The property-listing controller: the create and update whitelists, the id
 * guards, and the translation of a list query into a filter, a sort, a page
 * window and the response envelope.
 */
module PropertyListings {
  import opened Wrappers
  import opened Strings
  import opened JsonValues
  import opened Http
  import opened Patterns
  import opened Filters
  import opened Pagination
  import opened Objects
  import Schema = PropertyListingSchema

  // ---- createPropertyListing / updatePropertyListing ----

  /** The keys `createPropertyListing` picks from the body, as written: `space` is missing. */
  const CreateKeys: seq<string> :=
    ["name", "images", "three_sixty", "price", "description", "category", "coords", "bedrooms",
     "bathrooms", "extra_features", "is_featured", "is_sponsored", "is_listed", "on_sale", "is_rent",
     "number_of_views", "agent_type", "rental_payment", "user_id"]

  /** The create whitelist with the schema's `space` path added: every path of the schema. */
  const CorrectedCreateKeys: seq<string> := CreateKeys + ["space"]

  /** The keys `updatePropertyListing` picks: neither `number_of_views` nor `space`. */
  const UpdateKeys: seq<string> :=
    ["name", "images", "three_sixty", "price", "description", "category", "coords", "bedrooms",
     "bathrooms", "extra_features", "is_featured", "is_sponsored", "is_listed", "on_sale", "is_rent",
     "agent_type", "rental_payment", "user_id"]

  /** The document `PropertyListing.create` validates for a body picked with `keys`. */
  function CreatedFrom(body: Object, keys: seq<string>): Object {
    Schema.WithDefaults(Picked(body, keys))
  }

  /**
   * `createPropertyListing` with the whitelist `keys`: pick, apply the
   * defaults, validate; 201 with the stored document when the schema
   * accepts it, 400 otherwise. The handler as written uses `CreateKeys`.
   */
  method CreatePropertyListing(body: Object, keys: seq<string>, isId: Json -> bool)
    returns (status: nat, stored: Option<Object>)
    ensures status == 201 || status == 400
    ensures status == 201 <==> stored.Some?
    ensures stored.Some? <==> Schema.Valid(CreatedFrom(body, keys), isId)
    ensures stored.Some? ==> stored.value == CreatedFrom(body, keys)
  {
    var payload := Pick(body, keys);
    var doc := Schema.WithDefaults(payload);
    if !Schema.Valid(doc, isId) {
      return 400, None;
    }
    return 201, Some(doc);
  }

  /** As written, no body passes validation: `space` is never picked and has no default. */
  lemma CreateAsWrittenNeverValid(body: Object, isId: Json -> bool)
    ensures "space" !in Picked(body, CreateKeys)
    ensures !Schema.Valid(CreatedFrom(body, CreateKeys), isId)
  {
    assert "space" !in CreateKeys;
    Schema.SpaceRequired(Picked(body, CreateKeys), isId);
  }

  /** The paths the schema declares. */
  const SchemaPaths: set<string> :=
    {"name", "images", "three_sixty", "price", "description", "category", "coords", "bedrooms",
     "bathrooms", "space", "extra_features", "is_featured", "is_sponsored", "is_listed", "on_sale",
     "is_rent", "number_of_views", "agent_type", "rental_payment", "user_id"}

  /**
   * With the corrected whitelist, a body whose properties are all schema
   * paths and which passes the schema is stored as it is, with its defaults.
   */
  lemma CorrectedCreateKeepsValidBodies(body: Object, isId: Json -> bool)
    requires body.Keys <= SchemaPaths
    requires Schema.Valid(Schema.WithDefaults(body), isId)
    ensures Picked(body, CorrectedCreateKeys) == body
    ensures Schema.Valid(CreatedFrom(body, CorrectedCreateKeys), isId)
  {
    forall k | k in body ensures k in CorrectedCreateKeys {
      assert k in SchemaPaths;
    }
    PickedSubsumes(body, CorrectedCreateKeys);
  }

  /**
   * `updatePropertyListing` up to the storage call: 400 "Invalid id" first,
   * then the patch, which holds the body's whitelisted properties and so
   * never sets the view counter or the space.
   */
  method UpdatePropertyListing(id: string, body: Object, isId: Json -> bool) returns (r: Step<(string, Object)>)
    ensures r.Reject? <==> !isId(JStr(id))
    ensures r.Reject? ==> r.status == 400 && r.message == "Invalid id"
    ensures r.Proceed? ==> r.call == (id, Picked(body, UpdateKeys))
    ensures r.Proceed? ==> "number_of_views" !in r.call.1 && "space" !in r.call.1
  {
    var idCheck := RequireValidId(id, isId);
    if idCheck.Reject? {
      return Reject(idCheck.status, idCheck.message);
    }
    var patch := Pick(body, UpdateKeys);
    assert "number_of_views" !in UpdateKeys && "space" !in UpdateKeys;
    return Proceed((id, patch));
  }

  /** A patch keeps every whitelisted property of the body and nothing else. */
  lemma UpdatePatchContents(body: Object, k: string)
    ensures k in Picked(body, UpdateKeys) <==> k in body && k in UpdateKeys
    ensures k in Picked(body, UpdateKeys) ==> Picked(body, UpdateKeys)[k] == body[k]
    ensures k in UpdateKeys <==> k in SchemaPaths && k != "number_of_views" && k != "space"
  {
  }

  // ---- getPropertyListings ----

  /** The fields the text search looks at. */
  const SearchFields: seq<string> := ["name", "description"]

  /** The sort fields a request may choose. */
  const SortFields: set<string> := {"createdAt", "updatedAt", "number_of_views", "bedrooms", "bathrooms"}

  /** The agent types the filter accepts. */
  const AgentTypes: seq<string> := ["owner", "middleman"]

  /** The filter document of `getPropertyListings`, one entry per key it may set (`None`: key absent). */
  datatype PropertyFilter = PropertyFilter(
    search: Option<Cond>, category: Option<Cond>, userId: Option<Cond>,
    isFeatured: Option<Cond>, isSponsored: Option<Cond>, isListed: Option<Cond>, onSale: Option<Cond>,
    isRent: Option<Cond>, agentType: Option<Cond>, bedrooms: Option<Cond>, bathrooms: Option<Cond>)

  /** `if (q && String(q).trim())`: the unescaped, trimmed `q` over name and description. */
  function RawSearch(raw: Option<string>): (c: Option<Cond>)
    ensures c.Some? <==> raw.Some? && Trim(raw.value) != ""
    ensures c.Some? ==> c.value == SearchOver(SearchFields, CaseInsensitiveRegex(Trim(raw.value), false))
  {
    if raw.Some? && Trim(raw.value) != "" then Some(SearchOver(SearchFields, CaseInsensitiveRegex(Trim(raw.value), false)))
    else None
  }

  /** `if (x && isValidObjectId(x)) filter.k = x`: the untrimmed value, only when it is an id. */
  function ValidIdEq(raw: Option<string>, isId: Json -> bool): (c: Option<Cond>)
    ensures IdKey(c, raw, isId)
  {
    if raw.Some? && raw.value != "" && isId(JStr(raw.value)) then Some(Eq(VStr(raw.value))) else None
  }

  /** `if (x !== undefined) filter.k = String(x) === "true"`. */
  function ExactFlag(raw: Option<string>): (c: Option<Cond>)
    ensures FlagKey(c, raw)
  {
    if raw.Some? then Some(Eq(VBool(raw.value == "true"))) else None
  }

  /** `if (agent_type && ["owner", "middleman"].includes(String(agent_type)))`. */
  function AgentTypeEq(raw: Option<string>): (c: Option<Cond>)
    ensures c.Some? <==> raw.Some? && raw.value in {"owner", "middleman"}
    ensures c.Some? ==> c.value == Eq(VStr(raw.value))
  {
    if raw.Some? && raw.value in AgentTypes then Some(Eq(VStr(raw.value))) else None
  }

  /** `x !== undefined ? Number(x) : null`, kept when it is not `NaN` (`None`: no bound). */
  function BoundOf(raw: Option<string>): Option<int> {
    if raw.Some? then NumberOf(raw.value) else None
  }

  /** `allowedSort.has(String(sortBy)) ? String(sortBy) : "createdAt"`. */
  function SortField(raw: string): (f: string)
    ensures f in SortFields
    ensures f == raw <==> raw in SortFields
    ensures raw !in SortFields ==> f == "createdAt"
  {
    if raw in SortFields then raw else "createdAt"
  }

  /** The query `getPropertyListings` sends to storage for the request `query`. */
  predicate PropertyQuery(query: Query, isId: Json -> bool, lq: ListQuery<PropertyFilter>) {
    var f := lq.filter;
    && lq.page == PageOf(Param(query, "page"))
    && lq.limit == LimitOf(Param(query, "limit"))
    && lq.skip == SkipOf(lq.page, lq.limit)
    && lq.sort.field in SortFields
    && (ParamOr(query, "sortBy", "createdAt") in SortFields ==> lq.sort.field == ParamOr(query, "sortBy", "createdAt"))
    && (ParamOr(query, "sortBy", "createdAt") !in SortFields ==> lq.sort.field == "createdAt")
    && lq.sort.direction == SortDirection(ParamOr(query, "sortDir", "desc"))
    && (f.search.Some? <==> "q" in query && Trim(query["q"]) != "")
    && (f.search.Some? ==> f.search.value == SearchOver(SearchFields, CaseInsensitiveRegex(Trim(query["q"]), false)))
    && IdKey(f.category, Param(query, "category"), isId)
    && IdKey(f.userId, Param(query, "user_id"), isId)
    && FlagKey(f.isFeatured, Param(query, "is_featured"))
    && FlagKey(f.isSponsored, Param(query, "is_sponsored"))
    && FlagKey(f.isListed, Param(query, "is_listed"))
    && FlagKey(f.onSale, Param(query, "on_sale"))
    && FlagKey(f.isRent, Param(query, "is_rent"))
    && (f.agentType.Some? <==> "agent_type" in query && query["agent_type"] in {"owner", "middleman"})
    && (f.agentType.Some? ==> f.agentType.value == Eq(VStr(query["agent_type"])))
    && NumberRangeKey(f.bedrooms, Param(query, "bedrooms_min"), Param(query, "bedrooms_max"))
    && NumberRangeKey(f.bathrooms, Param(query, "bathrooms_min"), Param(query, "bathrooms_max"))
  }

  /** The two spread-merged bounds of a numeric range. */
  function NumberRange(lo: Option<string>, hi: Option<string>): (c: Option<Cond>)
    ensures NumberRangeKey(c, lo, hi)
  {
    RangeOf(NumBound(BoundOf(lo)), NumBound(BoundOf(hi)))
  }

  /** An id key: there exactly when the raw value is a non-empty id, holding that value. */
  predicate IdKey(c: Option<Cond>, raw: Option<string>, isId: Json -> bool) {
    (c.Some? <==> raw.Some? && raw.value != "" && isId(JStr(raw.value)))
    && (c.Some? ==> c.value == Eq(VStr(raw.value)))
  }

  /** A flag key: there exactly when the parameter is, true exactly for the string "true". */
  predicate FlagKey(c: Option<Cond>, raw: Option<string>) {
    (c.Some? <==> raw.Some?) && (c.Some? ==> (c.value == Eq(VBool(true)) <==> raw.value == "true"))
    && (c.Some? ==> c.value.Eq? && c.value.v.VBool?)
  }

  /** A numeric range key: there exactly when a bound reads as a number, with the bounds that do. */
  predicate NumberRangeKey(c: Option<Cond>, lo: Option<string>, hi: Option<string>) {
    && (c.Some? <==> BoundOf(lo).Some? || BoundOf(hi).Some?)
    && (c.Some? ==> c.value == Range(NumBound(BoundOf(lo)), NumBound(BoundOf(hi))))
  }

  /**
   * `getPropertyListings` up to the storage calls, for a store in which
   * `total` documents match the filter: the query of `PropertyQuery` and the
   * envelope for that total. No parameter is rejected.
   */
  method GetPropertyListings(query: Query, isId: Json -> bool, total: nat)
    returns (lq: ListQuery<PropertyFilter>, envelope: Envelope)
    ensures PropertyQuery(query, isId, lq)
    ensures envelope == Paged(lq.page, lq.limit, total)
  {
    var p := PageOf(Param(query, "page"));
    var l := LimitOf(Param(query, "limit"));
    var skip := SkipOf(p, l);

    var filter := PropertyFilter(
      RawSearch(Param(query, "q")),
      ValidIdEq(Param(query, "category"), isId), ValidIdEq(Param(query, "user_id"), isId),
      ExactFlag(Param(query, "is_featured")), ExactFlag(Param(query, "is_sponsored")),
      ExactFlag(Param(query, "is_listed")), ExactFlag(Param(query, "on_sale")),
      ExactFlag(Param(query, "is_rent")),
      AgentTypeEq(Param(query, "agent_type")),
      NumberRange(Param(query, "bedrooms_min"), Param(query, "bedrooms_max")),
      NumberRange(Param(query, "bathrooms_min"), Param(query, "bathrooms_max")));

    var sortField := SortField(ParamOr(query, "sortBy", "createdAt"));
    var sortOrder := SortDirection(ParamOr(query, "sortDir", "desc"));

    lq := ListQuery(filter, Sort(sortField, sortOrder), p, l, skip);
    envelope := Paged(p, l, total);
  }

  /** Only the exact string "true" selects listings with the flag set: "1", "yes" and "TRUE" select unset ones. */
  lemma FlagWordsAreFalse(c: Option<Cond>, raw: string)
    requires FlagKey(c, Some(raw)) && raw in ["1", "yes", "TRUE", "True", ""]
    ensures c == Some(Eq(VBool(false)))
  {
  }

  /** An id that is not valid is dropped from the filter rather than answered with an error. */
  lemma InvalidIdDropped(query: Query, isId: Json -> bool, lq: ListQuery<PropertyFilter>)
    requires PropertyQuery(query, isId, lq)
    requires "category" in query && !isId(JStr(query["category"]))
    ensures lq.filter.category.None?
  {
  }

  /**
   * A search text without regular-expression metacharacters is matched
   * literally: the search holds exactly when the name or the description
   * contains it, ignoring case.
   */
  lemma PlainSearchMeaning(c: Cond, t: string, doc: Doc)
    requires c == SearchOver(SearchFields, CaseInsensitiveRegex(t, false))
    requires forall i :: 0 <= i < |t| ==> !IsMeta(t[i])
    ensures Holds("$or", c, doc)
         == Some(exists i :: 0 <= i < |SearchFields| && SearchFields[i] in doc && doc[SearchFields[i]].VStr?
                              && ContainsIgnoreCase(doc[SearchFields[i]].s, t))
  {
    EscapePlain(t);
    SearchOverEscaped(SearchFields, t, doc);
  }

  /** A bedrooms range holds exactly on the listings whose bedrooms are a number within the bounds that parsed. */
  lemma BedroomsMeaning(c: Option<Cond>, lo: Option<string>, hi: Option<string>, doc: Doc)
    requires NumberRangeKey(c, lo, hi) && c.Some?
    ensures FieldHolds(c.value, Field(doc, "bedrooms"))
         == Some("bedrooms" in doc && doc["bedrooms"].VNum?
                 && (BoundOf(lo).None? || BoundOf(lo).value <= doc["bedrooms"].n)
                 && (BoundOf(hi).None? || doc["bedrooms"].n <= BoundOf(hi).value))
  {
  }

  /** An empty bound reads as 0, as `Number("")` does, so `bedrooms_min=` asks for at least 0 bedrooms. */
  lemma EmptyBoundIsZero(c: Option<Cond>)
    requires NumberRangeKey(c, Some(""), None)
    ensures c == Some(Range(Some(VNum(0)), None))
  {
    assert NumberOf("") == Some(0);
  }
}
