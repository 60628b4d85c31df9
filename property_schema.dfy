/**
 * The property-listing schema, read as the set of documents `create` and a
 * validated update accept, and the defaults applied before validation.
 */
module PropertyListingSchema {
  import opened JsonValues
  import opened SchemaRules

  const AgentTypes: set<string> := {"owner", "middleman"}
  const RentalPayments: set<string> := {"daily", "monthly", "yearly"}

  const StringPaths: set<string> :=
    {"name", "three_sixty", "price", "description", "agent_type", "rental_payment"}
  const NumberPaths: set<string> := {"bedrooms", "bathrooms", "space", "number_of_views"}
  const BooleanPaths: set<string> := {"is_featured", "is_sponsored", "is_listed", "on_sale", "is_rent"}
  const IdPaths: set<string> := {"category", "user_id"}
  const StringArrayPaths: set<string> := {"images", "extra_features"}

  /** Paths with `required: true`. */
  const AlwaysRequired: set<string> :=
    {"name", "images", "price", "description", "category", "coords", "bedrooms", "bathrooms",
     "space", "extra_features", "is_featured", "is_sponsored", "is_listed", "on_sale", "is_rent",
     "number_of_views", "agent_type", "user_id"}

  /** `this.is_rent === true`, on the document after casting. */
  predicate IsRent(doc: Object) {
    "is_rent" in doc && CastsToTrue(doc["is_rent"])
  }

  /** Every set path casts to its declared type; paths outside the schema are ignored. */
  predicate TypesOk(doc: Object, isId: Json -> bool) {
    && (forall f :: f in StringPaths ==> Typed(doc, f, KString, isId))
    && (forall f :: f in NumberPaths ==> Typed(doc, f, KNumber, isId))
    && (forall f :: f in BooleanPaths ==> Typed(doc, f, KBoolean, isId))
    && (forall f :: f in IdPaths ==> Typed(doc, f, KObjectId, isId))
    && (forall f :: f in StringArrayPaths ==> Typed(doc, f, KStringArray, isId))
    && Typed(doc, "coords", KNumberArray, isId)
  }

  /** The document passes the schema's validation. */
  predicate Valid(doc: Object, isId: Json -> bool) {
    && TypesOk(doc, isId)
    && (forall f :: f in AlwaysRequired ==> Supplied(doc, f))
    && (IsRent(doc) ==> Supplied(doc, "rental_payment"))
    && InEnum(doc, "agent_type", AgentTypes)
    && InEnum(doc, "rental_payment", RentalPayments)
    && PairOfNumbers(doc, "coords")
  }

  /**
   * The declared defaults, plus the empty array Mongoose gives every array
   * path (`coords` included).
   */
  const Defaults: Object :=
    map["images" := JArr([]), "coords" := JArr([]), "extra_features" := JArr([]),
        "number_of_views" := JNum(0), "agent_type" := JStr("owner")]

  function WithDefaults(doc: Object): Object {
    ApplyDefaults(doc, Defaults)
  }

  /** What a document without the path gets: no images or features, 0 views, an owner as agent. */
  lemma DefaultsApplied(doc: Object)
    ensures forall f :: f in doc ==> f in WithDefaults(doc) && WithDefaults(doc)[f] == doc[f]
    ensures "number_of_views" !in doc ==> WithDefaults(doc)["number_of_views"] == JNum(0)
    ensures "agent_type" !in doc ==> WithDefaults(doc)["agent_type"] == JStr("owner")
    ensures "images" !in doc ==> WithDefaults(doc)["images"] == JArr([])
    ensures "extra_features" !in doc ==> WithDefaults(doc)["extra_features"] == JArr([])
    ensures "space" !in doc ==> "space" !in WithDefaults(doc)
  {
  }

  /** Type checks do not depend on a path that is removed. */
  lemma TypesOkRemove(doc: Object, f: string, isId: Json -> bool)
    requires TypesOk(doc, isId)
    ensures TypesOk(doc - {f}, isId)
  {
    forall g | g != f {
      RemoveOther(doc, f, g);
    }
  }

  lemma RentalPaymentIsConditional()
    ensures "rental_payment" !in AlwaysRequired
    ensures "rental_payment" != "is_rent" && "rental_payment" != "agent_type" && "rental_payment" != "coords"
  {
  }

  /** A listing not for rent stays valid without `rental_payment`. */
  lemma RentalPaymentOptional(doc: Object, isId: Json -> bool)
    requires Valid(doc, isId) && !IsRent(doc)
    ensures Valid(doc - {"rental_payment"}, isId)
  {
    var f := "rental_payment";
    var d := doc - {f};
    RentalPaymentIsConditional();
    RemoveOther(doc, f, "is_rent");
    TypesOkRemove(doc, f, isId);
    forall g | g != f ensures Supplied(d, g) == Supplied(doc, g) {
      RemoveOther(doc, f, g);
    }
    assert forall g :: g in AlwaysRequired ==> Supplied(d, g);
    assert !IsRent(d);
    RemoveOther(doc, f, "agent_type");
    assert InEnum(d, "agent_type", AgentTypes);
    assert InEnum(d, f, RentalPayments);
    RemoveOther(doc, f, "coords");
    assert PairOfNumbers(d, "coords");
  }

  /** `rental_payment` can be left out exactly when the listing is not for rent. */
  lemma RentalPaymentRequiredIff(doc: Object, isId: Json -> bool)
    requires Valid(doc, isId)
    ensures Valid(doc - {"rental_payment"}, isId) <==> !IsRent(doc)
  {
    var d := doc - {"rental_payment"};
    RemoveOther(doc, "rental_payment", "is_rent");
    if !IsRent(doc) {
      RentalPaymentOptional(doc, isId);
    } else {
      assert !Supplied(d, "rental_payment");
    }
  }

  /** Every `required: true` path is needed. */
  lemma AlwaysRequiredNeeded(doc: Object, f: string, isId: Json -> bool)
    requires f in AlwaysRequired
    ensures !Valid(doc - {f}, isId)
  {
    assert !Supplied(doc - {f}, f);
  }

  /** `space` has no default, so a document without it never validates. */
  lemma SpaceRequired(doc: Object, isId: Json -> bool)
    requires "space" !in doc
    ensures !Valid(WithDefaults(doc), isId)
  {
    DefaultsApplied(doc);
    assert "space" in AlwaysRequired;
  }

  /** The coords of a valid listing are exactly two numbers. */
  lemma ValidCoords(doc: Object, isId: Json -> bool)
    requires Valid(doc, isId)
    ensures "coords" in doc && doc["coords"].JArr? && |doc["coords"].items| == 2
    ensures HasKind(doc["coords"], KNumberArray, isId)
  {
    assert "coords" in AlwaysRequired;
  }

  /** The enum domains, as seen on a valid listing; a rental names its payment period. */
  lemma ValidEnums(doc: Object, isId: Json -> bool)
    requires Valid(doc, isId)
    ensures doc["agent_type"].JStr? && doc["agent_type"].s in AgentTypes
    ensures IsRent(doc) ==> doc["rental_payment"].JStr? && doc["rental_payment"].s in RentalPayments
  {
    assert "agent_type" in AlwaysRequired;
  }

  /** bedrooms, bathrooms and space are set to numbers (or values that cast to one). */
  lemma ValidRooms(doc: Object, isId: Json -> bool)
    requires Valid(doc, isId)
    ensures forall f :: f in {"bedrooms", "bathrooms", "space"} ==> f in doc && CastsToNumber(doc[f])
  {
    forall f | f in {"bedrooms", "bathrooms", "space"} ensures f in doc && CastsToNumber(doc[f]) {
      assert f in AlwaysRequired && f in NumberPaths;
    }
  }
}
