/**
 * The vehicle-listing schema, read as the set of documents `create` and a
 * validated update accept, and the defaults applied before validation.
 */
module VehicleListingSchema {
  import opened JsonValues
  import opened SchemaRules

  const ListingTypes: set<string> := {"vehicle", "accessory"}
  const Conditions: set<string> := {"new", "used"}
  const FuelTypes: set<string> := {"petrol", "diesel", "electric", "hybrid", "gas"}
  const PaymentOptions: set<string> := {"cash", "installment"}

  const StringPaths: set<string> :=
    {"listing_type", "name", "price", "description", "brand", "model", "version", "condition", "year",
     "fuel_type", "transmission_type", "body_type", "air_conditioning", "color", "interior",
     "accessory_type", "payment_option"}
  const NumberPaths: set<string> :=
    {"kilometers", "power", "consumption", "number_of_seats", "number_of_doors", "warranty_months", "number_of_views"}
  const BooleanPaths: set<string> := {"is_featured", "is_sponsored", "is_listed", "on_sale"}
  const IdPaths: set<string> := {"category", "user_id"}
  const StringArrayPaths: set<string> := {"images", "compatibility", "extra_features"}

  /** Paths with `required: true`. */
  const AlwaysRequired: set<string> :=
    {"listing_type", "name", "images", "price", "description", "category", "coords", "condition",
     "payment_option", "extra_features", "is_featured", "is_sponsored", "is_listed", "on_sale",
     "number_of_views", "user_id"}

  /** Paths whose `required` is `this.listing_type === "vehicle"`. */
  const VehicleRequired: set<string> :=
    {"brand", "model", "kilometers", "year", "fuel_type", "transmission_type", "body_type",
     "air_conditioning", "color", "number_of_seats", "number_of_doors", "interior"}

  predicate IsVehicle(doc: Object) {
    "listing_type" in doc && doc["listing_type"] == JStr("vehicle")
  }

  predicate IsAccessory(doc: Object) {
    "listing_type" in doc && doc["listing_type"] == JStr("accessory")
  }

  /** Every set path casts to its declared type; paths outside the schema are ignored. */
  predicate TypesOk(doc: Object, isId: Json -> bool) {
    && (forall f :: f in StringPaths ==> Typed(doc, f, KString, isId))
    && (forall f :: f in NumberPaths ==> Typed(doc, f, KNumber, isId))
    && (forall f :: f in BooleanPaths ==> Typed(doc, f, KBoolean, isId))
    && (forall f :: f in IdPaths ==> Typed(doc, f, KObjectId, isId))
    && (forall f :: f in StringArrayPaths ==> Typed(doc, f, KStringArray, isId))
    && Typed(doc, "coords", KNumberArray, isId)
  }

  /** The document passes the schema's validation. */
  predicate Valid(doc: Object, isId: Json -> bool) {
    && TypesOk(doc, isId)
    && (forall f :: f in AlwaysRequired ==> Supplied(doc, f))
    && (IsVehicle(doc) ==> forall f :: f in VehicleRequired ==> Supplied(doc, f))
    && (IsAccessory(doc) ==> Supplied(doc, "accessory_type"))
    && InEnum(doc, "listing_type", ListingTypes)
    && InEnum(doc, "condition", Conditions)
    && InEnum(doc, "fuel_type", FuelTypes)
    && InEnum(doc, "payment_option", PaymentOptions)
    && PairOfNumbers(doc, "coords")
  }

  /**
   * The declared defaults, plus the empty array Mongoose gives every array
   * path (`coords` and `compatibility` included).
   */
  const Defaults: Object :=
    map["listing_type" := JStr("vehicle"), "images" := JArr([]), "coords" := JArr([]),
        "condition" := JStr("new"), "kilometers" := JNum(0), "compatibility" := JArr([]),
        "extra_features" := JArr([]), "number_of_views" := JNum(0)]

  function WithDefaults(doc: Object): Object {
    ApplyDefaults(doc, Defaults)
  }

  /** What a document without the path gets: "vehicle", "new", 0 views and kilometres, no images. */
  lemma DefaultsApplied(doc: Object)
    ensures forall f :: f in doc ==> f in WithDefaults(doc) && WithDefaults(doc)[f] == doc[f]
    ensures "listing_type" !in doc ==> WithDefaults(doc)["listing_type"] == JStr("vehicle")
    ensures "condition" !in doc ==> WithDefaults(doc)["condition"] == JStr("new")
    ensures "kilometers" !in doc ==> WithDefaults(doc)["kilometers"] == JNum(0)
    ensures "number_of_views" !in doc ==> WithDefaults(doc)["number_of_views"] == JNum(0)
    ensures "images" !in doc ==> WithDefaults(doc)["images"] == JArr([])
    ensures "extra_features" !in doc ==> WithDefaults(doc)["extra_features"] == JArr([])
  {
  }

  /** Type checks do not depend on a path that is removed. */
  lemma TypesOkRemove(doc: Object, f: string, isId: Json -> bool)
    requires TypesOk(doc, isId)
    ensures TypesOk(doc - {f}, isId)
  {
    var d := doc - {f};
    forall g | g != f {
      RemoveOther(doc, f, g);
    }
  }

  lemma VehicleRequiredIsConditional(f: string)
    requires f in VehicleRequired
    ensures f !in AlwaysRequired && f != "listing_type" && f != "accessory_type" && f != "coords"
    ensures f != "condition" && f != "payment_option"
  {
  }

  /** A valid listing is a vehicle or an accessory. */
  lemma ValidListingType(doc: Object, isId: Json -> bool)
    requires Valid(doc, isId)
    ensures IsVehicle(doc) || IsAccessory(doc)
  {
    assert "listing_type" in AlwaysRequired;
  }

  /** A path that the listing's type does not require can be left out. */
  lemma RemoveOptional(doc: Object, f: string, isId: Json -> bool)
    requires Valid(doc, isId)
    requires f !in AlwaysRequired
    requires IsVehicle(doc) ==> f !in VehicleRequired
    requires IsAccessory(doc) ==> f != "accessory_type"
    ensures Valid(doc - {f}, isId)
  {
    var d := doc - {f};
    TypesOkRemove(doc, f, isId);
    assert "listing_type" in AlwaysRequired;
    RemoveOther(doc, f, "listing_type");
    assert IsVehicle(d) == IsVehicle(doc) && IsAccessory(d) == IsAccessory(doc);
    forall g | g in AlwaysRequired ensures Supplied(d, g) {
      RemoveOther(doc, f, g);
    }
    if IsVehicle(doc) {
      forall g | g in VehicleRequired ensures Supplied(d, g) {
        RemoveOther(doc, f, g);
      }
    }
    if IsAccessory(doc) {
      RemoveOther(doc, f, "accessory_type");
    }
    if f != "condition" { RemoveOther(doc, f, "condition"); }
    if f != "fuel_type" { RemoveOther(doc, f, "fuel_type"); }
    if f != "payment_option" { RemoveOther(doc, f, "payment_option"); }
    if f != "coords" { RemoveOther(doc, f, "coords"); }
  }

  /** A vehicle-only path can be left out exactly when the listing is an accessory. */
  lemma VehicleRequiredIff(doc: Object, f: string, isId: Json -> bool)
    requires Valid(doc, isId) && f in VehicleRequired
    ensures Valid(doc - {f}, isId) <==> IsAccessory(doc)
  {
    ValidListingType(doc, isId);
    VehicleRequiredIsConditional(f);
    if IsAccessory(doc) {
      RemoveOptional(doc, f, isId);
    } else {
      var d := doc - {f};
      RemoveOther(doc, f, "listing_type");
      assert IsVehicle(d) && !Supplied(d, f);
    }
  }

  /** `accessory_type` can be left out exactly when the listing is a vehicle. */
  lemma AccessoryTypeRequiredIff(doc: Object, isId: Json -> bool)
    requires Valid(doc, isId)
    ensures Valid(doc - {"accessory_type"}, isId) <==> IsVehicle(doc)
  {
    if IsVehicle(doc) {
      AccessoryTypeOptional(doc, isId);
    } else {
      ValidListingType(doc, isId);
      AccessoryTypeNeeded(doc, isId);
    }
  }

  lemma AccessoryTypeIsConditional()
    ensures "accessory_type" !in AlwaysRequired && "accessory_type" !in VehicleRequired
  {
  }

  /** A valid vehicle stays valid without an `accessory_type`. */
  lemma AccessoryTypeOptional(doc: Object, isId: Json -> bool)
    requires Valid(doc, isId) && IsVehicle(doc)
    ensures Valid(doc - {"accessory_type"}, isId)
  {
    assert !IsAccessory(doc);
    AccessoryTypeIsConditional();
    RemoveOptional(doc, "accessory_type", isId);
  }

  /** An accessory without its `accessory_type` is not valid. */
  lemma AccessoryTypeNeeded(doc: Object, isId: Json -> bool)
    requires IsAccessory(doc)
    ensures !Valid(doc - {"accessory_type"}, isId)
  {
    var d := doc - {"accessory_type"};
    assert IsAccessory(d);
    assert !Supplied(d, "accessory_type");
  }

  /** Every `required: true` path is needed whatever the listing type. */
  lemma AlwaysRequiredNeeded(doc: Object, f: string, isId: Json -> bool)
    requires f in AlwaysRequired
    ensures !Valid(doc - {f}, isId)
  {
    assert !Supplied(doc - {f}, f);
  }

  /**
   * A single non-empty string in place of the `compatibility` or
   * `extra_features` array passes validation: Mongoose wraps it into a
   * one-element array.
   */
  lemma SingleFeatureAccepted(doc: Object, f: string, x: string, isId: Json -> bool)
    requires Valid(doc, isId)
    requires f == "compatibility" || f == "extra_features"
    requires x != ""
    ensures Valid(doc[f := JStr(x)], isId)
  {
    FeaturePathIsArrayOnly(f);
    assert HasKind(JStr(x), KStringArray, isId);
    SetOptionalArray(doc, f, JStr(x), isId);
  }

  /**
   * A string-array path that is neither conditionally required nor under an
   * enum or the coords rule can take any supplied value of its kind.
   */
  lemma SetOptionalArray(doc: Object, f: string, v: Json, isId: Json -> bool)
    requires Valid(doc, isId)
    requires f in StringArrayPaths && f !in StringPaths && f !in NumberPaths && f !in BooleanPaths && f !in IdPaths
    requires f !in VehicleRequired && f != "listing_type" && f != "accessory_type" && f != "coords"
    requires f != "condition" && f != "fuel_type" && f != "payment_option"
    requires v != JNull && v != JStr("") && HasKind(v, KStringArray, isId)
    ensures Valid(doc[f := v], isId)
  {
    var d := doc[f := v];
    TypesOkSetArray(doc, f, v, isId);
    SetOther(doc, f, v, "listing_type");
    assert IsVehicle(d) == IsVehicle(doc) && IsAccessory(d) == IsAccessory(doc);
    forall g | g in AlwaysRequired ensures Supplied(d, g) {
      if g != f { SetOther(doc, f, v, g); }
    }
    if IsVehicle(doc) {
      forall g | g in VehicleRequired ensures Supplied(d, g) {
        SetOther(doc, f, v, g);
      }
    }
    if IsAccessory(doc) {
      SetOther(doc, f, v, "accessory_type");
    }
    SetOther(doc, f, v, "condition");
    SetOther(doc, f, v, "fuel_type");
    SetOther(doc, f, v, "payment_option");
    SetOther(doc, f, v, "coords");
  }

  /** Type checks hold after a string-array path takes a value of its kind. */
  lemma TypesOkSetArray(doc: Object, f: string, v: Json, isId: Json -> bool)
    requires TypesOk(doc, isId)
    requires f in StringArrayPaths && f !in StringPaths && f !in NumberPaths && f !in BooleanPaths && f !in IdPaths
    requires f != "coords" && HasKind(v, KStringArray, isId)
    ensures TypesOk(doc[f := v], isId)
  {
    var d := doc[f := v];
    forall g | g in StringPaths ensures Typed(d, g, KString, isId) {
      SetOther(doc, f, v, g);
    }
    forall g | g in NumberPaths ensures Typed(d, g, KNumber, isId) {
      SetOther(doc, f, v, g);
    }
    forall g | g in BooleanPaths ensures Typed(d, g, KBoolean, isId) {
      SetOther(doc, f, v, g);
    }
    forall g | g in IdPaths ensures Typed(d, g, KObjectId, isId) {
      SetOther(doc, f, v, g);
    }
    forall g | g in StringArrayPaths ensures Typed(d, g, KStringArray, isId) {
      if g != f { SetOther(doc, f, v, g); }
    }
    SetOther(doc, f, v, "coords");
  }

  /** `compatibility` and `extra_features` are string arrays and nothing else. */
  lemma FeaturePathIsArrayOnly(f: string)
    requires f == "compatibility" || f == "extra_features"
    ensures f in StringArrayPaths && f !in StringPaths && f !in NumberPaths && f !in BooleanPaths && f !in IdPaths
    ensures f !in VehicleRequired && f != "listing_type" && f != "accessory_type" && f != "coords"
    ensures f != "condition" && f != "fuel_type" && f != "payment_option"
  {
  }

  /** The coords of a valid listing are exactly two numbers. */
  lemma ValidCoords(doc: Object, isId: Json -> bool)
    requires Valid(doc, isId)
    ensures "coords" in doc && doc["coords"].JArr? && |doc["coords"].items| == 2
    ensures HasKind(doc["coords"], KNumberArray, isId)
  {
    assert "coords" in AlwaysRequired;
  }

  /** The enum domains, as seen on a valid listing. */
  lemma ValidEnums(doc: Object, isId: Json -> bool)
    requires Valid(doc, isId)
    ensures doc["condition"].JStr? && doc["condition"].s in Conditions
    ensures doc["payment_option"].JStr? && doc["payment_option"].s in PaymentOptions
    ensures IsVehicle(doc) ==> doc["fuel_type"].JStr? && doc["fuel_type"].s in FuelTypes
  {
    assert "condition" in AlwaysRequired && "payment_option" in AlwaysRequired;
    if IsVehicle(doc) {
      assert "fuel_type" in VehicleRequired;
    }
  }
}
