/**
 * The pieces of a Mongoose schema that the two listing schemas use, read as
 * predicates over a stored document: declared types, `required`, `enum`,
 * and `default`.
 */
module SchemaRules {
  import opened JsonValues
  import opened Strings

  datatype Kind = KString | KNumber | KBoolean | KObjectId | KStringArray | KNumberArray

  /**
   * Mongoose can cast `v` to the declared type: a string path takes any
   * scalar, a number path a number, a boolean or a numeric string, a
   * boolean path one of `true`/`false`, 1/0 and "true"/"false"/"1"/"0"/
   * "yes"/"no", an id path what `isId` accepts. An array path takes an array
   * whose elements cast to the element type or are `null` (kept as `null`),
   * or a single value that casts to the element type (wrapped into a
   * one-element array). `NaN` casts to a string only.
   */
  predicate HasKind(v: Json, k: Kind, isId: Json -> bool) {
    match k
    case KString => CastsToString(v)
    case KNumber => CastsToNumber(v)
    case KBoolean => CastsToBoolean(v)
    case KObjectId => isId(v)
    case KStringArray =>
      if v.JArr? then forall i :: 0 <= i < |v.items| ==> v.items[i].JNull? || CastsToString(v.items[i])
      else CastsToString(v)
    case KNumberArray =>
      if v.JArr? then forall i :: 0 <= i < |v.items| ==> v.items[i].JNull? || CastsToNumber(v.items[i])
      else CastsToNumber(v)
  }

  predicate CastsToString(v: Json) {
    v.JStr? || v.JNum? || v.JBool? || v.JNaN?
  }

  predicate CastsToNumber(v: Json) {
    v.JNum? || v.JBool? || (v.JStr? && NumberOf(v.s).Some?)
  }

  /** A value that casts to the boolean `true`. */
  predicate CastsToTrue(v: Json) {
    v == JBool(true) || v == JNum(1) || (v.JStr? && v.s in ["true", "1", "yes"])
  }

  predicate CastsToBoolean(v: Json) {
    v.JBool? || v == JNum(0) || v == JNum(1) || (v.JStr? && v.s in ["true", "false", "1", "0", "yes", "no"])
  }

  /** A path that is unset (`undefined` or `null`), so that only `required` looks at it. */
  predicate Unset(doc: Object, f: string) {
    f !in doc || doc[f] == JNull
  }

  /** Mongoose's `required` check: set, and for a string not empty. */
  predicate Supplied(doc: Object, f: string) {
    !Unset(doc, f) && doc[f] != JStr("")
  }

  /** Unset, or a value of the declared type. */
  predicate Typed(doc: Object, f: string, k: Kind, isId: Json -> bool) {
    Unset(doc, f) || HasKind(doc[f], k, isId)
  }

  /** An `enum` validator: checked only on a set value. */
  predicate InEnum(doc: Object, f: string, values: set<string>) {
    Unset(doc, f) || (doc[f].JStr? && doc[f].s in values)
  }

  /** The `default`s: each applied when its path is `undefined`. */
  function ApplyDefaults(doc: Object, defaults: Object): (r: Object)
    ensures r.Keys == doc.Keys + defaults.Keys
    ensures forall f :: f in doc ==> r[f] == doc[f]
    ensures forall f :: f in defaults && f !in doc ==> r[f] == defaults[f]
  {
    map f | f in doc.Keys + defaults.Keys :: if f in doc then doc[f] else defaults[f]
  }

  /** Removing one path leaves every other path as it was. */
  lemma RemoveOther(doc: Object, f: string, g: string)
    requires g != f
    ensures Unset(doc - {f}, g) == Unset(doc, g)
    ensures Supplied(doc - {f}, g) == Supplied(doc, g)
    ensures forall k, isId :: Typed(doc - {f}, g, k, isId) == Typed(doc, g, k, isId)
    ensures forall vs :: InEnum(doc - {f}, g, vs) == InEnum(doc, g, vs)
    ensures PairOfNumbers(doc - {f}, g) == PairOfNumbers(doc, g)
  {
  }

  /** Setting one path leaves every rule about another path as it was. */
  lemma SetOther(doc: Object, f: string, v: Json, g: string)
    requires g != f
    ensures Unset(doc[f := v], g) == Unset(doc, g)
    ensures Supplied(doc[f := v], g) == Supplied(doc, g)
    ensures forall k, isId :: Typed(doc[f := v], g, k, isId) == Typed(doc, g, k, isId)
    ensures forall vs :: InEnum(doc[f := v], g, vs) == InEnum(doc, g, vs)
    ensures PairOfNumbers(doc[f := v], g) == PairOfNumbers(doc, g)
  {
  }

  /** The coords validator `(v) => Array.isArray(v) && v.length === 2`, run on a set value. */
  predicate PairOfNumbers(doc: Object, f: string) {
    Unset(doc, f) || (doc[f].JArr? && |doc[f].items| == 2)
  }
}
