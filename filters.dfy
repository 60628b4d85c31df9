/**
 * The MongoDB filter documents the list handlers build, as data, and the
 * part of their meaning this model gives them.
 */
module Filters {
  import opened Wrappers
  import opened Strings
  import opened Patterns

  /** A scalar in a filter or a stored document. */
  datatype Value = VStr(s: string) | VNum(n: int) | VBool(b: bool)

  /** What a filter key asks of its field. */
  datatype Cond =
    | Eq(v: Value)
      /** `{ $regex: pattern, $options: "i" }`, with `^…$` around `pattern` when `anchored`. */
    | CaseInsensitiveRegex(pattern: string, anchored: bool)
      /** `{ $gte: lo, $lte: hi }`, each bound optional. */
    | Range(lo: Option<Value>, hi: Option<Value>)
      /** `$or: [{ field: cond }, …]`. */
    | Or(alternatives: seq<(string, Cond)>)

  /** A stored document's scalar fields. */
  type Doc = map<string, Value>

  datatype Sort = Sort(field: string, direction: int)

  /**
   * What a list handler hands to `find(filter).sort(sort).skip(skip).limit(limit)`;
   * each handler has its own filter document type `F`.
   */
  datatype ListQuery<F> = ListQuery(filter: F, sort: Sort, page: int, limit: int, skip: int)

  /** A filter key that is set exactly when `x` is not empty, to `Eq(x)`. */
  function TextEq(x: string): Option<Cond> {
    if x != "" then Some(Eq(VStr(x))) else None
  }

  /** A filter key that is set exactly when a boolean was read. */
  function FlagEq(b: Option<bool>): Option<Cond> {
    if b.Some? then Some(Eq(VBool(b.value))) else None
  }

  /** A numeric bound, kept as a number. */
  function NumBound(n: Option<int>): Option<Value> {
    if n.Some? then Some(VNum(n.value)) else None
  }

  /** A range key, set when at least one of its bounds is. */
  function RangeOf(lo: Option<Value>, hi: Option<Value>): Option<Cond> {
    if lo.Some? || hi.Some? then Some(Range(lo, hi)) else None
  }

  /** `String(sortDir).toLowerCase() === "asc" ? 1 : -1`. */
  function SortDirection(raw: string): (d: int)
    ensures d == 1 || d == -1
  {
    if Lower(raw) == "asc" then 1 else -1
  }

  /**
   * Only a value spelling "asc" in some mix of cases sorts ascending; the
   * value is not trimmed, and every other value, the default "desc"
   * included, sorts descending.
   */
  lemma SortDirectionCases()
    ensures SortDirection("asc") == 1 && SortDirection("ASC") == 1 && SortDirection("aSc") == 1
    ensures SortDirection("desc") == -1 && SortDirection("") == -1 && SortDirection(" asc") == -1
  {
  }

  lemma SortDirectionAscending(raw: string)
    ensures SortDirection(raw) == 1 <==> EqualsIgnoreCase(raw, "asc")
  {
    assert Lower("asc") == "asc";
  }

  // ---- meaning ----

  /** Lexicographic order on code units, as MongoDB compares two strings. */
  predicate TextLe(x: string, y: string) {
    x == [] || (y != [] && (x[0] < y[0] || (x[0] == y[0] && TextLe(x[1..], y[1..]))))
  }

  /** `a <= b` for two values of the same type; values of different types never compare. */
  predicate ValueLe(a: Value, b: Value) {
    match (a, b)
    case (VNum(x), VNum(y)) => x <= y
    case (VStr(x), VStr(y)) => TextLe(x, y)
    case (VBool(x), VBool(y)) => !x || y
    case _ => false
  }

  /**
   * Whether a field holding `v` (`None`: missing) meets condition `c`, for
   * the conditions this model gives a meaning to; `None` for a pattern that
   * is not a literal and for a nested `$or`.
   */
  function FieldHolds(c: Cond, v: Option<Value>): Option<bool> {
    match c
    case Eq(x) => Some(v == Some(x))
    case CaseInsensitiveRegex(p, anchored) =>
      if v.Some? && v.value.VStr? then LiteralMatch(p, anchored, v.value.s) else Some(false)
    case Range(lo, hi) =>
      Some(v.Some? && (lo.None? || ValueLe(lo.value, v.value)) && (hi.None? || ValueLe(v.value, hi.value)))
    case Or(_) => None
  }

  function Field(doc: Doc, k: string): Option<Value> {
    if k in doc then Some(doc[k]) else None
  }

  /** An `$or`: holds when some alternative holds. */
  function AnyHolds(alts: seq<(string, Cond)>, doc: Doc): Option<bool> {
    if alts == [] then Some(false)
    else
      match (FieldHolds(alts[0].1, Field(doc, alts[0].0)), AnyHolds(alts[1..], doc))
      case (Some(a), Some(b)) => Some(a || b)
      case _ => None
  }

  /** The condition stored under `key` applied to a document. */
  function Holds(key: string, c: Cond, doc: Doc): Option<bool> {
    if c.Or? then AnyHolds(c.alternatives, doc) else FieldHolds(c, Field(doc, key))
  }

  /** The same condition `c` on every field of `fields`, under `$or`. */
  function SearchOver(fields: seq<string>, c: Cond): (o: Cond)
    ensures o.Or? && |o.alternatives| == |fields|
    ensures forall i :: 0 <= i < |fields| ==> o.alternatives[i] == (fields[i], c)
  {
    Or(seq(|fields|, i requires 0 <= i < |fields| => (fields[i], c)))
  }

  /**
   * A search with the escaped text `t` over `fields` holds exactly when one
   * of those fields is a string containing `t` ignoring case.
   */
  lemma {:induction false} SearchOverEscaped(fields: seq<string>, t: string, doc: Doc)
    ensures Holds("$or", SearchOver(fields, CaseInsensitiveRegex(Escape(t), false)), doc)
         == Some(exists i :: 0 <= i < |fields| && fields[i] in doc && doc[fields[i]].VStr?
                                && ContainsIgnoreCase(doc[fields[i]].s, t))
  {
    var c := CaseInsensitiveRegex(Escape(t), false);
    if fields != [] {
      SearchOverEscaped(fields[1..], t, doc);
      assert SearchOver(fields, c).alternatives[1..] == SearchOver(fields[1..], c).alternatives;
      EscapedPatternMatches(t, false, if fields[0] in doc && doc[fields[0]].VStr? then doc[fields[0]].s else "");
      if exists i :: 0 <= i < |fields| && fields[i] in doc && doc[fields[i]].VStr? && ContainsIgnoreCase(doc[fields[i]].s, t) {
        var i :| 0 <= i < |fields| && fields[i] in doc && doc[fields[i]].VStr? && ContainsIgnoreCase(doc[fields[i]].s, t);
        if i > 0 {
          assert fields[1..][i - 1] == fields[i];
        }
      }
    }
  }

  /** An anchored escaped pattern holds exactly on the strings equal to `t` ignoring case. */
  lemma AnchoredEscaped(t: string, v: Option<Value>)
    ensures FieldHolds(CaseInsensitiveRegex(Escape(t), true), v)
         == Some(v.Some? && v.value.VStr? && EqualsIgnoreCase(v.value.s, t))
  {
    if v.Some? && v.value.VStr? {
      EscapedPatternMatches(t, true, v.value.s);
    }
  }
}
