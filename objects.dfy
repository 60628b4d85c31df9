/**
 * The `pick(obj, keys)` helper of the property-listing and notification
 * controllers: a `reduce` that copies the defined properties named in
 * `keys` into a fresh accumulator.
 */
module Objects {
  import opened JsonValues

  /** The object `pick(obj, keys)` returns: the defined properties of `obj` named in `keys`. */
  function Picked(obj: Object, keys: seq<string>): (r: Object)
    ensures forall k :: k in r <==> k in keys && k in obj
    ensures forall k :: k in r ==> r[k] == obj[k]
  {
    map k | k in obj && k in keys :: obj[k]
  }

  /** Naming a key twice, or in any order, picks the same object. */
  lemma PickedBySet(obj: Object, keys1: seq<string>, keys2: seq<string>)
    requires forall k :: k in keys1 <==> k in keys2
    ensures Picked(obj, keys1) == Picked(obj, keys2)
  {
  }

  /** Picking keeps nothing that is not named, and keeps every named property. */
  lemma PickedSubsumes(obj: Object, keys: seq<string>)
    requires forall k :: k in obj ==> k in keys
    ensures Picked(obj, keys) == obj
  {
  }

  method Pick(obj: Object, keys: seq<string>) returns (acc: Object)
    ensures forall k :: k in acc <==> k in keys && k in obj
    ensures forall k :: k in acc ==> acc[k] == obj[k]
    ensures acc == Picked(obj, keys)
  {
    acc := map[];
    for i := 0 to |keys|
      invariant forall k :: k in acc <==> k in keys[..i] && k in obj
      invariant forall k :: k in acc ==> acc[k] == obj[k]
    {
      var k := keys[i];
      if k in obj {
        acc := acc[k := obj[k]];
      }
      assert keys[..i + 1] == keys[..i] + [k];
    }
    assert keys[..|keys|] == keys;
  }
}
