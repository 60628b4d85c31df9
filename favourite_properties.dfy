/**
 * The property favourites controller over the favourites collection, held
 * as its (user id, property id) pairs oldest first. Every handler answers
 * 400 before touching the collection unless the ids it is given are
 * ObjectIds.
 */
module FavouriteProperties {
  import opened Wrappers
  import opened JsonValues
  import opened Http
  import opened FavouriteLog

  /** A favourite: the user id and the property id as the request gave them. */
  type Favourite = (Json, Json)

  /** `isValidObjectId(user_id) && isValidObjectId(property_id)`; `undefined` is not an id. */
  function Ids(user: Option<Json>, property: Option<Json>, isId: Json -> bool): (r: Step<Favourite>)
    ensures r.Proceed? <==> user.Some? && property.Some? && isId(user.value) && isId(property.value)
    ensures r.Reject? ==> r == Reject(400, "Invalid user_id or property_id")
    ensures r.Proceed? ==> r.call == (user.value, property.value)
  {
    if user.Some? && property.Some? && isId(user.value) && isId(property.value) then Proceed((user.value, property.value))
    else Reject(400, "Invalid user_id or property_id")
  }

  /** The ids of a request body. */
  function BodyIds(body: Object, isId: Json -> bool): Step<Favourite> {
    Ids(Get(body, "user_id"), Get(body, "property_id"), isId)
  }

  class PropertyFavourites {
    /** The stored favourites, oldest first. */
    var entries: seq<Favourite>

    /** The unique index on `{ user_id, property_id }`. */
    predicate Valid()
      reads this
    {
      Distinct(entries)
    }

    constructor ()
      ensures entries == [] && Valid()
    {
      entries := [];
    }

    /** `addFavoriteProperty`: 400, then 409 "Already in favorites" for a stored pair, else 201 and the pair is created. */
    method Add(body: Object, isId: Json -> bool) returns (status: nat, message: string)
      requires Valid()
      modifies this
      ensures Valid()
      ensures BodyIds(body, isId).Reject? ==> status == 400 && message == "Invalid user_id or property_id" && entries == old(entries)
      ensures BodyIds(body, isId).Proceed? && BodyIds(body, isId).call in old(entries) ==>
        status == 409 && message == "Already in favorites" && entries == old(entries)
      ensures BodyIds(body, isId).Proceed? && BodyIds(body, isId).call !in old(entries) ==>
        status == 201 && entries == old(entries) + [BodyIds(body, isId).call]
    {
      var r := BodyIds(body, isId);
      if r.Reject? {
        return r.status, r.message;
      }
      if r.call in entries {
        return 409, "Already in favorites";
      }
      AppendDistinct(entries, r.call);
      entries := entries + [r.call];
      return 201, "";
    }

    /** `removeFavoriteProperty`: 400, then 404 "Favorite not found" for a pair not stored, else the pair is deleted. */
    method Remove(body: Object, isId: Json -> bool) returns (status: nat, message: string)
      requires Valid()
      modifies this
      ensures Valid()
      ensures BodyIds(body, isId).Reject? ==> status == 400 && message == "Invalid user_id or property_id" && entries == old(entries)
      ensures BodyIds(body, isId).Proceed? && BodyIds(body, isId).call !in old(entries) ==>
        status == 404 && message == "Favorite not found" && entries == old(entries)
      ensures BodyIds(body, isId).Proceed? && BodyIds(body, isId).call in old(entries) ==>
        status == 200 && message == "Removed from favorites"
        && entries == Without(old(entries), BodyIds(body, isId).call)
    {
      var r := BodyIds(body, isId);
      if r.Reject? {
        return r.status, r.message;
      }
      if r.call !in entries {
        return 404, "Favorite not found";
      }
      WithoutDistinct(entries, r.call);
      entries := Without(entries, r.call);
      return 200, "Removed from favorites";
    }

    /** `toggleFavoriteProperty`: 400, else the pair's membership flips and `isFavorited` is the new membership. */
    method Toggle(body: Object, isId: Json -> bool) returns (status: nat, message: string, isFavorited: bool)
      requires Valid()
      modifies this
      ensures Valid()
      ensures BodyIds(body, isId).Reject? ==>
        status == 400 && message == "Invalid user_id or property_id" && entries == old(entries) && !isFavorited
      ensures BodyIds(body, isId).Proceed? ==>
        && status == 200
        && entries == Toggled(old(entries), BodyIds(body, isId).call)
        && isFavorited == (BodyIds(body, isId).call in entries)
        && isFavorited == (BodyIds(body, isId).call !in old(entries))
    {
      var r := BodyIds(body, isId);
      if r.Reject? {
        return r.status, r.message, false;
      }
      ToggleFlips(entries, r.call);
      entries := Toggled(entries, r.call);
      return 200, "", r.call in entries;
    }

    /** `checkFavoriteProperty`: 400 for the query's ids, else whether the pair is stored. */
    method Check(query: Query, isId: Json -> bool) returns (status: nat, message: string, isFavorited: bool)
      ensures var r := Ids(QueryValue(query, "user_id"), QueryValue(query, "property_id"), isId);
        && (r.Reject? ==> status == 400 && message == "Invalid user_id or property_id" && !isFavorited)
        && (r.Proceed? ==> status == 200 && isFavorited == (r.call in entries))
    {
      var r := Ids(QueryValue(query, "user_id"), QueryValue(query, "property_id"), isId);
      if r.Reject? {
        return r.status, r.message, false;
      }
      return 200, "", r.call in entries;
    }

    /**
     * `getUserFavoriteProperties`: 400 "Invalid user_id", else the user's
     * property ids newest first, with `total` their number.
     */
    method UserFavourites(userId: string, isId: Json -> bool) returns (status: nat, message: string, items: seq<Json>, total: nat)
      ensures !isId(JStr(userId)) ==> status == 400 && message == "Invalid user_id" && items == [] && total == 0
      ensures isId(JStr(userId)) ==> status == 200 && items == ItemsOf(entries, JStr(userId)) && total == |items|
    {
      if !isId(JStr(userId)) {
        return 400, "Invalid user_id", [], 0;
      }
      items := ItemsOf(entries, JStr(userId));
      return 200, "", items, |items|;
    }
  }

  /** Adding then removing a new favourite leaves the collection as it was. */
  lemma AddThenRemove(entries: seq<Favourite>, p: Favourite)
    requires Distinct(entries) && p !in entries
    ensures Without(entries + [p], p) == entries
  {
    WithoutAppend(entries, p, p);
    WithoutAbsent(entries, p);
  }

  /** The list holds each of the user's favourite properties exactly once, newest first. */
  lemma UserFavouritesMeaning(entries: seq<Favourite>, user: Json, p: Json)
    requires Distinct(entries)
    ensures forall v :: v in ItemsOf(entries, user) <==> (user, v) in entries
    ensures Distinct(ItemsOf(entries, user))
    ensures ItemsOf(entries + [(user, p)], user) == [p] + ItemsOf(entries, user)
  {
    ItemsOfMembers(entries, user);
    ItemsOfDistinct(entries, user);
    ItemsOfAppend(entries, user, p, user);
  }
}
