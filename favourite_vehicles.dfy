/**
 * The vehicle favourites controller over the favourites collection, held
 * as its (user id, vehicle id) pairs oldest first. The user id is the
 * authenticated caller's, `""` when there is none.
 */
module FavouriteVehicles {
  import opened Wrappers
  import opened JsonValues
  import opened Http
  import opened Pagination
  import opened FavouriteLog

  /** A favourite: the caller's id and the vehicle id as the request gave it. */
  type Favourite = (string, Json)

  /**
   * The checks every handler makes in order: 401 "Unauthorized" without a
   * caller, then 400 `missing` without a vehicle id; `vehicle` is the
   * vehicle id as the request gave it.
   */
  function Request(user: string, vehicle: Option<Json>, missing: string): (r: Step<Favourite>)
    ensures user == "" ==> r == Reject(401, "Unauthorized")
    ensures user != "" && !Truthy(vehicle) ==> r == Reject(400, missing)
    ensures r.Proceed? <==> user != "" && Truthy(vehicle)
    ensures r.Proceed? ==> r.call == (user, vehicle.value)
  {
    if user == "" then Reject(401, "Unauthorized")
    else if !Truthy(vehicle) then Reject(400, missing)
    else Proceed((user, vehicle.value))
  }

  /**
   * `.skip((page - 1) * limit).limit(limit)` over `items`; a page or limit
   * that is `NaN` (`None`) leaves the window unmodelled (`None`).
   */
  function Window<T>(items: seq<T>, page: Option<int>, limit: Option<int>): (w: Option<seq<T>>)
    requires page.Some? ==> page.value >= 1
    requires limit.Some? ==> limit.value >= 1
    ensures w.Some? <==> page.Some? && limit.Some?
    ensures w.Some? ==> |w.value| <= |items| && |w.value| <= limit.value
    ensures w.Some? ==> forall i :: 0 <= i < |w.value| ==>
      SkipOf(page.value, limit.value) + i < |items| && w.value[i] == items[SkipOf(page.value, limit.value) + i]
  {
    if page.Some? && limit.Some? then Some(PageWindow(items, SkipOf(page.value, limit.value), limit.value)) else None
  }

  /** The route parameter `vehicleId` as a value. */
  function ParamId(vehicleId: string): Option<Json> {
    Some(JStr(vehicleId))
  }

  class VehicleFavourites {
    /** The stored favourites, oldest first. */
    var entries: seq<Favourite>

    /** The unique index on `{ user_id, vehicle_id }`. */
    predicate Valid()
      reads this
    {
      Distinct(entries)
    }

    constructor ()
      ensures entries == [] && Valid()
    {
      entries := [];
    }

    /**
     * `addFavorite`: after the 401/400 checks, a vehicle id that does not
     * cast to an ObjectId fails with 500; an existing pair is the duplicate
     * key error, answered with 200 "Already favorited"; else the pair is
     * created (201).
     */
    method Add(user: string, body: Object, isId: Json -> bool) returns (status: nat, message: string)
      requires Valid()
      modifies this
      ensures Valid()
      ensures Request(user, Get(body, "vehicle_id"), "vehicle_id is required").Reject? ==>
        var r := Request(user, Get(body, "vehicle_id"), "vehicle_id is required");
        status == r.status && message == r.message && entries == old(entries)
      ensures Request(user, Get(body, "vehicle_id"), "vehicle_id is required").Proceed? ==>
        var p := Request(user, Get(body, "vehicle_id"), "vehicle_id is required").call;
        && (!isId(p.1) ==> status == 500 && entries == old(entries))
        && (isId(p.1) && p in old(entries) ==> status == 200 && message == "Already favorited" && entries == old(entries))
        && (isId(p.1) && p !in old(entries) ==> status == 201 && entries == old(entries) + [p])
    {
      var r := Request(user, Get(body, "vehicle_id"), "vehicle_id is required");
      if r.Reject? {
        return r.status, r.message;
      }
      var p := r.call;
      if !isId(p.1) {
        // The cast error's text is Mongoose's.
        return 500, "";
      }
      if p in entries {
        return 200, "Already favorited";
      }
      AppendDistinct(entries, p);
      entries := entries + [p];
      return 201, "";
    }

    /**
     * `removeFavoriteByVehicleId`: after the 401/400 checks and the cast,
     * the pair is deleted if stored; `removed` says whether it was.
     */
    method Remove(user: string, vehicleId: string, isId: Json -> bool) returns (status: nat, message: string, removed: bool)
      requires Valid()
      modifies this
      ensures Valid()
      ensures Request(user, ParamId(vehicleId), "vehicleId is required").Reject? ==>
        var r := Request(user, ParamId(vehicleId), "vehicleId is required");
        status == r.status && message == r.message && entries == old(entries) && !removed
      ensures user != "" && vehicleId != "" && !isId(JStr(vehicleId)) ==> status == 500 && entries == old(entries) && !removed
      ensures user != "" && vehicleId != "" && isId(JStr(vehicleId)) ==>
        && status == 200
        && removed == ((user, JStr(vehicleId)) in old(entries))
        && entries == Without(old(entries), (user, JStr(vehicleId)))
        && (user, JStr(vehicleId)) !in entries
    {
      var r := Request(user, ParamId(vehicleId), "vehicleId is required");
      if r.Reject? {
        return r.status, r.message, false;
      }
      var p := r.call;
      if !isId(p.1) {
        return 500, "", false;
      }
      removed := p in entries;
      WithoutDistinct(entries, p);
      entries := Without(entries, p);
      return 200, "", removed;
    }

    /**
     * `toggleFavorite`: after the 401/400 checks and the cast, deletes the
     * pair when stored and creates it otherwise; `favorited` is the new
     * membership.
     */
    method Toggle(user: string, body: Object, isId: Json -> bool) returns (status: nat, message: string, favorited: bool)
      requires Valid()
      modifies this
      ensures Valid()
      ensures Request(user, Get(body, "vehicle_id"), "vehicle_id is required").Reject? ==>
        var r := Request(user, Get(body, "vehicle_id"), "vehicle_id is required");
        status == r.status && message == r.message && entries == old(entries)
      ensures Request(user, Get(body, "vehicle_id"), "vehicle_id is required").Proceed? ==>
        var p := Request(user, Get(body, "vehicle_id"), "vehicle_id is required").call;
        && (!isId(p.1) ==> status == 500 && entries == old(entries))
        && (isId(p.1) ==> status == 200 && entries == Toggled(old(entries), p)
                           && favorited == (p in entries) && favorited == (p !in old(entries)))
    {
      var r := Request(user, Get(body, "vehicle_id"), "vehicle_id is required");
      if r.Reject? {
        return r.status, r.message, false;
      }
      var p := r.call;
      if !isId(p.1) {
        return 500, "", false;
      }
      ToggleFlips(entries, p);
      entries := Toggled(entries, p);
      return 200, "", p in entries;
    }

    /** `isFavorited`: membership of the caller's pair, after the 401/400 checks and the cast. */
    method IsFavorited(user: string, vehicleId: string, isId: Json -> bool) returns (status: nat, message: string, favorited: bool)
      ensures Request(user, ParamId(vehicleId), "vehicleId is required").Reject? ==>
        var r := Request(user, ParamId(vehicleId), "vehicleId is required");
        status == r.status && message == r.message && !favorited
      ensures user != "" && vehicleId != "" && !isId(JStr(vehicleId)) ==> status == 500 && !favorited
      ensures user != "" && vehicleId != "" && isId(JStr(vehicleId)) ==>
        status == 200 && favorited == ((user, JStr(vehicleId)) in entries)
    {
      var r := Request(user, ParamId(vehicleId), "vehicleId is required");
      if r.Reject? {
        return r.status, r.message, false;
      }
      if !isId(r.call.1) {
        return 500, "", false;
      }
      return 200, "", r.call in entries;
    }

    /**
     * `myFavorites`: the caller's favourites newest first, windowed by the
     * clamp without fallback, and the count of all of them.
     */
    method MyFavorites(user: string, query: Query) returns (status: nat, message: string, page: Option<int>, limit: Option<int>, total: nat, items: Option<seq<Json>>)
      ensures user == "" ==> status == 401 && message == "Unauthorized" && items.None?
      ensures user != "" ==> status == 200 && page == PageNoFallback(Param(query, "page"))
      ensures user != "" ==> limit == LimitNoFallback(Param(query, "limit")) && total == |ItemsOf(entries, user)|
      ensures user != "" ==> items == Window(ItemsOf(entries, user), page, limit)
      ensures items.Some? ==> |items.value| <= total
      ensures items.Some? ==> forall v :: v in items.value ==> (user, v) in entries
    {
      if user == "" {
        return 401, "Unauthorized", None, None, 0, None;
      }
      page := PageNoFallback(Param(query, "page"));
      limit := LimitNoFallback(Param(query, "limit"));
      var all := ItemsOf(entries, user);
      total := |all|;
      items := Window(all, page, limit);
      ItemsOfMembers(entries, user);
      return 200, "", page, limit, total, items;
    }

    /** `myFavoriteVehicleIds`: the caller's vehicle ids, newest first. */
    method MyFavoriteVehicleIds(user: string) returns (status: nat, message: string, ids: seq<Json>)
      ensures user == "" ==> status == 401 && message == "Unauthorized" && ids == []
      ensures user != "" ==> status == 200 && ids == ItemsOf(entries, user)
    {
      if user == "" {
        return 401, "Unauthorized", [];
      }
      return 200, "", ItemsOf(entries, user);
    }
  }

  /** The id list holds each of the caller's favourite vehicles exactly once, and nothing else. */
  lemma FavouriteIdsMeaning(entries: seq<Favourite>, user: string)
    requires Distinct(entries)
    ensures forall v :: v in ItemsOf(entries, user) <==> (user, v) in entries
    ensures Distinct(ItemsOf(entries, user))
  {
    ItemsOfMembers(entries, user);
    ItemsOfDistinct(entries, user);
  }

  /** A vehicle just favourited heads the caller's list; nobody else's list changes. */
  lemma NewestFirst(entries: seq<Favourite>, p: Favourite, other: string)
    ensures ItemsOf(entries + [p], p.0) == [p.1] + ItemsOf(entries, p.0)
    ensures other != p.0 ==> ItemsOf(entries + [p], other) == ItemsOf(entries, other)
  {
    ItemsOfAppend(entries, p.0, p.1, other);
  }
}
