/**
 * The notification controller: the create guard, the list filter with its
 * page window and envelope, the update patch, and the id guards.
 */
module Notifications {
  import opened Wrappers
  import opened JsonValues
  import opened Http
  import opened Filters
  import opened Pagination
  import opened Objects

  /** The properties a notification is created from, and that an update may set. */
  const NotificationKeys: seq<string> := ["title", "description", "user_id"]

  /**
   * `createNotification` up to the storage call: 400 "title and user_id are
   * required" unless both are truthy, then 400 "Invalid user_id" unless the
   * user id is an id; otherwise the document `{ title, description, user_id }`
   * with the `undefined` ones left out.
   */
  function CreateNotification(body: Object, isId: Json -> bool): (r: Step<Object>)
    ensures r.Proceed? <==> Truthy(Get(body, "title")) && Truthy(Get(body, "user_id")) && isId(body["user_id"])
    ensures !Truthy(Get(body, "title")) || !Truthy(Get(body, "user_id")) ==>
      r == Reject(400, "title and user_id are required")
    ensures Truthy(Get(body, "title")) && Truthy(Get(body, "user_id")) && !isId(body["user_id"]) ==>
      r == Reject(400, "Invalid user_id")
    ensures r.Proceed? ==> r.call.Keys <= {"title", "description", "user_id"}
    ensures r.Proceed? ==> "title" in r.call && r.call["title"] == body["title"]
    ensures r.Proceed? ==> "user_id" in r.call && r.call["user_id"] == body["user_id"]
    ensures r.Proceed? ==> ("description" in r.call <==> "description" in body)
    ensures r.Proceed? && "description" in body ==> r.call["description"] == body["description"]
  {
    if !Truthy(Get(body, "title")) || !Truthy(Get(body, "user_id")) then Reject(400, "title and user_id are required")
    else if !isId(body["user_id"]) then Reject(400, "Invalid user_id")
    else Proceed(Picked(body, NotificationKeys))
  }

  /** `if (user_id) filter.user_id = user_id`, after the 400 for an invalid one. */
  function UserFilter(raw: Option<string>): (f: Option<Cond>)
    ensures f.Some? <==> raw.Some? && raw.value != ""
    ensures f.Some? ==> f.value == Eq(VStr(raw.value))
  {
    if raw.Some? && raw.value != "" then Some(Eq(VStr(raw.value))) else None
  }

  /**
   * `getNotifications` up to the storage calls, for a store in which
   * `total` notifications match the filter: 400 "Invalid user_id" for a
   * given user id that is not an id, else the newest-first query and the
   * envelope for that total.
   */
  function GetNotifications(query: Query, isId: Json -> bool, total: nat): (r: Step<(ListQuery<Option<Cond>>, Envelope)>)
    ensures r.Reject? <==> "user_id" in query && query["user_id"] != "" && !isId(JStr(query["user_id"]))
    ensures r.Reject? ==> r == Reject(400, "Invalid user_id")
    ensures r.Proceed? ==>
      var (lq, env) := r.call;
      && lq.filter == UserFilter(Param(query, "user_id"))
      && lq.sort == Sort("createdAt", -1)
      && lq.page == PageOf(Param(query, "page")) && lq.limit == LimitOf(Param(query, "limit"))
      && lq.page >= 1 && 1 <= lq.limit <= 100 && lq.skip == SkipOf(lq.page, lq.limit)
      && env == Paged(lq.page, lq.limit, total)
  {
    var p := PageOf(Param(query, "page"));
    var l := LimitOf(Param(query, "limit"));
    if "user_id" in query && query["user_id"] != "" && !isId(JStr(query["user_id"])) then
      Reject(400, "Invalid user_id")
    else
      Proceed((ListQuery(UserFilter(Param(query, "user_id")), Sort("createdAt", -1), p, l, SkipOf(p, l)), Paged(p, l, total)))
  }

  /** Without a user id every notification is listed; with one, exactly that user's. */
  lemma UserFilterMeaning(raw: Option<string>, doc: Doc)
    ensures UserFilter(raw).None? <==> raw.None? || raw.value == ""
    ensures UserFilter(raw).Some? ==>
      (FieldHolds(UserFilter(raw).value, Field(doc, "user_id")) == Some(true)
       <==> "user_id" in doc && doc["user_id"] == VStr(raw.value))
  {
  }

  /**
   * `updateNotification` up to the storage call: 400 "Invalid id", then the
   * patch of the defined title, description and user id, refused with 400
   * "Invalid user_id" when its user id is not an id.
   */
  method UpdateNotification(id: string, body: Object, isId: Json -> bool) returns (r: Step<(string, Object)>)
    ensures !isId(JStr(id)) ==> r == Reject(400, "Invalid id")
    ensures isId(JStr(id)) && "user_id" in body && !isId(body["user_id"]) ==> r == Reject(400, "Invalid user_id")
    ensures r.Proceed? <==> isId(JStr(id)) && ("user_id" in body ==> isId(body["user_id"]))
    ensures r.Proceed? ==> r.call == (id, Picked(body, NotificationKeys))
  {
    var idCheck := RequireValidId(id, isId);
    if idCheck.Reject? {
      return Reject(idCheck.status, idCheck.message);
    }
    var patch := Pick(body, NotificationKeys);
    if "user_id" in patch && !isId(patch["user_id"]) {
      return Reject(400, "Invalid user_id");
    }
    return Proceed((id, patch));
  }

  /** The patch holds only the notification's own properties, each as the body gave it. */
  lemma PatchContents(body: Object)
    ensures Picked(body, NotificationKeys).Keys <= {"title", "description", "user_id"}
    ensures forall k :: k in Picked(body, NotificationKeys) ==> Picked(body, NotificationKeys)[k] == body[k]
    ensures forall k :: k in {"title", "description", "user_id"} && k in body ==> k in Picked(body, NotificationKeys)
  {
  }
}
