/**
 * The ads controller: the create guard, the page window and envelope of the
 * unfiltered list, the update patch, and the id guards.
 */
module Ads {
  import opened Wrappers
  import opened JsonValues
  import opened Http
  import opened Filters
  import opened Pagination

  /**
   * `createAd` up to the storage call: 400 "Title and image are required"
   * unless both are truthy, otherwise the document `{ title, image }`.
   */
  function CreateAd(body: Object): (r: Step<Object>)
    ensures r.Reject? <==> !Truthy(Get(body, "title")) || !Truthy(Get(body, "image"))
    ensures r.Reject? ==> r == Reject(400, "Title and image are required")
    ensures r.Proceed? ==> r.call == map["title" := body["title"], "image" := body["image"]]
  {
    if !Truthy(Get(body, "title")) || !Truthy(Get(body, "image")) then Reject(400, "Title and image are required")
    else Proceed(map["title" := body["title"], "image" := body["image"]])
  }

  /**
   * `getAds` up to the storage calls: no filter, newest first, the clamped
   * window; `total` counts every ad, and the envelope reports it.
   */
  function GetAds(query: Query, total: nat): (r: (ListQuery<()>, Envelope))
    ensures r.0.page >= 1 && 1 <= r.0.limit <= 100 && r.0.skip == SkipOf(r.0.page, r.0.limit)
    ensures r.0.page == PageOf(Param(query, "page")) && r.0.limit == LimitOf(Param(query, "limit"))
    ensures r.0.sort == Sort("createdAt", -1)
    ensures r.1 == Paged(r.0.page, r.0.limit, total)
  {
    var p := PageOf(Param(query, "page"));
    var l := LimitOf(Param(query, "limit"));
    (ListQuery((), Sort("createdAt", -1), p, l, SkipOf(p, l)), Paged(p, l, total))
  }

  /** The page the list answers with, over all ads newest first, and what the envelope says of it. */
  lemma AdsPage(query: Query, ads: seq<Json>)
    ensures var (lq, env) := GetAds(query, |ads|);
            var items := PageWindow(ads, lq.skip, lq.limit);
            && env.total == |ads|
            && |items| <= lq.limit
            && (env.hasMore <==> lq.skip + |items| < |ads|)
            && (env.hasMore <==> lq.page < env.pages)
  {
    var (lq, env) := GetAds(query, |ads|);
    HasMoreIffBeyondWindow(ads, lq.page, lq.limit);
    HasMoreIffNotLastPage(lq.page, lq.limit, |ads|);
  }

  /**
   * `updateAd` up to the storage call: 400 "Invalid id", then the patch,
   * built by assigning `title` and `image` each when it is defined.
   */
  method UpdateAd(id: string, body: Object, isId: Json -> bool) returns (r: Step<(string, Object)>)
    ensures r.Reject? <==> !isId(JStr(id))
    ensures r.Reject? ==> r == Reject(400, "Invalid id")
    ensures r.Proceed? ==> r.call.0 == id
    ensures r.Proceed? ==> forall k :: k in r.call.1 <==> (k == "title" || k == "image") && k in body
    ensures r.Proceed? ==> forall k :: k in r.call.1 ==> r.call.1[k] == body[k]
  {
    if !isId(JStr(id)) {
      return Reject(400, "Invalid id");
    }
    var patch: Object := map[];
    if "title" in body {
      patch := patch["title" := body["title"]];
    }
    if "image" in body {
      patch := patch["image" := body["image"]];
    }
    return Proceed((id, patch));
  }
}
