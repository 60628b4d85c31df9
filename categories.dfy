/**
 * The property-category controller over a category table held as a map
 * from id to title: title normalisation, the case-insensitive duplicate
 * rule of create and update, the id guards, and the list query.
 */
module PropertyCategories {
  import opened Wrappers
  import opened Strings
  import opened JsonValues
  import opened Http
  import opened Patterns
  import opened Filters
  import opened Pagination

  /** `String(req.body?.title ?? "").trim()`. */
  function TitleOf(raw: Option<Json>): (t: string)
    ensures IsTrimmed(t)
  {
    Trim(if raw.None? || raw.value == JNull then "" else JsString(raw.value))
  }

  /** The pattern `^${escapeRegex(title)}$` with option "i", applied to a stored title. */
  predicate MatchesTitle(stored: string, title: string) {
    FieldHolds(CaseInsensitiveRegex(Escape(title), true), Some(VStr(stored))) == Some(true)
  }

  /** The duplicate pattern finds exactly the titles equal to `title` ignoring case; a longer title does not count. */
  lemma MatchesTitleIff(stored: string, title: string)
    ensures MatchesTitle(stored, title) <==> EqualsIgnoreCase(stored, title)
  {
    AnchoredEscaped(title, Some(VStr(stored)));
  }

  /** `findOne({ _id: { $ne: except }, title: … })` finds a category. */
  predicate Taken(titles: map<string, string>, title: string, except: Option<string>) {
    exists id :: id in titles && Some(id) != except && MatchesTitle(titles[id], title)
  }

  lemma TakenIff(titles: map<string, string>, title: string, except: Option<string>)
    ensures Taken(titles, title, except)
        <==> exists id :: id in titles && Some(id) != except && EqualsIgnoreCase(titles[id], title)
  {
    forall id | id in titles {
      MatchesTitleIff(titles[id], title);
    }
  }

  /** Titles are trimmed, non-empty, and no two are equal ignoring case. */
  predicate WellFormed(titles: map<string, string>) {
    && (forall id :: id in titles ==> titles[id] != "" && IsTrimmed(titles[id]))
    && (forall a, b :: a in titles && b in titles && a != b ==> Lower(titles[a]) != Lower(titles[b]))
  }

  /**
   * Storing a trimmed, non-empty title under `id` keeps the table well formed
   * when no other category has that title ignoring case.
   */
  lemma StorePreservesWellFormed(titles: map<string, string>, id: string, title: string)
    requires WellFormed(titles) && title != "" && IsTrimmed(title)
    requires !Taken(titles, title, Some(id))
    ensures WellFormed(titles[id := title])
  {
    TakenIff(titles, title, Some(id));
    var t := titles[id := title];
    forall a, b | a in t && b in t && a != b ensures Lower(t[a]) != Lower(t[b]) {
      if a == id {
        assert !EqualsIgnoreCase(titles[b], title);
      } else if b == id {
        assert !EqualsIgnoreCase(titles[a], title);
      }
    }
  }

  /** A title that is not taken at all is, in particular, not taken by another id. */
  lemma NotTakenByOthers(titles: map<string, string>, title: string, id: string)
    requires !Taken(titles, title, None)
    ensures !Taken(titles, title, Some(id))
  {
  }

  /** What a request for a category by id can be answered with. */
  datatype Reply = Reply(status: nat, message: string)

  class CategoryTable {
    /** Category id to title. */
    var titles: map<string, string>

    /** Titles are trimmed, non-empty, and no two are equal ignoring case. */
    predicate Valid()
      reads this
    {
      WellFormed(titles)
    }

    constructor ()
      ensures titles == map[] && Valid()
    {
      titles := map[];
    }

    /**
     * `createPropertyCategory`: 400 for a blank title, 409 when some
     * category has the same title ignoring case, else 201 and the trimmed
     * title is stored under the fresh id `newId`.
     */
    method Create(raw: Option<Json>, newId: string) returns (reply: Reply)
      requires Valid() && newId !in titles
      modifies this
      ensures Valid()
      ensures TitleOf(raw) == "" ==> reply == Reply(400, "title is required") && titles == old(titles)
      ensures TitleOf(raw) != "" && Taken(old(titles), TitleOf(raw), None) ==>
        reply == Reply(409, "Category already exists") && titles == old(titles)
      ensures TitleOf(raw) != "" && !Taken(old(titles), TitleOf(raw), None) ==>
        reply.status == 201 && titles == old(titles)[newId := TitleOf(raw)]
    {
      var title := TitleOf(raw);
      if title == "" {
        return Reply(400, "title is required");
      }
      if Taken(titles, title, None) {
        return Reply(409, "Category already exists");
      }
      NotTakenByOthers(titles, title, newId);
      StorePreservesWellFormed(titles, newId, title);
      titles := titles[newId := title];
      return Reply(201, "");
    }

    /**
     * `updatePropertyCategory`: 400 for an invalid id, then 400 for a blank
     * title, then 409 when another category has the title ignoring case
     * (the category's own title does not count), then 404 for a missing
     * category; otherwise the title is replaced.
     */
    method Update(id: string, raw: Option<Json>, isId: Json -> bool) returns (reply: Reply)
      requires Valid()
      modifies this
      ensures Valid()
      ensures !isId(JStr(id)) ==> reply == Reply(400, "Invalid id") && titles == old(titles)
      ensures isId(JStr(id)) && TitleOf(raw) == "" ==> reply == Reply(400, "title is required") && titles == old(titles)
      ensures isId(JStr(id)) && TitleOf(raw) != "" && Taken(old(titles), TitleOf(raw), Some(id)) ==>
        reply == Reply(409, "Category already exists") && titles == old(titles)
      ensures isId(JStr(id)) && TitleOf(raw) != "" && !Taken(old(titles), TitleOf(raw), Some(id)) && id !in old(titles) ==>
        reply == Reply(404, "Not found") && titles == old(titles)
      ensures reply.status == 200 <==>
        isId(JStr(id)) && TitleOf(raw) != "" && !Taken(old(titles), TitleOf(raw), Some(id)) && id in old(titles)
      ensures reply.status == 200 ==> titles == old(titles)[id := TitleOf(raw)]
    {
      if !isId(JStr(id)) {
        return Reply(400, "Invalid id");
      }
      var title := TitleOf(raw);
      if title == "" {
        return Reply(400, "title is required");
      }
      if Taken(titles, title, Some(id)) {
        return Reply(409, "Category already exists");
      }
      if id !in titles {
        return Reply(404, "Not found");
      }
      StorePreservesWellFormed(titles, id, title);
      titles := titles[id := title];
      return Reply(200, "");
    }

    /** `deletePropertyCategory`: 400 for an invalid id, 404 for a missing one, else the category is removed. */
    method Delete(id: string, isId: Json -> bool) returns (reply: Reply)
      requires Valid()
      modifies this
      ensures Valid()
      ensures !isId(JStr(id)) ==> reply == Reply(400, "Invalid id") && titles == old(titles)
      ensures isId(JStr(id)) && id !in old(titles) ==> reply == Reply(404, "Not found") && titles == old(titles)
      ensures isId(JStr(id)) && id in old(titles) ==> reply == Reply(200, "Deleted") && titles == old(titles) - {id}
    {
      if !isId(JStr(id)) {
        return Reply(400, "Invalid id");
      }
      if id !in titles {
        return Reply(404, "Not found");
      }
      titles := titles - {id};
      return Reply(200, "Deleted");
    }

    /** `getPropertyCategoryById`: 400 for an invalid id, 404 for a missing one, else the title. */
    method GetById(id: string, isId: Json -> bool) returns (reply: Reply, title: Option<string>)
      ensures !isId(JStr(id)) ==> reply == Reply(400, "Invalid id") && title.None?
      ensures isId(JStr(id)) && id !in titles ==> reply == Reply(404, "Not found") && title.None?
      ensures isId(JStr(id)) && id in titles ==> reply.status == 200 && title == Some(titles[id])
    {
      if !isId(JStr(id)) {
        return Reply(400, "Invalid id"), None;
      }
      if id !in titles {
        return Reply(404, "Not found"), None;
      }
      return Reply(200, ""), Some(titles[id]);
    }
  }

  /** Keeping a category's own title, in any case, is not a conflict. */
  lemma OwnTitleIsNoConflict(titles: map<string, string>, id: string, title: string)
    requires id in titles && EqualsIgnoreCase(titles[id], title) && WellFormed(titles)
    ensures !Taken(titles, title, Some(id))
  {
    TakenIff(titles, title, Some(id));
  }

  /** A stored title that only contains the new one is not a duplicate. */
  lemma LongerTitleIsNoConflict()
    ensures !MatchesTitle("Villas", "Villa")
  {
    MatchesTitleIff("Villas", "Villa");
  }

  // ---- getPropertyCategories ----

  /** The list filter: `{ title: { $regex: escapeRegex(q), $options: "i" } }`, or no condition for an empty `q`. */
  function TitleFilter(q: string): (f: Option<Cond>)
    ensures f.None? <==> q == ""
  {
    if q != "" then Some(CaseInsensitiveRegex(Escape(q), false)) else None
  }

  /** The query `getPropertyCategories` sends to storage: newest first, clamped page and limit. */
  function CategoryListQuery(query: Query): (lq: ListQuery<Option<Cond>>)
    ensures lq.page >= 1 && 1 <= lq.limit <= 100 && lq.skip == SkipOf(lq.page, lq.limit)
    ensures lq.page == PageOf(Param(query, "page")) && lq.limit == LimitOf(Param(query, "limit"))
    ensures lq.sort == Sort("createdAt", -1)
    ensures lq.filter == TitleFilter(Trim(ParamOr(query, "q", "")))
  {
    var page := PageOf(Param(query, "page"));
    var limit := LimitOf(Param(query, "limit"));
    ListQuery(TitleFilter(Trim(ParamOr(query, "q", ""))), Sort("createdAt", -1), page, limit, SkipOf(page, limit))
  }

  /**
   * The list filter holds exactly on the categories whose title contains the
   * trimmed `q` ignoring case, metacharacters matched as themselves; with an
   * empty `q` every category is listed.
   */
  lemma ListFilterMeaning(query: Query, title: string)
    ensures var q := Trim(ParamOr(query, "q", ""));
            var f := CategoryListQuery(query).filter;
            (f.None? <==> q == "")
            && (f.Some? ==> FieldHolds(f.value, Some(VStr(title))) == Some(ContainsIgnoreCase(title, q)))
  {
    var q := Trim(ParamOr(query, "q", ""));
    EscapedPatternMatches(q, false, title);
  }
}
