/**
 * A favourites collection as the sequence of its (user, item) pairs in the
 * order they were created: the unique index on the pair makes every pair
 * occur at most once, and "newest first" reads the sequence from its end.
 */
module FavouriteLog {

  /** No pair occurs twice: the unique index on `{ user_id, <item>_id }`. */
  predicate Distinct<P(==, !new)>(s: seq<P>) {
    forall i, j :: 0 <= i < j < |s| ==> s[i] != s[j]
  }

  /** `findOneAndDelete` / `deleteOne` of the pair `p`. */
  function Without<P(==, !new)>(s: seq<P>, p: P): (r: seq<P>)
    ensures forall q :: q in r <==> q in s && q != p
    ensures |r| <= |s|
  {
    if s == [] then []
    else if s[0] == p then Without(s[1..], p)
    else [s[0]] + Without(s[1..], p)
  }

  /** Removing a pair that is not stored changes nothing. */
  lemma {:induction false} WithoutAbsent<P(!new)>(s: seq<P>, p: P)
    requires p !in s
    ensures Without(s, p) == s
  {
    if s != [] {
      assert s[0] != p;
      WithoutAbsent(s[1..], p);
      assert s == [s[0]] + s[1..];
    }
  }

  /** Removing a pair and then appending another is removing from the longer sequence. */
  lemma {:induction false} WithoutAppend<P(!new)>(s: seq<P>, x: P, p: P)
    ensures Without(s + [x], p) == Without(s, p) + (if x == p then [] else [x])
  {
    if s == [] {
      assert s + [x] == [x];
    } else {
      assert (s + [x])[0] == s[0] && (s + [x])[1..] == s[1..] + [x];
      WithoutAppend(s[1..], x, p);
    }
  }

  /** A second removal of the same pair changes nothing. */
  lemma WithoutTwice<P(!new)>(s: seq<P>, p: P)
    ensures Without(Without(s, p), p) == Without(s, p)
  {
    WithoutAbsent(Without(s, p), p);
  }

  /** The unique index survives a removal. */
  lemma {:induction false} WithoutDistinct<P(!new)>(s: seq<P>, p: P)
    requires Distinct(s)
    ensures Distinct(Without(s, p))
  {
    if s != [] {
      assert Distinct(s[1..]) by {
        forall i, j | 0 <= i < j < |s[1..]| ensures s[1..][i] != s[1..][j] {
          assert s[1..][i] == s[i + 1] && s[1..][j] == s[j + 1];
        }
      }
      WithoutDistinct(s[1..], p);
      if s[0] != p {
        assert s[0] !in s[1..];
        var r := Without(s[1..], p);
        assert s[0] !in r;
        forall i, j | 0 <= i < j < |[s[0]] + r| ensures ([s[0]] + r)[i] != ([s[0]] + r)[j] {
          if i > 0 {
            assert ([s[0]] + r)[i] == r[i - 1] && ([s[0]] + r)[j] == r[j - 1];
          } else {
            assert ([s[0]] + r)[j] == r[j - 1];
          }
        }
      }
    }
  }

  /** The unique index survives inserting a pair that is not yet stored. */
  lemma AppendDistinct<P(!new)>(s: seq<P>, p: P)
    requires Distinct(s) && p !in s
    ensures Distinct(s + [p])
  {
    forall i, j | 0 <= i < j < |s + [p]| ensures (s + [p])[i] != (s + [p])[j] {
      if j == |s| {
        assert (s + [p])[i] == s[i];
      } else {
        assert (s + [p])[i] == s[i] && (s + [p])[j] == s[j];
      }
    }
  }

  /** The toggles: delete the pair when it is stored, otherwise create it. */
  function Toggled<P(==, !new)>(s: seq<P>, p: P): seq<P> {
    if p in s then Without(s, p) else s + [p]
  }

  /** A toggle flips the pair's membership, leaves every other pair alone and keeps the index. */
  lemma ToggleFlips<P(!new)>(s: seq<P>, p: P)
    requires Distinct(s)
    ensures (p in Toggled(s, p)) <==> p !in s
    ensures forall q :: q != p ==> (q in Toggled(s, p) <==> q in s)
    ensures Distinct(Toggled(s, p))
  {
    if p in s {
      WithoutDistinct(s, p);
    } else {
      AppendDistinct(s, p);
    }
  }

  /**
   * Toggling twice stores the same pairs as before; when the pair was not
   * stored, the collection is exactly as before. (When it was, it comes back
   * as the newest pair.)
   */
  lemma ToggleTwice<P(!new)>(s: seq<P>, p: P)
    requires Distinct(s)
    ensures forall q :: q in Toggled(Toggled(s, p), p) <==> q in s
    ensures p !in s ==> Toggled(Toggled(s, p), p) == s
  {
    ToggleFlips(s, p);
    ToggleFlips(Toggled(s, p), p);
    if p !in s {
      WithoutAppend(s, p, p);
      WithoutAbsent(s, p);
    }
  }

  /** The items of `u`'s pairs, newest first: `find({ user_id }).sort({ createdAt: -1 })` mapped to the item. */
  function ItemsOf<U(==), I>(s: seq<(U, I)>, u: U): seq<I> {
    if s == [] then []
    else (if s[|s| - 1].0 == u then [s[|s| - 1].1] else []) + ItemsOf(s[..|s| - 1], u)
  }

  /** The list holds exactly the items `u` has favourited. */
  lemma {:induction false} ItemsOfMembers<U(!new), I(!new)>(s: seq<(U, I)>, u: U)
    ensures forall v :: v in ItemsOf(s, u) <==> (u, v) in s
  {
    if s != [] {
      var init := s[..|s| - 1];
      ItemsOfMembers(init, u);
      assert s == init + [s[|s| - 1]];
      forall v ensures v in ItemsOf(s, u) <==> (u, v) in s {
        assert (u, v) in s <==> (u, v) in init || (u, v) == s[|s| - 1];
      }
    }
  }

  /** A new favourite comes first in its user's list, and other users' lists do not change. */
  lemma ItemsOfAppend<U(!new), I(!new)>(s: seq<(U, I)>, u: U, v: I, w: U)
    ensures ItemsOf(s + [(u, v)], u) == [v] + ItemsOf(s, u)
    ensures w != u ==> ItemsOf(s + [(u, v)], w) == ItemsOf(s, w)
  {
    assert (s + [(u, v)])[..|s|] == s;
  }

  /** Under the unique index, no item appears twice in a user's list. */
  lemma {:induction false} ItemsOfDistinct<U(!new), I(!new)>(s: seq<(U, I)>, u: U)
    requires Distinct(s)
    ensures Distinct(ItemsOf(s, u))
  {
    if s != [] {
      var init := s[..|s| - 1];
      var last := s[|s| - 1];
      assert Distinct(init) by {
        forall i, j | 0 <= i < j < |init| ensures init[i] != init[j] {
          assert init[i] == s[i] && init[j] == s[j];
        }
      }
      ItemsOfDistinct(init, u);
      if last.0 == u {
        var r := ItemsOf(init, u);
        ItemsOfMembers(init, u);
        assert last !in init by {
          forall i | 0 <= i < |init| ensures init[i] != last {
            assert init[i] == s[i];
          }
        }
        assert last.1 !in r;
        forall i, j | 0 <= i < j < |[last.1] + r| ensures ([last.1] + r)[i] != ([last.1] + r)[j] {
          if i > 0 {
            assert ([last.1] + r)[i] == r[i - 1] && ([last.1] + r)[j] == r[j - 1];
          } else {
            assert ([last.1] + r)[j] == r[j - 1];
          }
        }
      }
    }
  }
}
