/**
 * The follow relation of auth_backend/custom_user/models.py: the
 * non-symmetrical many-to-many field `followers` on CustomUser, whose reverse
 * side is `following`. `a.following` holds the users `a` follows, and
 * `b.followers` the users who follow `b`; both are views of one set of
 * (follower, followee) pairs.
 */
module Followers {

  type UserId = nat

  /** One row of the relation's join table: `follower` follows `followee`. */
  datatype Edge = Edge(follower: UserId, followee: UserId)

  /** `u.following.all()`: everyone `u` follows. */
  function FollowingOf(edges: set<Edge>, u: UserId): set<UserId> {
    set e | e in edges && e.follower == u :: e.followee
  }

  /** `u.followers.all()`: everyone who follows `u`. */
  function FollowersOf(edges: set<Edge>, u: UserId): set<UserId> {
    set e | e in edges && e.followee == u :: e.follower
  }

  /** The two sides describe the same pairs: `b` is in `a.following` iff `a` is in `b.followers`. */
  lemma {:induction false} SidesAgree(edges: set<Edge>, a: UserId, b: UserId)
    ensures b in FollowingOf(edges, a) <==> Edge(a, b) in edges
    ensures a in FollowersOf(edges, b) <==> Edge(a, b) in edges
  {
    if b in FollowingOf(edges, a) {
      var e :| e in edges && e.follower == a && e.followee == b;
      assert e == Edge(a, b);
    }
    if a in FollowersOf(edges, b) {
      var e :| e in edges && e.followee == b && e.follower == a;
      assert e == Edge(a, b);
    }
  }

  /** The relation after `a.follow(b)`: the pair is added unless `b` is `a` itself. */
  function Followed(edges: set<Edge>, a: UserId, b: UserId): (r: set<Edge>)
    ensures edges <= r && r - edges <= {Edge(a, b)}
    ensures Edge(a, b) in r <==> a != b || Edge(a, b) in edges
  {
    if b != a then edges + {Edge(a, b)} else edges
  }

  /** The relation after `a.unfollow(b)`: the pair is gone, and nothing else is. */
  function Unfollowed(edges: set<Edge>, a: UserId, b: UserId): (r: set<Edge>)
    ensures r <= edges && edges - r <= {Edge(a, b)}
    ensures Edge(a, b) !in r
  {
    if b in FollowingOf(edges, a) then edges - {Edge(a, b)} else edges
  }

  /** `a.follow(a)` changes nothing: nobody follows themselves through `follow`. */
  lemma FollowSelfIsNoop(edges: set<Edge>, a: UserId)
    ensures Followed(edges, a, a) == edges
  {
  }

  /** After `a.follow(b)` with `b` ≠ `a`, both `a.is_following(b)` and `b.is_followed_by(a)` hold. */
  lemma FollowThenQueries(edges: set<Edge>, a: UserId, b: UserId)
    requires a != b
    ensures IsFollowing(Followed(edges, a, b), a, b)
    ensures IsFollowedBy(Followed(edges, a, b), b, a)
  {
    SidesAgree(Followed(edges, a, b), a, b);
  }

  /** Following twice is following once: the relation is a set. */
  lemma FollowIdempotent(edges: set<Edge>, a: UserId, b: UserId)
    ensures Followed(Followed(edges, a, b), a, b) == Followed(edges, a, b)
  {
  }

  /** After `a.unfollow(b)` neither query holds; unfollowing someone not followed changes nothing. */
  lemma UnfollowThenQueries(edges: set<Edge>, a: UserId, b: UserId)
    ensures !IsFollowing(Unfollowed(edges, a, b), a, b)
    ensures !IsFollowedBy(Unfollowed(edges, a, b), b, a)
    ensures !IsFollowing(edges, a, b) ==> Unfollowed(edges, a, b) == edges
  {
    SidesAgree(Unfollowed(edges, a, b), a, b);
    SidesAgree(edges, a, b);
  }

  /** Unfollow undoes a fresh follow. */
  lemma FollowUnfollowRoundTrip(edges: set<Edge>, a: UserId, b: UserId)
    requires Edge(a, b) !in edges
    ensures Unfollowed(Followed(edges, a, b), a, b) == edges
  {
    SidesAgree(Followed(edges, a, b), a, b);
  }

  /** `is_following`: `b` is among the users `a` follows. */
  predicate IsFollowing(edges: set<Edge>, a: UserId, b: UserId) {
    b in FollowingOf(edges, a)
  }

  /** `is_followed_by`: `b` is among the users following `a`. */
  predicate IsFollowedBy(edges: set<Edge>, a: UserId, b: UserId) {
    b in FollowersOf(edges, a)
  }

  /** `follower_count`. */
  function FollowerCount(edges: set<Edge>, u: UserId): nat {
    |FollowersOf(edges, u)|
  }

  /** `following_count`. */
  function FollowingCount(edges: set<Edge>, u: UserId): nat {
    |FollowingOf(edges, u)|
  }

  /** Adding the pair (a, b) adds exactly `b` to `a`'s following and `a` to `b`'s followers, and touches no one else. */
  lemma {:induction false} AddEdgeSides(edges: set<Edge>, a: UserId, b: UserId)
    ensures FollowingOf(edges + {Edge(a, b)}, a) == FollowingOf(edges, a) + {b}
    ensures FollowersOf(edges + {Edge(a, b)}, b) == FollowersOf(edges, b) + {a}
    ensures forall u :: u != a ==> FollowingOf(edges + {Edge(a, b)}, u) == FollowingOf(edges, u)
    ensures forall u :: u != b ==> FollowersOf(edges + {Edge(a, b)}, u) == FollowersOf(edges, u)
  {
    var E := edges + {Edge(a, b)};
    assert b in FollowingOf(E, a) by { assert Edge(a, b) in E; }
    assert a in FollowersOf(E, b) by { assert Edge(a, b) in E; }
  }

  /** Removing the pair (a, b) removes exactly `b` from `a`'s following and `a` from `b`'s followers. */
  lemma {:induction false} RemoveEdgeSides(edges: set<Edge>, a: UserId, b: UserId)
    ensures FollowingOf(edges - {Edge(a, b)}, a) == FollowingOf(edges, a) - {b}
    ensures FollowersOf(edges - {Edge(a, b)}, b) == FollowersOf(edges, b) - {a}
    ensures forall u :: u != a ==> FollowingOf(edges - {Edge(a, b)}, u) == FollowingOf(edges, u)
    ensures forall u :: u != b ==> FollowersOf(edges - {Edge(a, b)}, u) == FollowersOf(edges, u)
  {
    var E := edges - {Edge(a, b)};
    forall v | v in FollowingOf(edges, a) && v != b
      ensures v in FollowingOf(E, a)
    {
      SidesAgree(edges, a, v);
      assert Edge(a, v) in E;
    }
    forall v | v in FollowersOf(edges, b) && v != a
      ensures v in FollowersOf(E, b)
    {
      SidesAgree(edges, v, b);
      assert Edge(v, b) in E;
    }
    SidesAgree(E, a, b);
  }

  /**
   * A follow that adds a new pair raises `a`'s following count and `b`'s
   * follower count by exactly one; every other count is unchanged. A follow
   * of someone already followed, or of oneself, changes no count.
   */
  lemma FollowCounts(edges: set<Edge>, a: UserId, b: UserId)
    ensures var r := Followed(edges, a, b);
      var added: nat := if a != b && !IsFollowing(edges, a, b) then 1 else 0;
      && FollowingCount(r, a) == FollowingCount(edges, a) + added
      && FollowerCount(r, b) == FollowerCount(edges, b) + added
      && (forall u :: u != a ==> FollowingCount(r, u) == FollowingCount(edges, u))
      && (forall u :: u != b ==> FollowerCount(r, u) == FollowerCount(edges, u))
  {
    SidesAgree(edges, a, b);
    if a != b && !IsFollowing(edges, a, b) {
      assert Followed(edges, a, b) == edges + {Edge(a, b)};
      AddEdgeSides(edges, a, b);
      assert b !in FollowingOf(edges, a) && a !in FollowersOf(edges, b);
    } else {
      assert Followed(edges, a, b) == edges;
    }
  }

  /** An unfollow of someone followed lowers both counts by exactly one; every other count is unchanged. */
  lemma UnfollowCounts(edges: set<Edge>, a: UserId, b: UserId)
    ensures var r := Unfollowed(edges, a, b);
      var removed: nat := if IsFollowing(edges, a, b) then 1 else 0;
      && FollowingCount(r, a) + removed == FollowingCount(edges, a)
      && FollowerCount(r, b) + removed == FollowerCount(edges, b)
      && (forall u :: u != a ==> FollowingCount(r, u) == FollowingCount(edges, u))
      && (forall u :: u != b ==> FollowerCount(r, u) == FollowerCount(edges, u))
  {
    SidesAgree(edges, a, b);
    if IsFollowing(edges, a, b) {
      assert Unfollowed(edges, a, b) == edges - {Edge(a, b)};
      RemoveEdgeSides(edges, a, b);
    } else {
      assert Unfollowed(edges, a, b) == edges;
    }
  }

  /** The join table, shared by every user; `follow`/`unfollow` change it in place. */
  class FollowRelation {
    var edges: set<Edge>

    constructor ()
      ensures edges == {}
    {
      edges := {};
    }

    /** `self.follow(user)`. */
    method Follow(self: UserId, user: UserId)
      modifies this
      ensures edges == Followed(old(edges), self, user)
    {
      if user != self {
        edges := edges + {Edge(self, user)};
      }
    }

    /** `self.unfollow(user)`: removes the pair only when `user` is in `self.following`. */
    method Unfollow(self: UserId, user: UserId)
      modifies this
      ensures edges == Unfollowed(old(edges), self, user)
    {
      if user in FollowingOf(edges, self) {
        edges := edges - {Edge(self, user)};
      }
    }
  }
}
