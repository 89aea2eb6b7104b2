/**
 * Points, levels and the leaderboard. A user's points row gains points of
 * one kind and levels up while the total reaches the next threshold, which
 * is 100 times the level; the leaderboard ranks the ten highest totals.
 */
module Gamification {
  import opened Common

  /** Points spent on the level-ups from level 1 to `level`: 100 + 200 + ... + 100 * (level - 1). */
  function Spent(level: int): int
    requires level >= 1
  {
    if level == 1 then 0 else Spent(level - 1) + (level - 1) * 100
  }

  /** The closed form of the points spent on level-ups. */
  lemma {:induction false} SpentClosedForm(level: int)
    requires level >= 1
    ensures 2 * Spent(level) == 100 * level * (level - 1)
  {
    if level > 1 {
      SpentClosedForm(level - 1);
    }
  }

  /** A user's points, streaks and level. */
  class UserPoints {
    var totalPoints: int
    var tripPoints: int
    var ecoPoints: int
    var streakPoints: int
    var currentStreak: int
    var longestStreak: int
    var level: int
    var xpToNextLevel: int

    /** The threshold to the next level is 100 times the level, which is at least 1. */
    ghost predicate Valid()
      reads this
    {
      level >= 1 && xpToNextLevel == level * 100
    }

    /** The row's defaults: no points or streaks, level 1, 100 points to the next level. */
    constructor()
      ensures Valid()
      ensures totalPoints == 0 && tripPoints == 0 && ecoPoints == 0 && streakPoints == 0
      ensures currentStreak == 0 && longestStreak == 0 && level == 1 && xpToNextLevel == 100
    {
      totalPoints, tripPoints, ecoPoints, streakPoints := 0, 0, 0, 0;
      currentStreak, longestStreak := 0, 0;
      level, xpToNextLevel := 1, 100;
    }

    /**
     * Adds `points` to the total and to the sub-total named by `pointType`
     * (none for another name), then levels up while the total reaches the
     * threshold, paying the threshold each time. Nothing is lost: the
     * remaining total plus the points spent on levels grows by exactly
     * `points`.
     */
    method AddPoints(points: int, pointType: string)
      requires Valid()
      modifies this
      ensures Valid()
      ensures totalPoints < xpToNextLevel
      ensures level >= old(level)
      ensures level > old(level) ==> totalPoints >= 0
      ensures totalPoints + Spent(level) == old(totalPoints) + Spent(old(level)) + points
      ensures tripPoints == old(tripPoints) + (if pointType == "trip" then points else 0)
      ensures ecoPoints == old(ecoPoints) + (if pointType == "eco" then points else 0)
      ensures streakPoints == old(streakPoints) + (if pointType == "streak" then points else 0)
      ensures currentStreak == old(currentStreak) && longestStreak == old(longestStreak)
    {
      totalPoints := totalPoints + points;
      if pointType == "trip" {
        tripPoints := tripPoints + points;
      } else if pointType == "eco" {
        ecoPoints := ecoPoints + points;
      } else if pointType == "streak" {
        streakPoints := streakPoints + points;
      }
      ghost var pool := totalPoints + Spent(level);
      ghost var startLevel := level;
      ghost var subTotals := (tripPoints, ecoPoints, streakPoints);
      while totalPoints >= xpToNextLevel
        invariant Valid()
        invariant level >= startLevel
        invariant level > startLevel ==> totalPoints >= 0
        invariant (tripPoints, ecoPoints, streakPoints) == subTotals
        invariant currentStreak == old(currentStreak) && longestStreak == old(longestStreak)
        invariant totalPoints + Spent(level) == pool
        decreases totalPoints
      {
        totalPoints := totalPoints - xpToNextLevel;
        level := level + 1;
        xpToNextLevel := level * 100;
      }
    }
  }

  // ---------------------------------------------------------------------
  // Views
  // ---------------------------------------------------------------------

  /** A badge earned by a user. */
  datatype EarnedBadge = EarnedBadge(userId: nat, name: string, description: string, icon: string, color: string, earnedAt: Instant)

  datatype BadgeView = BadgeView(name: string, description: string, icon: string, color: string, earnedAt: Instant)

  datatype ProfileView = ProfileView(total: int, level: int, currentStreak: int, longestStreak: int, badges: seq<BadgeView>)

  function ViewOf(b: EarnedBadge): BadgeView
  {
    BadgeView(b.name, b.description, b.icon, b.color, b.earnedAt)
  }

  function EarnedAtOf(v: BadgeView): int
  {
    v.earnedAt
  }

  /** The views of the user's badges, in table order. */
  function OwnBadges(badges: seq<EarnedBadge>, userId: nat): (r: seq<BadgeView>)
    ensures forall b :: b in badges && b.userId == userId ==> ViewOf(b) in r
    ensures forall v :: v in r ==> exists b :: b in badges && b.userId == userId && v == ViewOf(b)
  {
    if badges == [] then []
    else
      var b := badges[|badges| - 1];
      var rest := OwnBadges(badges[..|badges| - 1], userId);
      assert forall c :: c in badges[..|badges| - 1] ==> c in badges;
      assert forall c :: c in badges ==> c in badges[..|badges| - 1] || c == b;
      rest + (if b.userId == userId then [ViewOf(b)] else [])
  }

  /** Filtering a concatenated table filters each part. */
  lemma {:induction false} OwnBadgesConcat(a: seq<EarnedBadge>, b: seq<EarnedBadge>, userId: nat)
    ensures OwnBadges(a + b, userId) == OwnBadges(a, userId) + OwnBadges(b, userId)
    decreases |b|
  {
    if b == [] {
      assert a + b == a;
    } else {
      var b' := b[..|b| - 1];
      assert (a + b)[..|a + b| - 1] == a + b';
      OwnBadgesConcat(a, b', userId);
    }
  }

  /**
   * The profile's badge list: the user's badges, and only theirs, newest
   * first as the badge table's ordering on `earned_at` descending gives.
   */
  function BadgesOf(badges: seq<EarnedBadge>, userId: nat): (r: seq<BadgeView>)
    ensures multiset(r) == multiset(OwnBadges(badges, userId))
    ensures SortedDesc(r, EarnedAtOf)
    ensures forall b :: b in badges && b.userId == userId ==> ViewOf(b) in r
    ensures forall v :: v in r ==> exists b :: b in badges && b.userId == userId && v == ViewOf(b)
  {
    var own := OwnBadges(badges, userId);
    var r := SortDesc(own, EarnedAtOf);
    assert forall v :: v in r <==> v in own by {
      forall v
        ensures v in r <==> v in own
      {
        assert v in r <==> v in multiset(r);
        assert v in own <==> v in multiset(own);
      }
    }
    r
  }

  /** The points rows, one per user. */
  class PointsTable {
    var rows: map<nat, UserPoints>

    constructor()
      ensures rows == map[]
    {
      rows := map[];
    }

    /**
     * The profile endpoint: the user's points row, created with the
     * defaults when there is none, and the user's badges.
     */
    method Profile(userId: nat, badges: seq<EarnedBadge>) returns (view: ProfileView, row: UserPoints)
      modifies this
      ensures userId in rows && rows[userId] == row
      ensures userId in old(rows) ==> row == old(rows)[userId] && rows == old(rows)
      ensures userId !in old(rows) ==>
        fresh(row) && rows == old(rows)[userId := row] &&
        row.totalPoints == 0 && row.level == 1 && row.currentStreak == 0 && row.longestStreak == 0
      ensures view == ProfileView(row.totalPoints, row.level, row.currentStreak, row.longestStreak, BadgesOf(badges, userId))
    {
      if userId in rows {
        row := rows[userId];
      } else {
        row := new UserPoints();
        rows := rows[userId := row];
      }
      view := ProfileView(row.totalPoints, row.level, row.currentStreak, row.longestStreak, BadgesOf(badges, userId));
    }
  }

  /** A user's standing as the leaderboard reads it. */
  datatype Standing = Standing(username: string, points: int, level: int)

  datatype Ranking = Ranking(rank: nat, username: string, points: int, level: int)

  function PointsOf(s: Standing): int
  {
    s.points
  }

  /** The standings by total points, highest first. */
  function ByPoints(standings: seq<Standing>): (r: seq<Standing>)
    ensures SortedDesc(r, PointsOf) && multiset(r) == multiset(standings) && |r| == |standings|
  {
    SortDesc(standings, PointsOf)
  }

  function Min(a: int, b: int): int
  {
    if a <= b then a else b
  }

  /** The ten highest totals, ranked from 1. */
  function Leaderboard(standings: seq<Standing>): (r: seq<Ranking>)
    ensures |r| == Min(10, |standings|)
  {
    var top := ByPoints(standings)[..Min(10, |standings|)];
    seq(|top|, k requires 0 <= k < |top| => Ranking(k + 1, top[k].username, top[k].points, top[k].level))
  }

  /** The leaderboard's ranks are 1..n without gaps, and its points never increase down the list. */
  lemma LeaderboardOrder(standings: seq<Standing>)
    ensures var r := Leaderboard(standings);
      (forall k :: 0 <= k < |r| ==> r[k].rank == k + 1) &&
      (forall i, j :: 0 <= i < j < |r| ==> r[i].points >= r[j].points)
  {
    var sorted := ByPoints(standings);
    var r := Leaderboard(standings);
    forall i, j | 0 <= i < j < |r|
      ensures r[i].points >= r[j].points
    {
      assert PointsOf(sorted[i]) >= PointsOf(sorted[j]);
    }
  }

  /** Every ranked user is one of the standings. */
  lemma LeaderboardMembers(standings: seq<Standing>)
    ensures var r := Leaderboard(standings);
      forall k :: 0 <= k < |r| ==> Standing(r[k].username, r[k].points, r[k].level) in standings
  {
    var sorted := ByPoints(standings);
    var r := Leaderboard(standings);
    forall k | 0 <= k < |r|
      ensures Standing(r[k].username, r[k].points, r[k].level) in standings
    {
      assert Standing(r[k].username, r[k].points, r[k].level) == sorted[k];
      assert sorted[k] in multiset(sorted);
    }
  }

  /** The standings the leaderboard's rows were read from. */
  function StandingsOf(r: seq<Ranking>): (ss: seq<Standing>)
    ensures |ss| == |r|
  {
    seq(|r|, k requires 0 <= k < |r| => Standing(r[k].username, r[k].points, r[k].level))
  }

  /**
   * The leaderboard takes its rows from the standings without inventing or
   * repeating any: as a multiset they are part of the standings.
   */
  lemma LeaderboardSubMultiset(standings: seq<Standing>)
    ensures multiset(StandingsOf(Leaderboard(standings))) <= multiset(standings)
  {
    var sorted := ByPoints(standings);
    var n := Min(10, |standings|);
    var r := Leaderboard(standings);
    assert StandingsOf(r) == sorted[..n];
    assert sorted == sorted[..n] + sorted[n..];
    assert multiset(sorted) == multiset(sorted[..n]) + multiset(sorted[n..]);
  }

  /** Nobody left off the leaderboard has more points than the last ranked user. */
  lemma LeaderboardIsTop(standings: seq<Standing>)
    requires standings != []
    ensures var sorted := ByPoints(standings);
      var n := Min(10, |standings|);
      forall s :: s in sorted[n..] ==> s.points <= Leaderboard(standings)[n - 1].points
  {
    var sorted := ByPoints(standings);
    var n := Min(10, |standings|);
    var r := Leaderboard(standings);
    forall s | s in sorted[n..]
      ensures s.points <= r[n - 1].points
    {
      var i :| 0 <= i < |sorted[n..]| && sorted[n..][i] == s;
      assert sorted[n + i] == s;
      assert PointsOf(sorted[n - 1]) >= PointsOf(sorted[n + i]);
    }
  }
}
