/**
 * `LeaderboardService` (src/leaderboards/leaderboards.service.ts): the top users by XP with
 * ranks 1..n, and one user's rank as one plus the number of users with strictly more XP.
 * The users table is a sequence of rows with the current avatar joined; both operations only read it.
 */
module Leaderboards {
  import opened Wrappers
  import opened Sorting

  datatype Rarity = Common | Rare | Epic | Legendary

  /** A row of `avatars`. */
  datatype Avatar = Avatar(
    id: int, name: string, emoji: string, color: string, isActive: bool,
    displayOrder: int, price: int, rarity: Rarity, unlockLevel: int)

  /** The avatar fields a leaderboard entry shows. */
  datatype AvatarView = AvatarView(id: int, name: string, emoji: string, color: string, rarity: Rarity)

  /** A row of `users` with `currentAvatar` joined. */
  datatype Player = Player(
    id: int, username: string, displayName: Option<string>, avatarUrl: Option<string>,
    currentAvatar: Option<Avatar>, totalXp: int, level: int)

  datatype Entry = Entry(
    userId: int, username: string, displayName: Option<string>, avatarUrl: Option<string>,
    avatar: Option<AvatarView>, totalXp: int, level: int, rank: int)

  const USER_NOT_FOUND := "User not found"
  const DEFAULT_LIMIT: int := 10

  function Min(a: int, b: int): int { if a <= b then a else b }

  /** `ORDER BY totalXp DESC`. */
  function XpKey(p: Player): Key {
    Key(-p.totalXp, 0)
  }

  /** The avatar projection: null without a current avatar, else its id, name, emoji, colour and rarity. */
  function ViewOf(a: Option<Avatar>): (v: Option<AvatarView>)
    ensures v.None? <==> a.None?
    ensures v.Some? ==> v.value.id == a.value.id && v.value.name == a.value.name && v.value.emoji == a.value.emoji
                        && v.value.color == a.value.color && v.value.rarity == a.value.rarity
  {
    match a
    case None => None
    case Some(av) => Some(AvatarView(av.id, av.name, av.emoji, av.color, av.rarity))
  }

  function EntryOf(p: Player, rank: int): Entry {
    Entry(p.id, p.username, p.displayName, p.avatarUrl, ViewOf(p.currentAvatar), p.totalXp, p.level, rank)
  }

  /** The rows the query returns: sorted by XP, highest first, cut at `limit`. */
  function TopRows(users: seq<Player>, limit: int): (t: seq<Player>)
    requires limit >= 1
    ensures |t| == Min(limit, |users|)
    ensures forall i, j :: 0 <= i < j < |t| ==> t[i].totalXp >= t[j].totalXp
    ensures multiset(t) <= multiset(users)
  {
    var sorted := SortBy(users, XpKey);
    var t := sorted[..Min(limit, |users|)];
    assert sorted == t + sorted[|t|..];
    assert forall i, j :: 0 <= i < j < |t| ==> KeyLe(XpKey(t[i]), XpKey(t[j]));
    t
  }

  /**
   * `getTopUsers(limit)`: at most `limit` entries, XP non-increasing, ranks exactly 1..n in list
   * order, each entry the projection of one row of the table.
   */
  function GetTopUsers(users: seq<Player>, limit: int := DEFAULT_LIMIT): (r: seq<Entry>)
    requires limit >= 1
    ensures |r| == Min(limit, |users|)
    ensures forall i :: 0 <= i < |r| ==> r[i].rank == i + 1
    ensures forall i, j :: 0 <= i < j < |r| ==> r[i].totalXp >= r[j].totalXp
    ensures forall i :: 0 <= i < |r| ==> r[i] == EntryOf(TopRows(users, limit)[i], i + 1)
  {
    Ranked(TopRows(users, limit))
  }

  /** The rows in list order, each projected with its 1-based position as rank. */
  function Ranked(t: seq<Player>): (r: seq<Entry>)
    ensures |r| == |t|
    ensures forall i :: 0 <= i < |t| ==> r[i] == EntryOf(t[i], i + 1)
  {
    seq(|t|, i requires 0 <= i < |t| => EntryOf(t[i], i + 1))
  }

  /** The number of users with strictly more XP than `xp`. */
  function CountAbove(users: seq<Player>, xp: int): nat {
    if users == [] then 0 else (if users[0].totalXp > xp then 1 else 0) + CountAbove(users[1..], xp)
  }

  /** The row with primary key `userId`. */
  function FindPlayer(users: seq<Player>, userId: int): (r: Option<Player>)
    ensures r.Some? ==> r.value in users && r.value.id == userId
    ensures r.None? <==> forall p :: p in users ==> p.id != userId
  {
    if users == [] then None
    else if users[0].id == userId then Some(users[0])
    else
      assert users == [users[0]] + users[1..];
      FindPlayer(users[1..], userId)
  }

  /** `getUserRank`: 'User not found' for an unknown id, else the user's entry ranked by strictly higher XP. */
  function GetUserRank(users: seq<Player>, userId: int): (r: Result<Entry, string>)
    ensures r.Err? <==> forall p :: p in users ==> p.id != userId
    ensures r.Err? ==> r.error == USER_NOT_FOUND
    ensures r.Ok? ==> r.value.userId == userId && r.value.rank == CountAbove(users, r.value.totalXp) + 1
    ensures r.Ok? ==> exists p :: p in users && p.id == userId && r.value == EntryOf(p, CountAbove(users, p.totalXp) + 1)
  {
    match FindPlayer(users, userId)
    case None => Err(USER_NOT_FOUND)
    case Some(p) => Ok(EntryOf(p, CountAbove(users, p.totalXp) + 1))
  }

  // ---------------------------------------------------------------------------
  // Properties of the ranking

  lemma {:induction false} CountAboveAppend(a: seq<Player>, b: seq<Player>, xp: int)
    ensures CountAbove(a + b, xp) == CountAbove(a, xp) + CountAbove(b, xp)
    decreases |a|
  {
    if a == [] {
      assert a + b == b;
    } else {
      assert (a + b)[1..] == a[1..] + b;
      CountAboveAppend(a[1..], b, xp);
    }
  }

  /** The count splits around the `k`-th row. */
  lemma CountAboveSplit(b: seq<Player>, k: int, xp: int)
    requires 0 <= k < |b|
    ensures CountAbove(b, xp) == CountAbove(b[..k], xp) + (if b[k].totalXp > xp then 1 else 0) + CountAbove(b[k + 1..], xp)
  {
    CountAboveRemove(b, k, xp);
    CountAboveAppend(b[..k], b[k + 1..], xp);
  }

  /** Taking the `k`-th row out of the table removes its contribution to the count. */
  lemma CountAboveRemove(b: seq<Player>, k: int, xp: int)
    requires 0 <= k < |b|
    ensures CountAbove(b, xp) == CountAbove(b[..k] + b[k + 1..], xp) + (if b[k].totalXp > xp then 1 else 0)
    ensures multiset(b[..k] + b[k + 1..]) == multiset(b) - multiset{b[k]}
  {
    assert b == b[..k] + ([b[k]] + b[k + 1..]);
    CountAboveAppend(b[..k], [b[k]] + b[k + 1..], xp);
    assert ([b[k]] + b[k + 1..])[1..] == b[k + 1..];
    CountAboveAppend(b[..k], b[k + 1..], xp);
  }

  /** An element of a sequence's multiset sits at some index. */
  lemma IndexOf<T>(x: T, b: seq<T>) returns (k: int)
    requires x in multiset(b)
    ensures 0 <= k < |b| && b[k] == x
  {
    assert x in b;
    k :| 0 <= k < |b| && b[k] == x;
  }

  /** Taking the same element off two permutations of each other leaves permutations. */
  lemma RemoveMatching<T>(a: seq<T>, b: seq<T>, k: int)
    requires multiset(a) == multiset(b) && a != [] && 0 <= k < |b| && b[k] == a[0]
    ensures multiset(a[1..]) == multiset(b[..k] + b[k + 1..])
  {
    assert a == [a[0]] + a[1..];
    assert multiset(a) == multiset{a[0]} + multiset(a[1..]);
    assert b == b[..k] + [b[k]] + b[k + 1..];
    assert multiset(b) == multiset(b[..k]) + multiset{b[k]} + multiset(b[k + 1..]);
    assert multiset(b[..k] + b[k + 1..]) == multiset(b[..k]) + multiset(b[k + 1..]);
    forall y ensures multiset(a[1..])[y] == multiset(b[..k] + b[k + 1..])[y] {
      assert multiset(a)[y] == multiset(b)[y];
    }
  }

  /** Reordering the table does not change how many users are above an XP value. */
  lemma {:induction false} CountAbovePermutation(a: seq<Player>, b: seq<Player>, xp: int)
    requires multiset(a) == multiset(b)
    ensures CountAbove(a, xp) == CountAbove(b, xp)
    decreases |a|
  {
    if a == [] {
      assert |b| == |multiset(b)| == 0;
    } else {
      var k := IndexOf(a[0], b);
      CountAboveRemove(b, k, xp);
      RemoveMatching(a, b, k);
      CountAbovePermutation(a[1..], b[..k] + b[k + 1..], xp);
    }
  }

  /** No user is strictly above `xp` exactly when every user has at most `xp`. */
  lemma {:induction false} CountAboveZero(users: seq<Player>, xp: int)
    ensures CountAbove(users, xp) == 0 <==> forall p :: p in users ==> p.totalXp <= xp
    decreases |users|
  {
    if users != [] {
      CountAboveZero(users[1..], xp);
      assert users == [users[0]] + users[1..];
    }
  }

  /** A user never counts as above their own XP, so fewer than all users are above it. */
  lemma {:induction false} CountAboveBelowSize(users: seq<Player>, xp: int)
    requires exists p :: p in users && p.totalXp <= xp
    ensures CountAbove(users, xp) < |users|
    decreases |users|
  {
    if users[0].totalXp > xp {
      assert users == [users[0]] + users[1..];
      CountAboveBelowSize(users[1..], xp);
    } else {
      CountAboveAtMostSize(users[1..], xp);
    }
  }

  lemma {:induction false} CountAboveAtMostSize(users: seq<Player>, xp: int)
    ensures CountAbove(users, xp) <= |users|
    decreases |users|
  {
    if users != [] {
      CountAboveAtMostSize(users[1..], xp);
    }
  }

  /** In a list sorted by XP (highest first) at most `i` users are above the `i`-th one. */
  lemma CountAboveInSorted(s: seq<Player>, i: int)
    requires SortedBy(s, XpKey)
    requires 0 <= i < |s|
    ensures CountAbove(s, s[i].totalXp) <= i
  {
    assert s == s[..i] + s[i..];
    CountAboveAppend(s[..i], s[i..], s[i].totalXp);
    CountAboveAtMostSize(s[..i], s[i].totalXp);
    forall p | p in s[i..] ensures p.totalXp <= s[i].totalXp {
      var j :| 0 <= j < |s[i..]| && s[i..][j] == p;
      assert s[i + j] == p;
      if j > 0 {
        assert KeyLe(XpKey(s[i]), XpKey(s[i + j]));
      }
    }
    CountAboveZero(s[i..], s[i].totalXp);
  }

  predicate UniqueIds(users: seq<Player>) {
    forall a, b :: 0 <= a < b < |users| ==> users[a].id != users[b].id
  }

  /** With unique primary keys, looking a row up by its id finds that row. */
  lemma {:induction false} FindPlayerOfMember(users: seq<Player>, p: Player)
    requires UniqueIds(users) && p in users
    ensures FindPlayer(users, p.id) == Some(p)
    decreases |users|
  {
    if users[0] != p {
      var k :| 0 <= k < |users| && users[k] == p;
      assert k > 0;
      assert users[1..][k - 1] == p;
      FindPlayerOfMember(users[1..], p);
    }
  }

  /** Every row above `xp` counts. */
  lemma {:induction false} CountAboveAll(users: seq<Player>, xp: int)
    requires forall k :: 0 <= k < |users| ==> users[k].totalXp > xp
    ensures CountAbove(users, xp) == |users|
    decreases |users|
  {
    if users != [] {
      CountAboveAll(users[1..], xp);
    }
  }

  /** In a list sorted by XP whose `i`-th row is not tied with the row before it, exactly `i` users are above it. */
  lemma CountAboveInSortedExact(s: seq<Player>, i: int)
    requires SortedBy(s, XpKey)
    requires 0 <= i < |s|
    requires i > 0 ==> s[i - 1].totalXp != s[i].totalXp
    ensures CountAbove(s, s[i].totalXp) == i
  {
    CountAboveSplit(s, i, s[i].totalXp);
    SortedHeadAbove(s, i);
    SortedTailNotAbove(s, i);
  }

  /** Nobody after a row in the XP-descending order has more XP than it. */
  lemma SortedTailNotAbove(s: seq<Player>, i: int)
    requires SortedBy(s, XpKey)
    requires 0 <= i < |s|
    ensures CountAbove(s[i + 1..], s[i].totalXp) == 0
  {
    SortedTailBelow(s, i + 1);
    CountAboveZero(s[i + 1..], s[i].totalXp);
  }

  /** Every row before a row not tied with its predecessor has more XP than it. */
  lemma SortedHeadAbove(s: seq<Player>, i: int)
    requires SortedBy(s, XpKey)
    requires 0 <= i < |s|
    requires i > 0 ==> s[i - 1].totalXp != s[i].totalXp
    ensures CountAbove(s[..i], s[i].totalXp) == i
  {
    var above := s[..i];
    forall k | 0 <= k < i ensures above[k].totalXp > s[i].totalXp {
      assert KeyLe(XpKey(s[i - 1]), XpKey(s[i]));
      if k < i - 1 {
        assert KeyLe(XpKey(s[k]), XpKey(s[i - 1]));
      }
    }
    CountAboveAll(above, s[i].totalXp);
  }

  /**
   * The two operations agree up to ties: the rank `getUserRank` gives a listed user is at
   * most the rank of their entry in `getTopUsers`, and smaller only when that entry has the
   * same XP as the entry listed just before it.
   */
  lemma TopRankBoundsUserRank(users: seq<Player>, limit: int, i: int)
    requires limit >= 1 && UniqueIds(users)
    requires 0 <= i < |GetTopUsers(users, limit)|
    ensures var e := GetTopUsers(users, limit)[i];
      && GetUserRank(users, e.userId).Ok? && GetUserRank(users, e.userId).value.rank <= e.rank
      && (GetUserRank(users, e.userId).value.rank < e.rank ==>
            i > 0 && GetTopUsers(users, limit)[i - 1].totalXp == e.totalXp)
  {
    var sorted := SortBy(users, XpKey);
    var t := TopRows(users, limit);
    assert t[i] == sorted[i];
    CountAboveInSorted(sorted, i);
    CountAbovePermutation(sorted, users, t[i].totalXp);
    assert t[i] in multiset(users);
    FindPlayerOfMember(users, t[i]);
    if i > 0 && sorted[i - 1].totalXp != sorted[i].totalXp {
      CountAboveInSortedExact(sorted, i);
    } else if i == 0 {
      CountAboveInSortedExact(sorted, i);
    } else {
      assert t[i - 1] == sorted[i - 1];
    }
  }

  /** In the XP-descending order nobody after position `n - 1` has more XP than that row. */
  lemma SortedTailBelow(sorted: seq<Player>, n: int)
    requires SortedBy(sorted, XpKey) && 1 <= n <= |sorted|
    ensures forall p :: p in sorted[n..] ==> p.totalXp <= sorted[n - 1].totalXp
  {
    forall p | p in sorted[n..] ensures p.totalXp <= sorted[n - 1].totalXp {
      var j :| 0 <= j < |sorted[n..]| && sorted[n..][j] == p;
      assert sorted[n + j] == p;
      assert KeyLe(XpKey(sorted[n - 1]), XpKey(sorted[n + j]));
    }
  }

  /** The list really is the top: every user left out has at most the XP of the last listed user. */
  lemma TopUsersAreTop(users: seq<Player>, limit: int)
    requires limit >= 1 && |users| >= 1
    ensures var t := TopRows(users, limit);
      forall p: Player :: p in multiset(users) - multiset(t) ==> p.totalXp <= t[|t| - 1].totalXp
  {
    var sorted := SortBy(users, XpKey);
    var n := Min(limit, |users|);
    var t := TopRows(users, limit);
    assert t == sorted[..n];
    assert sorted == t + sorted[n..];
    assert multiset(sorted) == multiset(t) + multiset(sorted[n..]);
    assert multiset(users) - multiset(t) == multiset(sorted[n..]);
    SortedTailBelow(sorted, n);
    forall p: Player | p in multiset(users) - multiset(t) ensures p.totalXp <= t[n - 1].totalXp {
      assert p in sorted[n..];
    }
  }

  /** A user ranks first exactly when nobody has more XP; a rank never exceeds the number of users. */
  lemma UserRankBounds(users: seq<Player>, userId: int)
    requires GetUserRank(users, userId).Ok?
    ensures var e := GetUserRank(users, userId).value;
      && 1 <= e.rank <= |users|
      && (e.rank == 1 <==> forall p :: p in users ==> p.totalXp <= e.totalXp)
  {
    var p := FindPlayer(users, userId).value;
    CountAboveZero(users, p.totalXp);
    CountAboveBelowSize(users, p.totalXp);
  }

  /** Users with the same XP share a rank. */
  lemma TiedUsersShareRank(users: seq<Player>, a: int, b: int)
    requires GetUserRank(users, a).Ok? && GetUserRank(users, b).Ok?
    requires GetUserRank(users, a).value.totalXp == GetUserRank(users, b).value.totalXp
    ensures GetUserRank(users, a).value.rank == GetUserRank(users, b).value.rank
  {
  }
}
