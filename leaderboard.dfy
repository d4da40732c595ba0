/** The universal leaderboard update of the game-over effect (App.tsx): append
    the new entry, sort descending by score, keep the first twenty. The sort is
    the engine's stable `Array.prototype.sort` with comparator
    `(a, b) => b.score - a.score`; it is modelled by a reference stable
    insertion sort, characterised below by the three facts that determine a
    stable sort: sorted, a permutation, and equal scores in their old order. */
module Leaderboard {
  import opened Types

  /** The leaderboard keeps at most this many entries. */
  const LEADERBOARD_SIZE: nat := 20

  /** Non-increasing score order. */
  predicate SortedByScore(s: seq<LeaderboardEntry>) {
    forall i, j :: 0 <= i < j < |s| ==> s[i].score >= s[j].score
  }

  /** A leaderboard as the update leaves it: sorted and no longer than the cap. */
  predicate ValidBoard(s: seq<LeaderboardEntry>) {
    SortedByScore(s) && |s| <= LEADERBOARD_SIZE
  }

  /** `e` put after the trailing entries that score less than it, so it ends up
      behind every entry scoring at least as much: where a stable descending
      sort puts an element that comes last. */
  function InsertByScore(s: seq<LeaderboardEntry>, e: LeaderboardEntry): (r: seq<LeaderboardEntry>)
    ensures |r| == |s| + 1
    ensures multiset(r) == multiset(s) + multiset{e}
  {
    if s == [] || s[|s| - 1].score >= e.score then s + [e]
    else
      assert s == s[..|s| - 1] + [s[|s| - 1]];
      InsertByScore(s[..|s| - 1], e) + [s[|s| - 1]]
  }

  /** The stable descending sort by score. */
  function SortByScore(s: seq<LeaderboardEntry>): (r: seq<LeaderboardEntry>)
    ensures |r| == |s|
    ensures multiset(r) == multiset(s)
  {
    if s == [] then []
    else
      assert s == s[..|s| - 1] + [s[|s| - 1]];
      InsertByScore(SortByScore(s[..|s| - 1]), s[|s| - 1])
  }

  /** The entries of `s` with score `k`, in order. */
  function WithScore(s: seq<LeaderboardEntry>, k: int): (r: seq<LeaderboardEntry>)
    ensures |r| <= |s|
    ensures forall i :: 0 <= i < |r| ==> r[i].score == k
  {
    if s == [] then []
    else WithScore(s[..|s| - 1], k) + (if s[|s| - 1].score == k then [s[|s| - 1]] else [])
  }

  /** How many entries of `s` score at least `k`. */
  function CountAtLeast(s: seq<LeaderboardEntry>, k: int): (c: nat)
    ensures c <= |s|
  {
    if s == [] then 0
    else CountAtLeast(s[..|s| - 1], k) + (if s[|s| - 1].score >= k then 1 else 0)
  }

  /** `setLeaderboard(prev => …)`: `prev` with `entry` appended, sorted by
      descending score, cut to the first twenty. The result is sorted, as long
      as the cap allows, drawn from the old entries and the new one, and it
      holds all of them while there is room. */
  function UpdateLeaderboard(prev: seq<LeaderboardEntry>, entry: LeaderboardEntry): (r: seq<LeaderboardEntry>)
    ensures ValidBoard(r)
    ensures |r| == if |prev| + 1 < LEADERBOARD_SIZE then |prev| + 1 else LEADERBOARD_SIZE
    ensures multiset(r) <= multiset(prev) + multiset{entry}
    ensures |prev| < LEADERBOARD_SIZE ==> multiset(r) == multiset(prev) + multiset{entry} && entry in r
  {
    var updated := SortByScore(prev + [entry]);
    var n := if |updated| < LEADERBOARD_SIZE then |updated| else LEADERBOARD_SIZE;
    SortSorted(prev + [entry]);
    assert updated == updated[..n] + updated[n..];
    assert multiset(updated) == multiset(updated[..n]) + multiset(updated[n..]);
    assert |prev| < LEADERBOARD_SIZE ==> updated[..n] == updated;
    assert entry in multiset(prev + [entry]);
    updated[..n]
  }

  lemma SortedAppend(s: seq<LeaderboardEntry>, e: LeaderboardEntry)
    requires SortedByScore(s)
    requires forall x :: x in s ==> x.score >= e.score
    ensures SortedByScore(s + [e])
  {
    forall i, j | 0 <= i < j < |s + [e]| ensures (s + [e])[i].score >= (s + [e])[j].score {
      assert (s + [e])[i] == s[i];
      if j < |s| {
        assert (s + [e])[j] == s[j];
      } else {
        assert s[i] in s;
      }
    }
  }

  /** Inserting into a sorted list keeps it sorted. */
  lemma {:induction false} InsertSorted(s: seq<LeaderboardEntry>, e: LeaderboardEntry)
    requires SortedByScore(s)
    ensures SortedByScore(InsertByScore(s, e))
  {
    if s == [] {
    } else if s[|s| - 1].score >= e.score {
      forall x | x in s ensures x.score >= e.score {
        var i :| 0 <= i < |s| && s[i] == x;
      }
      SortedAppend(s, e);
    } else {
      var front, last := s[..|s| - 1], s[|s| - 1];
      assert SortedByScore(front);
      InsertSorted(front, e);
      var r := InsertByScore(front, e);
      forall x | x in r ensures x.score >= last.score {
        assert x in multiset(r);
        if x != e {
          assert x in multiset(front);
          var i :| 0 <= i < |front| && front[i] == x;
          assert s[i] == x;
        }
      }
      SortedAppend(r, last);
    }
  }

  /** The reference sort yields non-increasing scores. */
  lemma {:induction false} SortSorted(s: seq<LeaderboardEntry>)
    ensures SortedByScore(SortByScore(s))
  {
    if s != [] {
      SortSorted(s[..|s| - 1]);
      InsertSorted(SortByScore(s[..|s| - 1]), s[|s| - 1]);
    }
  }

  lemma WithScoreSnoc(s: seq<LeaderboardEntry>, x: LeaderboardEntry, k: int)
    ensures WithScore(s + [x], k) == WithScore(s, k) + (if x.score == k then [x] else [])
  {
    assert (s + [x])[..|s|] == s;
  }

  lemma CountSnoc(s: seq<LeaderboardEntry>, x: LeaderboardEntry, k: int)
    ensures CountAtLeast(s + [x], k) == CountAtLeast(s, k) + (if x.score >= k then 1 else 0)
  {
    assert (s + [x])[..|s|] == s;
  }

  /** Insertion puts `e` after every entry of its own score: among the entries
      scoring `k`, the old ones keep their order and `e` comes last. */
  lemma {:induction false} InsertStable(s: seq<LeaderboardEntry>, e: LeaderboardEntry, k: int)
    ensures WithScore(InsertByScore(s, e), k) == WithScore(s, k) + (if e.score == k then [e] else [])
  {
    if s == [] || s[|s| - 1].score >= e.score {
      WithScoreSnoc(s, e, k);
    } else {
      var front, last := s[..|s| - 1], s[|s| - 1];
      assert s == front + [last];
      InsertStable(front, e, k);
      WithScoreSnoc(InsertByScore(front, e), last, k);
      WithScoreSnoc(front, last, k);
    }
  }

  /** The sort is stable: the entries of any one score stay in their old order. */
  lemma {:induction false} SortStable(s: seq<LeaderboardEntry>, k: int)
    ensures WithScore(SortByScore(s), k) == WithScore(s, k)
  {
    if s != [] {
      var front, last := s[..|s| - 1], s[|s| - 1];
      assert s == front + [last];
      SortStable(front, k);
      InsertStable(SortByScore(front), last, k);
      WithScoreSnoc(front, last, k);
    }
  }

  lemma {:induction false} InsertCount(s: seq<LeaderboardEntry>, e: LeaderboardEntry, k: int)
    ensures CountAtLeast(InsertByScore(s, e), k) == CountAtLeast(s, k) + (if e.score >= k then 1 else 0)
  {
    if s == [] || s[|s| - 1].score >= e.score {
      CountSnoc(s, e, k);
    } else {
      var front, last := s[..|s| - 1], s[|s| - 1];
      assert s == front + [last];
      InsertCount(front, e, k);
      CountSnoc(InsertByScore(front, e), last, k);
      CountSnoc(front, last, k);
    }
  }

  /** Sorting does not change how many entries reach a score. */
  lemma {:induction false} SortCount(s: seq<LeaderboardEntry>, k: int)
    ensures CountAtLeast(SortByScore(s), k) == CountAtLeast(s, k)
  {
    if s != [] {
      var front, last := s[..|s| - 1], s[|s| - 1];
      assert s == front + [last];
      SortCount(front, k);
      InsertCount(SortByScore(front), last, k);
      CountSnoc(front, last, k);
    }
  }

  /** In a sorted list whose last entry reaches `k`, every entry does. */
  lemma {:induction false} CountAll(s: seq<LeaderboardEntry>, k: int)
    requires SortedByScore(s) && (s != [] ==> s[|s| - 1].score >= k)
    ensures CountAtLeast(s, k) == |s|
  {
    if s != [] {
      var front := s[..|s| - 1];
      assert SortedByScore(front);
      if front != [] {
        assert front[|front| - 1] == s[|s| - 2];
      }
      CountAll(front, k);
    }
  }

  /** In a sorted list, insertion places `e` right after the entries that score
      at least as much as `e`. */
  lemma {:induction false} InsertAt(s: seq<LeaderboardEntry>, e: LeaderboardEntry)
    requires SortedByScore(s)
    ensures var c := CountAtLeast(s, e.score);
      InsertByScore(s, e) == s[..c] + [e] + s[c..]
  {
    var c := CountAtLeast(s, e.score);
    if s == [] || s[|s| - 1].score >= e.score {
      CountAll(s, e.score);
      assert s[..c] == s && s[c..] == [];
    } else {
      var front, last := s[..|s| - 1], s[|s| - 1];
      assert s == front + [last];
      assert SortedByScore(front);
      CountSnoc(front, last, e.score);
      assert c == CountAtLeast(front, e.score);
      InsertAt(front, e);
      assert s[..c] == front[..c];
      assert s[c..] == front[c..] + [last];
    }
  }

  /** Sorting with one entry appended is inserting it into the sorted rest. */
  lemma SortSnoc(prev: seq<LeaderboardEntry>, entry: LeaderboardEntry)
    ensures SortByScore(prev + [entry]) == InsertByScore(SortByScore(prev), entry)
  {
    assert (prev + [entry])[..|prev|] == prev;
  }

  /** The update is the first entries of the full sorted list. */
  lemma UpdatePrefix(prev: seq<LeaderboardEntry>, entry: LeaderboardEntry)
    ensures var u := SortByScore(prev + [entry]);
      |UpdateLeaderboard(prev, entry)| <= |u| && UpdateLeaderboard(prev, entry) == u[..|UpdateLeaderboard(prev, entry)|]
  {
  }

  /** Cutting an insertion into a sorted list to its first `n` entries keeps
      the inserted entry exactly when fewer than `n` entries precede it. */
  lemma CutAfterInsert(s: seq<LeaderboardEntry>, e: LeaderboardEntry, c: nat, n: nat)
    requires SortedByScore(s) && c == CountAtLeast(s, e.score) && n <= |s| + 1
    ensures var u := InsertByScore(s, e);
      && (c < n ==> u[..n][c] == e)
      && (c >= n ==> u[..n] == s[..n])
  {
    InsertAt(s, e);
  }

  /** Where the new entry lands: behind the `c` old entries that score at least
      as much as it (ties stay ahead of it). It is kept exactly when `c` is
      below the cap, at index `c`; otherwise the board is the old entries'
      top twenty and the new one is dropped. */
  lemma EntryPlacement(prev: seq<LeaderboardEntry>, entry: LeaderboardEntry)
    ensures var r, c := UpdateLeaderboard(prev, entry), CountAtLeast(prev, entry.score);
      && (c < LEADERBOARD_SIZE ==> c < |r| && r[c] == entry)
      && (c >= LEADERBOARD_SIZE ==> r == SortByScore(prev)[..LEADERBOARD_SIZE])
  {
    var c := CountAtLeast(prev, entry.score);
    var r := UpdateLeaderboard(prev, entry);
    SortSnoc(prev, entry);
    SortSorted(prev);
    SortCount(prev, entry.score);
    UpdatePrefix(prev, entry);
    CutAfterInsert(SortByScore(prev), entry, c, |r|);
  }

  /** Cutting a sorted list to a prefix drops only entries that score no
      more than any entry kept. */
  lemma PrefixKeepsTop(u: seq<LeaderboardEntry>, n: nat)
    requires SortedByScore(u) && n <= |u|
    ensures forall x, i :: x in multiset(u) - multiset(u[..n]) && 0 <= i < n ==> x.score <= u[i].score
  {
    assert u == u[..n] + u[n..];
    assert multiset(u) == multiset(u[..n]) + multiset(u[n..]);
    forall x, i | x in multiset(u) - multiset(u[..n]) && 0 <= i < n ensures x.score <= u[i].score {
      assert x in multiset(u[n..]);
      var j :| 0 <= j < |u[n..]| && u[n..][j] == x;
      assert u[n + j] == x;
    }
  }

  /** Only the lowest entries are cut: every entry dropped scores no more than
      any entry kept. */
  lemma UpdateKeepsTop(prev: seq<LeaderboardEntry>, entry: LeaderboardEntry)
    ensures var r := UpdateLeaderboard(prev, entry);
      forall x, i :: x in multiset(prev) + multiset{entry} - multiset(r) && 0 <= i < |r| ==>
        x.score <= r[i].score
  {
    var u := SortByScore(prev + [entry]);
    var r := UpdateLeaderboard(prev, entry);
    SortSorted(prev + [entry]);
    UpdatePrefix(prev, entry);
    PrefixKeepsTop(u, |r|);
    assert multiset(u) == multiset(prev) + multiset{entry};
  }
}
