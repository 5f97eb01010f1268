/**
 Leaderboard aggregation (programming_in_small/example3): sum the scores of
 a stream of events per player, turn the per-player map into a list of
 players and sort it by score, highest first. `updateLeaderboard` does the
 summing with a loop, `updateLeaderboardCorecursive` with accumulator
 recursion; both end with the same map-to-list loop and in-place sort.
 */
module Leaderboard {
  import opened GoMap

  datatype Event = Event(playerID: string, score: int)
  datatype Player = Player(id: string, score: int)

  // ---------------------------------------------------------------------
  // Reference definitions

  /** Sum of the scores of the events of player `id` (negative ones included). */
  function Total(events: seq<Event>, id: string): int
  {
    if events == [] then 0
    else (if events[0].playerID == id then events[0].score else 0) + Total(events[1..], id)
  }

  /** The players that have at least one event. */
  function Ids(events: seq<Event>): set<string>
  {
    set e | e in events :: e.playerID
  }

  /** Reference per-player totals. */
  function Totals(events: seq<Event>): map<string, int>
  {
    map id | id in Ids(events) :: Total(events, id)
  }

  /** The map's entries, as the players the leaderboard is made of. */
  function Entries(scores: map<string, int>): set<Player>
  {
    set id | id in scores :: Player(id, scores[id])
  }

  /** Non-increasing by score (the order `sort.Slice` with `>` produces). */
  ghost predicate SortedByScore(board: seq<Player>)
  {
    forall i, j :: 0 <= i < j < |board| ==> board[i].score >= board[j].score
  }

  /** `board` lists every entry of `scores` exactly once, highest score first.
      Nothing is said about the order of players with equal scores. */
  ghost predicate IsRanking(board: seq<Player>, scores: map<string, int>)
  {
    multiset(board) == multiset(Entries(scores)) && SortedByScore(board)
  }

  lemma {:induction false} TotalAppend(a: seq<Event>, b: seq<Event>, id: string)
    ensures Total(a + b, id) == Total(a, id) + Total(b, id)
  {
    if a != [] {
      assert (a + b)[0] == a[0] && (a + b)[1..] == a[1..] + b;
      TotalAppend(a[1..], b, id);
    } else {
      assert a + b == b;
    }
  }

  // ---------------------------------------------------------------------
  // Shared tail: map to list, then sort

  /** `sort.Slice(s, func(i, j) { s[i].Score > s[j].Score })`, in place.
      The library's algorithm is not visible; any in-place sort gives what
      the call promises: the same elements, non-increasing by score. */
  method SortByScore(a: array<Player>)
    modifies a
    ensures SortedByScore(a[..])
    ensures multiset(a[..]) == old(multiset(a[..]))
  {
    if a.Length == 0 {
      return;
    }
    var i := 1;
    while i < a.Length
      invariant 1 <= i <= a.Length
      invariant SortedByScore(a[..i])
      invariant multiset(a[..]) == old(multiset(a[..]))
    {
      InsertLast(a, i);
      i := i + 1;
    }
    assert a[..] == a[..a.Length];
  }

  /** One insertion step: `a[..i]` is sorted; sink `a[i]` into place. */
  method InsertLast(a: array<Player>, i: int)
    requires 0 < i < a.Length
    requires SortedByScore(a[..i])
    modifies a
    ensures SortedByScore(a[..i + 1])
    ensures multiset(a[..]) == old(multiset(a[..]))
  {
    var j := i;
    while j > 0 && a[j - 1].score < a[j].score
      invariant 0 <= j <= i
      invariant forall p, q :: 0 <= p < q <= i && p != j && q != j ==> a[p].score >= a[q].score
      invariant forall q :: j < q <= i ==> a[j].score > a[q].score
      invariant multiset(a[..]) == old(multiset(a[..]))
    {
      Swap(a, j - 1, j);
      j := j - 1;
    }
  }

  method Swap(a: array<Player>, i: int, j: int)
    requires 0 <= i < j < a.Length
    modifies a
    ensures a[..] == old(a[..])[i := old(a[j])][j := old(a[i])]
    ensures multiset(a[..]) == old(multiset(a[..]))
  {
    a[i], a[j] := a[j], a[i];
  }

  /** Lines that turn the per-player map into a sorted list: one `Player`
      per key (in Go's unspecified map order), then the in-place sort. */
  method RankEntries(scores: map<string, int>) returns (board: seq<Player>)
    ensures IsRanking(board, scores)
  {
    var unsorted: seq<Player> := [];
    var left := scores.Keys;
    while left != {}
      invariant left <= scores.Keys
      invariant multiset(unsorted) == multiset(Entries(scores - left))
      decreases left
    {
      var id :| id in left;
      var p := Player(id, scores[id]);
      assert (scores - (left - {id})) - {id} == scores - left;
      EntriesRemove(scores - (left - {id}), id);
      unsorted := unsorted + [p];
      left := left - {id};
    }
    assert scores - {} == scores;
    var a := new Player[|unsorted|](k requires 0 <= k < |unsorted| => unsorted[k]);
    assert a[..] == unsorted;
    SortByScore(a);
    board := a[..];
  }

  // ---------------------------------------------------------------------
  // example3/before: the loop version

  /** `updateLeaderboard`: sum per player with a loop, then rank. */
  method UpdateLeaderboard(events: seq<Event>) returns (board: seq<Player>)
    ensures IsRanking(board, Totals(events))
  {
    var leaderboard: map<string, int> := map[];
    for i := 0 to |events|
      invariant leaderboard.Keys == Ids(events[..i])
      invariant forall id :: Lookup(leaderboard, id) == Total(events[..i], id)
    {
      assert events[..i + 1] == events[..i] + [events[i]];
      forall id ensures Total(events[..i + 1], id) == Total(events[..i], id) + Total([events[i]], id) {
        TotalAppend(events[..i], [events[i]], id);
      }
      forall id ensures Total([events[i]], id) == if events[i].playerID == id then events[i].score else 0 {
        assert [events[i]][1..] == [];
      }
      leaderboard := Add(leaderboard, events[i].playerID, events[i].score);
    }
    assert events[..|events|] == events;
    assert leaderboard == Totals(events) by {
      forall id | id in leaderboard ensures leaderboard[id] == Totals(events)[id] {
        assert Lookup(leaderboard, id) == Total(events, id);
      }
    }
    board := RankEntries(leaderboard);
  }

  // ---------------------------------------------------------------------
  // example3/after: the accumulator-recursion version

  /** The recursive half of `update`: `acc[PlayerID] += Score` for the head
      event, then the rest. */
  function Accumulate(remaining: seq<Event>, acc: map<string, int>): map<string, int>
    decreases |remaining|
  {
    if |remaining| != 0 then Accumulate(remaining[1..], Add(acc, remaining[0].playerID, remaining[0].score))
    else acc
  }

  /** `update`: recurse while events remain; in the base case, rank `acc`. */
  method Update(remaining: seq<Event>, acc: map<string, int>) returns (board: seq<Player>)
    ensures IsRanking(board, Accumulate(remaining, acc))
    decreases |remaining|
  {
    if |remaining| != 0 {
      board := Update(remaining[1..], Add(acc, remaining[0].playerID, remaining[0].score));
      return;
    }
    board := RankEntries(acc);
  }

  /** `updateLeaderboardCorecursive`: `update` from an empty map. */
  method UpdateLeaderboardCorecursive(events: seq<Event>) returns (board: seq<Player>)
    ensures IsRanking(board, Totals(events))
  {
    board := Update(events, map[]);
    AccumulateIsTotals(events);
  }

  /** `update` adds every remaining event's score into its player's entry
      before ranking, and adds no other key. */
  lemma {:induction false} AccumulateScores(remaining: seq<Event>, acc: map<string, int>)
    ensures Accumulate(remaining, acc).Keys == acc.Keys + Ids(remaining)
    ensures forall id :: Lookup(Accumulate(remaining, acc), id) == Lookup(acc, id) + Total(remaining, id)
    decreases |remaining|
  {
    if |remaining| != 0 {
      var e, rest := remaining[0], remaining[1..];
      AccumulateScores(rest, Add(acc, e.playerID, e.score));
      assert remaining == [e] + rest;
      assert Ids(remaining) == {e.playerID} + Ids(rest);
    }
  }

  /** Starting from the empty map, the recursion produces the reference totals. */
  lemma AccumulateIsTotals(events: seq<Event>)
    ensures Accumulate(events, map[]) == Totals(events)
  {
    var r := Accumulate(events, map[]);
    AccumulateScores(events, map[]);
    forall id | id in r ensures r[id] == Totals(events)[id] {
      assert Lookup(r, id) == Total(events, id);
    }
  }

  // ---------------------------------------------------------------------
  // What a ranking says

  /** Taking a key out of a map takes exactly its entry out of the entries. */
  lemma EntriesRemove(scores: map<string, int>, k: string)
    requires k in scores
    ensures Entries(scores) == Entries(scores - {k}) + {Player(k, scores[k])}
    ensures Player(k, scores[k]) !in Entries(scores - {k})
  {
    forall p | p in Entries(scores) ensures p in Entries(scores - {k}) + {Player(k, scores[k])} {
      var j :| j in scores && p == Player(j, scores[j]);
      if j != k {
        assert j in scores - {k};
      }
    }
    assert Player(k, scores[k]) in Entries(scores);
  }

  lemma EntriesCard(scores: map<string, int>)
    ensures |Entries(scores)| == |scores|
    decreases |scores.Keys|
  {
    if scores.Keys != {} {
      var k :| k in scores;
      var rest := scores - {k};
      assert rest.Keys == scores.Keys - {k};
      EntriesCard(rest);
      EntriesRemove(scores, k);
    } else {
      assert Entries(scores) == {};
    }
  }

  lemma RepeatedElement(s: seq<Player>, i: int, j: int)
    requires 0 <= i < j < |s| && s[i] == s[j]
    ensures multiset(s)[s[i]] >= 2
  {
    assert s == s[..j] + s[j..];
    assert s[i] in s[..j] && s[j] in s[j..];
  }

  /** A ranking of a map has one player per key, carrying that key's score,
      and no player twice. */
  lemma {:induction false} RankingEntries(board: seq<Player>, scores: map<string, int>)
    requires IsRanking(board, scores)
    ensures |board| == |scores|
    ensures forall i :: 0 <= i < |board| ==> board[i].id in scores && board[i].score == scores[board[i].id]
    ensures forall id :: id in scores ==> Player(id, scores[id]) in board
    ensures forall i, j :: 0 <= i < j < |board| ==> board[i].id != board[j].id
  {
    EntriesCard(scores);
    assert |multiset(board)| == |board|;
    assert |multiset(Entries(scores))| == |Entries(scores)|;
    forall i | 0 <= i < |board| ensures board[i].id in scores && board[i].score == scores[board[i].id] {
      assert board[i] in multiset(board);
    }
    forall id | id in scores ensures Player(id, scores[id]) in board {
      assert Player(id, scores[id]) in multiset(Entries(scores));
    }
    forall i, j | 0 <= i < j < |board| ensures board[i].id != board[j].id {
      if board[i].id == board[j].id {
        assert board[i] == board[j];
        RepeatedElement(board, i, j);
        assert false;
      }
    }
  }

  /** What both versions promise about their output: each player's score is
      the sum of that player's events, every player with an event appears
      once and no one else, and scores never increase down the list. */
  lemma LeaderboardMeaning(events: seq<Event>, board: seq<Player>)
    requires IsRanking(board, Totals(events))
    ensures |board| == |Ids(events)|
    ensures forall i :: 0 <= i < |board| ==> board[i].score == Total(events, board[i].id)
    ensures forall i, j :: 0 <= i < j < |board| ==> board[i].id != board[j].id
    ensures forall id :: id in Ids(events) <==> exists i :: 0 <= i < |board| && board[i].id == id
    ensures forall i, j :: 0 <= i < j < |board| ==> board[i].score >= board[j].score
    ensures events == [] ==> board == []
  {
    RankingEntries(board, Totals(events));
    assert Totals(events).Keys == Ids(events);
    forall id | id in Ids(events) ensures exists i :: 0 <= i < |board| && board[i].id == id {
      var p := Player(id, Totals(events)[id]);
      assert p in board;
      var i :| 0 <= i < |board| && board[i] == p;
    }
  }

  /** Removing one element keeps a list sorted and removes exactly that
      element from its multiset. */
  lemma RemoveAt(b: seq<Player>, k: int)
    requires 0 <= k < |b|
    ensures multiset(b[..k] + b[k + 1..]) == multiset(b) - multiset{b[k]}
    ensures SortedByScore(b) ==> SortedByScore(b[..k] + b[k + 1..])
  {
    assert b == b[..k] + [b[k]] + b[k + 1..];
    var b' := b[..k] + b[k + 1..];
    forall i | 0 <= i < |b'| ensures b'[i] == b[if i < k then i else i + 1] { }
  }

  /** The head of a sorted list has the largest score of all its elements. */
  lemma HeadIsMax(a: seq<Player>, b: seq<Player>)
    requires multiset(a) == multiset(b) && |a| > 0 && SortedByScore(a)
    ensures |b| > 0 && forall i :: 0 <= i < |b| ==> b[i].score <= a[0].score
  {
    assert a[0] in multiset(b);
    forall i | 0 <= i < |b| ensures b[i].score <= a[0].score {
      assert b[i] in multiset(a);
    }
  }

  /** Two sorted permutations of each other have the same score at every
      rank; they can differ only in the order of equally scored players. */
  lemma {:induction false} SortedPermutationScores(a: seq<Player>, b: seq<Player>)
    requires multiset(a) == multiset(b)
    requires SortedByScore(a) && SortedByScore(b)
    ensures |a| == |b|
    ensures forall i :: 0 <= i < |a| ==> a[i].score == b[i].score
    decreases |a|
  {
    assert |multiset(a)| == |a| && |multiset(b)| == |b|;
    if |a| != 0 {
      var k, b' := PeelHead(a, b);
      SortedPermutationScores(a[1..], b');
      forall i | 1 <= i < |a| ensures a[i].score == b[i].score {
        assert a[i] == a[1..][i - 1];
      }
    }
  }

  /** The head of sorted `a` occurs in `b` at some rank `k` tied with `b`'s
      head; what is left of both lists after removing it is again a pair of
      sorted permutations, and `b` minus `b[k]` keeps `b`'s scores from rank 1 on. */
  lemma PeelHead(a: seq<Player>, b: seq<Player>) returns (k: int, rest: seq<Player>)
    requires multiset(a) == multiset(b) && |a| > 0
    requires SortedByScore(a) && SortedByScore(b)
    ensures 0 <= k < |b| && rest == b[..k] + b[k + 1..]
    ensures a[0].score == b[0].score
    ensures multiset(a[1..]) == multiset(rest)
    ensures SortedByScore(a[1..]) && SortedByScore(rest)
    ensures forall i :: 1 <= i < |b| ==> rest[i - 1].score == b[i].score
  {
    HeadIsMax(a, b);
    HeadIsMax(b, a);
    k := Locate(a[0], b);
    rest := b[..k] + b[k + 1..];
    RemoveAt(b, k);
    DropHead(a);
    TiedPrefixShift(b, k, rest);
  }

  lemma Locate(x: Player, b: seq<Player>) returns (k: int)
    requires x in multiset(b)
    ensures 0 <= k < |b| && b[k] == x
  {
    k :| 0 <= k < |b| && b[k] == x;
  }

  lemma DropHead(a: seq<Player>)
    requires |a| > 0
    ensures multiset(a[1..]) == multiset(a) - multiset{a[0]}
    ensures SortedByScore(a) ==> SortedByScore(a[1..])
  {
    assert a == [a[0]] + a[1..];
  }

  /** When `b[k]` ties with the head of sorted `b`, removing it shifts every
      later rank up by one without changing the score seen at that rank. */
  lemma TiedPrefixShift(b: seq<Player>, k: int, rest: seq<Player>)
    requires 0 <= k < |b| && SortedByScore(b) && b[0].score == b[k].score
    requires rest == b[..k] + b[k + 1..]
    ensures forall i :: 1 <= i < |b| ==> rest[i - 1].score == b[i].score
  {
    forall i | 1 <= i < |b| ensures rest[i - 1].score == b[i].score {
      if i <= k {
        assert rest[i - 1] == b[i - 1];
        assert b[0].score >= b[i - 1].score >= b[i].score >= b[k].score;
      } else {
        assert rest[i - 1] == b[i];
      }
    }
  }

  /** The refactoring preserves behaviour: the loop version and the
      recursive version give the same players with the same score at every
      rank, differing at most in the order of tied players. */
  lemma VersionsAgree(events: seq<Event>, before: seq<Player>, after: seq<Player>)
    requires IsRanking(before, Totals(events))
    requires IsRanking(after, Totals(events))
    ensures multiset(before) == multiset(after)
    ensures |before| == |after|
    ensures forall i :: 0 <= i < |before| ==> before[i].score == after[i].score
  {
    SortedPermutationScores(before, after);
  }

  /** The sample of `main`: player1 scores 100 and -30, player2 50, player3 200. */
  function SampleEvents(): seq<Event>
  {
    [Event("player1", 100), Event("player2", 50), Event("player1", -30), Event("player3", 200)]
  }

  lemma SampleTotals()
    ensures Totals(SampleEvents()) == map["player1" := 70, "player2" := 50, "player3" := 200]
  {
    var events := SampleEvents();
    assert Ids(events) == {"player1", "player2", "player3"} by {
      assert events[0] in events && events[1] in events && events[3] in events;
    }
    assert events[1..][1..][1..][1..] == [];
  }

  lemma SampleEntries()
    ensures Entries(Totals(SampleEvents())) == {Player("player3", 200), Player("player1", 70), Player("player2", 50)}
  {
    SampleTotals();
    var scores := Totals(SampleEvents());
    forall p | p in Entries(scores) ensures p in {Player("player3", 200), Player("player1", 70), Player("player2", 50)} {
      var id :| id in scores && p == Player(id, scores[id]);
    }
    assert "player1" in scores && "player2" in scores && "player3" in scores;
  }

  /** A ranking whose scores are all different is unique. */
  lemma DistinctScoresRanking(board: seq<Player>, expected: seq<Player>)
    requires multiset(board) == multiset(expected)
    requires SortedByScore(board) && SortedByScore(expected)
    requires forall i, j :: 0 <= i < j < |expected| ==> expected[i].score != expected[j].score
    ensures board == expected
  {
    SortedPermutationScores(board, expected);
    forall i | 0 <= i < |board| ensures board[i] == expected[i] {
      assert board[i] in multiset(expected);
      var j :| 0 <= j < |expected| && expected[j] == board[i];
    }
  }

  /** A ranking of a map with three differently scored entries. */
  lemma RankingOfThree(board: seq<Player>, scores: map<string, int>, p: Player, q: Player, r: Player)
    requires IsRanking(board, scores)
    requires Entries(scores) == {p, q, r}
    requires p.score > q.score > r.score
    ensures board == [p, q, r]
  {
    var expected := [p, q, r];
    assert multiset(board) == multiset(expected) by {
      assert multiset({p, q, r}) == multiset(expected);
    }
    DistinctScoresRanking(board, expected);
  }

  /** On the sample, the scores are all different, so the ranking is unique:
      player3 (200) first, then player1 (70), then player2 (50). */
  lemma SampleLeaderboard(board: seq<Player>)
    requires IsRanking(board, Totals(SampleEvents()))
    ensures board == [Player("player3", 200), Player("player1", 70), Player("player2", 50)]
  {
    SampleEntries();
    RankingOfThree(board, Totals(SampleEvents()), Player("player3", 200), Player("player1", 70), Player("player2", 50));
  }
}
