# Refactoring pairs from "programming in small", and a validating builder

This project models four small sequential Go programs and proves what they
compute. Three of them come in two versions: a loop version ("before") and a
version that uses accumulator recursion ("after"). The fourth is a fluent
builder.

- **Log-level histogram** (`LogStats`, example1). `aggregateLogs` counts log
  entries per level with a loop. `aggregateLogsCorecursive` threads the map
  through `aggregate`. Both are proved equal to `Histogram`, the reference
  map from each level to its number of entries. The histogram's properties
  are lemmas: the keys are exactly the occurring levels, every count is at
  least 1, the counts sum to the number of entries, an empty log gives an
  empty map, and reordering the entries changes nothing.
- **Leaderboard** (`Leaderboard`, example3). Scores are summed per player.
  The map is then turned into a list of players and sorted by score, highest
  first. `IsRanking(board, scores)` says that the board is a permutation of
  the map's entries and is non-increasing by score. Both versions are proved
  to return a ranking of `Totals(events)`, the reference per-player sums.
  Two rankings of the same map hold the same players and the same score at
  every rank (`VersionsAgree`). On the program's sample input the ranking is
  unique.
- **Cursor pagination** (`Pagination`, example2). The mock `fetchAPI` is
  called again with each response's cursor until a response's cursor is
  empty. `Cursors(c)` is the chain of cursors fetched from `c`, and
  `Pages(cs)` concatenates their pages in fetch order. The loop returns
  `Pages` of the unique chain from `""`. The recursion returns
  `acc + Pages(Cursors(cursor))`. Both give `["item1", "item2"]` after two
  fetches.
- **Product builder** (`Products`, module_is_important/v2). It is a class
  whose setters update one field each and return the same builder. `Build`
  returns an error result where the Go code panics.

`GoMap` holds the Go map semantics that the first two programs use. Reading
a missing key yields 0 (`Lookup`), and `m[k] += d` always stores `k` (`Add`).

Termination: `Aggregate`, `Accumulate` and `Update` recurse on
`remaining[1..]`, so `|remaining|` decreases. The pagination loop and
recursion decrease `FetchesLeft(cursor)`, which is at most 2.

Where the Go code iterates over a map (example3, the map-to-list loop), the
model picks the next key nondeterministically (`:|`). No property depends on
the order in which keys are picked.

## Model

| member | source | states |
|---|---|---|
| `GoMap.Add` | programming_in_small/example1/after/main.go:20 | `m[k] += d` (and `m[k]++`) adds `k` to the keys, raises the value read for `k` by `d`, and leaves every other key's value, missing keys included, unchanged |
| `LogStats.AggregateLogs` | programming_in_small/example1/before/main.go:11-17 | the loop returns the reference histogram. Its keys are exactly the levels that occur, each value is that level's number of entries and at least 1, and the result equals `aggregateLogsCorecursive(logs)` |
| `LogStats.AggregateCounts` | programming_in_small/example1/after/main.go:15-22 | `aggregate(remaining, acc)` adds to `acc` exactly the levels of `remaining`. Each level's count grows by its number of occurrences in `remaining`, and an empty `remaining` returns `acc` |
| `LogStats.CorecursiveIsHistogram` | programming_in_small/example1/after/main.go:11-13 | starting `aggregate` from an empty map yields the reference histogram |
| `LogStats.HistogramCounts` | programming_in_small/example1/before/main.go:13-15 | a level is a key iff it occurs in the logs, and its value is its number of occurrences |
| `LogStats.HistogramEmpty` | programming_in_small/example1/before/main.go:12-16 | no log entries give the empty map |
| `LogStats.HistogramTotal` | programming_in_small/example1/before/main.go:13-15 | the counts sum to `len(logs)` |
| `LogStats.HistogramPermutation` | programming_in_small/example1/before/main.go:13-15 | two logs with the same entries in any order give the same histogram |
| `Leaderboard.SortByScore` | programming_in_small/example3/before/main.go:30-32 | the in-place sort leaves the array non-increasing by score and a permutation of what it held |
| `Leaderboard.RankEntries` | programming_in_small/example3/before/main.go:25-32 | one player per map key, carrying that key's score, sorted. The result is a ranking of the map |
| `Leaderboard.UpdateLeaderboard` | programming_in_small/example3/before/main.go:18-35 | the loop version returns a ranking of the per-player score sums |
| `Leaderboard.AccumulateScores` | programming_in_small/example3/after/main.go:24-27 | the recursion adds every remaining event's score into its player's entry of `acc` and adds no other key |
| `Leaderboard.AccumulateIsTotals` | programming_in_small/example3/after/main.go:19-27 | from the empty map the recursion yields the reference per-player sums |
| `Leaderboard.Update` | programming_in_small/example3/after/main.go:23-38 | `update(remaining, acc)` returns a ranking of `acc` after all remaining events are added |
| `Leaderboard.UpdateLeaderboardCorecursive` | programming_in_small/example3/after/main.go:19-21 | the recursive version returns a ranking of the per-player score sums |
| `Leaderboard.RankingEntries` | programming_in_small/example3/after/main.go:29-32 | a ranking of a map has as many players as the map has keys. Each player's score is its key's value, every key appears, and no id appears twice |
| `Leaderboard.LeaderboardMeaning` | programming_in_small/example3/before/main.go:19-34 | an output player's score is the sum of its events' scores, negative ones included. Each player with an event appears exactly once and no one else does; the count of players equals the number of distinct ids; scores never increase down the list; no events give an empty list |
| `Leaderboard.SortedPermutationScores` | programming_in_small/example3/before/main.go:30-32 | two sorted permutations of each other have the same score at every rank |
| `Leaderboard.VersionsAgree` | programming_in_small/example3/after/main.go:19-21 | the loop and recursive versions return the same players, with equal scores at each rank. They can differ only in the order of tied players |
| `Leaderboard.SampleLeaderboard` | programming_in_small/example3/after/main.go:41-44 | on the sample events the only possible output is player3 (200), player1 (70), player2 (50) |
| `Pagination.FetchAPI` | programming_in_small/example2/before/main.go:12-21 | the response cursor is empty exactly for cursor "end", and then there are no items. Otherwise the items are `item1, item2` and the next cursor is "end" |
| `Pagination.Cursors` | programming_in_small/example2/before/main.go:26-33 | the cursors fetched from a start form a fetch chain. Each cursor is the previous response's, all but the last response have a non-empty cursor, and the last has an empty one. There are at most two |
| `Pagination.FetchChainUnique` | programming_in_small/example2/before/main.go:27-32 | any fetch chain from a cursor is the one `Cursors` gives: the loop has no other way to go |
| `Pagination.FetchChainLength` | programming_in_small/example2/after/main.go:24-31 | a chain has one or two fetches, and one exactly when starting from "end" |
| `Pagination.GetAllItems` | programming_in_small/example2/before/main.go:23-35 | the loop fetches with `""` then `"end"`, stopping at the empty cursor. It returns the concatenated pages `["item1", "item2"]`, the same as `getAllItemsCorecursive("", [])` |
| `Pagination.CorecursiveCollects` | programming_in_small/example2/after/main.go:24-31 | the recursion returns `acc` followed by the pages of the cursor chain from `cursor`, in fetch order |
| `Pagination.CorecursiveFromEnd` | programming_in_small/example2/after/main.go:25-29 | from cursor "end" the recursion returns `acc` unchanged |
| `Pagination.CorecursiveFromStart` | programming_in_small/example2/after/main.go:34 | `getAllItemsCorecursive("", [])` returns `["item1", "item2"]` |
| `Products.ProductBuilder.constructor` | module_is_important/v2/main.go:69 | `&ProductBuilder{}` starts with the empty id, the empty name and price 0 |
| `Products.ProductBuilder.WithID` | module_is_important/v2/main.go:24-27 | sets only `id`, keeps `name` and `price`, returns the same builder |
| `Products.ProductBuilder.WithName` | module_is_important/v2/main.go:29-32 | sets only `name`, keeps `id` and `price`, returns the same builder |
| `Products.ProductBuilder.WithPrice` | module_is_important/v2/main.go:34-37 | sets only `price`, keeps `id` and `name`, returns the same builder |
| `Products.ProductBuilder.Build` | module_is_important/v2/main.go:39-53 | succeeds iff the id is non-empty and the price is not negative. An empty id is reported first, even with a negative price. On success the product carries the builder's fields, and the builder is not changed |
| `Products.CreateProduct` | module_is_important/v2/main.go:55-57 | sets only the id and returns the same builder |
| `Products.BuildStandardProduct` | module_is_important/v2/main.go:59-65 | always succeeds with `{default_123, Standard Product, 999}`, whatever the builder held before |
| `Products.BuildProduct` | module_is_important/v2/main.go:69-74 | a fresh builder given an id, a name and a price builds exactly that product when the fields are valid, and returns the matching error otherwise |

## Left out

- The thread-safe LRU cache that the repository's notes describe is not part of this model. Its source is not among the files modelled, and its locking and linearizability are concurrency, which is out of scope.
- The `main` functions and their `fmt` output are demo I/O. Their sample inputs appear only as the lemmas `SampleLeaderboard`, `CorecursiveFromStart` and `BuildProduct`.
- Go `int` overflow of score sums and counts is not modelled. Counts and sums are mathematical integers.
- The generic interface `Builder[T]` and the type parameter of `CreateProduct` and `BuildStandardProduct` are not modelled. Both are modelled on the concrete `ProductBuilder`.
- `Build` returns a fresh `*Product` in Go. The model returns a `Product` value, so pointer identity is not modelled.
- `Build`'s `panic` is modelled as an `Err` result carrying the panic's reason.
- `aggregate` and `update` mutate the caller's map `acc` in place. The model passes the updated map as a value. The snippets' only callers pass a freshly made map, so no other reference can observe the difference.
- Go slices are modelled as sequences. Aliasing of the caller's backing array by `append`, and the difference between a nil and an empty slice, are not modelled.
- Leaderboard.SortByScore: is modelled by an insertion sort, not `sort.Slice`'s algorithm, which is library code. Its contract claims only what `sort.Slice` promises with this comparison: sorted and a permutation. No order among equal scores is claimed.
- Leaderboard.UpdateLeaderboard: fixes no order among tied players, because Go's map iteration order and `sort.Slice` leave it unspecified.
- Leaderboard.UpdateLeaderboardCorecursive: fixes no order among tied players, for the same reason.
