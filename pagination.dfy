/**
 Cursor pagination (programming_in_small/example2): keep calling the mock
 `fetchAPI` with the cursor of the previous response, concatenating each
 page's items, until a response carries the empty cursor. `getAllItems` does
 this with a loop, `getAllItemsCorecursive` by tail recursion with an
 accumulator. The reference is the chain of cursors the calls go through
 (`Cursors`) and the concatenation of their pages (`Pages`).
 */
module Pagination {

  /** A page of items and the cursor of the next page ("" = no next page).
      Go's zero value `APIResponse{}` is `APIResponse([], "")`. */
  datatype APIResponse = APIResponse(items: seq<string>, cursor: string)

  /** The mock `fetchAPI`: cursor "end" is past the last page; any other
      cursor yields the only page, whose next cursor is "end". */
  function FetchAPI(cursor: string): (r: APIResponse)
    ensures r.cursor == "" <==> cursor == "end"
    ensures r.cursor == "" ==> r.items == []
    ensures r.cursor != "" ==> r.cursor == "end" && r.items == ["item1", "item2"]
  {
    if cursor == "end" then APIResponse([], "")
    else APIResponse(["item1", "item2"], "end")
  }

  /** How many fetches remain when starting from `cursor`. */
  function FetchesLeft(cursor: string): nat
  {
    if cursor == "end" then 1 else 2
  }

  /** Following a non-empty next cursor brings the end closer. */
  lemma NextCursorProgress(cursor: string)
    requires FetchAPI(cursor).cursor != ""
    ensures FetchesLeft(FetchAPI(cursor).cursor) < FetchesLeft(cursor)
  {
  }

  /** Each fetch after the first uses the previous response's cursor, and
      every response but the last has a non-empty cursor. */
  ghost predicate Linked(cursors: seq<string>)
  {
    forall i :: 0 <= i < |cursors| - 1 ==>
      FetchAPI(cursors[i]).cursor != "" && cursors[i + 1] == FetchAPI(cursors[i]).cursor
  }

  /** `cursors` are the arguments of the fetches made from `start`, in
      order, stopping exactly at the first response with an empty cursor. */
  ghost predicate IsFetchChain(cursors: seq<string>, start: string)
  {
    |cursors| > 0 && cursors[0] == start && Linked(cursors)
    && FetchAPI(cursors[|cursors| - 1]).cursor == ""
  }

  /** The cursor chain from `cursor`. */
  function Cursors(cursor: string): (cs: seq<string>)
    ensures IsFetchChain(cs, cursor)
    ensures |cs| == FetchesLeft(cursor)
    decreases FetchesLeft(cursor)
  {
    var resp := FetchAPI(cursor);
    if resp.cursor == "" then [cursor]
    else
      NextCursorProgress(cursor);
      [cursor] + Cursors(resp.cursor)
  }

  /** The items of the pages fetched with `cursors`, in fetch order. */
  function Pages(cursors: seq<string>): seq<string>
  {
    if cursors == [] then [] else FetchAPI(cursors[0]).items + Pages(cursors[1..])
  }

  /** There is only one fetch chain from a cursor. */
  lemma {:induction false} FetchChainUnique(cursors: seq<string>, start: string)
    requires IsFetchChain(cursors, start)
    ensures cursors == Cursors(start)
    decreases |cursors|
  {
    var next := FetchAPI(start).cursor;
    if |cursors| > 1 {
      assert Linked(cursors[1..]) by {
        forall i | 0 <= i < |cursors[1..]| - 1
          ensures FetchAPI(cursors[1..][i]).cursor != "" && cursors[1..][i + 1] == FetchAPI(cursors[1..][i]).cursor
        {
          assert cursors[1..][i] == cursors[i + 1] && cursors[1..][i + 1] == cursors[i + 2];
        }
      }
      FetchChainUnique(cursors[1..], next);
      assert cursors == [start] + cursors[1..];
    }
  }

  /** The recursion stops after at most two fetches. */
  lemma FetchChainLength(cursors: seq<string>, start: string)
    requires IsFetchChain(cursors, start)
    ensures 1 <= |cursors| <= 2
    ensures start == "end" <==> |cursors| == 1
  {
    FetchChainUnique(cursors, start);
  }

  // ---------------------------------------------------------------------
  // example2/before: the loop version

  /** `getAllItems`: the loop from cursor "", returning the items and (as a
      ghost) the cursors it fetched with. */
  method GetAllItems() returns (allItems: seq<string>, ghost fetched: seq<string>)
    ensures IsFetchChain(fetched, "")
    ensures allItems == Pages(fetched)
    ensures fetched == ["", "end"]
    ensures allItems == ["item1", "item2"]
    ensures allItems == GetAllItemsCorecursive("", [])
  {
    allItems := [];
    fetched := [];
    var cursor := "";
    while true
      invariant |fetched + [cursor]| > 0 && (fetched + [cursor])[0] == "" && Linked(fetched + [cursor])
      invariant allItems == Pages(fetched)
      decreases FetchesLeft(cursor)
    {
      var resp := FetchAPI(cursor);
      PagesSnoc(fetched, cursor);
      fetched := fetched + [cursor];
      allItems := allItems + resp.items;
      if resp.cursor == "" {
        break;
      }
      NextCursorProgress(cursor);
      LinkedSnoc(fetched, resp.cursor);
      cursor := resp.cursor;
    }
    FetchChainUnique(fetched, "");
    CorecursiveCollects("", []);
  }

  lemma {:induction false} PagesSnoc(cursors: seq<string>, c: string)
    ensures Pages(cursors + [c]) == Pages(cursors) + FetchAPI(c).items
    decreases |cursors|
  {
    if cursors == [] {
      assert [c][1..] == [];
      assert cursors + [c] == [c];
    } else {
      assert (cursors + [c])[0] == cursors[0] && (cursors + [c])[1..] == cursors[1..] + [c];
      PagesSnoc(cursors[1..], c);
    }
  }

  lemma LinkedSnoc(cursors: seq<string>, c: string)
    requires |cursors| > 0 && Linked(cursors)
    requires FetchAPI(cursors[|cursors| - 1]).cursor != "" && c == FetchAPI(cursors[|cursors| - 1]).cursor
    ensures Linked(cursors + [c])
  {
    var s := cursors + [c];
    forall i | 0 <= i < |s| - 1 ensures FetchAPI(s[i]).cursor != "" && s[i + 1] == FetchAPI(s[i]).cursor {
      assert s[i] == cursors[i];
    }
  }

  // ---------------------------------------------------------------------
  // example2/after: the tail-recursive version

  /** `getAllItemsCorecursive`: fetch, append the page to `acc`, stop on the
      empty cursor, otherwise recurse with the response's cursor. */
  function GetAllItemsCorecursive(cursor: string, acc: seq<string>): seq<string>
    decreases FetchesLeft(cursor)
  {
    var resp := FetchAPI(cursor);
    var acc' := acc + resp.items;
    if resp.cursor == "" then acc'
    else
      NextCursorProgress(cursor);
      GetAllItemsCorecursive(resp.cursor, acc')
  }

  /** The accumulator is kept as a prefix, followed by the pages of the
      cursor chain from `cursor`. */
  lemma {:induction false} CorecursiveCollects(cursor: string, acc: seq<string>)
    ensures GetAllItemsCorecursive(cursor, acc) == acc + Pages(Cursors(cursor))
    decreases FetchesLeft(cursor)
  {
    var resp := FetchAPI(cursor);
    var cs := Cursors(cursor);
    assert cs[1..] == if resp.cursor == "" then [] else Cursors(resp.cursor);
    if resp.cursor != "" {
      NextCursorProgress(cursor);
      CorecursiveCollects(resp.cursor, acc + resp.items);
    }
  }

  /** From cursor "end" nothing is fetched but the empty page: `acc` comes back unchanged. */
  lemma CorecursiveFromEnd(acc: seq<string>)
    ensures GetAllItemsCorecursive("end", acc) == acc
  {
    CorecursiveCollects("end", acc);
  }

  /** The program's call `getAllItemsCorecursive("", [])` returns both items. */
  lemma CorecursiveFromStart()
    ensures GetAllItemsCorecursive("", []) == ["item1", "item2"]
  {
    CorecursiveCollects("", []);
  }
}
