// paginate_response of rotorsync_bumble.py: splitting a list into pages small
// enough for one BLE read. An item stands for its compact JSON text.
module Pagination {

  const OVERHEAD := 60

  // What the loop counts for a page: the overhead, and each item with a comma.
  function Estimate(page: seq<string>): (n: nat)
    ensures n >= OVERHEAD + |page|
  {
    if page == [] then OVERHEAD else Estimate(page[..|page| - 1]) + |page[|page| - 1]| + 1
  }

  // A page within the size, or one that cannot be made smaller.
  predicate Fits(page: seq<string>, size: int) { Estimate(page) <= size || |page| == 1 }

  function Flatten(pages: seq<seq<string>>): seq<string> {
    if pages == [] then [] else pages[0] + Flatten(pages[1..])
  }

  // Every item once and in order, no page empty, every page fitting.
  ghost predicate Splits(pages: seq<seq<string>>, items: seq<string>, size: int) {
    && Flatten(pages) == items
    && forall k :: 0 <= k < |pages| ==> pages[k] != [] && Fits(pages[k], size)
  }

  // ---- the greedy split ----

  // What the loop makes of `rest` with the page `current` begun.
  function Continue(current: seq<string>, rest: seq<string>, size: int): seq<seq<string>>
    decreases |rest|
  {
    if rest == [] then (if current == [] then [] else [current])
    else if Estimate(current) + |rest[0]| + 1 > size && current != [] then [current] + Continue([rest[0]], rest[1..], size)
    else Continue(current + [rest[0]], rest[1..], size)
  }

  lemma {:induction false} EstimateNext(page: seq<string>, item: string)
    ensures Estimate(page + [item]) == Estimate(page) + |item| + 1
  {
    assert (page + [item])[..|page|] == page;
  }

  lemma {:induction false} EstimateJoined(a: seq<string>, b: seq<string>)
    ensures Estimate(a + b) == Estimate(a) + Estimate(b) - OVERHEAD
  {
    if b == [] {
      assert a + b == a;
    } else {
      var front := b[..|b| - 1];
      assert a + b == (a + front) + [b[|b| - 1]];
      assert b == front + [b[|b| - 1]];
      EstimateNext(a + front, b[|b| - 1]);
      EstimateNext(front, b[|b| - 1]);
      EstimateJoined(a, front);
    }
  }

  lemma SplitsOne(page: seq<string>, size: int)
    requires page != [] && Fits(page, size)
    ensures Splits([page], page, size)
  {
    assert Flatten([page]) == page + Flatten([]);
  }

  lemma SplitsMore(page: seq<string>, pages: seq<seq<string>>, items: seq<string>, size: int)
    requires page != [] && Fits(page, size) && Splits(pages, items, size)
    ensures Splits([page] + pages, page + items, size)
  {
    hide Fits;
    assert ([page] + pages)[1..] == pages;
  }

  lemma {:induction false} ContinueSplits(current: seq<string>, rest: seq<string>, size: int)
    requires current == [] || Fits(current, size)
    ensures Splits(Continue(current, rest, size), current + rest, size)
    decreases |rest|
  {
    hide Estimate, Splits;
    if rest == [] {
      assert current + rest == current;
      if current == [] { SplitsNothing(size); } else { SplitsOne(current, size); }
    } else if Estimate(current) + |rest[0]| + 1 > size && current != [] {
      ContinueSplits([rest[0]], rest[1..], size);
      assert [rest[0]] + rest[1..] == rest;
      SplitsMore(current, Continue([rest[0]], rest[1..], size), rest, size);
    } else {
      EstimateNext(current, rest[0]);
      ContinueSplits(current + [rest[0]], rest[1..], size);
      assert current + [rest[0]] + rest[1..] == current + rest;
    }
  }

  lemma SplitsNothing(size: int)
    ensures Splits([], [], size)
  {
  }

  // ---- no split does with fewer pages ----

  // The pages left when the first n items are taken away.
  function Drop(pages: seq<seq<string>>, n: nat): seq<seq<string>> {
    if n == 0 || pages == [] then pages
    else if |pages[0]| <= n then Drop(pages[1..], n - |pages[0]|)
    else [pages[0][n..]] + pages[1..]
  }

  lemma {:induction false} DropSplits(pages: seq<seq<string>>, n: nat, items: seq<string>, size: int)
    requires Splits(pages, items, size) && n <= |items|
    ensures Splits(Drop(pages, n), items[n..], size)
    ensures |Drop(pages, n)| <= |pages|
    ensures pages != [] && |pages[0]| <= n ==> |Drop(pages, n)| < |pages|
    decreases |pages|
  {
    if n > 0 && pages != [] {
      var first := pages[0];
      assert items == first + Flatten(pages[1..]);
      if |first| <= n {
        DropSplits(pages[1..], n - |first|, Flatten(pages[1..]), size);
        assert items[n..] == Flatten(pages[1..])[n - |first|..];
      } else {
        EstimateJoined(first[..n], first[n..]);
        assert first == first[..n] + first[n..];
        assert items[n..] == first[n..] + Flatten(pages[1..]);
        assert Drop(pages, n)[1..] == pages[1..];
      }
    }
  }

  // A page that does not take one more item is not shorter than the first page
  // of any other split.
  lemma {:induction false} FirstPageNotLonger(pages: seq<seq<string>>, current: seq<string>, rest: seq<string>, size: int)
    requires Splits(pages, current + rest, size) && pages != []
    requires current != [] && rest != [] && Estimate(current) + |rest[0]| + 1 > size
    ensures |pages[0]| <= |current|
  {
    var first := pages[0];
    if |first| > |current| {
      PrefixOf(first, Flatten(pages[1..]), current, rest);
      var longer := current + [rest[0]];
      EstimateJoined(longer, first[|longer|..]);
      EstimateNext(current, rest[0]);
      assert false;
    }
  }

  lemma PrefixOf(first: seq<string>, others: seq<string>, current: seq<string>, rest: seq<string>)
    requires first + others == current + rest && |first| > |current| && rest != []
    ensures first == (current + [rest[0]]) + first[|current| + 1..]
  {
    var whole := current + rest;
    assert first == whole[..|first|];
    assert first[..|current| + 1] == whole[..|current| + 1] == current + [rest[0]];
  }

  // Greedy stays ahead.
  lemma {:induction false} ContinueOptimal(current: seq<string>, rest: seq<string>, size: int, other: seq<seq<string>>)
    requires current != [] && Splits(other, current + rest, size)
    ensures |Continue(current, rest, size)| <= |other|
    decreases |rest|
  {
    if rest != [] {
      if Estimate(current) + |rest[0]| + 1 > size {
        FirstPageNotLonger(other, current, rest, size);
        DropSplits(other, |current|, current + rest, size);
        assert (current + rest)[|current|..] == rest == [rest[0]] + rest[1..];
        ContinueOptimal([rest[0]], rest[1..], size, Drop(other, |current|));
      } else {
        assert current + [rest[0]] + rest[1..] == current + rest;
        ContinueOptimal(current + [rest[0]], rest[1..], size, other);
      }
    }
  }

  lemma {:induction false} ContinueOptimalFromStart(items: seq<string>, size: int)
    requires items != []
    ensures forall other :: Splits(other, items, size) ==> |Continue([], items, size)| <= |other|
  {
    hide Splits, Estimate;
    forall other | Splits(other, items, size)
      ensures |Continue([], items, size)| <= |other|
    {
      assert [] + [items[0]] == [items[0]] && [items[0]] + items[1..] == items;
      ContinueOptimal([items[0]], items[1..], size, other);
    }
  }

  // One round of the loop.
  lemma {:induction false} ContinueStep(current: seq<string>, items: seq<string>, i: nat, size: int)
    requires i < |items|
    ensures Continue(current, items[i..], size) ==
      if Estimate(current) + |items[i]| + 1 > size && current != []
      then [current] + Continue([items[i]], items[i + 1..], size)
      else Continue(current + [items[i]], items[i + 1..], size)
    ensures Continue(current, [], size) == if current == [] then [] else [current]
  {
    hide Estimate;
    assert items[i..][1..] == items[i + 1..];
  }

  // The first loop of paginate_response. Its pages hold every item once and in
  // order, and no split into fitting pages has fewer of them.
  method GroupItems(items: seq<string>, size: int) returns (pages: seq<seq<string>>)
    requires items != []
    ensures Splits(pages, items, size)
    ensures forall other :: Splits(other, items, size) ==> |pages| <= |other|
  {
    hide Continue, Splits, Estimate;
    pages := [];
    var current: seq<string> := [];
    var currentSize := OVERHEAD;
    assert Estimate([]) == OVERHEAD by { EstimateNothing(); }
    assert items[0..] == items;
    for i := 0 to |items|
      invariant currentSize == Estimate(current) && (current == [] ==> i == 0)
      invariant Continue([], items, size) == pages + Continue(current, items[i..], size)
    {
      var itemSize := |items[i]| + 1;
      ContinueStep(current, items, i, size);
      assert [] + [items[i]] == [items[i]];
      ghost var after := Continue([items[i]], items[i + 1..], size);
      assert pages + ([current] + after) == (pages + [current]) + after;
      if currentSize + itemSize > size && current != [] {
        pages := pages + [current];
        current := [];
        currentSize := OVERHEAD;
      }
      EstimateNext(current, items[i]);
      current := current + [items[i]];
      currentSize := currentSize + itemSize;
    }
    assert items[|items|..] == [];
    ContinueStep(current, items, 0, size);
    if current != [] {
      pages := pages + [current];
    }
    ContinueSplits([], items, size);
    assert [] + items == items;
    ContinueOptimalFromStart(items, size);
  }

  lemma EstimateNothing()
    ensures Estimate([]) == OVERHEAD
  {
  }

  // ---- the pages as sent ----

  function Digits(n: nat): (s: string)
    ensures |s| >= 1
  {
    if n < 10 then [['0', '1', '2', '3', '4', '5', '6', '7', '8', '9'][n]]
    else Digits(n / 10) + Digits(n % 10)
  }

  function Join(texts: seq<string>): string {
    if texts == [] then "" else if |texts| == 1 then texts[0] else Join(texts[..|texts| - 1]) + "," + texts[|texts| - 1]
  }

  // The compact JSON of one page.
  function Render(page: nat, total: nat, count: nat, texts: seq<string>): string {
    "{\"page\":" + Digits(page) + ",\"total_pages\":" + Digits(total) + ",\"total_items\":" + Digits(count)
    + ",\"items\":[" + Join(texts) + "]}"
  }

  const FIXED_CHARACTERS := 50

  lemma {:induction false} JoinLength(texts: seq<string>)
    requires texts != []
    ensures |Join(texts)| == Estimate(texts) - OVERHEAD - 1
  {
    if |texts| == 1 {
      assert texts[..0] == [];
    } else {
      JoinLength(texts[..|texts| - 1]);
    }
  }

  // Exactly how long a page is: 50 characters, the digits of its counters, its
  // items and the commas between them.
  lemma {:induction false} RenderLength(page: nat, total: nat, count: nat, texts: seq<string>)
    requires texts != []
    ensures |Render(page, total, count, texts)| ==
      FIXED_CHARACTERS + |Digits(page)| + |Digits(total)| + |Digits(count)| + Estimate(texts) - OVERHEAD - 1
  {
    hide Digits, Join, Estimate;
    JoinLength(texts);
  }

  function CounterDigits(page: nat, total: nat, count: nat): nat { |Digits(page)| + |Digits(total)| + |Digits(count)| }

  // The byte bound: a page within its estimate is at most `size` long if its
  // counters have eleven digits in all; and a page that fills its estimate
  // needs that.
  lemma {:induction false} PageWithinSize(page: nat, total: nat, count: nat, texts: seq<string>, size: int)
    requires texts != [] && Estimate(texts) <= size
    ensures CounterDigits(page, total, count) <= 11 ==> |Render(page, total, count, texts)| <= size
    ensures Estimate(texts) == size ==> (|Render(page, total, count, texts)| <= size <==> CounterDigits(page, total, count) <= 11)
  {
    hide Digits, Estimate, Render;
    RenderLength(page, total, count, texts);
  }

  // With fewer than a thousand items the counters never have more than nine.
  lemma ShortCounters(page: nat, total: nat, count: nat)
    requires page <= total <= count < 1000
    ensures CounterDigits(page, total, count) <= 9
  {
    FewDigits(page);
    FewDigits(total);
    FewDigits(count);
  }

  lemma {:induction false} FewDigits(n: nat)
    requires n < 1000
    ensures |Digits(n)| <= 3
  {
    if n >= 10 {
      assert n / 10 < 100;
      assert |Digits(n / 10)| <= 2;
    }
  }

  // A split never has more pages than items.
  lemma {:induction false} PagesNotMore(pages: seq<seq<string>>, items: seq<string>, size: int)
    requires Splits(pages, items, size)
    ensures |pages| <= |items|
  {
    if pages != [] {
      PagesNotMore(pages[1..], Flatten(pages[1..]), size);
    }
  }

  const NO_ITEMS := "{\"page\": 1, \"total_pages\": 1, \"total_items\": 0, \"items\": []}"

  // A split that no other one beats.
  ghost predicate Best(pages: seq<seq<string>>, items: seq<string>, size: int) {
    Splits(pages, items, size) && forall other :: Splits(other, items, size) ==> |pages| <= |other|
  }

  ghost predicate Rendered(result: seq<string>, pages: seq<seq<string>>, count: nat) {
    && |result| == |pages|
    && forall i :: 0 <= i < |pages| ==> result[i] == Render(i + 1, |pages|, count, pages[i])
  }

  // No page is too long, but for one that is a single item over its estimate or
  // has counters of more than eleven digits.
  ghost predicate WithinSize(result: seq<string>, pages: seq<seq<string>>, count: nat, size: int) {
    forall i :: 0 <= i < |pages| && i < |result| ==>
      (|pages[i]| >= 2 || Estimate(pages[i]) <= size) && CounterDigits(i + 1, |pages|, count) <= 11 ==> |result[i]| <= size
  }

  lemma ShortPages(result: seq<string>, pages: seq<seq<string>>, items: seq<string>, size: int)
    requires Splits(pages, items, size) && Rendered(result, pages, |items|)
    ensures WithinSize(result, pages, |items|, size)
  {
    hide Estimate, Render, CounterDigits;
    forall i | 0 <= i < |pages| && (|pages[i]| >= 2 || Estimate(pages[i]) <= size) && CounterDigits(i + 1, |pages|, |items|) <= 11
      ensures |result[i]| <= size
    {
      assert pages[i] != [] && Fits(pages[i], size);
      PageWithinSize(i + 1, |pages|, |items|, pages[i], size);
    }
  }

  // paginate_response
  method PaginateResponse(items: seq<string>, size: int) returns (result: seq<string>)
    ensures items == [] ==> result == [NO_ITEMS]
    ensures items != [] ==> |result| <= |items| && exists pages: seq<seq<string>> ::
      Best(pages, items, size) && Rendered(result, pages, |items|) && WithinSize(result, pages, |items|, size)
  {
    hide Splits, Render, CounterDigits, WithinSize;
    if items == [] {
      return [NO_ITEMS];
    }
    var pages := GroupItems(items, size);
    PagesNotMore(pages, items, size);
    result := [];
    for i := 0 to |pages|
      invariant |result| == i
      invariant forall k :: 0 <= k < i ==> result[k] == Render(k + 1, |pages|, |items|, pages[k])
    {
      result := result + [Render(i + 1, |pages|, |items|, pages[i])];
    }
    ShortPages(result, pages, items, size);
    assert Best(pages, items, size) && Rendered(result, pages, |items|);
  }
}
