/** Reading a run log page by page, in two passes over the file. */
module RunLogReader {
  import opened Common
  import opened Numbers

  const MAX_LIMIT: nat := 300

  datatype Level = Info | Warn | Error

  /** `haystack` is the text with its detail, in lower case. */
  datatype Entry = Entry(id: string, runId: string, level: Level, haystack: string)

  /** A line of the file: blank, not a log entry, or an entry. */
  datatype Line = Blank | Broken | Readable(entry: Entry)

  datatype Order = Ascending | Descending

  /** No levels means every level; the keyword is trimmed, in lower case and not empty. */
  datatype Query = Query(runId: string, levels: seq<Level>, keyword: Option<string>, order: Order, limit: Number, offset: Number)

  datatype Page = Page(items: seq<Entry>, total: nat, offset: nat, limit: nat, nextOffset: Option<nat>, parseErrorCount: nat)

  function NormalizeLimit(n: Number): (r: nat)
    ensures 1 <= r <= MAX_LIMIT
    ensures n.NotFinite? || n.value >= 300.0 ==> r == 300
    ensures n.Finite? && n.value < 1.0 ==> r == 1
    ensures n.Finite? && 1.0 <= n.value < 300.0 ==> r as real <= n.value < r as real + 1.0
  {
    Clamped(n, 1, MAX_LIMIT, MAX_LIMIT)
  }

  function NormalizeOffset(n: Number): (r: nat)
    ensures n.NotFinite? || n.value < 1.0 ==> r == 0
    ensures n.Finite? && n.value >= 0.0 ==> r as real <= n.value < r as real + 1.0
  {
    match n
    case NotFinite => 0
    case Finite(v) => if Trunc(v) < 0 then 0 else Trunc(v)
  }

  predicate Contains(text: string, part: string) {
    part <= text || (text != [] && Contains(text[1..], part))
  }

  predicate Matches(entry: Entry, query: Query) {
    && entry.runId == query.runId
    && (query.levels == [] || entry.level in query.levels)
    && (query.keyword.None? || Contains(entry.haystack, query.keyword.value))
  }

  predicate Hit(line: Line, query: Query) { line.Readable? && Matches(line.entry, query) }

  // ---------------------------------------------------------------- filter, order, slice

  /** All matching entries, in file order. */
  function Matching(lines: seq<Line>, query: Query): (r: seq<Entry>)
    ensures |r| <= |lines|
  {
    if lines == [] then []
    else
      var front, last := Matching(lines[..|lines| - 1], query), lines[|lines| - 1];
      if Hit(last, query) then front + [last.entry] else front
  }

  function Reverse(s: seq<Entry>): (r: seq<Entry>)
    ensures |r| == |s| && forall i :: 0 <= i < |s| ==> r[i] == s[|s| - 1 - i]
  {
    seq(|s|, i requires 0 <= i < |s| => s[|s| - 1 - i])
  }

  function Ordered(lines: seq<Line>, query: Query): (r: seq<Entry>)
    ensures |r| == |Matching(lines, query)|
  {
    if query.order.Ascending? then Matching(lines, query) else Reverse(Matching(lines, query))
  }

  function Slice(s: seq<Entry>, offset: nat, limit: nat): (r: seq<Entry>)
    ensures |r| <= limit
  {
    if offset >= |s| then [] else if offset + limit >= |s| then s[offset..] else s[offset..offset + limit]
  }

  function BrokenLines(lines: seq<Line>): nat {
    if lines == [] then 0
    else BrokenLines(lines[..|lines| - 1]) + if lines[|lines| - 1].Broken? then 1 else 0
  }

  function NextOffset(offset: nat, count: nat, total: nat): Option<nat> {
    if offset + count < total then Some(offset + count) else None
  }

  function PageAt(lines: seq<Line>, query: Query, offset: nat): Page {
    var limit := NormalizeLimit(query.limit);
    var entries := Ordered(lines, query);
    var items := Slice(entries, offset, limit);
    Page(items, |entries|, offset, limit, NextOffset(offset, |items|, |entries|), BrokenLines(lines))
  }

  // ---------------------------------------------------------------- the two passes

  /** The entries of a file whose place among the matching ones lies in the window. */
  method ScanWindow(lines: seq<Line>, query: Query, start: nat, end: nat) returns (items: seq<Entry>)
    requires end <= |Matching(lines, query)|
    ensures items == if start <= end then Matching(lines, query)[start..end] else []
  {
    items := [];
    var matchedIndex := 0;
    for i := 0 to |lines|
      invariant matchedIndex == Least(end, |Matching(lines[..i], query)|)
      invariant Matching(lines[..i], query) <= Matching(lines, query)
      invariant items == if start <= matchedIndex then Matching(lines, query)[start..matchedIndex] else []
    {
      MatchingSteps(lines, query, i);
      if matchedIndex >= end { continue; }
      if !Hit(lines[i], query) { continue; }
      if matchedIndex >= start { items := items + [lines[i].entry]; }
      matchedIndex := matchedIndex + 1;
    }
    assert lines[..|lines|] == lines;
  }

  function Least(a: nat, b: nat): nat { if a < b then a else b }

  lemma {:induction false} MatchingGrows(lines: seq<Line>, query: Query, i: nat, j: nat)
    requires i <= j <= |lines|
    ensures Matching(lines[..i], query) <= Matching(lines[..j], query)
    decreases j
  {
    if i >= j {
    } else {
      MatchingGrows(lines, query, i, j - 1);
      assert lines[..j][..j - 1] == lines[..j - 1];
    }
  }

  lemma MatchingSteps(lines: seq<Line>, query: Query, i: nat)
    requires i < |lines|
    ensures Matching(lines[..i + 1], query) ==
              Matching(lines[..i], query) + (if Hit(lines[i], query) then [lines[i].entry] else [])
    ensures Matching(lines[..i + 1], query) <= Matching(lines, query)
  {
    assert lines[..i + 1][..i] == lines[..i];
    assert lines[..|lines|] == lines;
    MatchingGrows(lines, query, i + 1, |lines|);
  }

  method CountMatches(lines: seq<Line>, query: Query) returns (total: nat, parseErrorCount: nat)
    ensures total == |Matching(lines, query)| && parseErrorCount == BrokenLines(lines)
  {
    total, parseErrorCount := 0, 0;
    for i := 0 to |lines|
      invariant total == |Matching(lines[..i], query)| && parseErrorCount == BrokenLines(lines[..i])
    {
      assert lines[..i + 1][..i] == lines[..i];
      if lines[i].Blank? { continue; }
      if lines[i].Broken? {
        parseErrorCount := parseErrorCount + 1;
        continue;
      }
      if Matches(lines[i].entry, query) { total := total + 1; }
    }
    assert lines[..|lines|] == lines;
  }

  /** Counting a window in file order gives what filtering, ordering and slicing give. */
  method ReadRunLogPage(lines: seq<Line>, query: Query) returns (page: Page)
    ensures page == PageAt(lines, query, NormalizeOffset(query.offset))
  {
    var limit := NormalizeLimit(query.limit);
    var offset := NormalizeOffset(query.offset);
    var total, parseErrorCount := CountMatches(lines, query);
    var ascending := query.order.Ascending?;
    var start := if ascending then offset else if total >= offset + limit then total - offset - limit else 0;
    var end := if ascending then Least(total, offset + limit) else if total >= offset then total - offset else 0;
    var items := ScanWindow(lines, query, start, end);
    if ascending {
      ForwardWindow(Matching(lines, query), offset, limit);
    } else {
      BackwardWindow(Matching(lines, query), offset, limit, start, end);
      items := Reverse(items);
    }
    page := Page(items, total, offset, limit, NextOffset(offset, |items|, total), parseErrorCount);
  }

  lemma ForwardWindow(entries: seq<Entry>, offset: nat, limit: nat)
    ensures var end := Least(|entries|, offset + limit);
            Slice(entries, offset, limit) == if offset <= end then entries[offset..end] else []
  {
  }

  /** A window counted from the end, reversed, is the slice of the reversed list. */
  lemma BackwardWindow(entries: seq<Entry>, offset: nat, limit: nat, start: nat, end: nat)
    requires start == (if |entries| >= offset + limit then |entries| - offset - limit else 0)
    requires end == (if |entries| >= offset then |entries| - offset else 0)
    ensures Slice(Reverse(entries), offset, limit) == Reverse(entries[start..end])
  {
    ReverseSlice(entries, start, end);
    assert |Reverse(entries)| - end == Least(offset, |entries|);
  }

  lemma ReverseSlice(entries: seq<Entry>, start: nat, end: nat)
    requires start <= end <= |entries|
    ensures Reverse(entries[start..end]) == Reverse(entries)[|entries| - end..|entries| - start]
  {
    var a, b := Reverse(entries[start..end]), Reverse(entries)[|entries| - end..|entries| - start];
    forall i | 0 <= i < end - start ensures a[i] == b[i] {
      assert b[i] == Reverse(entries)[|entries| - end + i];
    }
  }

  // ---------------------------------------------------------------- following the pages

  /** The query for the page after one that gives a next offset. */
  function FollowUp(query: Query, next: nat): Query { query.(offset := Finite(next as real)) }

  lemma OffsetComesBack(k: nat)
    ensures NormalizeOffset(Finite(k as real)) == k
  {
  }

  /** A follow-up asks for the same entries. */
  lemma {:induction false} SameMatching(lines: seq<Line>, query: Query, next: nat)
    ensures Matching(lines, FollowUp(query, next)) == Matching(lines, query)
    decreases |lines|
  {
    if lines == [] {
    } else {
      SameMatching(lines[..|lines| - 1], query, next);
    }
  }

  /** What reading a page answers. */
  function PageOf(lines: seq<Line>, query: Query): Page { PageAt(lines, query, NormalizeOffset(query.offset)) }

  /** The pages that a reader sees who asks a query and then follows `nextOffset`. */
  function Pages(lines: seq<Line>, query: Query): (r: seq<Page>)
    ensures r != []
    decreases |Ordered(lines, query)| - NormalizeOffset(query.offset)
  {
    var page := PageOf(lines, query);
    if page.nextOffset.None? then [page]
    else
      OffsetComesBack(page.nextOffset.value);
      SameMatching(lines, query, page.nextOffset.value);
      [page] + Pages(lines, FollowUp(query, page.nextOffset.value))
  }

  function AllItems(pages: seq<Page>): seq<Entry> {
    if pages == [] then [] else pages[0].items + AllItems(pages[1..])
  }

  /** The entries from an offset on. */
  function From(entries: seq<Entry>, offset: nat): seq<Entry> {
    if offset <= |entries| then entries[offset..] else []
  }

  /**
   * Following the pages from any query ends, and gives every matching entry from its offset on exactly once, in the
   * chosen order: all of them when the query names no offset.
   */
  lemma {:induction false} PagesPartition(lines: seq<Line>, query: Query)
    ensures AllItems(Pages(lines, query)) == From(Ordered(lines, query), NormalizeOffset(query.offset))
    ensures query.offset.NotFinite? ==> AllItems(Pages(lines, query)) == Ordered(lines, query)
    ensures forall p :: p in Pages(lines, query) ==> |p.items| <= NormalizeLimit(query.limit)
    decreases |Ordered(lines, query)| - NormalizeOffset(query.offset)
  {
    var page, entries, offset := PageOf(lines, query), Ordered(lines, query), NormalizeOffset(query.offset);
    if page.nextOffset.None? {
      ItemsCons(page, []);
      LastItems(entries, offset, NormalizeLimit(query.limit));
    } else {
      var next := page.nextOffset.value;
      OffsetComesBack(next);
      SameMatching(lines, query, next);
      SliceThenRest(entries, offset, NormalizeLimit(query.limit));
      PagesPartition(lines, FollowUp(query, next));
      ItemsCons(page, Pages(lines, FollowUp(query, next)));
    }
  }

  lemma ItemsCons(page: Page, rest: seq<Page>)
    ensures AllItems([page] + rest) == page.items + AllItems(rest)
  {
    assert ([page] + rest)[1..] == rest;
  }

  lemma LastItems(entries: seq<Entry>, offset: nat, limit: nat)
    requires limit >= 1 && offset + |Slice(entries, offset, limit)| >= |entries|
    ensures Slice(entries, offset, limit) == From(entries, offset)
  {
  }

  lemma SliceThenRest(entries: seq<Entry>, offset: nat, limit: nat)
    requires limit >= 1 && offset + |Slice(entries, offset, limit)| < |entries|
    ensures var items := Slice(entries, offset, limit);
            items != [] && entries[offset..] == items + entries[offset + |items|..]
  {
  }
}
