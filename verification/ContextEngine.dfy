/** Packing source items into a token budget (apps/daemon/src/agent/contextEngine.ts): compact the
    largest items first, then drop what still does not fit. */
module ContextEngine {
  import opened Common

  datatype SourceItem = SourceItem(itemId: string, content: string, source: string, eventRef: string, taint: bool)

  datatype Item = Item(
    itemId: string, content: string, source: string, eventRef: string, taint: bool,
    tokens: nat, rawEventRef: string, compacted: bool)

  function EstimateTokens(content: string): nat {
    (|content| + 3) / 4
  }

  function EscapeChar(c: char): string {
    match c
    case '&' => "&amp;"
    case '"' => "&quot;"
    case '<' => "&lt;"
    case _ => [c]
  }

  function Escape(s: string): string {
    if s == [] then [] else EscapeChar(s[0]) + Escape(s[1..])
  }

  function WrapUntrusted(source: string, eventRef: string, content: string): string {
    "<untrusted_data source=\"" + Escape(source) + "\" event=\"" + Escape(eventRef) + "\">\n" + content + "\n</untrusted_data>"
  }

  function ContextItem(item: SourceItem): Item {
    var content := if item.taint then WrapUntrusted(item.source, item.eventRef, item.content) else item.content;
    Item(item.itemId, content, item.source, item.eventRef, item.taint, EstimateTokens(content), item.eventRef, false)
  }

  function ContextItems(items: seq<SourceItem>): (r: seq<Item>)
    ensures |r| == |items|
    ensures forall i :: 0 <= i < |r| ==> r[i] == ContextItem(items[i])
  {
    seq(|items|, i requires 0 <= i < |items| => ContextItem(items[i]))
  }

  function CompactItem(item: Item): Item {
    var content := "[summary:" + item.eventRef + "]";
    item.(content := content, tokens := EstimateTokens(content), compacted := true)
  }

  function Total(items: seq<Item>): nat {
    if items == [] then 0 else Total(items[..|items| - 1]) + items[|items| - 1].tokens
  }

  // ---- the compaction phase ----

  /** The first of the largest items not yet compacted. */
  function Largest(items: seq<Item>): (r: Option<nat>)
    ensures r.None? <==> forall i :: 0 <= i < |items| ==> items[i].compacted
    ensures r.Some? ==> r.value < |items| && !items[r.value].compacted
    ensures r.Some? ==> forall i :: 0 <= i < |items| && !items[i].compacted ==>
              items[i].tokens < items[r.value].tokens || (items[i].tokens == items[r.value].tokens && r.value <= i)
  {
    if items == [] then None
    else
      var n := |items| - 1;
      var best := Largest(items[..n]);
      if items[n].compacted then best
      else if best.None? || items[n].tokens > items[best.value].tokens then Some(n)
      else best
  }

  function CompactAll(items: seq<Item>, itemId: string): (r: seq<Item>)
    ensures |r| == |items|
    ensures forall i :: 0 <= i < |r| ==> r[i] == if items[i].itemId == itemId then CompactItem(items[i]) else items[i]
  {
    seq(|items|, i requires 0 <= i < |items| => if items[i].itemId == itemId then CompactItem(items[i]) else items[i])
  }

  /** Every item is its original or its original compacted. */
  ghost predicate CompactionOf(original: seq<Item>, items: seq<Item>) {
    |items| == |original|
    && forall i :: 0 <= i < |items| ==> items[i] == if items[i].compacted then CompactItem(original[i]) else original[i]
  }

  /** No item was compacted while a larger one was left alone. */
  ghost predicate LargestFirst(original: seq<Item>, items: seq<Item>)
    requires |items| == |original|
  {
    forall i, j :: 0 <= i < |items| && 0 <= j < |items| && items[i].compacted && !items[j].compacted ==>
      original[i].tokens >= original[j].tokens
  }

  ghost predicate AllCompacted(items: seq<Item>) {
    forall i :: 0 <= i < |items| ==> items[i].compacted
  }

  ghost predicate DistinctIds(items: seq<Item>) {
    forall i, j :: 0 <= i < j < |items| ==> items[i].itemId != items[j].itemId
  }

  ghost function Uncompacted(items: seq<Item>): set<int> {
    set i | 0 <= i < |items| && !items[i].compacted
  }

  // ---- the dropping phase ----

  function Insert(item: Item, sorted: seq<Item>): seq<Item> {
    if sorted == [] || item.tokens <= sorted[0].tokens then [item] + sorted
    else [sorted[0]] + Insert(item, sorted[1..])
  }

  /** A stable sort by token count, smallest first. */
  function SortByTokens(items: seq<Item>): seq<Item> {
    if items == [] then [] else Insert(items[0], SortByTokens(items[1..]))
  }

  ghost predicate Ascending(items: seq<Item>) {
    forall i, j :: 0 <= i < j < |items| ==> items[i].tokens <= items[j].tokens
  }

  lemma HeadAndRest(items: seq<Item>)
    requires items != []
    ensures multiset(items) == multiset{items[0]} + multiset(items[1..])
  {
    assert items == [items[0]] + items[1..];
  }

  lemma {:induction false} InsertPermutes(item: Item, sorted: seq<Item>)
    ensures multiset(Insert(item, sorted)) == multiset(sorted) + multiset{item}
  {
    if sorted != [] && item.tokens > sorted[0].tokens {
      InsertPermutes(item, sorted[1..]);
      HeadAndRest(sorted);
    }
  }

  lemma {:induction false} InsertKeepsOrder(item: Item, sorted: seq<Item>)
    requires Ascending(sorted)
    ensures Ascending(Insert(item, sorted))
  {
    if sorted != [] && item.tokens > sorted[0].tokens {
      InsertKeepsOrder(item, sorted[1..]);
      InsertStaysAbove(item, sorted[1..], sorted[0].tokens);
    }
  }

  lemma {:induction false} InsertStaysAbove(item: Item, sorted: seq<Item>, least: nat)
    requires item.tokens >= least && forall j :: 0 <= j < |sorted| ==> sorted[j].tokens >= least
    ensures forall j :: 0 <= j < |Insert(item, sorted)| ==> Insert(item, sorted)[j].tokens >= least
  {
    if sorted != [] && item.tokens > sorted[0].tokens {
      InsertStaysAbove(item, sorted[1..], least);
    }
  }

  lemma {:induction false} SortSorts(items: seq<Item>)
    ensures Ascending(SortByTokens(items)) && multiset(SortByTokens(items)) == multiset(items)
  {
    if items != [] {
      SortSorts(items[1..]);
      InsertKeepsOrder(items[0], SortByTokens(items[1..]));
      InsertPermutes(items[0], SortByTokens(items[1..]));
      HeadAndRest(items);
    }
  }

  lemma {:induction false} TotalWithout(items: seq<Item>, k: nat)
    requires k < |items|
    ensures Total(items) == Total(items[..k] + items[k + 1..]) + items[k].tokens
  {
    var n := |items| - 1;
    if k == n {
      assert items[..k] + items[k + 1..] == items[..n];
    } else {
      TotalWithout(items[..n], k);
      WithoutInit(items, k);
    }
  }

  lemma WithoutInit(items: seq<Item>, k: nat)
    requires k < |items| - 1
    ensures
      var n := |items| - 1;
      var without := items[..k] + items[k + 1..];
      without[..n - 1] == items[..n][..k] + items[..n][k + 1..] && without[n - 1] == items[n]
  {
  }

  lemma TakeOut(items: seq<Item>, x: Item) returns (rest: seq<Item>)
    requires x in items
    ensures multiset(items) == multiset(rest) + multiset{x}
    ensures |items| == |rest| + 1 && Total(items) == Total(rest) + x.tokens
  {
    var k :| 0 <= k < |items| && items[k] == x;
    rest := items[..k] + items[k + 1..];
    assert items == items[..k] + [x] + items[k + 1..];
    TotalWithout(items, k);
  }

  lemma TotalStep(items: seq<Item>, m: nat)
    requires m < |items|
    ensures Total(items[..m + 1]) == Total(items[..m]) + items[m].tokens
  {
    PrefixOfPrefix(items, m + 1, m);
  }

  lemma Cancel(a: multiset<Item>, b: multiset<Item>, x: Item)
    requires a + multiset{x} <= b + multiset{x}
    ensures a <= b
  {
    forall y ensures a[y] <= b[y] {
      assert (a + multiset{x})[y] <= (b + multiset{x})[y];
    }
  }

  lemma SplitLast(items: seq<Item>)
    requires items != []
    ensures multiset(items) == multiset(items[..|items| - 1]) + multiset{items[|items| - 1]}
  {
    assert items == items[..|items| - 1] + [items[|items| - 1]];
  }

  lemma WithoutLast(sorted: seq<Item>, chosen: seq<Item>)
    requires sorted != [] && multiset(chosen) <= multiset(sorted)
    requires sorted[|sorted| - 1] !in chosen
    ensures multiset(chosen) <= multiset(sorted[..|sorted| - 1])
  {
    SplitLast(sorted);
    assert sorted[|sorted| - 1] !in multiset(chosen);
  }

  lemma SizeAtMost(sorted: seq<Item>, chosen: seq<Item>)
    requires multiset(chosen) <= multiset(sorted)
    ensures |chosen| <= |sorted|
  {
    var others := multiset(sorted) - multiset(chosen);
    assert multiset(sorted) == multiset(chosen) + others;
    assert |multiset(chosen)| == |chosen| && |multiset(sorted)| == |sorted|;
    assert |multiset(chosen) + others| == |multiset(chosen)| + |others|;
  }

  /** A selection that has the largest item, without it. */
  lemma TakeOutLast(sorted: seq<Item>, chosen: seq<Item>) returns (rest: seq<Item>)
    requires sorted != [] && multiset(chosen) <= multiset(sorted) && sorted[|sorted| - 1] in chosen
    ensures multiset(rest) <= multiset(sorted[..|sorted| - 1])
    ensures |chosen| == |rest| + 1 && Total(chosen) == Total(rest) + sorted[|sorted| - 1].tokens
  {
    var x := sorted[|sorted| - 1];
    rest := TakeOut(chosen, x);
    SplitLast(sorted);
    Cancel(multiset(rest), multiset(sorted[..|sorted| - 1]), x);
  }

  /** No selection of items weighs less than equally many of the smallest. */
  lemma {:induction false} SmallestWeighLeast(sorted: seq<Item>, chosen: seq<Item>)
    requires Ascending(sorted) && multiset(chosen) <= multiset(sorted)
    ensures |chosen| <= |sorted|
    ensures Total(chosen) >= Total(sorted[..|chosen|])
    decreases |sorted|
  {
    SizeAtMost(sorted, chosen);
    if chosen != [] {
      var n := |sorted| - 1;
      var x, init := sorted[n], sorted[..n];
      if x in chosen {
        var rest := TakeOutLast(sorted, chosen);
        SmallestWeighLeast(init, rest);
        WithLast(sorted, |rest|);
      } else {
        WithoutLast(sorted, chosen);
        SmallestWeighLeast(init, chosen);
        PrefixOfPrefix(sorted, n, |chosen|);
      }
    }
  }

  /** The largest item weighs at least as much as the one after the `k` smallest. */
  lemma WithLast(sorted: seq<Item>, k: nat)
    requires Ascending(sorted) && k < |sorted|
    ensures Total(sorted[..k + 1]) <= Total(sorted[..|sorted| - 1][..k]) + sorted[|sorted| - 1].tokens
  {
    PrefixOfPrefix(sorted, |sorted| - 1, k);
    TotalStep(sorted, k);
  }

  /** No larger number of the items would fit. */
  ghost predicate NoLargerChoiceFits(items: seq<Item>, n: nat, budget: int) {
    forall chosen :: multiset(chosen) <= multiset(items) && |chosen| > n ==> Total(chosen) > budget
  }

  /** What is kept of compacted items that do not all fit: they fit or a smallest one is left alone,
      and no larger number of the items would fit. */
  ghost predicate BestKept(items: seq<Item>, kept: seq<Item>, budget: int) {
    && multiset(kept) <= multiset(items)
    && |kept| >= 1
    && (Total(kept) <= budget || (|kept| == 1 && forall x :: x in items ==> kept[0].tokens <= x.tokens))
    && NoLargerChoiceFits(items, |kept|, budget)
  }

  lemma PrefixIsBest(items: seq<Item>, sorted: seq<Item>, n: nat, budget: int)
    requires Ascending(sorted) && multiset(sorted) == multiset(items)
    requires n <= |sorted|
    requires n < |sorted| ==> Total(sorted[..n + 1]) > budget
    ensures NoLargerChoiceFits(items, n, budget)
  {
    forall chosen | multiset(chosen) <= multiset(items) && |chosen| > n ensures Total(chosen) > budget {
      SmallestWeighLeast(sorted, chosen);
      TotalMonotone(sorted, n + 1, |chosen|);
    }
  }

  lemma HeadIsSmallest(items: seq<Item>, sorted: seq<Item>)
    requires Ascending(sorted) && multiset(sorted) == multiset(items) && sorted != []
    ensures forall x :: x in items ==> sorted[0].tokens <= x.tokens
  {
    forall x | x in items ensures sorted[0].tokens <= x.tokens {
      assert x in multiset(items);
      assert x in multiset(sorted);
      var j :| 0 <= j < |sorted| && sorted[j] == x;
    }
  }

  lemma DroppingIsBest(items: seq<Item>, sorted: seq<Item>, n: nat, budget: int)
    requires Ascending(sorted) && multiset(sorted) == multiset(items)
    requires 1 <= n <= |sorted| && multiset(sorted[..n]) <= multiset(items)
    requires Total(sorted[..n]) <= budget || n == 1
    requires n < |sorted| ==> Total(sorted[..n + 1]) > budget
    ensures BestKept(items, sorted[..n], budget)
  {
    PrefixIsBest(items, sorted, n, budget);
    KeepsSmallest(items, sorted, n);
  }

  lemma KeepsSmallest(items: seq<Item>, sorted: seq<Item>, n: nat)
    requires Ascending(sorted) && multiset(sorted) == multiset(items) && 1 <= n <= |sorted|
    ensures forall x :: x in items ==> sorted[..n][0].tokens <= x.tokens
  {
    HeadIsSmallest(items, sorted);
    assert sorted[..n][0] == sorted[0];
  }

  lemma {:induction false} TotalMonotone(items: seq<Item>, m: nat, n: nat)
    requires m <= n <= |items|
    ensures Total(items[..m]) <= Total(items[..n])
    decreases n
  {
    if m < n {
      assert items[..n][..n - 1] == items[..n - 1];
      TotalMonotone(items, m, n - 1);
    }
  }

  // ---- the engine ----

  datatype PackError = BudgetNotPositive

  datatype PackEvent =
    | Compacted(taskId: string, itemRefs: seq<(string, string, bool)>)
    | PackBuilt(taskId: string, totalTokens: nat, budgetTokens: int)

  function ItemRefs(items: seq<Item>): seq<(string, string, bool)> {
    seq(|items|, i requires 0 <= i < |items| => (items[i].itemId, items[i].rawEventRef, items[i].compacted))
  }

  /** The items that were not tracked are tracked from zero, and the counts of the others stay. */
  ghost predicate Tracks(usage: map<string, nat>, itemIds: seq<string>, usage': map<string, nat>) {
    && (forall id :: id in usage' <==> id in usage || id in itemIds)
    && (forall id :: id in usage' ==> usage'[id] == if id in usage then usage[id] else 0)
  }

  method BothPhases(sourceItems: seq<SourceItem>, budgetTokens: int)
    returns (items: seq<Item>, anyCompacted: bool, ghost compacted: seq<Item>)
    ensures Packed(ContextItems(sourceItems), compacted, items, budgetTokens)
    ensures forall x :: x in items ==> HasSource(sourceItems, x)
    ensures anyCompacted <==> compacted != ContextItems(sourceItems)
  {
    items := CompactionPhase(ContextItems(sourceItems), budgetTokens);
    compacted := items;
    anyCompacted := items != ContextItems(sourceItems);
    items := DroppingPhase(items, budgetTokens);
    KeptHaveSources(sourceItems, compacted, items);
  }

  class ContextEngine {
    /** Iterations since an item was used. */
    var usage: map<string, nat>
    var events: seq<PackEvent>

    constructor ()
      ensures usage == map[] && events == []
    {
      usage, events := map[], [];
    }

    method StartTracking(itemIds: seq<string>)
      modifies this`usage
      ensures Tracks(old(usage), itemIds, usage)
    {
      for i := 0 to |itemIds|
        invariant Tracks(old(usage), itemIds[..i], usage)
      {
        if itemIds[i] !in usage {
          usage := usage[itemIds[i] := 0];
        }
        assert itemIds[..i + 1] == itemIds[..i] + [itemIds[i]];
      }
      assert itemIds[..|itemIds|] == itemIds;
    }

    method RecordCompaction(taskId: string, items: seq<Item>, anyCompacted: bool)
      modifies this`events
      ensures events == old(events) + (if anyCompacted then [Compacted(taskId, ItemRefs(items))] else [])
    {
      if anyCompacted {
        events := events + [Compacted(taskId, ItemRefs(items))];
      }
    }

    /** Builds one pack; `compacted` is what the compaction phase left. */
    method BuildPack(taskId: string, budgetTokens: int, sourceItems: seq<SourceItem>)
      returns (r: Result<seq<Item>, PackError>, items: seq<Item>, ghost compacted: seq<Item>)
      modifies this
      ensures r == if budgetTokens > 0 then Ok(items) else Err(BudgetNotPositive)
      ensures Packed(ContextItems(sourceItems), compacted, items, budgetTokens)
      ensures forall x :: x in items ==> HasSource(sourceItems, x)
      ensures Tracks(old(usage), ItemIds(items), usage)
      ensures events == old(events)
                + (if compacted != ContextItems(sourceItems) then [Compacted(taskId, ItemRefs(items))] else [])
                + (if budgetTokens > 0 then [PackBuilt(taskId, Total(items), budgetTokens)] else [])
    {
      var anyCompacted: bool;
      items, anyCompacted, compacted := BothPhases(sourceItems, budgetTokens);
      RecordCompaction(taskId, items, anyCompacted);
      NothingAround(events);
      StartTracking(ItemIds(items));
      if budgetTokens <= 0 {
        return Err(BudgetNotPositive), items, compacted;
      }
      events := events + [PackBuilt(taskId, Total(items), budgetTokens)];
      return Ok(items), items, compacted;
    }
  }

  function ItemIds(items: seq<Item>): (r: seq<string>)
    ensures |r| == |items|
    ensures forall i :: 0 <= i < |r| ==> r[i] == items[i].itemId
  {
    seq(|items|, i requires 0 <= i < |items| => items[i].itemId)
  }

  ghost predicate HasSource(sourceItems: seq<SourceItem>, x: Item) {
    exists i :: 0 <= i < |sourceItems| && FromSource(sourceItems[i], x)
  }

  /** The item refers to its source. Compacted, it is a reference and nothing of the source's content; otherwise it is that
      content, wrapped if the source is not trusted. Four characters count as one token. */
  ghost predicate FromSource(s: SourceItem, x: Item) {
    && x.itemId == s.itemId && x.source == s.source && x.eventRef == s.eventRef && x.rawEventRef == s.eventRef
    && x.taint == s.taint && 4 * x.tokens - 3 <= |x.content| <= 4 * x.tokens
    && (if x.compacted then x.content == "[summary:" + s.eventRef + "]"
        else if s.taint then IsWrapped(s, x.content) else x.content == s.content)
  }

  /** The content between the tags, whose attributes carry the source and the event. */
  ghost predicate IsWrapped(s: SourceItem, content: string) {
    exists a, b ::
      && Carries(a, s.source) && Carries(b, s.eventRef)
      && content == "<untrusted_data source=\"" + a + "\" event=\"" + b + "\">\n" + s.content + "\n</untrusted_data>"
  }

  /** An attribute text that reads back as the given one and can end neither the attribute nor the tag before it. */
  predicate Carries(attribute: string, text: string) {
    Unescape(attribute) == text && '"' !in attribute && '<' !in attribute
  }

  function Unescape(s: string): string {
    if s == [] then []
    else if "&amp;" <= s then "&" + Unescape(s[5..])
    else if "&quot;" <= s then "\"" + Unescape(s[6..])
    else if "&lt;" <= s then "<" + Unescape(s[4..])
    else [s[0]] + Unescape(s[1..])
  }

  lemma {:induction false} EscapeCarries(s: string)
    ensures Carries(Escape(s), s)
  {
    if s != [] {
      EscapeCarries(s[1..]);
      EscapedFirst(s[0], Escape(s[1..]));
      EscapedHarmless(s[0]);
      assert [s[0]] + s[1..] == s;
    }
  }

  lemma EscapedHarmless(c: char)
    ensures '"' !in EscapeChar(c) && '<' !in EscapeChar(c)
  {
  }

  lemma EscapedFirst(c: char, rest: string)
    ensures Unescape(EscapeChar(c) + rest) == [c] + Unescape(rest)
  {
    var s := EscapeChar(c) + rest;
    if c == '&' {
      assert s[5..] == rest;
    } else if c == '"' {
      assert s[1] == 'q' && s[6..] == rest;
    } else if c == '<' {
      assert s[1] == 'l' && s[4..] == rest;
    } else {
      assert s[0] == c && s[1..] == rest;
    }
  }

  lemma ItemFromSource(s: SourceItem)
    ensures FromSource(s, ContextItem(s)) && FromSource(s, CompactItem(ContextItem(s)))
  {
    EscapeCarries(s.source);
    EscapeCarries(s.eventRef);
  }

  /** The whole result: untouched if everything fits; otherwise compacted, largest first; and if the
      compacted items still do not all fit, every one was compacted and the best choice of them is kept. */
  ghost predicate Packed(original: seq<Item>, compacted: seq<Item>, items: seq<Item>, budget: int) {
    && CompactionOf(original, compacted)
    && (DistinctIds(original) ==> LargestFirst(original, compacted))
    && (Total(original) <= budget ==> items == compacted == original)
    && (Total(compacted) <= budget ==> items == compacted)
    && (Total(compacted) > budget && original != [] ==> AllCompacted(compacted) && BestKept(compacted, items, budget))
    && (original == [] ==> items == [])
  }

  method CompactionPhase(original: seq<Item>, budgetTokens: int) returns (items: seq<Item>)
    requires forall i :: 0 <= i < |original| ==> !original[i].compacted
    ensures CompactionOf(original, items)
    ensures DistinctIds(original) ==> LargestFirst(original, items)
    ensures Total(original) <= budgetTokens ==> items == original
    ensures Total(items) > budgetTokens ==> AllCompacted(items)
  {
    items := original;
    while Total(items) > budgetTokens && |items| > 0
      invariant CompactionOf(original, items)
      invariant DistinctIds(original) ==> LargestFirst(original, items)
      invariant Total(original) <= budgetTokens ==> items == original
      decreases Uncompacted(items)
    {
      var largest := Largest(items);
      if largest.None? {
        break;
      }
      ghost var before := items;
      items := CompactAll(items, items[largest.value].itemId);
      CompactionStep(original, before, largest.value);
      if Largest(items).None? {
        break;
      }
    }
  }

  lemma CompactionStep(original: seq<Item>, items: seq<Item>, k: nat)
    requires forall i :: 0 <= i < |original| ==> !original[i].compacted
    requires CompactionOf(original, items) && Largest(items) == Some(k)
    ensures
      var items' := CompactAll(items, items[k].itemId);
      && CompactionOf(original, items')
      && (DistinctIds(original) && LargestFirst(original, items) ==> LargestFirst(original, items'))
      && Uncompacted(items') < Uncompacted(items)
  {
    var items' := CompactAll(items, items[k].itemId);
    forall i | 0 <= i < |items| ensures CompactsAt(original, items, items', i) {
      assert items[i].itemId == original[i].itemId;
      CompactTwice(original[i]);
    }
    OnlyTheLargest(original, items, k);
    FewerUncompacted(items, k);
  }

  lemma FewerUncompacted(items: seq<Item>, k: nat)
    requires Largest(items) == Some(k)
    ensures Uncompacted(CompactAll(items, items[k].itemId)) < Uncompacted(items)
  {
    var items' := CompactAll(items, items[k].itemId);
    assert k in Uncompacted(items) && k !in Uncompacted(items');
    assert Uncompacted(items') <= Uncompacted(items);
  }

  predicate CompactsAt(original: seq<Item>, items: seq<Item>, items': seq<Item>, i: nat)
    requires i < |items| == |items'| == |original|
  {
    && items'[i] == (if items'[i].compacted then CompactItem(original[i]) else original[i])
    && (items[i].compacted ==> items'[i].compacted)
  }

  lemma OnlyTheLargest(original: seq<Item>, items: seq<Item>, k: nat)
    requires CompactionOf(original, items) && Largest(items) == Some(k)
    ensures
      var items' := CompactAll(items, items[k].itemId);
      DistinctIds(original) && LargestFirst(original, items) ==> LargestFirst(original, items')
  {
    var items' := CompactAll(items, items[k].itemId);
    if DistinctIds(original) && LargestFirst(original, items) {
      assert items[k].itemId == original[k].itemId;
      forall i | 0 <= i < |items| && items'[i].compacted && !items[i].compacted ensures i == k {
        assert items[i].itemId == original[i].itemId;
      }
    }
  }

  lemma CompactTwice(item: Item)
    ensures CompactItem(CompactItem(item)) == CompactItem(item)
  {
  }

  method DroppingPhase(compacted: seq<Item>, budgetTokens: int) returns (items: seq<Item>)
    ensures Total(compacted) <= budgetTokens ==> items == compacted
    ensures Total(compacted) > budgetTokens && compacted != [] ==> BestKept(compacted, items, budgetTokens)
    ensures multiset(items) <= multiset(compacted)
  {
    items := compacted;
    if Total(items) > budgetTokens {
      items := SortByTokens(items);
      ghost var sorted := items;
      assert sorted[..|sorted|] == sorted;
      while Total(items) > budgetTokens && |items| > 1
        invariant |items| <= |sorted| && items == sorted[..|items|]
        invariant sorted != [] ==> |items| >= 1
        invariant |items| < |sorted| ==> Total(sorted[..|items| + 1]) > budgetTokens
      {
        PrefixOfPrefix(sorted, |items|, |items| - 1);
        items := items[..|items| - 1];
      }
      SortedPrefix(compacted, sorted, |items|);
      if sorted != [] {
        DroppingIsBest(compacted, sorted, |items|, budgetTokens);
      }
    }
  }

  lemma SortedPrefix(items: seq<Item>, sorted: seq<Item>, n: nat)
    requires sorted == SortByTokens(items) && n <= |sorted|
    ensures Ascending(sorted) && multiset(sorted) == multiset(items) && |sorted| == |items|
    ensures multiset(sorted[..n]) <= multiset(items)
  {
    SortSorts(items);
    assert |multiset(items)| == |multiset(sorted)|;
    assert sorted == sorted[..n] + sorted[n..];
  }

  lemma KeptHaveSources(sourceItems: seq<SourceItem>, compacted: seq<Item>, items: seq<Item>)
    requires CompactionOf(ContextItems(sourceItems), compacted)
    requires multiset(items) <= multiset(compacted)
    ensures forall x :: x in items ==> HasSource(sourceItems, x)
  {
    forall x | x in items ensures HasSource(sourceItems, x) {
      assert x in multiset(items);
      assert x in multiset(compacted);
      var i :| 0 <= i < |compacted| && compacted[i] == x;
      ItemFromSource(sourceItems[i]);
      assert FromSource(sourceItems[i], x);
    }
  }
}
