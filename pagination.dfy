/** Cursor-based pagination as the providers use it. The helpers themselves
    (`createIndicator`, `createNextIndicator`, `createPageable`) live in a shared package
    that is outside this model; they are modelled by what their call sites rely on: the
    root indicator has no cursor, and a next indicator links back to the one it follows. */
module Pagination {
  import opened Common

  /** A position in an upstream listing: its opaque cursor (none for the first page) and
      the indicator of the page before it, if any. */
  datatype PageIndicator = PageIndicator(id: Option<string>, prev: Option<PageIndicator>)

  /** A page of items, the indicator it was fetched with, and the indicator of the next
      page; no next indicator means there are no further pages. */
  datatype Pageable<T> = Pageable(items: seq<T>, indicator: Option<PageIndicator>,
                                  nextIndicator: Option<PageIndicator>)

  /** `createIndicator()`: the root of every chain. */
  function CreateIndicator(): (r: PageIndicator)
    ensures r.id.None? && r.prev.None?
  {
    PageIndicator(None, None)
  }

  /** `createNextIndicator(current, cursor)`: nothing when the upstream reported no
      cursor, otherwise a new indicator for that cursor whose predecessor is `current`. */
  function CreateNextIndicator(current: Option<PageIndicator>, cursor: Option<string>): (r: Option<PageIndicator>)
    ensures r.None? <==> cursor.None?
    ensures r.Some? ==> r.value.id == cursor && r.value.prev == current
  {
    match cursor
    case None => None
    case Some(c) => Some(PageIndicator(Some(c), current))
  }

  /** `next` is how a page fetched from `from` continues when the upstream reported
      `cursor`: no next page without a cursor, otherwise an indicator for that cursor that
      points back to `from`. */
  predicate LinksTo(next: Option<PageIndicator>, from: Option<PageIndicator>, cursor: Option<string>) {
    (next.None? <==> cursor.None?) && (next.Some? ==> next.value.id == cursor && next.value.prev == from)
  }

  /** `createPageable(items, indicator, nextIndicator)`. */
  function CreatePageable<T>(items: seq<T>, indicator: Option<PageIndicator>,
                             nextIndicator: Option<PageIndicator>): (r: Pageable<T>)
    ensures r.items == items && r.indicator == indicator && r.nextIndicator == nextIndicator
  {
    Pageable(items, indicator, nextIndicator)
  }

  /** `indicator ?? createIndicator()`. */
  function OrRoot(indicator: Option<PageIndicator>): (r: PageIndicator)
    ensures indicator.Some? ==> r == indicator.value
    ensures indicator.None? ==> r == CreateIndicator()
  {
    match indicator
    case Some(i) => i
    case None => CreateIndicator()
  }

  /** `indicator?.id`: the cursor sent upstream. */
  function RequestCursor(indicator: Option<PageIndicator>): (r: Option<string>)
    ensures indicator.None? ==> r.None?
    ensures indicator.Some? ==> r == indicator.value.id
  {
    match indicator
    case None => None
    case Some(i) => i.id
  }

  /** `value ?? undefined`: only `null` and `undefined` mean "no cursor". */
  function NullishCursor(value: Option<string>): (r: Option<string>)
    ensures r == value
  {
    match value
    case None => None
    case Some(c) => Some(c)
  }

  /** `value ? value : undefined`: every falsy value, the empty string included, means
      "no cursor". */
  function TruthyCursor(value: Option<string>): (r: Option<string>)
    ensures r.Some? ==> r.value != ""
    ensures value.Some? && value.value != "" ==> r == value
  {
    match value
    case Some(c) => if c == "" then None else Some(c)
    case None => None
  }

  /** The two normalisations differ on exactly one input, the empty string: `??` keeps it
      as a cursor and `? :` turns it into the end of the list. */
  lemma CursorNormalisationsDiffer(value: Option<string>)
    ensures NullishCursor(value) != TruthyCursor(value) <==> value == Some("")
    ensures TruthyCursor(Some("")) == None && NullishCursor(Some("")) == Some("")
  {
  }

  /** The cursors of the chain, oldest first, ending with this indicator's own. */
  function Cursors(i: PageIndicator): (r: seq<Option<string>>)
    ensures |r| >= 1 && r[|r| - 1] == i.id
  {
    match i.prev
    case None => [i.id]
    case Some(p) => Cursors(p) + [i.id]
  }

  /** The number of indicators in the chain ending here. */
  function Depth(i: PageIndicator): (n: nat)
    ensures n >= 1
  {
    match i.prev
    case None => 1
    case Some(p) => Depth(p) + 1
  }

  /** The chain records one cursor per indicator. */
  lemma {:induction false} CursorsLength(i: PageIndicator)
    ensures |Cursors(i)| == Depth(i)
  {
    match i.prev
    case None =>
    case Some(p) => CursorsLength(p);
  }

  /** Moving to the next page appends the reported cursor to the chain and makes it one
      longer; the earlier cursors are kept as they were. */
  lemma NextExtendsChain(current: PageIndicator, cursor: string)
    ensures var n := CreateNextIndicator(Some(current), Some(cursor)).value;
      Cursors(n) == Cursors(current) + [Some(cursor)] && Depth(n) == Depth(current) + 1
  {
  }

  /** The end of a listing: no cursor reported, no next indicator, whatever page this is. */
  lemma NoCursorNoNext(current: Option<PageIndicator>)
    ensures CreateNextIndicator(current, None) == None
  {
  }
}
