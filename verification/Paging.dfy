/** Following the cursor of a paged transcript, page by page. */
module Paging {
  import opened Options
  import opened Text
  import opened Transcripts

  /** A cursor handed back is read back: decode inverts encode on every offset a 64-bit int can hold. */
  lemma CursorRoundTrip(offset: nat)
    requires offset <= MAX_INT64
    ensures DecodeCursor(EncodeCursor(offset)) == Some(offset)
  {
    var c := EncodeCursor(offset);
    AtoiInvertsDecimal(offset);
    DecimalDenotes(offset);
    assert c[|c| - 1] == Decimal(offset)[|Decimal(offset)| - 1];
    TrimKeepsTight(c);
    assert c[|CURSOR_PREFIX|..] == Decimal(offset);
  }

  /** Only what encode produces, or a variant spelling of the same number, is a cursor; the first page's
      empty cursor is none. */
  lemma EmptyCursorIsNone()
    ensures DecodeCursor("") == None
  {
    assert |TrimSpace("")| == 0;
  }

  /** A reader that leaves paging to the normaliser, and fewer turns than memory could ever hold. */
  predicate Plain(t: Transcript) {
    t.omitted == "" && !t.hasMore && t.nextCursor == "" && |t.turns| < 0x4000_0000_0000_0000
  }

  /** The cursor of a walk at this offset. */
  function CursorAt(offset: nat): string { if offset == 0 then "" else EncodeCursor(offset) }

  function PageSize(limit: nat): nat { if limit == 0 then DEFAULT_PAGE_TURNS else limit }

  lemma StartOfPage(offset: nat, limit: int, total: nat)
    requires offset <= total <= MAX_INT64
    ensures Window(0, limit, CursorAt(offset)).WithDefaultLimit().Start(total) == offset
  {
    EmptyCursorIsNone();
    CursorRoundTrip(offset);
  }

  function EndOf(offset: nat, limit: nat, total: nat): nat {
    if offset + PageSize(limit) < total then offset + PageSize(limit) else total
  }

  lemma EndOfPage(offset: nat, limit: nat, total: nat)
    requires offset <= total < 0x4000_0000_0000_0000 && limit <= MAX_INT64 && (offset == 0 || PageSize(limit) < total)
    ensures var w := Window(0, limit, CursorAt(offset)).WithDefaultLimit();
      && w.limit == PageSize(limit) > 0 && w.Start(total) == offset && offset + w.limit <= MAX_INT64
      && w.End(total) == EndOf(offset, limit, total)
  {
    StartOfPage(offset, limit, total);
    EndFrom(Window(0, limit, CursorAt(offset)).WithDefaultLimit(), offset, total);
  }

  lemma EndFrom(w: Window, offset: nat, total: nat)
    requires w.Start(total) == offset && w.limit > 0 && offset + w.limit <= MAX_INT64
    ensures w.End(total) == if offset + w.limit < total then offset + w.limit else total
  {
    WrapInRange(offset + w.limit);
  }

  lemma WrapInRange(n: nat)
    requires n <= MAX_INT64
    ensures Wrap64(n) == n
  {
  }

  /** The page step on its own: no overflow, and the slice the walk expects. */
  lemma PageSlices(t: Transcript, turns: seq<Turn>, truncated: bool, limit: nat, offset: nat)
    requires !t.hasMore && t.nextCursor == "" && limit <= MAX_INT64 && |turns| < 0x4000_0000_0000_0000
    requires offset <= |turns| && (offset == 0 || PageSize(limit) < |turns|)
    ensures var w := Window(0, limit, CursorAt(offset));
      Sliceable(t, w, |turns|) && Page(t, turns, truncated, w) == WalkPage(turns, truncated, limit, offset)
  {
    EndOfPage(offset, limit, |turns|);
  }

  /** The turns from the offset on, at most the limit of them, and a cursor to the next offset exactly when
      turns are left. */
  function WalkPage(turns: seq<Turn>, truncated: bool, limit: nat, offset: nat): Transcript
    requires offset <= |turns|
  {
    var end := EndOf(offset, limit, |turns|);
    Transcript(turns[offset..end], "", truncated, end < |turns|, if end < |turns| then CursorAt(end) else "")
  }

  function Kept(t: Transcript, mask: IncludeMask, limits: Limits, redact: string -> string): seq<Turn> {
    NormalTurns(t.turns, mask, limits.WithDefaults(), redact)
  }

  function Cut(t: Transcript, mask: IncludeMask, limits: Limits, redact: string -> string): bool {
    t.truncated || CutTurns(t.turns, mask, limits.WithDefaults(), redact)
  }

  lemma PageOfWalk(t: Transcript, mask: IncludeMask, limits: Limits, limit: nat, redact: string -> string, offset: nat)
    requires Plain(t) && limit <= MAX_INT64
    requires var turns := Kept(t, mask, limits, redact); offset <= |turns| && (offset == 0 || PageSize(limit) < |turns|)
    ensures var (turns, w) := (Kept(t, mask, limits, redact), Window(0, limit, CursorAt(offset)));
      && Sliceable(t, w, |turns|)
      && Normalize(t, mask, limits, w, redact) == WalkPage(turns, Cut(t, mask, limits, redact), limit, offset)
  {
    PageSlices(t, Kept(t, mask, limits, redact), Cut(t, mask, limits, redact), limit, offset);
  }

  /** All the pages, each asked for with the cursor the one before handed back. */
  function Follow(t: Transcript, mask: IncludeMask, limits: Limits, limit: nat, redact: string -> string,
                  cursor: string, ghost offset: nat): seq<Transcript>
    requires Plain(t) && limit <= MAX_INT64 && cursor == CursorAt(offset)
    requires var turns := Kept(t, mask, limits, redact); offset <= |turns| && (offset == 0 || PageSize(limit) < |turns|)
    decreases |Kept(t, mask, limits, redact)| - offset
  {
    PageOfWalk(t, mask, limits, limit, redact, offset);
    var page := Normalize(t, mask, limits, Window(0, limit, cursor), redact);
    if !page.hasMore then [page]
    else
      var next := EndOf(offset, limit, |Kept(t, mask, limits, redact)|);
      [page] + Follow(t, mask, limits, limit, redact, page.nextCursor, next)
  }

  function Concat(pages: seq<Transcript>): seq<Turn> {
    if pages == [] then [] else pages[0].turns + Concat(pages[1..])
  }

  function Last(pages: seq<Transcript>): Transcript
    requires pages != []
  {
    pages[|pages| - 1]
  }

  /** Every page but the last promises more. */
  ghost predicate Chained(pages: seq<Transcript>) { forall i :: 0 <= i < |pages| - 1 ==> pages[i].hasMore }

  /** The pages a walk over these turns consists of. */
  function Pages(turns: seq<Turn>, truncated: bool, limit: nat, offset: nat): seq<Transcript>
    requires offset <= |turns|
    decreases |turns| - offset
  {
    var end := EndOf(offset, limit, |turns|);
    [WalkPage(turns, truncated, limit, offset)] + if end < |turns| then Pages(turns, truncated, limit, end) else []
  }

  /** One request of the walk, and the ones its cursor leads to. */
  lemma FollowOnce(t: Transcript, mask: IncludeMask, limits: Limits, limit: nat, redact: string -> string, offset: nat)
    requires Plain(t) && limit <= MAX_INT64
    requires var turns := Kept(t, mask, limits, redact); offset <= |turns| && (offset == 0 || PageSize(limit) < |turns|)
    ensures var (turns, truncated) := (Kept(t, mask, limits, redact), Cut(t, mask, limits, redact));
      var end := EndOf(offset, limit, |turns|);
      Follow(t, mask, limits, limit, redact, CursorAt(offset), offset)
      == [WalkPage(turns, truncated, limit, offset)]
         + if end < |turns| then Follow(t, mask, limits, limit, redact, CursorAt(end), end) else []
  {
    PageOfWalk(t, mask, limits, limit, redact, offset);
    var page := WalkPage(Kept(t, mask, limits, redact), Cut(t, mask, limits, redact), limit, offset);
    assert [page] + [] == [page];
  }

  lemma {:induction false} FollowingVisitsThePages(t: Transcript, mask: IncludeMask, limits: Limits, limit: nat,
                                                   redact: string -> string, offset: nat)
    requires Plain(t) && limit <= MAX_INT64
    requires var turns := Kept(t, mask, limits, redact); offset <= |turns| && (offset == 0 || PageSize(limit) < |turns|)
    ensures Follow(t, mask, limits, limit, redact, CursorAt(offset), offset)
         == Pages(Kept(t, mask, limits, redact), Cut(t, mask, limits, redact), limit, offset)
    decreases |Kept(t, mask, limits, redact)| - offset
  {
    FollowOnce(t, mask, limits, limit, redact, offset);
    var end := EndOf(offset, limit, |Kept(t, mask, limits, redact)|);
    if end < |Kept(t, mask, limits, redact)| { FollowingVisitsThePages(t, mask, limits, limit, redact, end); }
  }

  /** The pages hold these turns in order, and only the last of them promises no more. */
  ghost predicate Cover(pages: seq<Transcript>, turns: seq<Turn>) {
    && Concat(pages) == turns
    && pages != [] && Last(pages).nextCursor == "" && !Last(pages).hasMore
    && Chained(pages)
  }

  lemma OnePageCovers(page: Transcript)
    requires page.nextCursor == "" && !page.hasMore
    ensures Cover([page], page.turns)
  {
    assert [page][1..] == [] && page.turns + [] == page.turns;
  }

  lemma OnePageMore(page: Transcript, rest: seq<Transcript>, turns: seq<Turn>)
    requires Cover(rest, turns) && page.hasMore
    ensures Cover([page] + rest, page.turns + turns)
  {
    assert ([page] + rest)[1..] == rest;
    assert forall i :: 0 < i <= |rest| ==> ([page] + rest)[i] == rest[i - 1];
  }

  lemma {:induction false} PagesCover(turns: seq<Turn>, truncated: bool, limit: nat, offset: nat)
    requires offset <= |turns|
    ensures Cover(Pages(turns, truncated, limit, offset), turns[offset..])
    decreases |turns| - offset
  {
    var end := EndOf(offset, limit, |turns|);
    var page := WalkPage(turns, truncated, limit, offset);
    if end < |turns| {
      PagesCover(turns, truncated, limit, end);
      OnePageMore(page, Pages(turns, truncated, limit, end), turns[end..]);
      assert turns[offset..] == turns[offset..end] + turns[end..];
    } else {
      OnePageCovers(page);
      assert [page] + [] == [page];
    }
  }

  /** Paging loses nothing: from the start and with any page size, following the cursors yields exactly the
      whole transcript, each turn once, and ends with a page that promises no more. */
  lemma {:induction false} PagingIsLossless(t: Transcript, mask: IncludeMask, limits: Limits, limit: nat,
                                            redact: string -> string)
    requires Plain(t) && limit <= MAX_INT64
    ensures Sliceable(t, WHOLE, |Kept(t, mask, limits, redact)|)
    ensures var pages := Follow(t, mask, limits, limit, redact, "", 0);
      Cover(pages, Normalize(t, mask, limits, WHOLE, redact).turns)
  {
    var turns := Kept(t, mask, limits, redact);
    FollowingVisitsThePages(t, mask, limits, limit, redact, 0);
    PagesCover(turns, Cut(t, mask, limits, redact), limit, 0);
    assert turns[0..] == turns;
  }
}
