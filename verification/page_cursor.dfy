/**
 * The page cursor of the story reader (StoryDetailScreen.tsx:30, 118-128,
 * 140-190): a current page index among a story's pages, moved by "next"
 * and "previous", reset by "read again", with the indicator, the disabled
 * buttons and the completion panel derived from it.
 */
module PageCursor {

  /** The current page and the number of pages. */
  datatype Cursor = Cursor(page: int, count: nat)

  /** The page is one of the story's pages. */
  predicate Valid(r: Cursor) {
    0 <= r.page < r.count
  }

  /** The reader opens on the first page. */
  function Open(count: nat): (r: Cursor)
    ensures r.page == 0 && r.count == count
    ensures count > 0 ==> Valid(r)
  {
    Cursor(0, count)
  }

  /** `nextPage`: forward one page unless on the last one. */
  function Next(r: Cursor): (n: Cursor)
    ensures n.count == r.count
    ensures r.page < r.count - 1 ==> n.page == r.page + 1
    ensures r.page >= r.count - 1 ==> n == r
  {
    if r.page < r.count - 1 then r.(page := r.page + 1) else r
  }

  /** `prevPage`: back one page unless on the first one. */
  function Prev(r: Cursor): (p: Cursor)
    ensures p.count == r.count
    ensures r.page > 0 ==> p.page == r.page - 1
    ensures r.page <= 0 ==> p == r
  {
    if r.page > 0 then r.(page := r.page - 1) else r
  }

  /** "Hikayeyi Baştan Oku": back to the first page. */
  function Restart(r: Cursor): (s: Cursor)
    ensures s.page == 0 && s.count == r.count
  {
    r.(page := 0)
  }

  /** The completion panel is shown on the last page. */
  predicate Completed(r: Cursor) {
    r.page == r.count - 1
  }

  predicate PrevDisabled(r: Cursor) {
    r.page == 0
  }

  predicate NextDisabled(r: Cursor) {
    r.page == r.count - 1
  }

  /** "Sayfa x/y": the page number counted from one, and the page count. */
  function Indicator(r: Cursor): (xy: (int, nat))
    ensures xy.0 == r.page + 1 && xy.1 == r.count
    ensures Valid(r) ==> 1 <= xy.0 <= xy.1
  {
    (r.page + 1, r.count)
  }

  /** The indicator follows the buttons: it reads "1/y" on opening, counts
      one up on "next" and one down on "previous" where they are enabled,
      and reads "y/y" exactly when the completion panel shows. */
  lemma IndicatorTracks(r: Cursor)
    requires Valid(r)
    ensures r.count > 0 ==> Indicator(Open(r.count)) == (1, r.count)
    ensures Indicator(r).0 == Indicator(r).1 <==> Completed(r)
    ensures !NextDisabled(r) ==> Indicator(Next(r)).0 == Indicator(r).0 + 1
    ensures !PrevDisabled(r) ==> Indicator(Prev(r)).0 == Indicator(r).0 - 1
    ensures Indicator(Restart(r)).0 == 1
  {
  }

  /** Every move keeps the cursor on a page of the story. */
  lemma MovesStayValid(r: Cursor)
    requires Valid(r)
    ensures Valid(Next(r)) && Valid(Prev(r)) && Valid(Restart(r))
  {
  }

  /** On a valid cursor a button is disabled exactly when pressing it
      would change nothing, and the completion panel shows exactly when
      "next" is disabled. */
  lemma ButtonsDisabledExactly(r: Cursor)
    requires Valid(r)
    ensures NextDisabled(r) <==> Next(r) == r
    ensures PrevDisabled(r) <==> Prev(r) == r
    ensures Completed(r) <==> NextDisabled(r)
  {
  }

  /** "previous" undoes "next" and "next" undoes "previous", wherever the
      move was possible. */
  lemma MovesUndo(r: Cursor)
    requires Valid(r)
    ensures !NextDisabled(r) ==> Prev(Next(r)) == r
    ensures !PrevDisabled(r) ==> Next(Prev(r)) == r
  {
  }

  /** `n` presses of "next". */
  function Forward(r: Cursor, n: nat): Cursor
    decreases n
  {
    if n == 0 then r else Forward(Next(r), n - 1)
  }

  /** Pressing "next" `n` times moves `n` pages forward, stopping at the
      last page. */
  lemma {:induction false} ForwardStops(r: Cursor, n: nat)
    requires Valid(r)
    ensures Valid(Forward(r, n))
    ensures Forward(r, n).count == r.count
    ensures Forward(r, n).page == if r.page + n < r.count then r.page + n else r.count - 1
    decreases n
  {
    if n > 0 {
      ForwardStops(Next(r), n - 1);
    }
  }

  /** Reading from the current page to the end: the last page is reached
      after exactly one press of "next" per remaining page. */
  method ReadToEnd(r: Cursor) returns (last: Cursor, presses: nat)
    requires Valid(r)
    ensures Completed(last) && last.count == r.count
    ensures presses == r.count - 1 - r.page
    ensures last == Forward(r, presses)
  {
    last, presses := r, 0;
    while !NextDisabled(last)
      invariant Valid(last) && last.count == r.count
      invariant last.page == r.page + presses
      invariant last == Forward(r, presses)
      decreases r.count - last.page
    {
      ForwardStep(r, presses);
      last, presses := Next(last), presses + 1;
    }
  }

  /** One more press of "next" after `n` of them. */
  lemma {:induction false} ForwardStep(r: Cursor, n: nat)
    ensures Forward(r, n + 1) == Next(Forward(r, n))
    decreases n
  {
    if n > 0 {
      ForwardStep(Next(r), n - 1);
    }
  }
}
