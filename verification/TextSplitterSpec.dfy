/** What a split of a text is, said without the splitter: tagged slices in order, each opened,
    filled and closed as a greedy reader of the lines would. */
module TextSplitterSpec {
  import opened Options
  import opened TextSplitter

  /** There is nothing to quote, or every opening tag leaves room for its close tag and one
      more character. */
  ghost predicate TagsFit(s: string, limit: nat) {
    || !Contains(s, OPEN)
    || (limit >= |PLAIN_TAG| + |CLOSE| + 1
        && forall lo: nat, hi: nat :: IsLine(s, lo, hi) ==> TagFits(OpenTag(s[lo..hi]), limit))
  }

  predicate TagFits(t: Option<string>, limit: nat) {
    t.Some? ==> |t.value| + |CLOSE| + 1 <= limit
  }

  // ----- parts

  /** A part is an inserted open tag, a slice of the text and an inserted close tag. */
  datatype Piece = Piece(open: string, lo: nat, hi: nat, close: string)

  predicate PieceOk(s: string, p: Piece) {
    p.lo <= p.hi <= |s| && (p.open == "" || IsTag(p.open)) && (p.close == "" || p.close == CLOSE)
  }

  function Render(s: string, p: Piece): string
    requires PieceOk(s, p)
  {
    p.open + s[p.lo..p.hi] + p.close
  }

  predicate Newlines(s: string) {
    forall k :: 0 <= k < |s| ==> s[k] == '\n'
  }

  /** The slices lie in order and only line breaks are left out of `s[..upto]`. */
  predicate Covers(s: string, pieces: seq<Piece>, upto: nat)
    requires upto <= |s|
  {
    if pieces == [] then Newlines(s[..upto])
    else
      var p := pieces[|pieces| - 1];
      p.lo <= p.hi <= upto && Newlines(s[p.hi..upto]) && Covers(s, pieces[..|pieces| - 1], p.lo)
  }

  predicate PartOk(part: string, s: string, p: Piece, limit: nat) {
    PieceOk(s, p) && part == Render(s, p) && 0 < |part| <= limit
  }

  predicate PartsOk(parts: seq<string>, s: string, pieces: seq<Piece>, limit: nat) {
    |parts| == |pieces| && forall k :: 0 <= k < |parts| ==> PartOk(parts[k], s, pieces[k], limit)
  }

  // ----- the quote a line is in

  /** Whether a quote is open, and the tag it was last opened with. */
  datatype Quote = Quote(on: bool, tag: string)

  const NO_QUOTE := Quote(false, PLAIN_TAG)

  function LineStart(s: string, i: nat): (r: nat)
    requires i <= |s|
    ensures r <= i && (r == 0 || s[r - 1] == '\n') && forall k :: r <= k < i ==> s[k] != '\n'
  {
    if i == 0 || s[i - 1] == '\n' then i else LineStart(s, i - 1)
  }

  /** The tag put in front of text inside a quote that does not open one itself. */
  function Reopened(q: Quote, text: string): string {
    if q.on && !(OPEN <= text) then q.tag else ""
  }

  function Closing(q: Quote, text: string): string {
    if q.on && !EndsWith(text, CLOSE) then CLOSE else ""
  }

  /** A line as it is read: quoted again if a part starts with it. */
  function Shown(starts: set<nat>, q: Quote, b: nat, line: string): string {
    if b in starts then Reopened(q, line) + line else line
  }

  /** The quote a line counts as being in, from its first character on. */
  function InLine(q: Quote, line: string): Quote {
    if !Contains(line, OPEN) then q
    else Quote(true, if OpenTag(line).Some? then OpenTag(line).value else q.tag)
  }

  function AfterLine(q: Quote, line: string): Quote {
    Quote(InLine(q, line).on && !Contains(line, CLOSE), InLine(q, line).tag)
  }

  /** The quote behind the line that ends at `e`, when parts start at `starts`. */
  function Through(s: string, starts: set<nat>, e: nat): Quote
    requires e <= |s|
    decreases e, 1
  {
    var b := LineStart(s, e);
    var q := Before(s, starts, b);
    AfterLine(q, Shown(starts, q, b, s[b..e]))
  }

  /** The quote in front of the line that starts at `b`. */
  function Before(s: string, starts: set<nat>, b: nat): Quote
    requires b <= |s| + 1
    decreases b, 0
  {
    if b == 0 then NO_QUOTE else Through(s, starts, b - 1)
  }

  // ----- greedy parts

  /** What a part inserts in front of its slice `s[lo..]` of the line `s[b..e]`: `first` at the start
      of the line, and behind a cut the tag of the quote `i` the line is in. */
  function Opening(s: string, i: Quote, first: string, b: nat, e: nat, lo: nat): string
    requires lo <= e <= |s|
  {
    if lo == b then first else Reopened(i, s[lo..e])
  }

  /** A part that ends inside a line: it is filled to the limit, its close tag included, and the
      line from its start on would have been too long. */
  predicate CutRight(s: string, limit: nat, i: Quote, first: string, b: nat, e: nat, p: Piece) {
    && b <= p.lo < p.hi < e <= |s|
    && p.open == Opening(s, i, first, b, e, p.lo)
    && |p.open| + (p.hi - p.lo) + (if i.on then |CLOSE| else 0) == limit
    && p.close == Closing(i, p.open + s[p.lo..p.hi])
    && var rest := p.open + s[p.lo..e]; |rest| + |Closing(i, rest)| > limit
  }

  /** The next line would not have fitted behind `content` together with the close tag it needs. */
  predicate NextTooLong(s: string, limit: nat, q: Quote, content: string, pos: nat)
    requires pos <= |s|
  {
    var line := s[pos..LineEnd(s, pos)];
    |content| + 1 + |line| + |Closing(AfterLine(q, line), line)| > limit
  }

  /** A part that ends with a line: closed if a quote is open behind it, and full. */
  predicate BreakRight(s: string, starts: set<nat>, limit: nat, p: Piece)
    requires p.lo <= p.hi <= |s|
  {
    var q, content := Through(s, starts, p.hi), p.open + s[p.lo..p.hi];
    p.close == Closing(q, content) && (p.hi < |s| ==> NextTooLong(s, limit, q, content, p.hi + 1))
  }

  /** The quote that the line from `b` to `e` counts as being in. */
  function QuoteOf(s: string, starts: set<nat>, b: nat, e: nat): Quote
    requires b <= e <= |s|
  {
    InLine(Before(s, starts, b), Shown(starts, Before(s, starts, b), b, s[b..e]))
  }

  /** A part opens with the tag in force exactly where it starts inside a quote without a tag of
      its own. */
  predicate OpenRight(s: string, starts: set<nat>, open: string, lo: nat)
    requires lo <= |s|
  {
    var b, e := LineStart(s, lo), LineEnd(s, lo);
    open == Opening(s, QuoteOf(s, starts, b, e), Reopened(Before(s, starts, b), s[b..e]), b, e, lo)
  }

  predicate Greedy(s: string, starts: set<nat>, limit: nat, p: Piece)
    requires p.lo <= p.hi <= |s|
  {
    && OpenRight(s, starts, p.open, p.lo)
    && if p.hi == LineEnd(s, p.hi) then BreakRight(s, starts, limit, p)
       else
         var b, e := LineStart(s, p.lo), LineEnd(s, p.lo);
         CutRight(s, limit, QuoteOf(s, starts, b, e), Reopened(Before(s, starts, b), s[b..e]), b, e, p)
  }

  function Starts(pieces: seq<Piece>): set<nat> {
    set k | 0 <= k < |pieces| :: pieces[k].lo
  }

  predicate AllGreedy(s: string, starts: set<nat>, limit: nat, pieces: seq<Piece>) {
    forall k :: 0 <= k < |pieces| ==>
      pieces[k].lo <= pieces[k].hi <= |s| && Greedy(s, starts, limit, pieces[k])
  }

  /** The parts are tagged slices that lie in order, leave out line breaks only, and are greedy. */
  ghost predicate IsSplit(parts: seq<string>, s: string, limit: nat) {
    exists pieces ::
      PartsOk(parts, s, pieces, limit) && Covers(s, pieces, |s|) && AllGreedy(s, Starts(pieces), limit, pieces)
  }

  lemma SplitIs(parts: seq<string>, s: string, pieces: seq<Piece>, limit: nat)
    requires PartsOk(parts, s, pieces, limit) && Covers(s, pieces, |s|)
    requires AllGreedy(s, Starts(pieces), limit, pieces)
    ensures IsSplit(parts, s, limit) && forall k :: 0 <= k < |parts| ==> |parts[k]| <= limit
  {
    hide Greedy, Covers, Starts;
    forall k | 0 <= k < |parts| ensures |parts[k]| <= limit { assert PartOk(parts[k], s, pieces[k], limit); }
  }

  // ----- lines and starts

  lemma InsideLine(s: string, pos: nat, end: nat, i: nat)
    requires IsLine(s, pos, end) && pos <= i <= end
    ensures LineStart(s, i) == pos && LineEnd(s, i) == end
  {
  }

  predicate AgreeUpTo(a: set<nat>, b: set<nat>, n: int) {
    forall x: nat :: x <= n ==> (x in a <==> x in b)
  }

  lemma {:induction false} ThroughSame(s: string, a: set<nat>, b: set<nat>, e: nat)
    requires e <= |s| && AgreeUpTo(a, b, LineStart(s, e))
    ensures Through(s, a, e) == Through(s, b, e)
    decreases e, 1
  {
    hide AfterLine, Reopened;
    BeforeSame(s, a, b, LineStart(s, e));
  }

  lemma {:induction false} BeforeSame(s: string, a: set<nat>, b: set<nat>, pos: nat)
    requires pos <= |s| + 1 && AgreeUpTo(a, b, pos - 1)
    ensures Before(s, a, pos) == Before(s, b, pos)
    decreases pos, 0
  {
    hide Through;
    if pos > 0 { ThroughSame(s, a, b, pos - 1); }
  }

  lemma QuoteOfSame(s: string, a: set<nat>, b: set<nat>, pos: nat, end: nat)
    requires pos <= end <= |s| && AgreeUpTo(a, b, pos)
    ensures QuoteOf(s, a, pos, end) == QuoteOf(s, b, pos, end) && Before(s, a, pos) == Before(s, b, pos)
  {
    hide Before, InLine, Reopened;
    BeforeSame(s, a, b, pos);
  }

  lemma OpenRightSame(s: string, a: set<nat>, b: set<nat>, open: string, lo: nat)
    requires lo <= |s| && AgreeUpTo(a, b, LineStart(s, lo))
    ensures OpenRight(s, a, open, lo) <==> OpenRight(s, b, open, lo)
  {
    hide QuoteOf, Before, Opening, Reopened;
    QuoteOfSame(s, a, b, LineStart(s, lo), LineEnd(s, lo));
  }

  /** Starts behind the last line of a part do not matter to it. */
  lemma GreedySame(s: string, a: set<nat>, b: set<nat>, limit: nat, p: Piece)
    requires p.lo <= p.hi <= |s| && AgreeUpTo(a, b, LineStart(s, p.hi)) && Greedy(s, a, limit, p)
    ensures Greedy(s, b, limit, p)
  {
    assert LineStart(s, p.lo) <= LineStart(s, p.hi);
    hide QuoteOf, Before, Through, Opening, Reopened, CutRight, NextTooLong, Closing, AgreeUpTo;
    AgreeLess(a, b, LineStart(s, p.lo), LineStart(s, p.hi));
    OpenRightSame(s, a, b, p.open, p.lo);
    ThroughSame(s, a, b, p.hi);
    QuoteOfSame(s, a, b, LineStart(s, p.lo), LineEnd(s, p.lo));
  }

  lemma AgreeLess(a: set<nat>, b: set<nat>, m: int, n: int)
    requires AgreeUpTo(a, b, n) && m <= n
    ensures AgreeUpTo(a, b, m)
  {
  }

  lemma AllGreedySame(s: string, a: set<nat>, b: set<nat>, limit: nat, pieces: seq<Piece>, n: nat)
    requires AllGreedy(s, a, limit, pieces) && AgreeUpTo(a, b, n - 1)
    requires forall k :: 0 <= k < |pieces| ==> pieces[k].hi < n
    ensures AllGreedy(s, b, limit, pieces)
  {
    hide Greedy, AgreeUpTo;
    forall k | 0 <= k < |pieces| ensures Greedy(s, b, limit, pieces[k]) {
      AgreeLess(a, b, LineStart(s, pieces[k].hi), n - 1);
      GreedySame(s, a, b, limit, pieces[k]);
    }
  }
}
