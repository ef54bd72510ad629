/** Where the promise of the splitter holds: with room behind every opening tag the loops end,
    every part is within the limit, and nothing but line breaks is lost between the parts. */
module TextSplitterParts {
  import opened Options
  import opened Strings
  import opened TextSplitter
  import opened TextSplitterSpec

  // ----- tags

  lemma FirstBracketIn(s: string, i: nat, j: nat, e: nat)
    requires i <= j && PastBracket(s, j) == Some(e)
    ensures PastBracket(s[i..e], j - i) == Some(e - i)
    decreases e - j
  {
    if s[j] != '>' { FirstBracketIn(s, i, j + 1, e); }
  }

  lemma FirstBracketBefore(t: string, x: string, j: nat)
    requires PastBracket(t, j).Some?
    ensures PastBracket(t + x, j) == PastBracket(t, j)
    decreases |t| - j
  {
    if t[j] != '>' { FirstBracketBefore(t, x, j + 1); }
  }

  lemma TagEndAlone(s: string, i: nat, e: nat)
    requires TagEnd(s, OPEN, i) == Some(e)
    ensures IsTag(s[i..e])
  {
    var t := s[i..e];
    assert t[0..|OPEN|] == s[i..i + |OPEN|];
    assert t[|OPEN|] == s[i + |OPEN|];
    FirstBracketIn(s, i, i + |OPEN|, e);
  }

  lemma {:induction false} FoundIsTag(s: string, i: nat)
    requires OpenTagFrom(s, i).Some?
    ensures IsTag(OpenTagFrom(s, i).value)
    decreases |s| - i
  {
    match TagEnd(s, OPEN, i)
    case Some(e) => TagEndAlone(s, i, e);
    case None => FoundIsTag(s, i + 1);
  }

  /** An opening tag from `i` to `e`: the head, then '>' or white space, and nothing past the first '>'. */
  predicate TagAt(s: string, i: nat, e: nat) {
    && i + 11 < e <= |s| && s[i..i + 11] == "<blockquote" && (s[i + 11] == '>' || IsSpace(s[i + 11]))
    && s[e - 1] == '>' && forall k :: i + 11 <= k < e - 1 ==> s[k] != '>'
  }

  ghost predicate FirstTagAt(s: string, i: nat, j: nat, e: nat) {
    i <= j && TagAt(s, j, e) && forall k: nat, f: nat :: i <= k < j ==> !TagAt(s, k, f)
  }

  lemma TagEndIs(s: string, i: nat, e: nat)
    ensures TagEnd(s, OPEN, i) == Some(e) <==> TagAt(s, i, e)
  {
  }

  /** The tag found is the leftmost one, and none is found only if there is none. */
  lemma {:induction false} LeftmostTag(s: string, i: nat)
    ensures match OpenTagFrom(s, i)
            case None => forall j: nat, e: nat :: i <= j ==> !TagAt(s, j, e)
            case Some(t) => exists j: nat, e: nat :: FirstTagAt(s, i, j, e) && t == s[j..e]
    decreases |s| - i
  {
    forall e: nat ensures TagEnd(s, OPEN, i) == Some(e) <==> TagAt(s, i, e) { TagEndIs(s, i, e); }
    hide TagEnd, TagAt;
    if i < |s| {
      match TagEnd(s, OPEN, i)
      case Some(e) => assert FirstTagAt(s, i, i, e);
      case None =>
        LeftmostTag(s, i + 1);
        if OpenTagFrom(s, i + 1).Some? {
          var j: nat, e: nat :| FirstTagAt(s, i + 1, j, e) && OpenTagFrom(s, i + 1) == Some(s[j..e]);
          assert FirstTagAt(s, i, j, e);
        }
    }
  }

  /** A quoted line is quoted by the very tag put in front of it. */
  lemma PrefixedTag(t: string, x: string)
    requires IsTag(t)
    ensures OpenTag(t + x) == Some(t) && OPEN <= t + x
  {
    var s := t + x;
    assert s[0..|OPEN|] == t[0..|OPEN|] && s[|OPEN|] == t[|OPEN|];
    FirstBracketBefore(t, x, |OPEN|);
    assert s[0..|t|] == t;
  }

  lemma PlainTagIsTag()
    ensures IsTag(PLAIN_TAG)
  {
    assert PLAIN_TAG[0..11] == OPEN;
    assert PLAIN_TAG[11] == '>';
  }

  lemma ContainsSlice(s: string, lo: nat, hi: nat, p: string)
    requires lo <= hi <= |s| && Contains(s[lo..hi], p)
    ensures Contains(s, p)
  {
    var i :| 0 <= i <= hi - lo && At(s[lo..hi], p, i);
    var line, part := s[lo..hi], s[lo + i..lo + i + |p|];
    forall k | 0 <= k < |p| ensures line[i..i + |p|][k] == part[k] {
      assert line[i + k] == s[lo + i + k];
    }
    assert line[i..i + |p|] == part;
    assert At(s, p, lo + i);
  }

  lemma StartContains(s: string, p: string)
    requires p <= s
    ensures Contains(s, p)
  {
    assert At(s, p, 0);
  }

  lemma EndContains(s: string, p: string)
    requires EndsWith(s, p)
    ensures Contains(s, p)
  {
    assert At(s, p, |s| - |p|);
  }

  // ----- the state between two lines

  /** The tag in force is a tag, with room for its close tag as soon as the text can quote. */
  predicate TagReady(s: string, limit: nat, quoted: bool, tag: string) {
    && IsTag(tag)
    && (quoted ==> Contains(s, OPEN))
    && (Contains(s, OPEN) ==> |tag| + |CLOSE| + 1 <= limit)
  }

  /** `rem` is the slice `s[lo..done]` behind its inserted tag. */
  predicate Holds(s: string, rem: string, open: string, lo: nat, done: nat)
    requires done <= |s|
  {
    lo <= done && rem == open + s[lo..done] && (open == "" || IsTag(open))
  }

  /** Everything before `done` is in a part, in the current part, or a dropped line break. */
  predicate Placed(s: string, current: string, pieces: seq<Piece>, open: string, lo: nat, done: nat)
    requires done <= |s|
  {
    if current == "" then Covers(s, pieces, done)
    else Holds(s, current, open, lo, done) && Covers(s, pieces, lo)
  }

  /** The finished parts and the current one hold the text before `done`, within the limit. */
  predicate InOrder(s: string, limit: nat, st: Splitting, pieces: seq<Piece>, open: string, lo: nat, done: nat)
    requires done <= |s|
  {
    && Placed(s, st.current, pieces, open, lo, done) && PartsOk(st.parts, s, pieces, limit)
    && TagReady(s, limit, st.quoted, st.tag) && !TooLong(limit, st.quoted, st.current)
  }

  lemma CoversOneMore(s: string, pieces: seq<Piece>, upto: nat)
    requires upto < |s| && s[upto] == '\n' && Covers(s, pieces, upto)
    ensures Covers(s, pieces, upto + 1)
  {
    assert s[..upto + 1] == s[..upto] + [s[upto]];
    if pieces != [] {
      var hi := pieces[|pieces| - 1].hi;
      assert s[hi..upto + 1] == s[hi..upto] + [s[upto]];
    }
  }

  lemma CoversPush(s: string, pieces: seq<Piece>, p: Piece)
    requires PieceOk(s, p) && Covers(s, pieces, p.lo)
    ensures Covers(s, pieces + [p], p.hi)
  {
    assert (pieces + [p])[..|pieces|] == pieces;
  }

  lemma PartsPush(parts: seq<string>, s: string, pieces: seq<Piece>, limit: nat, part: string, p: Piece)
    requires PartsOk(parts, s, pieces, limit) && PartOk(part, s, p, limit)
    ensures PartsOk(parts + [part], s, pieces + [p], limit)
  {
  }

  // ----- the parts of one line

  lemma CutBehindTag(s: string, rem: string, open: string, lo: nat, done: nat, size: nat)
    requires lo <= done <= |s| && rem == open + s[lo..done] && |open| <= size <= |rem|
    ensures rem[..size] == open + s[lo..lo + size - |open|] && rem[size..] == s[lo + size - |open|..done]
  {
    var n := size - |open|;
    var body := s[lo..done];
    assert body[..n] == s[lo..lo + n] && body[n..] == s[lo + n..done];
    assert rem[..size] == open + body[..n];
    assert rem[size..] == body[n..];
  }

  /** Under `TagReady` a cut is made beyond the inserted tag and before the end of the rest. */
  lemma CutSize(s: string, limit: nat, quoted: bool, tag: string, rem: string)
    returns (size: nat, closed: bool, again: bool)
    requires limit >= 1 && TagReady(s, limit, quoted, tag) && TooLong(limit, quoted, rem)
    ensures 0 < size < |rem| && (quoted ==> |tag| < size) && size + (if closed then |CLOSE| else 0) <= limit
    ensures IsTag(tag) && size + (if quoted then |CLOSE| else 0) == limit
    ensures closed == (quoted && !EndsWith(rem[..size], CLOSE)) && again == (quoted && !(OPEN <= rem[size..]))
    ensures Cut(limit, quoted, tag, rem).0 == if closed then rem[..size] + CLOSE else rem[..size]
    ensures Cut(limit, quoted, tag, rem).1 == if again then tag + rem[size..] else rem[size..]
    ensures |Cut(limit, quoted, tag, rem).1| < |rem|
  {
    hide IsTag, Contains;
    size := if quoted then limit - |CLOSE| else limit;
    closed, again := quoted && !EndsWith(rem[..size], CLOSE), quoted && !(OPEN <= rem[size..]);
  }

  lemma ChunkIsPart(s: string, limit: nat, open: string, lo: nat, hi: nat, chunk: string, closed: bool)
    requires lo < hi <= |s| && chunk == open + s[lo..hi] && (open == "" || IsTag(open))
    requires |chunk| + (if closed then |CLOSE| else 0) <= limit
    ensures PartOk(if closed then chunk + CLOSE else chunk, s, Piece(open, lo, hi, if closed then CLOSE else ""), limit)
  {
    hide IsTag;
    assert chunk + "" == chunk;
  }

  lemma RestHolds(s: string, tag: string, lo: nat, done: nat, again: bool)
    requires lo <= done <= |s| && IsTag(tag)
    ensures Holds(s, if again then tag + s[lo..done] else s[lo..done], if again then tag else "", lo, done)
  {
    hide IsTag;
    assert "" + s[lo..done] == s[lo..done];
  }

  /** Such a cut takes all the limit allows and at least one character of the text, is closed and the
      rest opened as the quote asks for, and leaves a shorter rest. */
  lemma CutIsPiece(s: string, limit: nat, quoted: bool, tag: string, rem: string, open: string, lo: nat, done: nat)
    returns (p: Piece, open': string)
    requires limit >= 1 && done <= |s| && TagReady(s, limit, quoted, tag) && TooLong(limit, quoted, rem)
    requires Holds(s, rem, open, lo, done) && (open != "" ==> quoted && open == tag)
    ensures p.lo == lo < p.hi < done && p.open == open && PartOk(Cut(limit, quoted, tag, rem).0, s, p, limit)
    ensures |Cut(limit, quoted, tag, rem).1| < |rem| && Holds(s, Cut(limit, quoted, tag, rem).1, open', p.hi, done)
    ensures open' != "" ==> quoted && open' == tag
    ensures var i := Quote(quoted, tag);
            && |p.open| + (p.hi - p.lo) + (if quoted then |CLOSE| else 0) == limit
            && p.close == Closing(i, p.open + s[p.lo..p.hi]) && open' == Reopened(i, s[p.hi..done])
  {
    var size, closed, again := CutSize(s, limit, quoted, tag, rem);
    HoldsIs(s, rem, open, lo, done);
    hide *;
    assert |open| < size;
    p, open' := SplitAt(s, limit, tag, rem, open, lo, done, size, closed, again);
    CutFollowsQuote(Quote(quoted, tag), rem[..size], rem[size..], closed, again);
  }

  lemma CutFollowsQuote(i: Quote, taken: string, left: string, closed: bool, again: bool)
    requires closed == (i.on && !EndsWith(taken, CLOSE)) && again == (i.on && !(OPEN <= left))
    ensures Closing(i, taken) == (if closed then CLOSE else "") && Reopened(i, left) == if again then i.tag else ""
  {
  }

  lemma SplitAt(s: string, limit: nat, tag: string, rem: string, open: string, lo: nat, done: nat, size: nat,
                closed: bool, again: bool)
    returns (p: Piece, open': string)
    requires lo <= done <= |s| && rem == open + s[lo..done] && |open| < size < |rem|
    requires (open == "" || IsTag(open)) && IsTag(tag) && size + (if closed then |CLOSE| else 0) <= limit
    ensures p == Piece(open, lo, p.hi, if closed then CLOSE else "") && lo < p.hi < done && p.hi - lo == size - |open|
    ensures PartOk(if closed then rem[..size] + CLOSE else rem[..size], s, p, limit)
    ensures rem[..size] == open + s[lo..p.hi] && rem[size..] == s[p.hi..done]
    ensures Holds(s, if again then tag + rem[size..] else rem[size..], open', p.hi, done)
    ensures open' == if again then tag else ""
  {
    hide *;
    var hi := lo + size - |open|;
    p, open' := Piece(open, lo, hi, if closed then CLOSE else ""), if again then tag else "";
    CutBehindTag(s, rem, open, lo, done, size);
    ChunkIsPart(s, limit, open, lo, hi, rem[..size], closed);
    RestHolds(s, tag, hi, done, again);
  }

  lemma HoldsIs(s: string, rem: string, open: string, lo: nat, done: nat)
    requires done <= |s| && Holds(s, rem, open, lo, done)
    ensures lo <= done && rem == open + s[lo..done] && (open == "" || IsTag(open))
  {
  }

  /** A line too long for one part is cut until its rest fits, each further piece quoted again. */
  lemma {:induction false} CutAllPlaced(s: string, limit: nat, i: Quote, rem: string, fuel: nat, parts: seq<string>,
                                        pieces: seq<Piece>, first: string, b: nat, open: string, lo: nat, done: nat)
    returns (cuts: Cuts, pieces': seq<Piece>, open': string, lo': nat)
    requires limit >= 1 && done <= |s| && TagReady(s, limit, i.on, i.tag) && PartsOk(parts, s, pieces, limit)
    requires Holds(s, rem, open, lo, done) && Covers(s, pieces, lo) && (open != "" ==> i.on && open == i.tag)
    requires b <= lo <= done && open == Opening(s, i, first, b, done, lo) && fuel >= |rem|
    ensures CutAll(limit, i.on, i.tag, rem, fuel) == Some(cuts) && !TooLong(limit, i.on, cuts.rem)
    ensures Holds(s, cuts.rem, open', lo', done) && Covers(s, pieces', lo')
    ensures PartsOk(parts + cuts.parts, s, pieces', limit) && pieces <= pieces'
    ensures lo <= lo' <= done && open' == Opening(s, i, first, b, done, lo') && (rem != "" ==> cuts.rem != "")
    ensures if pieces' == pieces then lo' == lo && cuts.rem == rem else pieces'[|pieces|].lo == lo
    ensures forall k :: |pieces| <= k < |pieces'| ==>
              CutRight(s, limit, i, first, b, done, pieces'[k]) && lo <= pieces'[k].lo
    decreases |rem|
  {
    hide Cut, TooLong, TagReady, Holds, Covers, PartsOk, CutRight, Opening;
    if !TooLong(limit, i.on, rem) {
      cuts, pieces', open', lo' := Cuts([], rem), pieces, open, lo;
      assert parts + [] == parts;
    } else {
      var p, next := CutIsPiece(s, limit, i.on, i.tag, rem, open, lo, done);
      var (chunk, rest) := Cut(limit, i.on, i.tag, rem);
      PartsPush(parts, s, pieces, limit, chunk, p);
      CoversPush(s, pieces, p);
      PieceIsOk(s, p, chunk, limit);
      CutIsRight(s, limit, i, first, b, done, rem, p, next);
      RestIsText(s, rest, next, p.hi, done);
      var more;
      more, pieces', open', lo' := CutAllPlaced(s, limit, i, rest, fuel - 1, parts + [chunk], pieces + [p],
                                                first, b, next, p.hi, done);
      cuts := Cuts([chunk] + more.parts, more.rem);
      assert parts + cuts.parts == parts + [chunk] + more.parts;
      MoreCuts(s, limit, i, first, b, done, pieces, p, pieces');
    }
  }

  lemma MoreCuts(s: string, limit: nat, i: Quote, first: string, b: nat, done: nat,
                 pieces: seq<Piece>, p: Piece, all: seq<Piece>)
    requires pieces + [p] <= all && CutRight(s, limit, i, first, b, done, p) && p.lo <= p.hi
    requires forall k :: |pieces| < k < |all| ==>
               CutRight(s, limit, i, first, b, done, all[k]) && p.hi <= all[k].lo
    ensures pieces <= all && all != pieces && all[|pieces|] == p
    ensures forall k :: |pieces| <= k < |all| ==>
              CutRight(s, limit, i, first, b, done, all[k]) && p.lo <= all[k].lo
  {
    hide CutRight;
    assert all[|pieces|] == (pieces + [p])[|pieces|];
    assert forall k :: 0 <= k < |pieces| ==> all[k] == (pieces + [p])[k] == pieces[k];
  }

  lemma CutIsRight(s: string, limit: nat, i: Quote, first: string, b: nat, e: nat, rem: string, p: Piece, next: string)
    requires b <= p.lo < p.hi < e <= |s| && p.open == Opening(s, i, first, b, e, p.lo)
    requires Holds(s, rem, p.open, p.lo, e) && TooLong(limit, i.on, rem)
    requires |p.open| + (p.hi - p.lo) + (if i.on then |CLOSE| else 0) == limit
    requires p.close == Closing(i, p.open + s[p.lo..p.hi]) && next == Reopened(i, s[p.hi..e])
    ensures CutRight(s, limit, i, first, b, e, p) && next == Opening(s, i, first, b, e, p.hi)
  {
    hide IsTag, EndsWith, Reopened;
  }

  lemma RestIsText(s: string, rest: string, open: string, lo: nat, done: nat)
    requires done <= |s| && Holds(s, rest, open, lo, done) && lo < done
    ensures rest != ""
  {
    hide IsTag;
  }

  lemma PieceIsOk(s: string, p: Piece, part: string, limit: nat)
    requires PartOk(part, s, p, limit)
    ensures PieceOk(s, p)
  {
  }

  lemma LineIsFlat(s: string, lo: nat, hi: nat, limit: nat)
    requires TagsFit(s, limit) && IsLine(s, lo, hi) && Contains(s[lo..hi], OPEN)
    ensures Contains(s, OPEN) && TagFits(OpenTag(s[lo..hi]), limit)
  {
    ContainsSlice(s, lo, hi, OPEN);
  }

  /** Taking up a line keeps the tag in force ready and leaves room to close the quote. */
  lemma EnterReady(s: string, limit: nat, pos: nat, end: nat, quoted: bool, tag: string) returns (open: string)
    requires limit >= 1 && TagsFit(s, limit) && IsLine(s, pos, end) && TagReady(s, limit, quoted, tag)
    ensures var n := Enter(limit, true, quoted, tag, s[pos..end]);
            && n.canClose && TagReady(s, limit, n.quoted, n.tag)
            && Holds(s, n.actual, open, pos, end) && (open != "" ==> n.quoted && open == n.tag)
            && |n.actual| <= |s| + limit && open == Reopened(Quote(quoted, tag), s[pos..end])
  {
    var line := s[pos..end];
    if quoted && !(OPEN <= line) {
      open := tag;
      PrefixedTag(tag, line);
      StartContains(tag + line, OPEN);
    } else {
      open := "";
      assert "" + s[pos..end] == line;
      if Contains(line, OPEN) { LineIsFlat(s, pos, end, limit); }
      if OpenTag(line).Some? { FoundIsTag(line, 0); }
    }
  }

  /** What a line that starts a new part adds: its cuts, and the rest of it as the current part. */
  predicate TakenUp(s: string, limit: nat, n: Entered, next: Splitting, pieces: seq<Piece>, pieces': seq<Piece>,
                    first: string, open: string, lo: nat, pos: nat, end: nat)
    requires end <= |s|
  {
    var i := Quote(n.quoted, n.tag);
    && next.quoted == (n.quoted && !Contains(n.actual, CLOSE)) && next.tag == n.tag
    && (n.actual != "" ==> next.current != "") && pos <= lo <= end && open == Opening(s, i, first, pos, end, lo)
    && pieces <= pieces'
    && (if pieces' == pieces then lo == pos && next.current == n.actual else pieces'[|pieces|].lo == pos)
    && forall k :: |pieces| <= k < |pieces'| ==>
         CutRight(s, limit, i, first, pos, end, pieces'[k]) && pos <= pieces'[k].lo
  }

  /** The line as taken up becomes the current part, its cuts further parts. */
  lemma TakeUpPlaced(s: string, limit: nat, n: Entered, parts: seq<string>, fuel: nat,
                     pieces: seq<Piece>, open: string, pos: nat, end: nat)
    returns (next: Splitting, pieces': seq<Piece>, open': string, lo: nat)
    requires limit >= 1 && end <= |s| && n.canClose && TagReady(s, limit, n.quoted, n.tag) && fuel >= |n.actual|
    requires Holds(s, n.actual, open, pos, end) && (open != "" ==> n.quoted && open == n.tag)
    requires PartsOk(parts, s, pieces, limit) && Covers(s, pieces, pos)
    ensures TakeUp(limit, n, parts, fuel) == Some(next) && InOrder(s, limit, next, pieces', open', lo, end)
    ensures TakenUp(s, limit, n, next, pieces, pieces', open, open', lo, pos, end)
  {
    hide Covers, PartsOk, IsTag, Contains, CutAll, CutRight;
    var cuts;
    cuts, pieces', open', lo := CutAllPlaced(s, limit, Quote(n.quoted, n.tag), n.actual, fuel, parts, pieces,
                                             open, pos, open, pos, end);
    next := TakeUp(limit, n, parts, fuel).value;
  }

  /** The current part is finished: closed if it is still quoted, never truncated. */
  lemma FlushPlaced(s: string, limit: nat, enabled: bool, st: Splitting,
                    pieces: seq<Piece>, open: string, lo: nat, done: nat)
    returns (pieces': seq<Piece>)
    requires done <= |s| && InOrder(s, limit, st, pieces, open, lo, done) && enabled
    ensures PartsOk(Flushed(limit, enabled, st), s, pieces', limit) && Covers(s, pieces', done)
    ensures pieces' == if st.current == "" then pieces
                       else pieces + [Piece(open, lo, done, Closing(Quote(st.quoted, st.tag), st.current))]
  {
    pieces' := pieces;
    if st.current != "" {
      var closed := st.quoted && !EndsWith(st.current, CLOSE);
      var p := Piece(open, lo, done, if closed then CLOSE else "");
      assert st.current + "" == st.current;
      PartsPush(st.parts, s, pieces, limit, if closed then st.current + CLOSE else st.current, p);
      CoversPush(s, pieces, p);
      pieces' := pieces + [p];
    }
  }

  // ----- the quote from line to line

  function StartsWith(pieces: seq<Piece>, current: string, lo: nat): set<nat> {
    Starts(pieces) + if current == "" then {} else {lo}
  }

  /** All lines before `next` are read: the quote in force is theirs, the finished parts are greedy,
      and the current one is opened as it should be. */
  predicate Tracked(s: string, limit: nat, st: Splitting, pieces: seq<Piece>, open: string, lo: nat, next: nat)
    requires next <= |s| + 1
  {
    var a := StartsWith(pieces, st.current, lo);
    && Before(s, a, next) == Quote(st.quoted, st.tag) && (st.quoted ==> st.current != "")
    && AllGreedy(s, a, limit, pieces) && EndBefore(pieces, next)
    && (st.current != "" ==> lo < next && lo <= |s| && OpenRight(s, a, open, lo))
  }

  predicate EndBefore(pieces: seq<Piece>, n: nat) {
    forall k :: 0 <= k < |pieces| ==> pieces[k].lo <= pieces[k].hi < n
  }

  lemma StartsPush(pieces: seq<Piece>, p: Piece)
    ensures Starts(pieces + [p]) == Starts(pieces) + {p.lo}
  {
    var all := pieces + [p];
    assert all[|pieces|] == p;
    forall x | x in Starts(pieces) ensures x in Starts(all) {
      var k :| 0 <= k < |pieces| && pieces[k].lo == x;
      assert all[k].lo == x;
    }
  }

  /** A current part that nothing more fits into is greedy. */
  lemma FlushTracked(s: string, limit: nat, st: Splitting, pieces: seq<Piece>, open: string, lo: nat, done: nat,
                     pieces': seq<Piece>)
    requires done <= |s| && Tracked(s, limit, st, pieces, open, lo, done + 1)
    requires st.current != "" && lo <= done && st.current == open + s[lo..done] && done == LineEnd(s, done)
    requires done < |s| ==> NextTooLong(s, limit, Quote(st.quoted, st.tag), st.current, done + 1)
    requires pieces' == pieces + [Piece(open, lo, done, Closing(Quote(st.quoted, st.tag), st.current))]
    ensures Starts(pieces') == StartsWith(pieces, st.current, lo) && EndBefore(pieces', done + 1)
    ensures AllGreedy(s, Starts(pieces'), limit, pieces')
  {
    hide NextTooLong, Closing, Through, OpenRight, CutRight, Starts;
    var p := Piece(open, lo, done, Closing(Quote(st.quoted, st.tag), st.current));
    StartsPush(pieces, p);
    assert Greedy(s, Starts(pieces'), limit, p);
    GreedyPush(s, Starts(pieces'), limit, pieces, p);
  }

  lemma GreedyPush(s: string, a: set<nat>, limit: nat, pieces: seq<Piece>, p: Piece)
    requires AllGreedy(s, a, limit, pieces) && p.lo <= p.hi <= |s| && Greedy(s, a, limit, p)
    ensures AllGreedy(s, a, limit, pieces + [p])
  {
    hide Greedy;
  }

  /** The line as it is entered is the line as it is read. */
  lemma EnterReads(limit: nat, q: Quote, line: string)
    requires q.on ==> q.tag != ""
    ensures var n := Enter(limit, true, q.on, q.tag, line);
            && n.actual == Reopened(q, line) + line && InLine(q, n.actual) == Quote(n.quoted, n.tag)
            && (n.quoted ==> n.actual != "")
  {
    assert "" + line == line;
    hide OpenTag;
  }

  /** A new part starts at `pos` and nothing else changes before it. */
  lemma StartsAtLine(pieces: seq<Piece>, pieces': seq<Piece>, current: string, lo: nat, pos: nat)
    requires pieces <= pieces' && pos <= lo
    requires forall k :: |pieces| <= k < |pieces'| ==> pos <= pieces'[k].lo
    ensures AgreeUpTo(Starts(pieces), StartsWith(pieces', current, lo), pos - 1)
    ensures pieces' == pieces && lo == pos && current != "" ==> pos in StartsWith(pieces', current, lo)
    ensures pieces' != pieces && pieces'[|pieces|].lo == pos ==> pos in StartsWith(pieces', current, lo)
  {
    forall x: nat | x < pos ensures x in Starts(pieces) <==> x in StartsWith(pieces', current, lo) {
      if x in Starts(pieces) {
        var k :| 0 <= k < |pieces| && pieces[k].lo == x;
        assert pieces'[k].lo == x;
      }
      if x in Starts(pieces') {
        var k :| 0 <= k < |pieces'| && pieces'[k].lo == x;
        assert pieces[k].lo == x;
      }
    }
    if pieces' != pieces { assert pieces'[|pieces|].lo in Starts(pieces'); }
  }

  lemma CutIsGreedy(s: string, a: set<nat>, limit: nat, pos: nat, end: nat, p: Piece)
    requires IsLine(s, pos, end)
    requires CutRight(s, limit, QuoteOf(s, a, pos, end), Reopened(Before(s, a, pos), s[pos..end]), pos, end, p)
    ensures Greedy(s, a, limit, p) && p.lo <= p.hi <= end
  {
    InsideLine(s, pos, end, p.lo);
    InsideLine(s, pos, end, p.hi);
    hide QuoteOf, Before, BreakRight, Opening, Reopened, Closing;
  }

  lemma CutsTracked(s: string, a: set<nat>, limit: nat, pos: nat, end: nat, pieces: seq<Piece>, pieces': seq<Piece>)
    requires IsLine(s, pos, end) && pieces <= pieces' && AllGreedy(s, a, limit, pieces) && EndBefore(pieces, pos)
    requires forall k :: |pieces| <= k < |pieces'| ==>
               CutRight(s, limit, QuoteOf(s, a, pos, end), Reopened(Before(s, a, pos), s[pos..end]), pos, end,
                        pieces'[k])
    ensures AllGreedy(s, a, limit, pieces') && EndBefore(pieces', end + 1)
  {
    hide CutRight, Greedy, QuoteOf, Before, Reopened, IsLine;
    assert pos <= end <= |s| by { LineBounds(s, pos, end); }
    forall k | 0 <= k < |pieces'| ensures pieces'[k].lo <= pieces'[k].hi <= end && Greedy(s, a, limit, pieces'[k]) {
      if k >= |pieces| { CutIsGreedy(s, a, limit, pos, end, pieces'[k]); } else { assert pieces'[k] == pieces[k]; }
    }
  }

  lemma LineBounds(s: string, pos: nat, end: nat)
    requires IsLine(s, pos, end)
    ensures pos <= end <= |s|
  {
  }

  /** What a taken-up line does to the quote and the parts. */
  lemma BreakTracked(s: string, limit: nat, pos: nat, end: nat, q: Quote, n: Entered, pieces: seq<Piece>,
                     next: Splitting, pieces': seq<Piece>, open: string, lo: nat)
    requires IsLine(s, pos, end) && n == Enter(limit, true, q.on, q.tag, s[pos..end]) && (q.on ==> q.tag != "")
    requires AllGreedy(s, Starts(pieces), limit, pieces) && EndBefore(pieces, pos)
    requires Before(s, Starts(pieces), pos) == q
    requires TakenUp(s, limit, n, next, pieces, pieces', Reopened(q, s[pos..end]), open, lo, pos, end)
    ensures Tracked(s, limit, next, pieces', open, lo, end + 1)
  {
    var line, a := s[pos..end], StartsWith(pieces', next.current, lo);
    hide Enter, CutRight, Greedy, Starts, Shown, InLine, Reopened, Contains, AgreeUpTo, Opening, AllGreedy, IsLine,
      StartsWith, OpenRight, EndBefore, QuoteOf, Before;
    LineBounds(s, pos, end);
    EnterReads(limit, q, line);
    StartsAtLine(pieces, pieces', next.current, lo, pos);
    ShownEntered(a, q, pos, line, n);
    BeforeSame(s, Starts(pieces), a, pos);
    EndsFrom(pieces, pos);
    AllGreedySame(s, Starts(pieces), a, limit, pieces, pos);
    ReadLine(s, a, pos, end, q, n.actual);
    CutsTracked(s, a, limit, pos, end, pieces, pieces');
    RestOpens(s, a, pos, end, open, lo);
  }

  lemma EndsFrom(pieces: seq<Piece>, n: nat)
    requires EndBefore(pieces, n)
    ensures forall k :: 0 <= k < |pieces| ==> pieces[k].hi < n
  {
  }

  lemma RestOpens(s: string, a: set<nat>, pos: nat, end: nat, open: string, lo: nat)
    requires IsLine(s, pos, end) && pos <= lo <= end
    requires open == Opening(s, QuoteOf(s, a, pos, end), Reopened(Before(s, a, pos), s[pos..end]), pos, end, lo)
    ensures OpenRight(s, a, open, lo)
  {
    hide QuoteOf, Before, Reopened, Opening;
    InsideLine(s, pos, end, lo);
  }

  lemma ShownEntered(a: set<nat>, q: Quote, pos: nat, line: string, n: Entered)
    requires n.actual == Reopened(q, line) + line && (pos in a || n.actual == "")
    ensures Shown(a, q, pos, line) == n.actual
  {
  }

  lemma ReadLine(s: string, a: set<nat>, pos: nat, end: nat, q: Quote, shown: string)
    requires IsLine(s, pos, end) && Before(s, a, pos) == q && Shown(a, q, pos, s[pos..end]) == shown
    ensures Before(s, a, end + 1) == AfterLine(q, shown) && QuoteOf(s, a, pos, end) == InLine(q, shown)
  {
    hide AfterLine, InLine, Shown;
    InsideLine(s, pos, end, end);
  }

  /** A line put behind the current part, or first into an empty one, reads as it stands. */
  lemma FitTracked(s: string, limit: nat, pos: nat, end: nat, st: Splitting, next: Splitting,
                   pieces: seq<Piece>, open: string, lo: nat, open': string, lo': nat)
    requires IsLine(s, pos, end) && Tracked(s, limit, st, pieces, open, lo, pos)
    requires if st.current == "" then open' == "" && lo' == pos else open' == open && lo' == lo
    requires next.current == Joined(st.current, s[pos..end])
    requires Quote(next.quoted, next.tag) == AfterLine(Quote(st.quoted, st.tag), s[pos..end])
    ensures Tracked(s, limit, next, pieces, open', lo', end + 1)
  {
    var line, q := s[pos..end], Quote(st.quoted, st.tag);
    var a, a' := StartsWith(pieces, st.current, lo), StartsWith(pieces, next.current, lo');
    FitStarts(s, pos, line, st, next, pieces, open, lo, open', lo');
    if Contains(line, OPEN) { assert line != ""; }
    hide Contains, Greedy, Starts, Shown, InLine, AgreeUpTo, OpenRight, StartsWith;
    BeforeSame(s, a, a', pos);
    AllGreedySame(s, a, a', limit, pieces, pos);
    ReadLine(s, a', pos, end, q, line);
    if st.current == "" { FirstOpen(s, a', pos, end); }
  }

  lemma FitStarts(s: string, pos: nat, line: string, st: Splitting, next: Splitting,
                  pieces: seq<Piece>, open: string, lo: nat, open': string, lo': nat)
    requires EndBefore(pieces, pos) && (st.quoted ==> st.current != "") && (st.current != "" ==> lo < pos)
    requires if st.current == "" then open' == "" && lo' == pos else open' == open && lo' == lo
    requires next.current == Joined(st.current, line)
    ensures var a, a' := StartsWith(pieces, st.current, lo), StartsWith(pieces, next.current, lo');
            && AgreeUpTo(a, a', pos - 1) && Shown(a', Quote(st.quoted, st.tag), pos, line) == line
            && (st.current != "" ==> a' == a)
  {
    StartsBefore(pieces, pos);
    assert "" + line == line;
    hide Starts;
  }

  lemma FirstOpen(s: string, a: set<nat>, pos: nat, end: nat)
    requires IsLine(s, pos, end) && !Before(s, a, pos).on
    ensures OpenRight(s, a, "", pos)
  {
    InsideLine(s, pos, end, pos);
    hide QuoteOf, Before;
  }

  lemma StartsBefore(pieces: seq<Piece>, pos: nat)
    requires EndBefore(pieces, pos)
    ensures forall x :: x in Starts(pieces) ==> x < pos
  {
  }

  // ----- from line to line

  /** A line starts at `pos`, just behind the text placed so far. */
  predicate AtLine(s: string, current: string, pos: nat, done: nat) {
    done <= pos <= |s| && if pos == 0 then done == 0 && current == "" else done == pos - 1 && s[done] == '\n'
  }

  /** A line put behind the current part, after the line break before it. */
  lemma JoinLine(s: string, current: string, pieces: seq<Piece>, open: string, lo: nat, done: nat, pos: nat, end: nat)
    returns (open': string, lo': nat)
    requires AtLine(s, current, pos, done) && IsLine(s, pos, end) && Placed(s, current, pieces, open, lo, done)
    ensures Placed(s, Joined(current, s[pos..end]), pieces, open', lo', end)
    ensures if current == "" then open' == "" && lo' == pos else open' == open && lo' == lo
  {
    if current == "" {
      open', lo' := "", pos;
      if pos > 0 { CoversOneMore(s, pieces, done); }
      StartLine(s, pieces, pos, end);
    } else {
      open', lo' := open, lo;
      JoinSlices(s, open, lo, pos, end);
      hide IsTag, Covers, IsLine;
    }
  }

  lemma StartLine(s: string, pieces: seq<Piece>, pos: nat, end: nat)
    requires pos <= end <= |s| && Covers(s, pieces, pos)
    ensures Placed(s, Joined("", s[pos..end]), pieces, "", pos, end)
  {
    hide IsTag, Covers;
    assert "" + s[pos..end] == s[pos..end];
  }

  lemma JoinSlices(s: string, open: string, lo: nat, pos: nat, end: nat)
    requires lo < pos <= end <= |s| && s[pos - 1] == '\n'
    ensures open + s[lo..pos - 1] + "\n" + s[pos..end] == open + s[lo..end]
  {
    assert s[lo..end] == s[lo..pos - 1] + "\n" + s[pos..end];
  }

  /** The tag a line brings along is as good as the one in force. */
  lemma LineTagReady(s: string, limit: nat, pos: nat, end: nat, quoted: bool, tag: string)
    requires TagsFit(s, limit) && IsLine(s, pos, end) && TagReady(s, limit, quoted, tag)
    ensures var line := s[pos..end]; var found := OpenTag(line);
            Contains(line, OPEN) ==> TagReady(s, limit, true, if found.Some? then found.value else tag)
  {
    var line := s[pos..end];
    if Contains(line, OPEN) { LineIsFlat(s, pos, end, limit); }
    if OpenTag(line).Some? { FoundIsTag(line, 0); }
  }

  /** The text up to `pos` is placed, and so it is up to `end` with the line between them. */
  lemma AddLinePlaced(s: string, limit: nat, st: Splitting, pos: nat, end: nat, fuel: nat,
                      pieces: seq<Piece>, open: string, lo: nat, done: nat)
    returns (next: Splitting, pieces': seq<Piece>, open': string, lo': nat)
    requires limit >= 1 && TagsFit(s, limit) && AtLine(s, st.current, pos, done) && IsLine(s, pos, end)
    requires InOrder(s, limit, st, pieces, open, lo, done) && fuel >= |s| + limit
    requires Tracked(s, limit, st, pieces, open, lo, pos)
    ensures AddLine(limit, st, s[pos..end], fuel) == Some(next) && InOrder(s, limit, next, pieces', open', lo', end)
    ensures Tracked(s, limit, next, pieces', open', lo', end + 1)
  {
    var line := s[pos..end];
    Enabled(s, limit, st, pos, end);
    hide Covers, PartsOk, Placed, TagsFit, IsTag, OpenTag, TakeUp, Flushed, Enter, TagEnabled, AtLine, IsLine, Tracked,
      AfterLine;
    if LineFits(limit, st, line) {
      open', lo' := JoinLine(s, st.current, pieces, open, lo, done, pos, end);
      next, pieces' := AddLine(limit, st, line, fuel).value, pieces;
      FittedLine(s, limit, st, pos, end);
      LineReads(st, line);
      FitTracked(s, limit, pos, end, st, next, pieces, open, lo, open', lo');
    } else {
      next, pieces', open', lo' := BreakLinePlaced(s, limit, st, pos, end, fuel, pieces, open, lo, done);
    }
  }

  lemma LineReads(st: Splitting, line: string)
    ensures AfterLine(Quote(st.quoted, st.tag), line)
            == Quote(WillBeQuoted(st.quoted, line), if Contains(line, OPEN) then LineTag(st.tag, line) else st.tag)
  {
    hide Contains, OpenTag;
  }

  /** A line that fits leaves room for the close tag it may need. */
  lemma FittedLine(s: string, limit: nat, st: Splitting, pos: nat, end: nat)
    requires limit >= 1 && TagsFit(s, limit) && IsLine(s, pos, end) && TagReady(s, limit, st.quoted, st.tag)
    requires LineFits(limit, st, s[pos..end]) && TagEnabled(limit, st, s[pos..end])
    ensures var line := s[pos..end]; var quoted := WillBeQuoted(st.quoted, line);
            && !TooLong(limit, quoted, Joined(st.current, line))
            && TagReady(s, limit, quoted, if Contains(line, OPEN) then LineTag(st.tag, line) else st.tag)
  {
    var line := s[pos..end];
    LineTagReady(s, limit, pos, end, st.quoted, st.tag);
    if EndsWith(line, CLOSE) { EndContains(line, CLOSE); }
    hide TagsFit, IsTag, OpenTag, Contains, TagEnabled, IsLine;
  }

  /** A line that does not fit finishes the current part and starts a new one. */
  lemma BreakLinePlaced(s: string, limit: nat, st: Splitting, pos: nat, end: nat, fuel: nat,
                        pieces: seq<Piece>, open: string, lo: nat, done: nat)
    returns (next: Splitting, pieces': seq<Piece>, open': string, lo': nat)
    requires limit >= 1 && TagsFit(s, limit) && AtLine(s, st.current, pos, done) && IsLine(s, pos, end)
    requires InOrder(s, limit, st, pieces, open, lo, done) && fuel >= |s| + limit
    requires Tracked(s, limit, st, pieces, open, lo, pos) && !LineFits(limit, st, s[pos..end])
    ensures TakeUp(limit, Enter(limit, true, st.quoted, st.tag, s[pos..end]), Flushed(limit, true, st), fuel)
            == Some(next)
    ensures InOrder(s, limit, next, pieces', open', lo', end) && Tracked(s, limit, next, pieces', open', lo', end + 1)
  {
    hide *;
    LineBehind(s, st.current, pos, end, done);
    var n, q := Enter(limit, true, st.quoted, st.tag, s[pos..end]), Quote(st.quoted, st.tag);
    InOrderIs(s, limit, st, pieces, open, lo, done);
    var flushed := FlushPlaced(s, limit, true, st, pieces, open, lo, done);
    CoversToLine(s, st.current, flushed, pos, done);
    FlushedAtLine(s, limit, st, pos, end, pieces, open, lo, done, flushed);
    var first := EnterReady(s, limit, pos, end, st.quoted, st.tag);
    next, pieces', open', lo' := TakeUpPlaced(s, limit, n, Flushed(limit, true, st), fuel, flushed, first, pos, end);
    BreakTracked(s, limit, pos, end, q, n, flushed, next, pieces', open', lo');
  }

  lemma InOrderIs(s: string, limit: nat, st: Splitting, pieces: seq<Piece>, open: string, lo: nat, done: nat)
    requires done <= |s| && InOrder(s, limit, st, pieces, open, lo, done)
    ensures TagReady(s, limit, st.quoted, st.tag) && st.tag != ""
    ensures st.current != "" ==> lo <= done && st.current == open + s[lo..done]
  {
    hide Covers, PartsOk, Contains;
  }

  lemma CoversToLine(s: string, current: string, pieces: seq<Piece>, pos: nat, done: nat)
    requires AtLine(s, current, pos, done) && Covers(s, pieces, done)
    ensures Covers(s, pieces, pos)
  {
    if pos > 0 { CoversOneMore(s, pieces, done); }
  }

  /** Behind the finished part the quote is the same, and all parts are greedy. */
  lemma FlushedAtLine(s: string, limit: nat, st: Splitting, pos: nat, end: nat,
                      pieces: seq<Piece>, open: string, lo: nat, done: nat, flushed: seq<Piece>)
    requires limit >= 1 && TagsFit(s, limit) && AtLine(s, st.current, pos, done) && IsLine(s, pos, end)
    requires InOrder(s, limit, st, pieces, open, lo, done)
    requires Tracked(s, limit, st, pieces, open, lo, pos) && !LineFits(limit, st, s[pos..end])
    requires flushed == if st.current == "" then pieces
                        else pieces + [Piece(open, lo, done, Closing(Quote(st.quoted, st.tag), st.current))]
    ensures AllGreedy(s, Starts(flushed), limit, flushed) && EndBefore(flushed, pos)
    ensures Before(s, Starts(flushed), pos) == Quote(st.quoted, st.tag)
  {
    hide *;
    LineBehind(s, st.current, pos, end, done);
    if st.current == "" {
      NothingToFlush(s, limit, st, pieces, open, lo, pos);
    } else {
      InOrderIs(s, limit, st, pieces, open, lo, done);
      Enabled(s, limit, st, pos, end);
      LineOf(s, st.current, pos, end, done);
      NextIsTooLong(s, limit, st, pos, done);
      FlushTracked(s, limit, st, pieces, open, lo, done, flushed);
      StillBefore(s, limit, st, pieces, open, lo, pos);
    }
  }

  lemma NothingToFlush(s: string, limit: nat, st: Splitting, pieces: seq<Piece>, open: string, lo: nat, next: nat)
    requires next <= |s| + 1 && Tracked(s, limit, st, pieces, open, lo, next) && st.current == ""
    ensures AllGreedy(s, Starts(pieces), limit, pieces) && EndBefore(pieces, next)
    ensures Before(s, Starts(pieces), next) == Quote(st.quoted, st.tag)
  {
    hide AllGreedy, Before, Starts;
    assert Starts(pieces) + {} == Starts(pieces);
  }

  lemma StillBefore(s: string, limit: nat, st: Splitting, pieces: seq<Piece>, open: string, lo: nat, next: nat)
    requires next <= |s| + 1 && Tracked(s, limit, st, pieces, open, lo, next)
    ensures Before(s, StartsWith(pieces, st.current, lo), next) == Quote(st.quoted, st.tag)
  {
    hide AllGreedy, Before, Starts;
  }

  lemma LineBehind(s: string, current: string, pos: nat, end: nat, done: nat)
    requires AtLine(s, current, pos, done) && IsLine(s, pos, end)
    ensures done <= pos <= end <= |s|
  {
  }

  lemma LineOf(s: string, current: string, pos: nat, end: nat, done: nat)
    requires AtLine(s, current, pos, done) && IsLine(s, pos, end) && current != ""
    ensures LineEnd(s, pos) == end && LineEnd(s, done) == done < |s| && done + 1 == pos
  {
  }

  lemma NextIsTooLong(s: string, limit: nat, st: Splitting, pos: nat, done: nat)
    requires pos <= |s| && st.current != "" && done + 1 == pos
    requires var line := s[pos..LineEnd(s, pos)]; TagEnabled(limit, st, line) && !LineFits(limit, st, line)
    ensures NextTooLong(s, limit, Quote(st.quoted, st.tag), st.current, pos)
  {
    LineReads(st, s[pos..LineEnd(s, pos)]);
    hide TagEnabled, Contains, OpenTag, EndsWith, AfterLine;
  }

  /** There is room to quote behind every line. */
  lemma Enabled(s: string, limit: nat, st: Splitting, pos: nat, end: nat)
    requires limit >= 1 && TagsFit(s, limit) && IsLine(s, pos, end) && TagReady(s, limit, st.quoted, st.tag)
    ensures TagEnabled(limit, st, s[pos..end])
  {
    LineTagReady(s, limit, pos, end, st.quoted, st.tag);
    hide TagsFit, OpenTag, IsTag, Contains;
    var line := s[pos..end];
    if WillBeQuoted(st.quoted, line) && !Contains(line, OPEN) { TagInForce(s, limit, pos, end, st.tag); }
  }

  /** Without an opening in it, a line can still hold no tag the search would find. */
  lemma TagInForce(s: string, limit: nat, pos: nat, end: nat, tag: string)
    requires IsLine(s, pos, end) && !Contains(s[pos..end], OPEN)
    ensures OpenTag(s[pos..end]) == None
  {
    NoTagFrom(s[pos..end], 0);
  }

  lemma {:induction false} NoTagFrom(s: string, i: nat)
    requires !Contains(s, OPEN)
    ensures OpenTagFrom(s, i) == None
    decreases |s| - i
  {
    if i < |s| {
      assert !At(s, OPEN, i);
      NoTagFrom(s, i + 1);
    }
  }

  lemma {:induction false} AddLinesPlaced(s: string, limit: nat, st: Splitting, pos: nat, fuel: nat,
                                          pieces: seq<Piece>, open: string, lo: nat, done: nat)
    returns (last: Splitting, pieces': seq<Piece>, open': string, lo': nat)
    requires limit >= 1 && TagsFit(s, limit) && pos <= |s| && (pos == 0 || s[pos - 1] == '\n')
    requires AtLine(s, st.current, pos, done) && Tracked(s, limit, st, pieces, open, lo, pos)
    requires InOrder(s, limit, st, pieces, open, lo, done) && fuel >= |s| + limit
    ensures AddLines(limit, st, s, pos, fuel) == Some(last) && InOrder(s, limit, last, pieces', open', lo', |s|)
    ensures Tracked(s, limit, last, pieces', open', lo', |s| + 1)
    decreases |s| - pos
  {
    hide AddLine, InOrder, TagsFit, Tracked;
    var end := LineEnd(s, pos);
    last, pieces', open', lo' := AddLinePlaced(s, limit, st, pos, end, fuel, pieces, open, lo, done);
    if end < |s| {
      last, pieces', open', lo' := AddLinesPlaced(s, limit, last, end + 1, fuel, pieces', open', lo', end);
    }
  }

  lemma NothingPlaced(s: string, limit: nat)
    requires limit >= 1 && TagsFit(s, limit)
    ensures InOrder(s, limit, START, [], "", 0, 0) && Tracked(s, limit, START, [], "", 0, 0)
  {
    PlainTagIsTag();
  }

  lemma RoomToClose(s: string, limit: nat, quoted: bool, tag: string)
    requires limit >= 1 && TagReady(s, limit, quoted, tag)
    ensures limit >= (if quoted then |tag| + |CLOSE| else 0) + 1
  {
  }

  /** Every part is non-empty and within the limit, and the parts are exactly the text: slices in
      order, nothing but line breaks between them, as full as the limit allows, and quoted where
      the text is. */
  lemma SplitFits(s: string, limit: nat) returns (fuel: nat, parts: seq<string>)
    requires limit >= 1 && TagsFit(s, limit)
    ensures Split(s, limit, fuel) == Some(parts) && IsSplit(parts, s, limit)
    ensures forall k :: 0 <= k < |parts| ==> |parts[k]| <= limit
  {
    fuel := |s| + limit;
    NothingPlaced(s, limit);
    hide InOrder, Tracked, TagsFit, IsSplit;
    var st, pieces, open, lo := AddLinesPlaced(s, limit, START, 0, fuel, [], "", 0, 0);
    var all := FinishPlaced(s, limit, st, pieces, open, lo);
    parts := Finish(limit, st);
    SplitIs(parts, s, all, limit);
  }

  lemma FinishPlaced(s: string, limit: nat, st: Splitting, pieces: seq<Piece>, open: string, lo: nat)
    returns (all: seq<Piece>)
    requires limit >= 1 && InOrder(s, limit, st, pieces, open, lo, |s|)
    requires Tracked(s, limit, st, pieces, open, lo, |s| + 1)
    ensures PartsOk(Finish(limit, st), s, all, limit) && Covers(s, all, |s|)
    ensures AllGreedy(s, Starts(all), limit, all)
  {
    hide *;
    InOrderIs(s, limit, st, pieces, open, lo, |s|);
    RoomToClose(s, limit, st.quoted, st.tag);
    FinishIs(limit, st);
    all := FlushPlaced(s, limit, true, st, pieces, open, lo, |s|);
    if st.current != "" {
      FlushTracked(s, limit, st, pieces, open, lo, |s|, all);
    } else {
      NothingToFlush(s, limit, st, pieces, open, lo, |s| + 1);
    }
  }

  lemma FinishIs(limit: nat, st: Splitting)
    requires limit >= (if st.quoted then |st.tag| + |CLOSE| else 0) + 1
    ensures Finish(limit, st) == Flushed(limit, true, st)
  {
    hide Flushed;
  }

  // ----- what the result says about the text

  function NoBreaks(s: string): string {
    if s == "" then "" else NoBreaks(s[..|s| - 1]) + if s[|s| - 1] == '\n' then "" else [s[|s| - 1]]
  }

  function Slices(s: string, pieces: seq<Piece>): string
    requires forall k :: 0 <= k < |pieces| ==> PieceOk(s, pieces[k])
  {
    if pieces == [] then ""
    else
      var p := pieces[|pieces| - 1];
      assert PieceOk(s, p);
      Slices(s, pieces[..|pieces| - 1]) + s[p.lo..p.hi]
  }

  lemma {:induction false} NoBreaksConcat(a: string, b: string)
    ensures NoBreaks(a + b) == NoBreaks(a) + NoBreaks(b)
  {
    if b == "" {
      assert a + b == a;
    } else {
      NoBreaksConcat(a, b[..|b| - 1]);
      assert (a + b)[..|a + b| - 1] == a + b[..|b| - 1];
    }
  }

  lemma {:induction false} BreaksOnly(s: string)
    requires Newlines(s)
    ensures NoBreaks(s) == ""
  {
    if s != "" { BreaksOnly(s[..|s| - 1]); }
  }

  /** No content is lost or repeated: apart from line breaks the slices spell the text. */
  lemma {:induction false} SlicesAreText(s: string, pieces: seq<Piece>, upto: nat)
    requires upto <= |s| && Covers(s, pieces, upto)
    requires forall k :: 0 <= k < |pieces| ==> PieceOk(s, pieces[k])
    ensures NoBreaks(Slices(s, pieces)) == NoBreaks(s[..upto])
  {
    if pieces == [] {
      BreaksOnly(s[..upto]);
    } else {
      var pre, p := pieces[..|pieces| - 1], pieces[|pieces| - 1];
      SlicesAreText(s, pre, p.lo);
      assert s[..upto] == s[..p.lo] + s[p.lo..p.hi] + s[p.hi..upto];
      NoBreaksConcat(s[..p.lo] + s[p.lo..p.hi], s[p.hi..upto]);
      NoBreaksConcat(s[..p.lo], s[p.lo..p.hi]);
      NoBreaksConcat(Slices(s, pre), s[p.lo..p.hi]);
      BreaksOnly(s[p.hi..upto]);
    }
  }
}
