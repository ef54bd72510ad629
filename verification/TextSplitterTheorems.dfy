/** When the splitter ends and when it keeps its limit: exactly, over all texts quoted by one tag. */
module TextSplitterTheorems {
  import opened Options
  import opened TextSplitter
  import opened TextSplitterSpec
  import opened TextSplitterParts

  // ----- rounds

  lemma {:induction false} CutAllMore(limit: nat, quoted: bool, tag: string, rem: string, fuel: nat, more: nat)
    requires CutAll(limit, quoted, tag, rem, fuel).Some? && fuel <= more
    ensures CutAll(limit, quoted, tag, rem, more) == CutAll(limit, quoted, tag, rem, fuel)
    decreases fuel
  {
    hide Cut, TooLong;
    if TooLong(limit, quoted, rem) {
      CutAllMore(limit, quoted, tag, Cut(limit, quoted, tag, rem).1, fuel - 1, more - 1);
    }
  }

  lemma AddLineMore(limit: nat, st: Splitting, line: string, fuel: nat, more: nat)
    requires AddLine(limit, st, line, fuel).Some? && fuel <= more
    ensures AddLine(limit, st, line, more) == AddLine(limit, st, line, fuel)
  {
    hide CutAll, Enter, Flushed, LineFits, TagEnabled, Contains;
    if !LineFits(limit, st, line) {
      var n := Enter(limit, TagEnabled(limit, st, line), st.quoted, st.tag, line);
      CutAllMore(limit, n.canClose && n.quoted, n.tag, n.actual, fuel, more);
    }
  }

  lemma {:induction false} AddLinesMore(limit: nat, st: Splitting, s: string, pos: nat, fuel: nat, more: nat)
    requires pos <= |s| && AddLines(limit, st, s, pos, fuel).Some? && fuel <= more
    ensures AddLines(limit, st, s, pos, more) == AddLines(limit, st, s, pos, fuel)
    decreases |s| - pos
  {
    hide AddLine;
    var end := LineEnd(s, pos);
    AddLineMore(limit, st, s[pos..end], fuel, more);
    if end < |s| {
      AddLinesMore(limit, AddLine(limit, st, s[pos..end], fuel).value, s, end + 1, fuel, more);
    }
  }

  /** There is one result. */
  lemma OneResult(s: string, limit: nat, a: seq<string>, b: seq<string>)
    requires SplitsInto(s, limit, a) && SplitsInto(s, limit, b)
    ensures a == b
  {
    hide Split;
    var m: nat :| Split(s, limit, m) == Some(a);
    var n: nat :| Split(s, limit, n) == Some(b);
    if m <= n { SplitMore(s, limit, m, n); } else { SplitMore(s, limit, n, m); }
  }

  lemma SplitMore(s: string, limit: nat, fuel: nat, more: nat)
    requires Split(s, limit, fuel).Some? && fuel <= more
    ensures Split(s, limit, more) == Split(s, limit, fuel)
  {
    hide AddLines, Finish;
    AddLinesMore(limit, START, s, 0, fuel, more);
  }

  /** Whatever the splitter returns for a text whose tags leave room is within the limit and
      spells the text. */
  lemma FittingResult(s: string, limit: nat, parts: seq<string>)
    requires limit >= 1 && TagsFit(s, limit) && SplitsInto(s, limit, parts)
    ensures IsSplit(parts, s, limit) && Within(parts, limit)
  {
    hide Split, TagsFit, IsSplit;
    var fuel, found := SplitFits(s, limit);
    OneResult(s, limit, parts, found);
  }

  // ----- one cut

  predicate Within(parts: seq<string>, limit: nat) {
    forall k :: 0 <= k < |parts| ==> |parts[k]| <= limit
  }

  /** A cut keeps the limit exactly when the quote's own tag leaves room, or the cut happens
      to end in a close tag. */
  lemma CutFitsIff(limit: nat, tag: string, rem: string)
    requires TooLong(limit, true, rem)
    ensures var prefix := if OPEN <= rem then |tag| else 0;
            |Cut(limit, true, tag, rem).0| <= limit
            <==> prefix + |CLOSE| < limit || (|rem| >= limit && EndsWith(rem[..limit], CLOSE))
  {
    hide EndsWith;
    assert rem[..|rem|] == rem;
  }

  // ----- when the cutting loop ends

  ghost predicate LoopEnds(limit: nat, quoted: bool, tag: string, rem: string) {
    exists fuel: nat :: CutAll(limit, quoted, tag, rem, fuel).Some?
  }

  /** Where a cut through the quote's own tag falls: behind the tag, or in front of another
      opening inside it, from where the same holds of the next cut. */
  predicate Escapes(limit: nat, tag: string, at: nat)
    requires limit > 0
    decreases |tag| - at
  {
    at > |tag| || (OpensAt(tag, at) && Escapes(limit, tag, at + limit))
  }

  predicate OpensAt(tag: string, at: nat) {
    at < |tag| && OPEN <= tag[at..]
  }

  /** What is left of an inserted tag, with text behind it. */
  function Behind(tag: string, at: nat, y: string): string
    requires at <= |tag|
  {
    tag[at..] + y
  }

  lemma ShortRest(limit: nat, quoted: bool, tag: string, rem: string)
    requires !TooLong(limit, quoted, rem)
    ensures LoopEnds(limit, quoted, tag, rem)
  {
    assert CutAll(limit, quoted, tag, rem, 0).Some?;
  }

  lemma EndsOnce(limit: nat, quoted: bool, tag: string, rem: string)
    requires TooLong(limit, quoted, rem) && LoopEnds(limit, quoted, tag, Cut(limit, quoted, tag, rem).1)
    ensures LoopEnds(limit, quoted, tag, rem)
  {
    hide Cut, TooLong;
    var fuel: nat :| CutAll(limit, quoted, tag, Cut(limit, quoted, tag, rem).1, fuel).Some?;
    assert CutAll(limit, quoted, tag, rem, fuel + 1).Some?;
  }

  lemma {:induction false} UnquotedEnds(limit: nat, tag: string, rem: string)
    requires limit >= 1
    ensures LoopEnds(limit, false, tag, rem)
    decreases |rem|
  {
    hide LoopEnds;
    if TooLong(limit, false, rem) {
      UnquotedEnds(limit, tag, Cut(limit, false, tag, rem).1);
      EndsOnce(limit, false, tag, rem);
    } else {
      ShortRest(limit, false, tag, rem);
    }
  }

  lemma {:induction false} QuotedEnds(limit: nat, tag: string, rem: string)
    requires limit >= |CLOSE| && IsTag(tag) && Escapes(limit, tag, limit)
    ensures LoopEnds(limit, true, tag, rem)
    decreases |rem|, |tag| + 1
  {
    hide LoopEnds;
    if !TooLong(limit, true, rem) {
      ShortRest(limit, true, tag, rem);
    } else {
      var rest := CutTakes(limit, tag, rem);
      RestEnds(limit, tag, rest);
      EndsOnce(limit, true, tag, rem);
    }
  }

  lemma RestEnds(limit: nat, tag: string, rest: string)
    requires limit >= |CLOSE| && IsTag(tag) && Escapes(limit, tag, limit)
    ensures LoopEnds(limit, true, tag, rest) && LoopEnds(limit, true, tag, tag + rest)
    decreases |rest|, |tag| + 2
  {
    hide LoopEnds;
    QuotedEnds(limit, tag, rest);
    WholeTag(tag, rest);
    TagIsCutAway(limit, tag, 0, rest);
  }

  lemma WholeTag(tag: string, y: string)
    requires IsTag(tag)
    ensures OpensAt(tag, 0) && Behind(tag, 0, y) == tag + y
  {
    assert tag[0..] == tag;
  }

  /** A cut takes at least one character, before the rest is quoted again. */
  lemma CutTakes(limit: nat, tag: string, rem: string) returns (rest: string)
    requires limit >= |CLOSE| && TooLong(limit, true, rem)
    ensures |rest| < |rem| && Cut(limit, true, tag, rem).1 in {rest, tag + rest}
  {
    var size := QuotedSize(limit, if OPEN <= rem then |tag| else 0);
    rest := rem[if size < |rem| then size else |rem|..];
  }

  /** An inserted tag is cut away together with something of the text behind it. */
  lemma {:induction false} TagIsCutAway(limit: nat, tag: string, at: nat, y: string)
    requires limit >= |CLOSE| && IsTag(tag) && Escapes(limit, tag, limit)
    requires OpensAt(tag, at) && Escapes(limit, tag, at + limit)
    ensures LoopEnds(limit, true, tag, Behind(tag, at, y))
    decreases |y|, |tag| - at
  {
    hide *;
    IsInside(limit, tag, at);
    var rem := Behind(tag, at, y);
    if TooLong(limit, true, rem) {
      if at + limit <= |tag| {
        EscapesOn(limit, tag, at + limit);
        CutInside(limit, tag, at, y);
        TagIsCutAway(limit, tag, at + limit, y);
      } else {
        BeyondEnds(limit, tag, at, y);
      }
      EndsOnce(limit, true, tag, rem);
    } else {
      ShortRest(limit, true, tag, rem);
    }
  }

  lemma IsInside(limit: nat, tag: string, at: nat)
    requires limit >= |CLOSE| && OpensAt(tag, at)
    ensures limit > 0 && at < |tag|
  {
  }

  lemma EscapesOn(limit: nat, tag: string, at: nat)
    requires limit > 0 && Escapes(limit, tag, at) && at <= |tag|
    ensures OpensAt(tag, at) && Escapes(limit, tag, at + limit)
  {
  }

  lemma BeyondEnds(limit: nat, tag: string, at: nat, y: string)
    requires limit >= |CLOSE| && IsTag(tag) && Escapes(limit, tag, limit)
    requires OpensAt(tag, at) && |tag| < at + limit && TooLong(limit, true, Behind(tag, at, y))
    ensures LoopEnds(limit, true, tag, Cut(limit, true, tag, Behind(tag, at, y)).1)
    decreases |y|, 0
  {
    var rest := CutBeyond(limit, tag, at, y);
    if rest == "" {
      ShortRest(limit, true, tag, rest);
    } else {
      hide *;
      RestEnds(limit, tag, rest);
    }
  }

  lemma CutInside(limit: nat, tag: string, at: nat, y: string)
    requires limit >= |CLOSE| && OpensAt(tag, at) && OpensAt(tag, at + limit)
    ensures Cut(limit, true, tag, Behind(tag, at, y)).1 == Behind(tag, at + limit, y)
  {
    var rem := tag[at..] + y;
    assert rem[limit..] == tag[at + limit..] + y;
    OpensStill(tag[at..], y);
    OpensStill(tag[at + limit..], y);
  }

  lemma CutBeyond(limit: nat, tag: string, at: nat, y: string) returns (rest: string)
    requires limit >= |CLOSE| && OpensAt(tag, at) && |tag| < at + limit && TooLong(limit, true, Behind(tag, at, y))
    ensures rest == "" || |rest| < |y|
    ensures Cut(limit, true, tag, Behind(tag, at, y)).1 == rest
         || (rest != "" && Cut(limit, true, tag, Behind(tag, at, y)).1 == tag + rest)
  {
    var rem, size := tag[at..] + y, QuotedSize(limit, |tag|);
    var k := at + size - |tag|;
    rest := if k < |y| then y[k..] else "";
    OpensStill(tag[at..], y);
    if k < |y| {
      assert rem[size..] == y[k..];
    }
  }

  lemma OpensStill(x: string, w: string)
    requires OPEN <= x
    ensures OPEN <= x + w
  {
    assert (x + w)[..|OPEN|] == x[..|OPEN|];
  }

  // ----- when it does not

  lemma {:induction false} ShortLimitNeverEnds(limit: nat, tag: string, rem: string, fuel: nat)
    requires limit < |CLOSE|
    ensures CutAll(limit, true, tag, rem, fuel) == None
    decreases fuel
  {
    hide Cut;
    if fuel > 0 { ShortLimitNeverEnds(limit, tag, Cut(limit, true, tag, rem).1, fuel - 1); }
  }

  /** An opening cannot begin inside a tag and go on behind it. */
  lemma NoStraddle(tag: string, at: nat, w: string)
    requires IsTag(tag) && at <= |tag| && !OpensAt(tag, at) && !(OPEN <= w)
    ensures !(OPEN <= Behind(tag, at, w)) && (w != "" ==> Behind(tag, at, w) != "")
  {
    var v := tag[at..] + w;
    if at == |tag| {
      assert v == w;
    } else if |tag| - at < |OPEN| {
      assert v[|tag| - 1 - at] == '>';
    } else {
      assert v[..|OPEN|] == tag[at..][..|OPEN|];
    }
  }

  /** A rest from which the loop does not come away: a cut will stop inside the tag again. */
  predicate Trapped(limit: nat, tag: string, at: nat, w: string)
    requires limit > 0
  {
    OpensAt(tag, at) && !Escapes(limit, tag, at + limit) && w != "" && !(OPEN <= w)
  }

  lemma CutThrough(limit: nat, tag: string, at: nat, w: string)
    requires limit >= 1 && Trapped(limit, tag, at, w)
    ensures at + limit <= |tag| && TooLong(limit, true, Behind(tag, at, w)) && w != "" && !(OPEN <= w)
    ensures var rest := Behind(tag, at + limit, w);
            Cut(limit, true, tag, Behind(tag, at, w)).1 == if OPEN <= rest then rest else tag + rest
  {
    var rem := tag[at..] + w;
    assert rem[limit..] == tag[at + limit..] + w;
    OpensStill(tag[at..], w);
    hide EndsWith;
  }

  lemma StaysInside(limit: nat, tag: string, at: nat, w: string)
    requires limit >= 1 && Trapped(limit, tag, at, w) && OpensAt(tag, at + limit)
    ensures Trapped(limit, tag, at + limit, w)
    ensures Cut(limit, true, tag, Behind(tag, at, w)).1 == Behind(tag, at + limit, w)
  {
    CutThrough(limit, tag, at, w);
    hide Cut;
    OpensStill(tag[at + limit..], w);
  }

  lemma ComesBack(limit: nat, tag: string, at: nat, w: string)
    requires limit >= 1 && IsTag(tag) && !Escapes(limit, tag, limit) && Trapped(limit, tag, at, w)
    requires at + limit <= |tag| && !OpensAt(tag, at + limit)
    ensures Trapped(limit, tag, 0, Behind(tag, at + limit, w))
    ensures Cut(limit, true, tag, Behind(tag, at, w)).1 == Behind(tag, 0, Behind(tag, at + limit, w))
  {
    hide *;
    CutThrough(limit, tag, at, w);
    NoStraddle(tag, at + limit, w);
    TrappedAtStart(limit, tag, Behind(tag, at + limit, w));
  }

  lemma TrappedAtStart(limit: nat, tag: string, w: string)
    requires limit >= 1 && IsTag(tag) && !Escapes(limit, tag, limit) && w != "" && !(OPEN <= w)
    ensures Trapped(limit, tag, 0, w) && Behind(tag, 0, w) == tag + w
  {
    WholeTag(tag, w);
    hide IsTag, Behind, OpensAt;
  }

  lemma {:induction false} LoopsForEver(limit: nat, tag: string, at: nat, w: string, fuel: nat)
    requires limit >= 1 && IsTag(tag) && !Escapes(limit, tag, limit) && at <= |tag| && Trapped(limit, tag, at, w)
    ensures CutAll(limit, true, tag, Behind(tag, at, w), fuel) == None
    decreases fuel
  {
    hide *;
    CutThrough(limit, tag, at, w);
    if fuel > 0 {
      if OpensAt(tag, at + limit) {
        StaysInside(limit, tag, at, w);
        LoopsForEver(limit, tag, at + limit, w, fuel - 1);
      } else {
        ComesBack(limit, tag, at, w);
        LoopsForEver(limit, tag, 0, Behind(tag, at + limit, w), fuel - 1);
      }
    }
    GoesOn(limit, tag, Behind(tag, at, w), fuel);
  }

  lemma GoesOn(limit: nat, tag: string, rem: string, fuel: nat)
    requires TooLong(limit, true, rem)
    requires fuel > 0 ==> CutAll(limit, true, tag, Cut(limit, true, tag, rem).1, fuel - 1) == None
    ensures CutAll(limit, true, tag, rem, fuel) == None
  {
    hide TooLong, Cut;
  }

  /** The loop ends on every rest exactly when the limit has room for a close tag and no cut
      stops at the end of the tag or in the middle of it. */
  lemma LoopEndsIff(limit: nat, tag: string)
    requires limit >= 1 && IsTag(tag)
    ensures (forall rem :: LoopEnds(limit, true, tag, rem)) <==> limit >= |CLOSE| && Escapes(limit, tag, limit)
  {
    if limit >= |CLOSE| && Escapes(limit, tag, limit) {
      forall rem ensures LoopEnds(limit, true, tag, rem) { QuotedEnds(limit, tag, rem); }
    } else {
      var rem := tag + ("x" + CLOSE);
      assert ("x" + CLOSE)[0] == 'x';
      forall fuel: nat ensures CutAll(limit, true, tag, rem, fuel) == None { NeverEnds(limit, tag, "x" + CLOSE, fuel); }
      assert !LoopEnds(limit, true, tag, rem);
    }
  }

  lemma NeverEnds(limit: nat, tag: string, w: string, fuel: nat)
    requires limit >= 1 && IsTag(tag) && !(limit >= |CLOSE| && Escapes(limit, tag, limit)) && w != "" && !(OPEN <= w)
    ensures CutAll(limit, true, tag, tag + w, fuel) == None
  {
    if limit < |CLOSE| {
      ShortLimitNeverEnds(limit, tag, tag + w, fuel);
    } else {
      TrappedAtStart(limit, tag, w);
      LoopsForEver(limit, tag, 0, w, fuel);
    }
  }

  /** For a tag with no second opening inside it this is a bound on its length. */
  lemma PlainTagEscapesIff(limit: nat, tag: string)
    requires limit >= 1 && forall i :: 0 < i < |tag| ==> !(OPEN <= tag[i..])
    ensures Escapes(limit, tag, limit) <==> |tag| < limit
  {
  }

  /** In general it is not: a tag of 25 characters is cut before its second opening. */
  lemma NestedTagEscapes()
    ensures var tag := "<blockquote a<blockquote>"; IsTag(tag) && |tag| > 13 && Escapes(13, tag, 13)
  {
    var tag := "<blockquote a<blockquote>";
    assert tag[0..11] == OPEN && tag[11] == ' ' && tag[24] == '>';
    assert forall k :: 11 <= k < 24 ==> tag[k] != '>';
    assert tag[13..][..11] == OPEN;
    assert Escapes(13, tag, 26);
  }

  // ----- texts over one tag

  /** Every line that opens a quote opens it with this tag. */
  ghost predicate OverTag(s: string, tag: string) {
    forall lo: nat, hi: nat :: IsLine(s, lo, hi) && Contains(s[lo..hi], OPEN) ==> OpenTag(s[lo..hi]) == Some(tag)
  }

  ghost predicate SplitsWithin(s: string, limit: nat) {
    exists parts :: SplitsInto(s, limit, parts) && Within(parts, limit)
  }

  predicate Flat(s: string) {
    forall k :: 0 <= k < |s| ==> s[k] != '\n'
  }

  lemma EnterTag(limit: nat, enabled: bool, st: Splitting, line: string, tag: string)
    requires IsTag(tag) && (st.quoted ==> st.tag == tag) && (Contains(line, OPEN) ==> OpenTag(line) == Some(tag))
    ensures var n := Enter(limit, enabled, st.quoted, st.tag, line); n.quoted ==> n.tag == tag
  {
    if enabled && st.quoted && !(OPEN <= line) { PrefixedTag(tag, line); }
  }

  lemma AddLineEnds(limit: nat, st: Splitting, line: string, tag: string) returns (fuel: nat)
    requires limit >= |CLOSE| && IsTag(tag) && Escapes(limit, tag, limit)
    requires (st.quoted ==> st.tag == tag) && (Contains(line, OPEN) ==> OpenTag(line) == Some(tag))
    ensures var next := AddLine(limit, st, line, fuel); next.Some? && (next.value.quoted ==> next.value.tag == tag)
  {
    var enabled := TagEnabled(limit, st, line);
    EnterTag(limit, enabled, st, line, tag);
    hide Enter, TagEnabled, LineFits, CutAll, Contains, OpenTag, IsTag, Escapes, Flushed;
    var n := Enter(limit, enabled, st.quoted, st.tag, line);
    QuotedEnds(limit, tag, n.actual);
    UnquotedEnds(limit, n.tag, n.actual);
    fuel :| CutAll(limit, n.canClose && n.quoted, n.tag, n.actual, fuel).Some?;
  }

  ghost predicate LinesEnd(limit: nat, st: Splitting, s: string, pos: nat)
    requires pos <= |s|
  {
    exists fuel: nat :: AddLines(limit, st, s, pos, fuel).Some?
  }

  lemma {:induction false} AddLinesEnd(limit: nat, st: Splitting, s: string, pos: nat, tag: string)
    requires pos <= |s| && (pos == 0 || s[pos - 1] == '\n') && OverTag(s, tag)
    requires limit >= |CLOSE| && IsTag(tag) && Escapes(limit, tag, limit) && (st.quoted ==> st.tag == tag)
    ensures LinesEnd(limit, st, s, pos)
    decreases |s| - pos
  {
    hide *;
    var line, next := s[pos..LineEnd(s, pos)], LineEnd(s, pos) + 1;
    LineOverTag(s, pos, tag);
    var fuel := AddLineEnds(limit, st, line, tag);
    if next <= |s| {
      AddLinesEnd(limit, AddLine(limit, st, line, fuel).value, s, next, tag);
    }
    LinesEndFrom(limit, st, s, pos, fuel);
  }

  lemma LineOverTag(s: string, pos: nat, tag: string)
    requires pos <= |s| && (pos == 0 || s[pos - 1] == '\n') && OverTag(s, tag)
    ensures var line := s[pos..LineEnd(s, pos)]; Contains(line, OPEN) ==> OpenTag(line) == Some(tag)
  {
    assert IsLine(s, pos, LineEnd(s, pos));
  }

  lemma LinesEndFrom(limit: nat, st: Splitting, s: string, pos: nat, first: nat)
    requires pos <= |s| && AddLine(limit, st, s[pos..LineEnd(s, pos)], first).Some?
    requires var end := LineEnd(s, pos);
             end < |s| ==> LinesEnd(limit, AddLine(limit, st, s[pos..end], first).value, s, end + 1)
    ensures LinesEnd(limit, st, s, pos)
  {
    hide AddLine;
    var end := LineEnd(s, pos);
    if end < |s| {
      var next := AddLine(limit, st, s[pos..end], first).value;
      var more: nat :| AddLines(limit, next, s, end + 1, more).Some?;
      AddLineMore(limit, st, s[pos..end], first, first + more);
      AddLinesMore(limit, next, s, end + 1, more, first + more);
      assert AddLines(limit, st, s, pos, first + more).Some?;
    } else {
      assert AddLines(limit, st, s, pos, first).Some?;
    }
  }

  lemma TextEnds(s: string, limit: nat, tag: string)
    requires limit >= |CLOSE| && IsTag(tag) && Escapes(limit, tag, limit) && OverTag(s, tag)
    ensures Ends(s, limit)
  {
    hide OverTag, IsTag, Escapes, AddLines;
    AddLinesEnd(limit, START, s, 0, tag);
    var fuel: nat :| AddLines(limit, START, s, 0, fuel).Some?;
    assert Split(s, limit, fuel).Some?;
  }

  lemma OverTagFits(s: string, limit: nat, tag: string)
    requires IsTag(tag) && |tag| + |CLOSE| + 1 <= limit && OverTag(s, tag)
    ensures TagsFit(s, limit)
  {
    forall lo: nat, hi: nat | IsLine(s, lo, hi) ensures TagFits(OpenTag(s[lo..hi]), limit) {
      if !Contains(s[lo..hi], OPEN) { NoTagFrom(s[lo..hi], 0); }
    }
  }

  // ----- one long quoted line

  /** A single line behind a tag that ends in its own close tag is split by the cutting loop. */
  lemma OneQuotedLine(s: string, limit: nat, tag: string, fuel: nat)
    requires limit >= 1 && |s| > limit && Flat(s) && IsTag(tag) && tag <= s && EndsWith(s, CLOSE)
    ensures var cuts := CutAll(limit, true, tag, s, fuel);
            Split(s, limit, fuel) == if cuts.None? then None
              else Some(cuts.value.parts + (if cuts.value.rem == "" then [] else [cuts.value.rem]))
  {
    EnterQuotedLine(s, limit, TagEnabled(limit, START, s), tag);
    EndContains(s, CLOSE);
    assert LineEnd(s, 0) == |s| && s[0..|s|] == s;
    hide CutAll, Enter, Contains, TagEnabled, EndsWith, Flat, LineEnd, IsTag;
    var cuts := CutAll(limit, true, tag, s, fuel);
    if cuts.Some? {
      assert [] + cuts.value.parts == cuts.value.parts;
      assert cuts.value.parts + [] == cuts.value.parts;
    }
  }

  lemma EnterQuotedLine(s: string, limit: nat, enabled: bool, tag: string)
    requires limit >= 1 && IsTag(tag) && tag <= s && EndsWith(s, CLOSE)
    ensures Enter(limit, enabled, false, PLAIN_TAG, s) == Entered(s, true, tag, true)
  {
    assert s == tag + s[|tag|..];
    PrefixedTag(tag, s[|tag|..]);
    StartContains(s, OPEN);
  }

  /** The bound fails for a whole family of texts: the first part is too long by a close tag. */
  lemma OneLineOverflows(s: string, limit: nat, tag: string, fuel: nat)
    requires limit >= 1 && |s| > limit && Flat(s) && IsTag(tag) && tag <= s && EndsWith(s, CLOSE)
    requires |tag| + |CLOSE| >= limit && !EndsWith(s[..limit], CLOSE) && Split(s, limit, fuel).Some?
    ensures Split(s, limit, fuel).value != [] && |Split(s, limit, fuel).value[0]| == limit + |CLOSE|
  {
    OneQuotedLine(s, limit, tag, fuel);
    TagOpens(s, tag);
    hide Split, IsTag, Flat;
  }

  lemma TagOpens(s: string, tag: string)
    requires IsTag(tag) && tag <= s
    ensures OPEN <= s
  {
    assert s[..|OPEN|] == tag[..|OPEN|];
  }

  /** And the splitting of such a line never ends if the cutting loop does not escape the tag. */
  lemma OneLineNeverEnds(s: string, limit: nat, tag: string)
    requires limit >= 1 && |s| > limit && Flat(s) && IsTag(tag) && tag <= s && EndsWith(s, CLOSE)
    requires |s| > |tag| && !(OPEN <= s[|tag|..]) && !(limit >= |CLOSE| && Escapes(limit, tag, limit))
    ensures !Ends(s, limit)
  {
    hide Split, CutAll, IsTag, Flat, Escapes, EndsWith;
    assert s == tag + s[|tag|..];
    forall fuel: nat ensures Split(s, limit, fuel).None? {
      NeverEnds(limit, tag, s[|tag|..], fuel);
      OneQuotedLine(s, limit, tag, fuel);
    }
  }

  /** A tag, more characters than a part can hold, and a close tag. */
  function LongLine(limit: nat, tag: string): string {
    tag + (seq(limit, _ => 'x') + CLOSE)
  }

  lemma LongLineIs(limit: nat, tag: string)
    requires limit >= 1 && IsTag(tag) && Flat(tag)
    ensures var s := LongLine(limit, tag);
            && |s| > limit && |s| > |tag| && Flat(s) && tag <= s && EndsWith(s, CLOSE)
            && s[|tag|..][0] == 'x' && !(OPEN <= s[|tag|..])
            && OverTag(s, tag)
  {
    var s, rest := LongLine(limit, tag), seq(limit, _ => 'x') + CLOSE;
    assert s[|tag|..] == rest && rest[0] == 'x';
    assert s[|s| - |CLOSE|..] == CLOSE;
    hide IsTag;
    OverItsTag(tag, rest);
  }

  lemma OverItsTag(tag: string, rest: string)
    requires IsTag(tag) && Flat(tag + rest)
    ensures OverTag(tag + rest, tag)
  {
    var s := tag + rest;
    PrefixedTag(tag, rest);
    OnlyLine(s);
    assert s[0..|s|] == s;
    hide IsTag, OpenTag, Flat, IsLine, Contains;
  }

  lemma OnlyLine(s: string)
    requires Flat(s)
    ensures forall lo: nat, hi: nat :: IsLine(s, lo, hi) <==> lo == 0 && hi == |s|
  {
  }

  lemma LongLineOverflows(limit: nat, tag: string)
    requires limit >= 1 && IsTag(tag) && Flat(tag) && |tag| + |CLOSE| >= limit
    ensures !SplitsWithin(LongLine(limit, tag), limit)
  {
    var s := LongLine(limit, tag);
    LongLineIs(limit, tag);
    if EndsWith(s[..limit], CLOSE) {
      CloseInTag(limit, tag);
      OneLineNeverEnds(s, limit, tag);
    } else {
      hide Split, LongLine, IsTag, Flat, EndsWith, OverTag;
      forall parts | SplitsInto(s, limit, parts) ensures !Within(parts, limit) {
        var fuel: nat :| Split(s, limit, fuel) == Some(parts);
        OneLineOverflows(s, limit, tag, fuel);
        assert |parts[0]| > limit;
      }
    }
  }

  /** Only a tag of exactly the limit can end the first cut in a close tag. */
  lemma CloseInTag(limit: nat, tag: string)
    requires limit >= 1 && IsTag(tag) && EndsWith(LongLine(limit, tag)[..limit], CLOSE)
    ensures |tag| == limit && !Escapes(limit, tag, limit)
  {
    var s := LongLine(limit, tag);
    assert s[..limit][limit - 1] == s[limit - 1] == CLOSE[12] == '>';
  }

  /** Splitting ends on every text over a tag exactly when the cutting loop ends on every rest. */
  lemma EveryTextEndsIff(limit: nat, tag: string)
    requires limit >= 1 && IsTag(tag) && Flat(tag)
    ensures (forall s | OverTag(s, tag) :: Ends(s, limit)) <==> limit >= |CLOSE| && Escapes(limit, tag, limit)
  {
    hide OverTag, Ends, Escapes, IsTag, Flat, LongLine, EndsWith;
    if limit >= |CLOSE| && Escapes(limit, tag, limit) {
      forall s | OverTag(s, tag) ensures Ends(s, limit) { TextEnds(s, limit, tag); }
    } else {
      LongLineIs(limit, tag);
      OneLineNeverEnds(LongLine(limit, tag), limit, tag);
    }
  }

  /** Every text over a tag is split within the limit exactly when the tag leaves room for its
      close tag and one more character. */
  lemma EveryTextFitsIff(limit: nat, tag: string)
    requires limit >= 1 && IsTag(tag) && Flat(tag)
    ensures (forall s | OverTag(s, tag) :: SplitsWithin(s, limit)) <==> |tag| + |CLOSE| + 1 <= limit
  {
    hide OverTag, SplitsInto, IsTag, Flat, LongLine, TagsFit, Split, IsSplit;
    if |tag| + |CLOSE| + 1 <= limit {
      forall s | OverTag(s, tag) ensures SplitsWithin(s, limit) {
        OverTagFits(s, limit, tag);
        var fuel, parts := SplitFits(s, limit);
        SplitsIntoBy(s, limit, fuel, parts);
      }
    } else {
      LongLineIs(limit, tag);
      LongLineOverflows(limit, tag);
    }
  }

  lemma SplitsIntoBy(s: string, limit: nat, fuel: nat, parts: seq<string>)
    requires Split(s, limit, fuel) == Some(parts)
    ensures SplitsInto(s, limit, parts)
  {
  }
}
