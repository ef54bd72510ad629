/** The splitter as a whole: what the guard for limits below 37 changes, the exact conditions
    behind it, and three concrete texts. */
module TextSplitterGuard {
  import opened Options
  import opened TextSplitter
  import opened TextSplitterSpec
  import opened TextSplitterParts
  import opened TextSplitterTheorems

  ghost predicate KeepsLimit(text: string, limit: nat) {
    var s := Working(text, limit);
    |s| <= limit || SplitsWithin(s, limit)
  }

  ghost predicate Finishes(text: string, limit: nat) {
    var s := Working(text, limit);
    |s| <= limit || Ends(s, limit)
  }

  /** Every text over a tag is split within the limit exactly when quotes are kept at all and
      the tag leaves room for its close tag and one more character. */
  lemma KeepsLimitIff(limit: nat, tag: string)
    requires IsTag(tag) && Flat(tag)
    ensures (forall text | OverTag(text, tag) :: KeepsLimit(text, limit))
            <==> limit >= 37 && |tag| + |CLOSE| + 1 <= limit
  {
    if limit >= 37 {
      LongLineIs(limit, tag);
      hide OverTag, SplitsWithin, IsTag, Flat, LongLine, EndsWith;
      EveryTextFitsIff(limit, tag);
      if |tag| + |CLOSE| + 1 > limit { LongLineOverflows(limit, tag); }
    } else {
      var text := SmallLimitLoops(limit, tag);
      NeverWithin(text, limit);
      assert !KeepsLimit(text, limit);
    }
  }

  /** The splitter ends on every text over a tag exactly when quotes are kept at all and no cut
      stops at the end of the tag or in the middle of it. */
  lemma FinishesIff(limit: nat, tag: string)
    requires IsTag(tag) && Flat(tag)
    ensures (forall text | OverTag(text, tag) :: Finishes(text, limit))
            <==> limit >= 37 && Escapes(limit, tag, limit)
  {
    if limit >= 37 {
      LongLineIs(limit, tag);
      hide OverTag, Ends, IsTag, Flat, LongLine, EndsWith, Escapes;
      EveryTextEndsIff(limit, tag);
      if !Escapes(limit, tag, limit) { OneLineNeverEnds(LongLine(limit, tag), limit, tag); }
    } else {
      var text := SmallLimitLoops(limit, tag);
      assert !Finishes(text, limit);
    }
  }

  lemma NeverWithin(text: string, limit: nat)
    requires !Finishes(text, limit)
    ensures !KeepsLimit(text, limit)
  {
    hide Split, Working;
  }

  /** Taking the tags out once does not help: what is left can be a tag again. */
  lemma SmallLimitLoops(limit: nat, tag: string) returns (text: string)
    requires limit < 37 && IsTag(tag) && Flat(tag)
    ensures OverTag(text, tag) && !Finishes(text, limit)
  {
    if limit == 0 {
      text := "x";
      ZeroNeverEnds(tag);
    } else {
      text := Nested(limit, tag);
      NestedIsOverTag(limit, tag);
      NestedIsStripped(limit, tag);
      LongTagIs(limit);
      hide Nested, Strip, OverTag, Ends, IsTag, Flat, EndsWith, Escapes, Contains, LongTag;
      LongLineIs(limit, LongTag(limit));
      OneLineNeverEnds(LongLine(limit, LongTag(limit)), limit, LongTag(limit));
    }
  }

  // ----- a limit of nothing

  lemma ZeroNeverEnds(tag: string)
    ensures OverTag("x", tag) && !Finishes("x", 0)
  {
    assert Working("x", 0) == "x" by { NoQuote("x"); }
    forall lo: nat, hi: nat | IsLine("x", lo, hi) ensures !Contains("x"[lo..hi], OPEN) { NoQuote("x"[lo..hi]); }
    hide Working, Split, Contains;
    forall fuel: nat ensures Split("x", 0, fuel) == None { ZeroSplit(fuel); }
  }

  lemma NoQuote(s: string)
    requires |s| <= 1
    ensures !Contains(s, OPEN)
  {
  }

  lemma ZeroSplit(fuel: nat)
    ensures Split("x", 0, fuel) == None
  {
    assert "x"[0..1] == "x" && LineEnd("x", 0) == 1;
    hide AddLine;
    ZeroLine("x", fuel);
  }

  lemma ZeroLine(line: string, fuel: nat)
    requires |line| == 1
    ensures AddLine(0, START, line, fuel) == None
  {
    NoQuote(line);
    hide CutAll, Contains, OpenTag;
    ZeroCutsNothing(PLAIN_TAG, line, fuel);
  }

  lemma {:induction false} ZeroCutsNothing(tag: string, rem: string, fuel: nat)
    requires rem != ""
    ensures CutAll(0, false, tag, rem, fuel) == None
    decreases fuel
  {
    if fuel > 0 { ZeroCutsNothing(tag, rem, fuel - 1); }
  }

  // ----- a tag inside a tag

  /** A tag longer than the limit, with no second opening in it. */
  function LongTag(limit: nat): string {
    OPEN + " " + seq(limit, _ => 'a') + ">"
  }

  lemma LongTagIs(limit: nat)
    requires limit >= 1
    ensures IsTag(LongTag(limit)) && Flat(LongTag(limit)) && !Escapes(limit, LongTag(limit), limit)
  {
    var t := LongTag(limit);
    assert t[0..|OPEN|] == OPEN && t[|OPEN|] == ' ' && t[|t| - 1] == '>';
    assert forall k :: 0 < k < |t| ==> t[k] != '<' && (t[k] == '>' ==> k == |t| - 1);
    forall i | 0 < i < |t| ensures !(OPEN <= t[i..]) {
      assert t[i..][0] == t[i];
    }
    PlainTagEscapesIff(limit, t);
  }

  /** The long line behind a long tag, with a tag in the middle of its tag and of its close tag. */
  function Nested(limit: nat, tag: string): string {
    "<block" + (tag + (Middle(limit) + ("</block" + (tag + "quote>"))))
  }

  function Middle(limit: nat): string {
    "quote " + seq(limit, _ => 'a') + ">" + seq(limit, _ => 'x')
  }

  lemma MiddleIs(limit: nat)
    ensures forall k :: 0 <= k < |Middle(limit)| ==> Middle(limit)[k] != '<' && Middle(limit)[k] != '\n'
    ensures |Middle(limit)| > limit
  {
  }

  lemma {:induction false} StripFree(p: string, r: string)
    requires forall k :: 0 <= k < |p| ==> p[k] != '<'
    ensures Strip(p + r) == p + Strip(r)
  {
    hide *;
    if p == "" {
      assert p + r == r;
    } else {
      StripFree(p[1..], r);
      assert (p + r)[1..] == p[1..] + r;
      StripOne(p + r);
      assert p == [p[0]] + p[1..];
    }
  }

  lemma StripOne(s: string)
    requires s != "" && s[0] != '<'
    ensures Strip(s) == [s[0]] + Strip(s[1..])
  {
    assert 11 <= |s| ==> s[0..11][0] != '<';
    assert 12 <= |s| ==> s[0..12][0] != '<';
    hide PastBracket;
  }

  lemma StripTag(tag: string, r: string)
    requires IsTag(tag)
    ensures Strip(tag + r) == Strip(r)
  {
    PrefixedEnd(tag, r);
    assert (tag + r)[|tag|..] == r;
  }

  lemma PrefixedEnd(tag: string, r: string)
    requires IsTag(tag)
    ensures TagEnd(tag + r, OPEN, 0) == Some(|tag|)
  {
    var s := tag + r;
    assert s[0..|OPEN|] == tag[0..|OPEN|] && s[|OPEN|] == tag[|OPEN|];
    FirstBracketBefore(tag, r, |OPEN|);
  }

  /** Half an opening or closing in front of a tag is no tag. */
  lemma StripHalf(half: string, tag: string, r: string)
    requires half in {"<block", "</block"} && IsTag(tag)
    ensures Strip(half + (tag + r)) == half + Strip(r)
  {
    HalfGoesBy(half, tag, r);
    hide *;
    StripFree(half[1..], tag + r);
    StripTag(tag, r);
    HalfAgain(half, Strip(r));
  }

  lemma HalfAgain(half: string, r: string)
    requires half != ""
    ensures half[..1] + (half[1..] + r) == half + r
  {
  }

  lemma HalfGoesBy(half: string, tag: string, r: string)
    requires half in {"<block", "</block"} && IsTag(tag)
    ensures forall k :: 0 <= k < |half[1..]| ==> half[1..][k] != '<'
    ensures Strip(half + (tag + r)) == half[..1] + Strip(half[1..] + (tag + r)) && half != ""
  {
    var s := half + (tag + r);
    assert s[|half|] == tag[0] == tag[0..|OPEN|][0] == '<';
    assert s[1..] == half[1..] + (tag + r);
    hide IsTag;
    NotQuite(s, |half|);
    hide TagEnd;
    assert half[..1] == [s[0]];
  }

  lemma NotQuite(s: string, n: nat)
    requires 5 < n < 8 && n < |s| && s[n] == '<'
    ensures TagEnd(s, OPEN, 0).None? && TagEnd(s, "</blockquote", 0).None?
  {
    if 11 <= |s| { assert s[0..11][n] != OPEN[n]; }
    if 12 <= |s| { assert s[0..12][n] != "</blockquote"[n]; }
  }

  lemma NestedIsStripped(limit: nat, tag: string)
    requires 1 <= limit < 37 && IsTag(tag)
    ensures Working(Nested(limit, tag), limit) == LongLine(limit, LongTag(limit))
  {
    var text := Nested(limit, tag);
    NestedIsLong(limit, tag);
    NestedStrips(limit, tag);
    hide Nested, LongLine, LongTag, Strip;
  }

  lemma NestedIsLong(limit: nat, tag: string)
    requires IsTag(tag)
    ensures |Nested(limit, tag)| > limit && Contains(Nested(limit, tag), OPEN)
  {
    var text := Nested(limit, tag);
    MiddleIs(limit);
    assert text[6..6 + |OPEN|] == tag[0..|OPEN|];
    assert At(text, OPEN, 6);
  }

  lemma NestedStrips(limit: nat, tag: string)
    requires IsTag(tag)
    ensures Strip(Nested(limit, tag)) == LongLine(limit, LongTag(limit))
  {
    MiddleIs(limit);
    hide IsTag, Middle, Strip;
    var end := "</block" + (tag + "quote>");
    StripHalf("<block", tag, Middle(limit) + end);
    StripFree(Middle(limit), end);
    StripHalf("</block", tag, "quote>");
    StripFree("quote>", "");
    StripNothing();
    assert "quote>" + "" == "quote>";
    Unnested(limit);
  }

  lemma StripNothing()
    ensures Strip("") == ""
  {
  }

  lemma Unnested(limit: nat)
    ensures "<block" + (Middle(limit) + ("</block" + "quote>")) == LongLine(limit, LongTag(limit))
  {
    assert "<block" + "quote" == OPEN && "</block" + "quote>" == CLOSE;
  }

  lemma NestedIsOverTag(limit: nat, tag: string)
    requires IsTag(tag) && Flat(tag)
    ensures OverTag(Nested(limit, tag), tag)
  {
    var text := Nested(limit, tag);
    MiddleIs(limit);
    hide Middle;
    var rest := Middle(limit) + ("</block" + (tag + "quote>"));
    assert Flat(text);
    OnlyLine(text);
    assert text[0..|text|] == text;
    FirstTag(tag, rest);
  }

  /** The search passes the half opening and finds the tag behind it. */
  lemma FirstTag(tag: string, r: string)
    requires IsTag(tag)
    ensures OpenTag("<block" + (tag + r)) == Some(tag)
  {
    var s := "<block" + (tag + r);
    NoTagInHalf(tag, r);
    PrefixedEnd(tag, r);
    assert s[6..] == tag + r && |s| > 6;
    hide TagEnd, IsTag, OpenTagFrom;
    PastNoTags(s, 0, 6);
    TagShifted(s, 6);
    FoundHere(s, 6, tag);
  }

  lemma FoundHere(s: string, i: nat, tag: string)
    requires i < |s| && TagEnd(s, OPEN, i) == Some(i + |tag|) && tag <= s[i..]
    ensures OpenTagFrom(s, i) == Some(tag)
  {
    hide TagEnd;
    assert s[i..i + |tag|] == s[i..][..|tag|] == tag;
  }

  lemma NoTagInHalf(tag: string, r: string)
    requires IsTag(tag)
    ensures forall i: nat :: i < 6 ==> TagEnd("<block" + (tag + r), OPEN, i).None?
  {
    var s := "<block" + (tag + r);
    assert s[6] == tag[0] == tag[0..|OPEN|][0] == '<';
    hide IsTag, PastBracket;
    forall i: nat | i < 6 ensures TagEnd(s, OPEN, i).None? {
      if i + |OPEN| <= |s| { assert s[i..i + |OPEN|][6 - i] == '<'; }
    }
  }

  lemma PastNoTags(s: string, i: nat, j: nat)
    requires i <= j < |s| && forall k: nat :: i <= k < j ==> TagEnd(s, OPEN, k).None?
    ensures OpenTagFrom(s, i) == OpenTagFrom(s, j)
    decreases j - i
  {
    if i < j { PastNoTags(s, i + 1, j); }
  }

  lemma TagShifted(s: string, i: nat)
    requires i <= |s| && TagEnd(s[i..], OPEN, 0).Some?
    ensures TagEnd(s, OPEN, i) == Some(i + TagEnd(s[i..], OPEN, 0).value)
  {
    var t := s[i..];
    assert s[i..i + |OPEN|] == t[0..|OPEN|];
    BracketShifted(s, i, |OPEN|);
  }

  lemma {:induction false} BracketShifted(s: string, i: nat, j: nat)
    requires i <= |s| && PastBracket(s[i..], j).Some?
    ensures PastBracket(s, i + j) == Some(i + PastBracket(s[i..], j).value)
    decreases |s| - j
  {
    if s[i..][j] != '>' { BracketShifted(s, i, j + 1); }
  }

  // ----- concrete texts

  lemma TagOf(t: string)
    requires |t| > 12 && t[..11] == OPEN && t[11] == ' ' && t[|t| - 1] == '>'
    requires forall k :: 11 <= k < |t| - 1 ==> t[k] != '>'
    ensures IsTag(t)
  {
    assert t[0..11] == t[..11];
  }

  lemma QuotedLine(tag: string, body: string)
    requires Flat(tag) && Flat(body)
    ensures var s := tag + body + CLOSE; Flat(s) && tag <= s && EndsWith(s, CLOSE) && s[|tag|..] == body + CLOSE
  {
    var s := tag + body + CLOSE;
    assert s[|s| - |CLOSE|..] == CLOSE;
  }

  /** A tag of exactly the limit: the splitter never ends. */
  lemma ExactTagNeverEnds(limit: nat, tag: string, body: string)
    requires |tag| == limit >= 37 && IsTag(tag) && Flat(tag) && Flat(body) && body != "" && body[0] != '<'
    ensures var text := tag + body + CLOSE; Working(text, limit) == text && !Finishes(text, limit)
  {
    QuotedLine(tag, body);
    var text := tag + body + CLOSE;
    assert text[limit..][0] == body[0];
    hide Ends, Flat, IsTag, EndsWith, Contains;
    OneLineNeverEnds(text, limit, tag);
  }

  lemma FortyNeverEnds()
    ensures var tag := "<blockquote cite=aaaaaaaaaaaaaaaaaaaaaa>"; var text := tag + "abc" + CLOSE;
            |tag| == 40 && Working(text, 40) == text && !Finishes(text, 40)
  {
    FortyTag();
    hide *;
    ExactTagNeverEnds(40, "<blockquote cite=aaaaaaaaaaaaaaaaaaaaaa>", "abc");
  }

  lemma FortyTag()
    ensures var tag := "<blockquote cite=aaaaaaaaaaaaaaaaaaaaaa>"; IsTag(tag) && Flat(tag) && Flat("abc")
  {
    TagOf("<blockquote cite=aaaaaaaaaaaaaaaaaaaaaa>");
  }

  /** A tag of 32 characters under a limit of 40: parts of 53, 53 and 52 characters. */
  lemma FortyIsExceeded() returns (parts: seq<string>)
    ensures var text := "<blockquote cite=aaaaaaaaaaaaaa>" + "0123456789" + CLOSE;
            Working(text, 40) == text && SplitsInto(text, 40, parts)
    ensures |parts| == 3 && |parts[0]| == 53 && |parts[1]| == 53 && |parts[2]| == 52
  {
    ShorterTag();
    hide *;
    parts := ThreeParts("<blockquote cite=aaaaaaaaaaaaaa>");
  }

  lemma ShorterTag()
    ensures var tag := "<blockquote cite=aaaaaaaaaaaaaa>"; IsTag(tag) && Flat(tag)
  {
    TagOf("<blockquote cite=aaaaaaaaaaaaaa>");
  }

  lemma ThreeParts(tag: string) returns (parts: seq<string>)
    requires |tag| == 32 && IsTag(tag) && Flat(tag)
    ensures var text := tag + "0123456789" + CLOSE; Working(text, 40) == text && SplitsInto(text, 40, parts)
    ensures |parts| == 3 && |parts[0]| == 53 && |parts[1]| == 53 && |parts[2]| == 52
  {
    QuotedLine(tag, "0123456789");
    var text := tag + "0123456789" + CLOSE;
    assert text == tag + "0123456789</blockquote>" && |text| == 55;
    assert Working(text, 40) == text;
    hide *;
    parts := ThreeCuts(tag, text);
    OneQuotedLine(text, 40, tag, 3);
    assert parts + [] == parts;
    SplitsIntoBy(text, 40, 3, parts);
  }

  lemma ThreeCuts(tag: string, text: string) returns (parts: seq<string>)
    requires |tag| == 32 && IsTag(tag) && text == tag + "0123456789</blockquote>"
    ensures CutAll(40, true, tag, text, 3) == Some(Cuts(parts, ""))
    ensures |parts| == 3 && |parts[0]| == 53 && |parts[1]| == 53 && |parts[2]| == 52
  {
    CutTwice(tag);
    LastCut(tag);
    NotTooLong();
    hide Cut, TooLong, IsTag;
    assert CutAll(40, true, tag, "", 0) == Some(Cuts([], ""));
    assert CutAll(40, true, tag, tag + "kquote>", 1).Some?;
    assert CutAll(40, true, tag, tag + "89</blockquote>", 2).Some?;
    parts := CutAll(40, true, tag, text, 3).value.parts;
  }

  lemma CutTwice(tag: string)
    requires |tag| == 32 && IsTag(tag)
    ensures var rem := tag + "0123456789</blockquote>";
            && TooLong(40, true, rem) && |Cut(40, true, tag, rem).0| == 53
            && Cut(40, true, tag, rem).1 == tag + "89</blockquote>"
    ensures var rem := tag + "89</blockquote>";
            && TooLong(40, true, rem) && |Cut(40, true, tag, rem).0| == 53
            && Cut(40, true, tag, rem).1 == tag + "kquote>"
  {
    var x, y := "0123456789</blockquote>", "89</blockquote>";
    assert x[8..] == y && y[8..] == "kquote>";
    assert y[0] == '8' && y[8..][0] == 'k';
    hide Cut, TooLong;
    CutBy40(tag, x);
    CutBy40(tag, y);
  }

  lemma NotTooLong()
    ensures !TooLong(40, true, "")
  {
  }

  lemma CutBy40(tag: string, x: string)
    requires |tag| == 32 && IsTag(tag) && |x| > 8 && x[7] != '>' && !(OPEN <= x[8..])
    ensures TooLong(40, true, tag + x) && |Cut(40, true, tag, tag + x).0| == 53
    ensures Cut(40, true, tag, tag + x).1 == tag + x[8..]
  {
    var rem := tag + x;
    OpensStill(tag, x);
    assert rem[40..] == x[8..];
    assert rem[..40][39] == x[7];
  }

  lemma LastCut(tag: string)
    requires |tag| == 32 && IsTag(tag)
    ensures TooLong(40, true, tag + "kquote>") && |Cut(40, true, tag, tag + "kquote>").0| == 52
    ensures Cut(40, true, tag, tag + "kquote>").1 == ""
  {
    var rem := tag + "kquote>";
    OpensStill(tag, "kquote>");
    assert rem[26..][5] == '>';
    assert rem[..39] == rem;
  }
}
