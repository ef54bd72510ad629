/** The splitter's loops (utils/text_limits.py), proved to compute the run described in
    TextSplitter wherever that run ends at all. */
module TextLimits {
  import opened Options
  import opened TextSplitter
  import opened TextSplitterSpec
  import opened TextSplitterParts
  import opened TextSplitterTheorems

  method CutLine(limit: nat, quoted: bool, tag: string, actual: string, ghost fuel: nat)
    returns (parts: seq<string>, rem: string)
    requires CutAll(limit, quoted, tag, actual, fuel).Some?
    ensures CutAll(limit, quoted, tag, actual, fuel) == Some(Cuts(parts, rem))
  {
    parts, rem := [], actual;
    ghost var left := fuel;
    assert forall c: seq<string> :: [] + c == c;
    while TooLong(limit, quoted, rem)
      invariant CutAll(limit, quoted, tag, rem, left).Some?
      invariant var rest := CutAll(limit, quoted, tag, rem, left).value;
                CutAll(limit, quoted, tag, actual, fuel) == Some(Cuts(parts + rest.parts, rest.rem))
      decreases left
    {
      var (chunk, next) := Cut(limit, quoted, tag, rem);
      ghost var more := CutAll(limit, quoted, tag, next, left - 1).value;
      assert parts + ([chunk] + more.parts) == parts + [chunk] + more.parts;
      parts, rem, left := parts + [chunk], next, left - 1;
    }
    assert parts + [] == parts;
  }

  method FlushCurrent(limit: nat, enabled: bool, st: Splitting) returns (parts: seq<string>)
    ensures parts == Flushed(limit, enabled, st)
  {
    parts := st.parts;
    if st.current != "" {
      var part := st.current;
      if enabled && st.quoted && !EndsWith(part, CLOSE) {
        if |part| + |CLOSE| <= limit {
          part := part + CLOSE;
        } else {
          part := Take(part, limit - |CLOSE|) + CLOSE;
        }
      }
      parts := parts + [part];
    }
  }

  method BreakLine(limit: nat, enabled: bool, st: Splitting, line: string, ghost fuel: nat) returns (next: Splitting)
    requires TakeUp(limit, Enter(limit, enabled, st.quoted, st.tag, line), Flushed(limit, enabled, st), fuel).Some?
    ensures TakeUp(limit, Enter(limit, enabled, st.quoted, st.tag, line), Flushed(limit, enabled, st), fuel)
            == Some(next)
  {
    var parts := FlushCurrent(limit, enabled, st);
    hide CutAll, Enter, Flushed, Contains;
    var n := Enter(limit, enabled, st.quoted, st.tag, line);
    var cuts, rem := CutLine(limit, n.canClose && n.quoted, n.tag, n.actual, fuel);
    var quoted := n.quoted;
    if Contains(n.actual, CLOSE) {
      quoted := false;
    }
    next := Splitting(parts + cuts, rem, quoted, n.tag);
  }

  method PutLine(limit: nat, st: Splitting, line: string, ghost fuel: nat) returns (next: Splitting)
    requires AddLine(limit, st, line, fuel).Some?
    ensures AddLine(limit, st, line, fuel) == Some(next)
  {
    hide TakeUp, Enter, Flushed, Contains, OpenTag;
    var hasOpen, hasClose := Contains(line, OPEN), Contains(line, CLOSE);
    var lineTag := LineTag(st.tag, line);
    var willBeQuoted := (st.quoted || hasOpen) && !hasClose;
    var wrapper := if willBeQuoted then |lineTag| + |CLOSE| else 0;
    var enabled := limit >= wrapper + 1;
    var needed := if enabled && willBeQuoted && !EndsWith(line, CLOSE) then |CLOSE| else 0;
    var candidate := if st.current != "" then st.current + "\n" + line else line;
    if |candidate| + needed <= limit {
      next := st.(current := candidate);
      if hasOpen {
        next := next.(quoted := true, tag := lineTag);
      }
      if hasClose {
        next := next.(quoted := false);
      }
    } else {
      next := BreakLine(limit, enabled, st, line, fuel);
    }
  }

  /** The splitter, for every text and limit on which it ends. */
  method SplitTextByLines(text: string, limit: nat) returns (parts: seq<string>)
    requires |Working(text, limit)| <= limit || Ends(Working(text, limit), limit)
    ensures var s := Working(text, limit);
            if |s| <= limit then parts == [s] else SplitsInto(s, limit, parts)
    ensures var s := Working(text, limit);
            limit >= 1 && TagsFit(s, limit) ==> Within(parts, limit) && (|s| <= limit || IsSplit(parts, s, limit))
  {
    if |text| <= limit {
      return [text];
    }
    var s := text;
    if limit < 37 && Contains(text, OPEN) {
      s := Strip(text);
      if |s| <= limit {
        return [s];
      }
    }
    hide Split;
    ghost var fuel: nat :| Split(s, limit, fuel).Some?;
    parts := SplitLines(s, limit, fuel);
    if limit >= 1 && TagsFit(s, limit) { FittingResult(s, limit, parts); }
  }

  method SplitLines(s: string, limit: nat, ghost fuel: nat) returns (parts: seq<string>)
    requires Split(s, limit, fuel).Some?
    ensures Split(s, limit, fuel) == Some(parts)
  {
    hide AddLine, Finish;
    var st := START;
    var pos: nat, more := 0, true;
    while more
      invariant pos <= |s|
      invariant more ==> AddLines(limit, START, s, 0, fuel) == AddLines(limit, st, s, pos, fuel)
      invariant !more ==> AddLines(limit, START, s, 0, fuel) == Some(st)
      decreases if more then |s| - pos + 1 else 0
    {
      var end := LineEnd(s, pos);
      st := PutLine(limit, st, s[pos..end], fuel);
      if end < |s| {
        pos := end + 1;
      } else {
        more := false;
      }
    }
    parts := FinishText(limit, st);
  }

  method FinishText(limit: nat, st: Splitting) returns (parts: seq<string>)
    ensures parts == Finish(limit, st)
  {
    var wrapper := if st.quoted then |st.tag| + |CLOSE| else 0;
    parts := FlushCurrent(limit, limit >= wrapper + 1, st);
  }
}
