/** Splitting a long message into parts with re-inserted quote tags (utils/text_limits.py).
    The inner loop need not end, so the functions that describe a run carry a bound on its
    rounds. */
module TextSplitter {
  import opened Options
  import opened Strings

  const OPEN := "<blockquote"
  const PLAIN_TAG := "<blockquote>"
  const CLOSE := "</blockquote>"

  // ----- strings

  predicate At(s: string, p: string, i: nat) {
    i + |p| <= |s| && s[i..i + |p|] == p
  }

  predicate Contains(s: string, p: string) {
    exists i :: 0 <= i <= |s| && At(s, p, i)
  }

  predicate EndsWith(s: string, p: string) {
    |p| <= |s| && s[|s| - |p|..] == p
  }

  /** One past the first '>' at or after `i`. */
  function PastBracket(s: string, i: nat): (r: Option<nat>)
    ensures r.Some? ==> i < r.value <= |s| && s[r.value - 1] == '>' && forall k :: i <= k < r.value - 1 ==> s[k] != '>'
    ensures r.None? ==> forall k :: i <= k < |s| ==> s[k] != '>'
    decreases |s| - i
  {
    if i >= |s| then None else if s[i] == '>' then Some(i + 1) else PastBracket(s, i + 1)
  }

  /** Where a tag that starts with `head` at position `i` ends: the head, then '>' or
      white space and anything up to the next '>'. */
  function TagEnd(s: string, head: string, i: nat): (r: Option<nat>)
    ensures r.Some? ==> i + |head| < r.value <= |s|
  {
    var j := i + |head|;
    if j < |s| && s[i..j] == head && (s[j] == '>' || IsSpace(s[j])) then PastBracket(s, j) else None
  }

  /** The leftmost opening tag at or after `i`. */
  function OpenTagFrom(s: string, i: nat): Option<string>
    decreases |s| - i
  {
    if i >= |s| then None
    else match TagEnd(s, OPEN, i)
      case Some(e) => Some(s[i..e])
      case None => OpenTagFrom(s, i + 1)
  }

  function OpenTag(s: string): Option<string> {
    OpenTagFrom(s, 0)
  }

  predicate IsTag(t: string) {
    TagEnd(t, OPEN, 0) == Some(|t|)
  }

  /** All blockquote tags removed, opening and closing, left to right. */
  function Strip(s: string): string
    decreases |s|
  {
    if s == "" then ""
    else match TagEnd(s, OPEN, 0)
      case Some(e) => Strip(s[e..])
      case None =>
        match TagEnd(s, "</blockquote", 0)
        case Some(e) => Strip(s[e..])
        case None => [s[0]] + Strip(s[1..])
  }

  /** A text too small a limit cannot quote is split as plain text. */
  function Working(text: string, limit: nat): string {
    if limit < 37 && |text| > limit && Contains(text, OPEN) then Strip(text) else text
  }

  // ----- lines

  function LineEnd(s: string, i: nat): (r: nat)
    requires i <= |s|
    ensures i <= r <= |s| && (r < |s| ==> s[r] == '\n') && forall k :: i <= k < r ==> s[k] != '\n'
    decreases |s| - i
  {
    if i == |s| || s[i] == '\n' then i else LineEnd(s, i + 1)
  }

  predicate IsLine(s: string, lo: nat, hi: nat) {
    lo <= hi <= |s| && hi == LineEnd(s, lo) && (lo == 0 || s[lo - 1] == '\n')
  }

  // ----- one cut

  /** How many characters a quoted cut takes from a rest behind a tag of this length. */
  function QuotedSize(limit: nat, prefix: nat): nat {
    if limit <= prefix + |CLOSE| then limit else limit - |CLOSE|
  }

  /** What is cut off a line that is too long, and the rest, quoted again. */
  function Cut(limit: nat, quoted: bool, tag: string, rem: string): (string, string) {
    var size := if quoted then QuotedSize(limit, if OPEN <= rem then |tag| else 0) else limit;
    var n := if size < |rem| then size else |rem|;
    var chunk := if quoted && !EndsWith(rem[..n], CLOSE) then rem[..n] + CLOSE else rem[..n];
    (chunk, if quoted && rem[n..] != "" && !(OPEN <= rem[n..]) then tag + rem[n..] else rem[n..])
  }

  /** The loop goes on while the rest does not fit together with the close tag it may need. */
  predicate TooLong(limit: nat, quoted: bool, rem: string) {
    |rem| + (if quoted && !EndsWith(rem, CLOSE) then |CLOSE| else 0) > limit
  }

  datatype Cuts = Cuts(parts: seq<string>, rem: string)

  /** The cutting loop, if it ends within `fuel` rounds. */
  function CutAll(limit: nat, quoted: bool, tag: string, rem: string, fuel: nat): Option<Cuts>
    decreases fuel
  {
    if !TooLong(limit, quoted, rem) then Some(Cuts([], rem))
    else if fuel == 0 then None
    else
      var (chunk, rest) := Cut(limit, quoted, tag, rem);
      match CutAll(limit, quoted, tag, rest, fuel - 1)
      case None => None
      case Some(c) => Some(Cuts([chunk] + c.parts, c.rem))
  }

  // ----- one line

  /** How a line that starts a new part is taken up: quoted again if a quote is open, and
      whether there is room to close it. */
  datatype Entered = Entered(actual: string, quoted: bool, tag: string, canClose: bool)

  function Enter(limit: nat, enabled: bool, quoted: bool, tag: string, line: string): Entered {
    var actual := if enabled && quoted && !(OPEN <= line) then tag + line else line;
    var opens := Contains(actual, OPEN);
    var quoted' := quoted || opens;
    var tag' := if opens && OpenTag(actual).Some? then OpenTag(actual).value else tag;
    var wrapper := if quoted' && !EndsWith(actual, CLOSE) then |tag'| + |CLOSE| else 0;
    Entered(actual, quoted', tag', limit >= wrapper + 1)
  }

  /** The state between two lines: finished parts, the current one, and the quote in force. */
  datatype Splitting = Splitting(parts: seq<string>, current: string, quoted: bool, tag: string)

  const START := Splitting([], "", false, PLAIN_TAG)

  /** A slice up to `n`, counted from the end when negative. */
  function Take(s: string, n: int): string {
    if n >= |s| then s else if n >= 0 then s[..n] else if |s| + n >= 0 then s[..|s| + n] else ""
  }

  /** A part as it is finished: closed if it is still quoted, truncated for that if need be. */
  function Closed(limit: nat, enabled: bool, quoted: bool, current: string): string {
    if !(enabled && quoted) || EndsWith(current, CLOSE) then current
    else if |current| + |CLOSE| <= limit then current + CLOSE
    else Take(current, limit - |CLOSE|) + CLOSE
  }

  function Flushed(limit: nat, enabled: bool, st: Splitting): seq<string> {
    if st.current == "" then st.parts else st.parts + [Closed(limit, enabled, st.quoted, st.current)]
  }

  /** The line as taken up becomes the current part, cut first where it is too long. */
  function TakeUp(limit: nat, n: Entered, parts: seq<string>, fuel: nat): Option<Splitting> {
    match CutAll(limit, n.canClose && n.quoted, n.tag, n.actual, fuel)
    case None => None
    case Some(c) => Some(Splitting(parts + c.parts, c.rem, n.quoted && !Contains(n.actual, CLOSE), n.tag))
  }

  function LineTag(tag: string, line: string): string {
    if OpenTag(line).Some? then OpenTag(line).value else tag
  }

  predicate WillBeQuoted(quoted: bool, line: string) {
    (quoted || Contains(line, OPEN)) && !Contains(line, CLOSE)
  }

  /** Whether there is room to quote behind this line at all. */
  predicate TagEnabled(limit: nat, st: Splitting, line: string) {
    limit >= (if WillBeQuoted(st.quoted, line) then |LineTag(st.tag, line)| + |CLOSE| else 0) + 1
  }

  function Joined(current: string, line: string): string {
    if current != "" then current + "\n" + line else line
  }

  predicate LineFits(limit: nat, st: Splitting, line: string) {
    var closing := TagEnabled(limit, st, line) && WillBeQuoted(st.quoted, line) && !EndsWith(line, CLOSE);
    |Joined(st.current, line)| + (if closing then |CLOSE| else 0) <= limit
  }

  /** A line goes behind the current part, or it finishes that part and starts a new one. */
  function AddLine(limit: nat, st: Splitting, line: string, fuel: nat): Option<Splitting> {
    if LineFits(limit, st, line) then
      Some(Splitting(st.parts, Joined(st.current, line), WillBeQuoted(st.quoted, line),
                     if Contains(line, OPEN) then LineTag(st.tag, line) else st.tag))
    else
      var enabled := TagEnabled(limit, st, line);
      TakeUp(limit, Enter(limit, enabled, st.quoted, st.tag, line), Flushed(limit, enabled, st), fuel)
  }

  // ----- the whole text

  /** The lines from `pos` on. */
  function AddLines(limit: nat, st: Splitting, s: string, pos: nat, fuel: nat): Option<Splitting>
    requires pos <= |s|
    decreases |s| - pos
  {
    var end := LineEnd(s, pos);
    match AddLine(limit, st, s[pos..end], fuel)
    case None => None
    case Some(next) => if end == |s| then Some(next) else AddLines(limit, next, s, end + 1, fuel)
  }

  function Finish(limit: nat, st: Splitting): seq<string> {
    Flushed(limit, limit >= (if st.quoted then |st.tag| + |CLOSE| else 0) + 1, st)
  }

  /** The parts of a text that is longer than the limit, if no line takes more than `fuel` cuts. */
  function Split(s: string, limit: nat, fuel: nat): Option<seq<string>> {
    match AddLines(limit, START, s, 0, fuel)
    case None => None
    case Some(st) => Some(Finish(limit, st))
  }

  ghost predicate Ends(s: string, limit: nat) {
    exists fuel: nat :: Split(s, limit, fuel).Some?
  }

  ghost predicate SplitsInto(s: string, limit: nat, parts: seq<string>) {
    exists fuel: nat :: Split(s, limit, fuel) == Some(parts)
  }
}
