/**
 Rewriting `#path` mentions to `@path` (shared/file-mentions.ts).

 The two regular expressions are spelled out as matchers. A text is a sequence of characters, cut
 into lines at "\n", and a line into inline code spans and what lies between them.
*/
module FileMentions {
  import opened JsText
  import opened Wrappers

  // ---- The mention matcher -------------------------------------------------------------------

  predicate IsDigit(c: char) { '0' <= c <= '9' }
  predicate IsWord(c: char) { 'a' <= c <= 'z' || 'A' <= c <= 'Z' || IsDigit(c) || c == '_' }
  predicate IsPath(c: char) { IsWord(c) || c == '.' || c == '/' || c == '-' }

  predicate AllDigits(s: string, from: nat, to: nat)
    requires from <= to <= |s|
  {
    forall k :: from <= k < to ==> IsDigit(s[k])
  }

  /** No path character at `p`: the text ends there, or something else follows. */
  predicate NoPathAt(s: string, p: nat) { p >= |s| || !IsPath(s[p]) }

  /** The lookahead: from `p` to `q` digits, perhaps a dot, and then no path character. */
  predicate IssueEnd(s: string, p: nat, q: nat) {
    && p < q <= |s| && AllDigits(s, p, q)
    && (NoPathAt(s, q) || (q < |s| && s[q] == '.' && NoPathAt(s, q + 1)))
  }

  predicate IssueNumber(s: string, p: nat) { exists q :: p < q <= |s| && IssueEnd(s, p, q) }

  /** A path-shaped token begins at `p` and is not an issue number. */
  predicate TokenAt(s: string, p: nat) {
    p < |s| && (IsWord(s[p]) || s[p] == '.') && !IssueNumber(s, p)
  }

  /** A match begins at `i`. */
  predicate MentionStart(s: string, i: nat) {
    i < |s| && s[i] == '#' && (i == 0 || IsSpace(s[i - 1])) && TokenAt(s, i + 1)
  }

  function PathEnd(s: string, p: nat): (e: nat)
    requires p <= |s|
    ensures p <= e <= |s| && forall k :: p <= k < e ==> IsPath(s[k])
    decreases |s| - p
  {
    if p < |s| && IsPath(s[p]) then PathEnd(s, p + 1) else p
  }

  function DigitsEnd(s: string, p: nat): (e: nat)
    requires p <= |s|
    ensures p <= e <= |s| && AllDigits(s, p, e)
    decreases |s| - p
  {
    if p < |s| && IsDigit(s[p]) then DigitsEnd(s, p + 1) else p
  }

  /** Where the match that begins at `i` ends: the token, and ":" with digits when they follow. */
  function MatchEnd(s: string, i: nat): (e: nat)
    requires MentionStart(s, i)
    ensures i < e <= |s| && forall k :: i < k < e ==> s[k] != '#'
  {
    var p := PathEnd(s, i + 1);
    if p + 1 < |s| && s[p] == ':' && IsDigit(s[p + 1]) then DigitsEnd(s, p + 1) else p
  }

  /** `replace` with the global matcher: from each match on to its end. */
  function ReplaceFrom(s: string, i: nat): string
    requires i <= |s|
    decreases |s| - i
  {
    if i == |s| then ""
    else if MentionStart(s, i) then "@" + s[i + 1..MatchEnd(s, i)] + ReplaceFrom(s, MatchEnd(s, i))
    else [s[i]] + ReplaceFrom(s, i + 1)
  }

  function ReplaceMentions(s: string): string { ReplaceFrom(s, 0) }

  // ---- What a mention's token is -------------------------------------------------------------

  ghost predicate Pathy(c: char) {
    'a' <= c <= 'z' || 'A' <= c <= 'Z' || '0' <= c <= '9' || c in {'_', '.', '/', '-'}
  }

  /** `[p, e)` is as long a run of path characters as there is from `p`. */
  ghost predicate Run(s: string, p: nat, e: nat) {
    p <= e <= |s| && (forall k :: p <= k < e ==> Pathy(s[k])) && (e == |s| || !Pathy(s[e]))
  }

  ghost predicate Number(s: string, p: nat, e: nat) {
    p < e <= |s| && forall k :: p <= k < e ==> '0' <= s[k] <= '9'
  }

  lemma {:induction false} RunHasAnEnd(s: string, p: nat) returns (e: nat)
    requires p <= |s|
    ensures Run(s, p, e)
    decreases |s| - p
  {
    if p < |s| && Pathy(s[p]) { e := RunHasAnEnd(s, p + 1); } else { e := p; }
  }

  lemma IssueIsNumber(s: string, p: nat, e: nat)
    requires Run(s, p, e)
    ensures IssueNumber(s, p) <==> Number(s, p, e) || (p < e && s[e - 1] == '.' && Number(s, p, e - 1))
  {
    if Number(s, p, e) {
      assert IssueEnd(s, p, e);
    } else if p < e && s[e - 1] == '.' && Number(s, p, e - 1) {
      assert IssueEnd(s, p, e - 1);
    }
    forall q | p < q <= |s| && IssueEnd(s, p, q) ensures q == e || (q == e - 1 && s[q] == '.') {
      assert forall k :: p <= k < q ==> IsDigit(s[k]) && Pathy(s[k]);
      assert q <= e;
      if q < e { assert Pathy(s[q]) && s[q] == '.'; }
    }
  }

  ghost predicate ShapedToken(s: string, p: nat, e: nat) {
    && Run(s, p, e) && p < e && s[p] != '/' && s[p] != '-'
    && !Number(s, p, e) && !(s[e - 1] == '.' && Number(s, p, e - 1))
  }

  /**
   A path-shaped token: the longest run of path characters there, not empty, not beginning with "/" or
   "-", and neither a number nor a number with a full stop behind it.
   */
  lemma TokenIsItsRun(s: string, p: nat)
    requires p <= |s|
    ensures TokenAt(s, p) <==> exists e: nat :: ShapedToken(s, p, e)
  {
    var e := RunHasAnEnd(s, p);
    IssueIsNumber(s, p, e);
    hide IssueNumber, IssueEnd, Number;
    assert TokenAt(s, p) ==> ShapedToken(s, p, e);
    forall e': nat | ShapedToken(s, p, e') ensures TokenAt(s, p) {
      IssueIsNumber(s, p, e');
    }
  }

  // ---- Code spans ----------------------------------------------------------------------------

  /** The end of the first code span of a line, and where it begins; none when no pair of ticks is left. */
  function FirstSpan(line: string): (r: Option<(nat, nat)>)
    ensures r.Some? ==> r.value.0 + 2 <= r.value.1 <= |line| && line[r.value.0] == '`' == line[r.value.1 - 1]
    ensures r.Some? ==> forall k :: 0 <= k < r.value.1 - 1 && k != r.value.0 ==> line[k] != '`'
    ensures r.None? ==> forall j, k :: 0 <= j < k < |line| ==> !(line[j] == '`' && line[k] == '`')
  {
    var a := IndexOf(line, '`');
    if a < 0 then None
    else
      var rest := line[a + 1..];
      var b := IndexOf(rest, '`');
      if b < 0 then
        assert forall k :: a < k < |line| ==> line[k] == rest[k - a - 1];
        None
      else
        assert forall k :: a < k < |line| ==> line[k] == rest[k - a - 1];
        Some((a as nat, (a + b + 2) as nat))
  }

  /** `split` with a capturing group: text and spans in turn. */
  function Segments(line: string): seq<string>
    decreases |line|
  {
    var span := FirstSpan(line);
    if span.None? then [line]
    else [line[..span.value.0], line[span.value.0..span.value.1]] + Segments(line[span.value.1..])
  }

  predicate IsSpan(segment: string) { |segment| > 1 && segment[0] == '`' && segment[|segment| - 1] == '`' }

  function Piece(segment: string): string { if IsSpan(segment) then segment else ReplaceMentions(segment) }

  function Pieces(segments: seq<string>): string {
    if segments == [] then "" else Piece(segments[0]) + Pieces(segments[1..])
  }

  function RewriteOutsideCodeSpans(line: string): string { Pieces(Segments(line)) }

  // ---- Fences and lines ----------------------------------------------------------------------

  datatype Fence = Fence(mark: char, count: nat)

  function IndentEnd(s: string, p: nat): (e: nat)
    requires p <= |s|
    ensures p <= e <= |s|
    decreases |s| - p
  {
    if p < |s| && (s[p] == ' ' || s[p] == '\t') then IndentEnd(s, p + 1) else p
  }

  function RunLength(s: string, p: nat, c: char): (n: nat)
    requires p <= |s|
    ensures p + n <= |s|
    decreases |s| - p
  {
    if p < |s| && s[p] == c then 1 + RunLength(s, p + 1, c) else 0
  }

  /** Three or more backticks or tildes after the indent. */
  function Marker(line: string): Option<Fence> {
    var p := IndentEnd(line, 0);
    if RunLength(line, p, '`') >= 3 then Some(Fence('`', RunLength(line, p, '`')))
    else if RunLength(line, p, '~') >= 3 then Some(Fence('~', RunLength(line, p, '~')))
    else None
  }

  /** After an indent of blanks, exactly `count` marks of one kind, at least three. */
  ghost predicate FenceLine(line: string, indent: nat, f: Fence) {
    && indent + f.count <= |line| && f.count >= 3 && f.mark in {'`', '~'}
    && (forall k :: 0 <= k < indent ==> line[k] in {' ', '\t'})
    && (forall k :: indent <= k < indent + f.count ==> line[k] == f.mark)
    && (indent + f.count == |line| || line[indent + f.count] != f.mark)
  }

  lemma {:induction false} RunLengthIs(s: string, p: nat, c: char)
    requires p <= |s|
    ensures var n := RunLength(s, p, c);
            (forall k :: p <= k < p + n ==> s[k] == c) && (p + n == |s| || s[p + n] != c)
    decreases |s| - p
  {
    if p < |s| && s[p] == c { RunLengthIs(s, p + 1, c); }
  }

  lemma {:induction false} IndentEndIs(s: string, p: nat)
    requires p <= |s|
    ensures var e := IndentEnd(s, p);
            (forall k :: p <= k < e ==> s[k] in {' ', '\t'}) && (e == |s| || s[e] !in {' ', '\t'})
    decreases |s| - p
  {
    if p < |s| && (s[p] == ' ' || s[p] == '\t') { IndentEndIs(s, p + 1); }
  }

  /** A line opens or closes a fence exactly when it begins, after blanks, with three or more marks of a kind. */
  lemma MarkerIsFenceLine(line: string, f: Fence)
    ensures Marker(line) == Some(f) <==> exists indent: nat :: FenceLine(line, indent, f)
  {
    var p := IndentEnd(line, 0);
    IndentEndIs(line, 0);
    RunLengthIs(line, p, '`');
    RunLengthIs(line, p, '~');
    hide IndentEnd, RunLength;
    if Marker(line) == Some(f) { assert FenceLine(line, p, f); }
    forall indent: nat | FenceLine(line, indent, f) ensures Marker(line) == Some(f) {
      assert line[indent] == f.mark && line[indent] !in {' ', '\t'};
      assert p < |line| ==> line[p] !in {' ', '\t'};
      SameRun(line, p, f.mark, RunLength(line, p, f.mark), f.count);
    }
  }

  lemma SameRun(s: string, p: nat, c: char, n: nat, m: nat)
    requires p + n <= |s| && (forall k :: p <= k < p + n ==> s[k] == c) && (p + n == |s| || s[p + n] != c)
    requires p + m <= |s| && (forall k :: p <= k < p + m ==> s[k] == c) && (p + m == |s| || s[p + m] != c)
    ensures n == m
  {
    var i, j := p + n, p + m;
    assert (i < |s| ==> s[i] != c) && (j < |s| ==> s[j] != c);
  }

  /** What becomes of a line, inside the fence `fence` or outside any. */
  function LineOut(fence: Option<Fence>, line: string): string {
    if fence.Some? || Marker(line).Some? then line else RewriteOutsideCodeSpans(line)
  }

  function NextFence(fence: Option<Fence>, line: string): Option<Fence> {
    var m := Marker(line);
    if fence.None? then m
    else if m.Some? && m.value.mark == fence.value.mark && m.value.count >= fence.value.count then None
    else fence
  }

  function RewriteLines(lines: seq<string>, fence: Option<Fence>): seq<string>
    decreases |lines|
  {
    if lines == [] then []
    else [LineOut(fence, lines[0])] + RewriteLines(lines[1..], NextFence(fence, lines[0]))
  }

  function Lines(text: string): (r: seq<string>)
    ensures r != []
    decreases |text|
  {
    var i := IndexOf(text, '\n');
    if i < 0 then [text] else [text[..i]] + Lines(text[i + 1..])
  }

  function Join(lines: seq<string>): string {
    if lines == [] then "" else if |lines| == 1 then lines[0] else lines[0] + "\n" + Join(lines[1..])
  }

  function ToClaudeFileRefs(text: string): string { Join(RewriteLines(Lines(text), None)) }

  // ---- Only `#` becomes `@` ------------------------------------------------------------------

  /** `t` is `s` with some `#` turned into `@`. */
  ghost predicate Resigiled(s: string, t: string) {
    |s| == |t| && forall i :: 0 <= i < |s| ==> t[i] == s[i] || (s[i] == '#' && t[i] == '@')
  }

  function MarkAt(s: string, k: nat): char
    requires k < |s|
  {
    if MentionStart(s, k) then '@' else s[k]
  }

  function Marked(s: string): (r: string)
    ensures |r| == |s| && forall k :: 0 <= k < |s| ==> r[k] == MarkAt(s, k)
  {
    seq(|s|, k requires 0 <= k < |s| => MarkAt(s, k))
  }

  /** Inside a match nothing else changes. */
  lemma MatchedPart(s: string, i: nat)
    requires MentionStart(s, i)
    ensures s[i] == '#' && Marked(s)[i..] == "@" + s[i + 1..MatchEnd(s, i)] + Marked(s)[MatchEnd(s, i)..]
  {
    var e := MatchEnd(s, i);
    forall k | i < k < e ensures Marked(s)[k] == s[k] {}
    assert Marked(s)[i] == '@';
    hide MentionStart, MatchEnd;
    assert s[i + 1..e] == Marked(s)[i + 1..e];
    assert Marked(s)[i..] == [Marked(s)[i]] + Marked(s)[i + 1..e] + Marked(s)[e..];
  }

  /** `replace` works position by position: each match start turns, nothing else does. */
  lemma {:induction false} ReplacedFrom(s: string, i: nat)
    requires i <= |s|
    ensures ReplaceFrom(s, i) == Marked(s)[i..]
    decreases |s| - i
  {
    hide MentionStart, MatchEnd;
    if i < |s| {
      if MentionStart(s, i) {
        MatchedPart(s, i);
        ReplacedFrom(s, MatchEnd(s, i));
      } else {
        ReplacedFrom(s, i + 1);
        assert Marked(s)[i..] == [Marked(s)[i]] + Marked(s)[i + 1..];
      }
    }
  }

  lemma ReplacedIsMarked(s: string)
    ensures ReplaceMentions(s) == Marked(s) && Resigiled(s, ReplaceMentions(s))
  {
    ReplacedFrom(s, 0);
  }

  lemma SelfResigiled(s: string)
    ensures Resigiled(s, s)
  {
  }

  lemma ConcatResigiled(s: string, t: string, s': string, t': string)
    requires Resigiled(s, t) && Resigiled(s', t')
    ensures Resigiled(s + s', t + t')
  {
  }

  lemma PartsResigiled(line: string, a: nat, e: nat, before: string, rest: string)
    requires a <= e <= |line| && Resigiled(line[..a], before) && Resigiled(line[e..], rest)
    ensures Resigiled(line, before + line[a..e] + rest)
  {
    SelfResigiled(line[a..e]);
    assert line == line[..a] + line[a..e] + line[e..];
    hide Resigiled;
    ConcatResigiled(line[..a], before, line[a..e], line[a..e]);
    ConcatResigiled(line[..a] + line[a..e], before + line[a..e], line[e..], rest);
  }

  lemma {:induction false} SegmentsResigiled(line: string)
    ensures Resigiled(line, RewriteOutsideCodeSpans(line))
    decreases |line|
  {
    var span := FirstSpan(line);
    if span.None? {
      NoSpanLeft(line);
      ReplacedIsMarked(line);
    } else {
      var (a, e) := span.value;
      SpanRewritten(line, a, e);
      SegmentsResigiled(line[e..]);
      ReplacedIsMarked(line[..a]);
      hide *;
      PartsResigiled(line, a, e, ReplaceMentions(line[..a]), RewriteOutsideCodeSpans(line[e..]));
    }
  }

  lemma NoSpanLeft(line: string)
    requires FirstSpan(line).None?
    ensures !IsSpan(line) && RewriteOutsideCodeSpans(line) == ReplaceMentions(line)
  {
    assert Pieces([line]) == Piece(line) + Pieces([]);
  }

  /** A line with a span: rewrite up to it, keep it, and go on after it. */
  lemma SpanRewritten(line: string, a: nat, e: nat)
    requires FirstSpan(line) == Some((a, e))
    ensures RewriteOutsideCodeSpans(line)
         == ReplaceMentions(line[..a]) + line[a..e] + RewriteOutsideCodeSpans(line[e..])
  {
    hide ReplaceMentions;
    var before, span, rest := line[..a], line[a..e], Segments(line[e..]);
    assert !IsSpan(before) by { if |before| > 0 { assert before[0] == line[0]; } }
    assert IsSpan(span);
    assert Segments(line) == [before, span] + rest;
    assert ([before, span] + rest)[1..] == [span] + rest && ([span] + rest)[1..] == rest;
    assert Pieces([before, span] + rest) == Piece(before) + Pieces([span] + rest);
    assert Pieces([span] + rest) == Piece(span) + Pieces(rest);
  }

  // ---- Exactly the mentions ------------------------------------------------------------------

  function Ticks(s: string): nat { if s == "" then 0 else (if s[0] == '`' then 1 else 0) + Ticks(s[1..]) }

  /** `[a, e)` is a code span: both ends are ticks, none lies between, and an even number lies before. */
  ghost predicate SpanAt(line: string, a: nat, e: nat) {
    && a + 2 <= e <= |line| && line[a] == '`' == line[e - 1] && (forall k :: a < k < e - 1 ==> line[k] != '`')
    && Ticks(line[..a]) % 2 == 0
  }

  ghost predicate InSpan(line: string, i: nat) {
    exists a: nat, e: nat :: SpanAt(line, a, e) && a <= i < e
  }

  /** Where a mention may begin: at the beginning, after white space or right after a code span. */
  ghost predicate Boundary(line: string, i: nat)
    requires i < |line|
  {
    i == 0 || IsSpace(line[i - 1]) || (line[i - 1] == '`' && Ticks(line[..i]) % 2 == 0)
  }

  /** A mention of a line: a `#` at a boundary, outside code spans, before a path-shaped token. */
  ghost predicate Mention(line: string, i: nat) {
    i < |line| && line[i] == '#' && Boundary(line, i) && TokenAt(line, i + 1) && !InSpan(line, i)
  }

  lemma {:induction false} TicksAppend(s: string, t: string)
    ensures Ticks(s + t) == Ticks(s) + Ticks(t)
    decreases |s|
  {
    if s == "" { assert s + t == t; } else {
      assert (s + t)[1..] == s[1..] + t;
      TicksAppend(s[1..], t);
    }
  }

  lemma {:induction false} NoTicks(s: string)
    requires forall k :: 0 <= k < |s| ==> s[k] != '`'
    ensures Ticks(s) == 0
    decreases |s|
  {
    if s != "" { NoTicks(s[1..]); }
  }

  lemma {:induction false} SomeTicks(s: string, k: nat)
    requires k < |s| && s[k] == '`'
    ensures Ticks(s) >= 1
    decreases |s|
  {
    if k > 0 { SomeTicks(s[1..], k - 1); }
  }

  lemma IssueBeforeTick(line: string, a: nat, p: nat, q: nat)
    requires p <= a < |line| && line[a] == '`'
    ensures IssueEnd(line[..a], p, q) <==> IssueEnd(line, p, q)
  {
    var s := line[..a];
    if IssueEnd(line, p, q) {
      assert !IsDigit(line[a]);
      forall k | p <= k < q ensures IsDigit(s[k]) { assert IsDigit(line[k]); }
    }
    if IssueEnd(s, p, q) {
      forall k | p <= k < q ensures IsDigit(line[k]) { assert IsDigit(s[k]); }
    }
  }

  /** A token does not see past a tick. */
  lemma TokenBeforeTick(line: string, a: nat, p: nat)
    requires p <= a < |line| && line[a] == '`'
    ensures TokenAt(line[..a], p) <==> TokenAt(line, p)
  {
    forall q: nat ensures IssueEnd(line[..a], p, q) <==> IssueEnd(line, p, q) { IssueBeforeTick(line, a, p, q); }
    SameIssues(line[..a], line, p);
    hide IssueEnd, IssueNumber;
  }

  lemma SameIssues(s: string, t: string, p: nat)
    requires forall q: nat :: IssueEnd(s, p, q) <==> IssueEnd(t, p, q)
    ensures IssueNumber(s, p) <==> IssueNumber(t, p)
  {
    hide AllDigits, NoPathAt;
    if IssueNumber(s, p) {
      var q: nat :| p < q <= |s| && IssueEnd(s, p, q);
      assert IssueEnd(t, p, q);
    }
    if IssueNumber(t, p) {
      var q: nat :| p < q <= |t| && IssueEnd(t, p, q);
      assert IssueEnd(s, p, q);
    }
  }

  lemma IssueInRest(line: string, e: nat, p: nat, q: nat)
    requires e <= p <= |line|
    ensures IssueEnd(line[e..], p - e, q) <==> IssueEnd(line, p, q + e)
  {
    var s := line[e..];
    if IssueEnd(s, p - e, q) {
      forall k | p <= k < q + e ensures IsDigit(line[k]) { assert IsDigit(s[k - e]); }
    }
    if IssueEnd(line, p, q + e) {
      forall k | p - e <= k < q ensures IsDigit(s[k]) { assert IsDigit(line[k + e]); }
    }
  }

  lemma TokenInRest(line: string, e: nat, p: nat)
    requires e <= p <= |line|
    ensures TokenAt(line[e..], p - e) <==> TokenAt(line, p)
  {
    hide AllDigits, NoPathAt;
    var s := line[e..];
    if IssueNumber(s, p - e) {
      var q: nat :| p - e < q <= |s| && IssueEnd(s, p - e, q);
      IssueInRest(line, e, p, q);
    }
    if IssueNumber(line, p) {
      var q: nat :| p < q <= |line| && IssueEnd(line, p, q);
      IssueInRest(line, e, p, q - e);
    }
  }

  /** Ticks before a position beyond the first span. */
  lemma TicksPastSpan(line: string, a: nat, e: nat, i: nat)
    requires FirstSpan(line) == Some((a, e)) && e <= i <= |line|
    ensures Ticks(line[..i]) == 2 + Ticks(line[e..][..i - e]) && Ticks(line[..a]) == 0
    ensures Ticks(line[..e - 1]) == 1
  {
    var tick := "`";
    var before, inner, rest := line[..a], line[a + 1..e - 1], line[e..][..i - e];
    NoTicks(before);
    NoTicks(inner);
    assert line[a..e - 1] == tick + inner;
    assert line[..e - 1] == before + line[a..e - 1];
    hide FirstSpan;
    assert rest == line[e..i];
    assert line[..i] == line[..e - 1] + line[e - 1..e] + line[e..i];
    assert line[e - 1..e] == tick;
    assert line[..e - 1] + tick + rest == line[..e - 1] + (tick + rest);
    assert tick[1..] == "" && Ticks(tick) == 1;
    TicksAppend(before, tick + inner);
    TicksAppend(tick, inner);
    TicksAppend(line[..e - 1], tick + rest);
    TicksAppend(tick, rest);
  }

  lemma MentionBeforeSpan(line: string, a: nat, e: nat, i: nat)
    requires FirstSpan(line) == Some((a, e)) && i < a
    ensures Mention(line, i) <==> MentionStart(line[..a], i)
  {
    TokenBeforeTick(line, a, i + 1);
    forall b: nat, c: nat | SpanAt(line, b, c) ensures !(b <= i < c) {}
  }

  lemma SpanShifts(line: string, a: nat, e: nat, b: nat, c: nat)
    requires FirstSpan(line) == Some((a, e)) && e <= b <= |line|
    ensures SpanAt(line, b, c) <==> c >= e && SpanAt(line[e..], b - e, c - e)
  {
    TicksPastSpan(line, a, e, b);
    if b + 2 <= c <= |line| {
      forall k | b < k < c - 1 ensures line[k] == line[e..][k - e] {}
      forall k | b - e < k < c - e - 1 ensures line[e..][k] == line[k + e] {}
    }
  }

  lemma SpansAreApart(line: string, a: nat, e: nat, b: nat, c: nat)
    requires FirstSpan(line) == Some((a, e)) && SpanAt(line, b, c) && e < c
    ensures e <= b
  {
    TicksPastSpan(line, a, e, e);
    assert b < e ==> b == a || b == e - 1;
  }

  /** Past the first span, a line's code spans are those of its rest. */
  lemma InSpanOfRest(line: string, a: nat, e: nat, i: nat)
    requires FirstSpan(line) == Some((a, e)) && e <= i < |line|
    ensures InSpan(line, i) <==> InSpan(line[e..], i - e)
  {
    hide SpanAt, FirstSpan;
    if InSpan(line, i) {
      var b: nat, c: nat :| SpanAt(line, b, c) && b <= i < c;
      SpansAreApart(line, a, e, b, c);
      SpanShifts(line, a, e, b, c);
    }
    if InSpan(line[e..], i - e) {
      var b: nat, c: nat :| SpanAt(line[e..], b, c) && b <= i - e < c;
      SpanShifts(line, a, e, b + e, c + e);
    }
  }

  lemma MentionInRest(line: string, a: nat, e: nat, i: nat)
    requires FirstSpan(line) == Some((a, e)) && e <= i < |line|
    ensures Mention(line, i) <==> Mention(line[e..], i - e)
  {
    TokenInRest(line, e, i + 1);
    InSpanOfRest(line, a, e, i);
    TicksPastSpan(line, a, e, i);
    assert i > e ==> line[i - 1] == line[e..][i - e - 1];
    hide InSpan, TokenAt, FirstSpan;
    if i == e { assert line[e..][..0] == ""; }
  }

  lemma MentionWithoutSpan(line: string, i: nat)
    requires FirstSpan(line).None? && i < |line|
    ensures Mention(line, i) <==> MentionStart(line, i)
  {
    forall b: nat, c: nat ensures !SpanAt(line, b, c) {}
    if i > 0 && line[i - 1] == '`' {
      NoTicks(line[..i - 1]);
      assert line[..i] == line[..i - 1] + "`";
      TicksAppend(line[..i - 1], "`");
      assert "`"[1..] == "" && Ticks("`") == 1;
    }
  }

  /** `r` is `line` with exactly its mentions turned. */
  ghost predicate Exactly(line: string, r: string) {
    |r| == |line| && forall i :: 0 <= i < |line| ==> r[i] == if Mention(line, i) then '@' else line[i]
  }

  lemma PartAt(x: string, y: string, z: string, i: nat)
    requires i < |x| + |y| + |z|
    ensures (x + y + z)[i] == if i < |x| then x[i] else if i < |x| + |y| then y[i - |x|] else z[i - |x| - |y|]
  {
  }

  lemma InFirstSpan(line: string, a: nat, e: nat, i: nat)
    requires FirstSpan(line) == Some((a, e)) && a <= i < e
    ensures !Mention(line, i)
  {
    TicksPastSpan(line, a, e, e);
    assert SpanAt(line, a, e);
  }

  lemma CharBeforeSpan(line: string, a: nat, e: nat, i: nat)
    requires FirstSpan(line) == Some((a, e)) && i < a
    ensures |ReplaceMentions(line[..a])| == a
    ensures ReplaceMentions(line[..a])[i] == if Mention(line, i) then '@' else line[i]
  {
    ReplacedIsMarked(line[..a]);
    MentionBeforeSpan(line, a, e, i);
    hide MentionStart, Mention, FirstSpan, ReplaceMentions;
  }

  lemma CharAfterSpan(line: string, a: nat, e: nat, i: nat, rest: string)
    requires FirstSpan(line) == Some((a, e)) && e <= i < |line| && Exactly(line[e..], rest)
    ensures |rest| == |line| - e && rest[i - e] == if Mention(line, i) then '@' else line[i]
  {
    MentionInRest(line, a, e, i);
    hide Mention, FirstSpan;
    assert line[e..][i - e] == line[i];
  }

  lemma OneSpanFurther(line: string, a: nat, e: nat, i: nat, before: string, rest: string)
    requires FirstSpan(line) == Some((a, e)) && i < |line| && Exactly(line[e..], rest)
    requires before == ReplaceMentions(line[..a])
    ensures |before| == a && |rest| == |line| - e
    ensures (before + line[a..e] + rest)[i] == if Mention(line, i) then '@' else line[i]
  {
    ReplacedIsMarked(line[..a]);
    hide MentionStart, Mention, ReplaceMentions, FirstSpan;
    PartAt(before, line[a..e], rest, i);
    if i < a {
      CharBeforeSpan(line, a, e, i);
    } else if i < e {
      InFirstSpan(line, a, e, i);
    } else {
      CharAfterSpan(line, a, e, i, rest);
    }
  }

  /**
   One line, exactly: a character changes if and only if it is the `#` of a mention, and then it
   becomes `@`. In particular everything inside code spans stays.
   */
  lemma {:induction false} ExactlyMentionsChange(line: string)
    ensures Exactly(line, RewriteOutsideCodeSpans(line))
    decreases |line|
  {
    SegmentsResigiled(line);
    var r := RewriteOutsideCodeSpans(line);
    var span := FirstSpan(line);
    if span.None? {
      NoSpanLeft(line);
      ReplacedIsMarked(line);
      hide RewriteOutsideCodeSpans, Mention, MentionStart;
      forall i | 0 <= i < |line| ensures r[i] == if Mention(line, i) then '@' else line[i] {
        MentionWithoutSpan(line, i);
      }
    } else {
      var (a, e) := span.value;
      ExactlyMentionsChange(line[e..]);
      SpanRewritten(line, a, e);
      var before, rest := ReplaceMentions(line[..a]), RewriteOutsideCodeSpans(line[e..]);
      hide Mention, RewriteOutsideCodeSpans, ReplaceMentions, FirstSpan;
      forall i | 0 <= i < |line| ensures r[i] == if Mention(line, i) then '@' else line[i] {
        OneSpanFurther(line, a, e, i, before, rest);
      }
    }
  }

  // ---- Rewriting twice -----------------------------------------------------------------------

  lemma {:induction false} TicksKept(s: string, t: string)
    requires Resigiled(s, t)
    ensures Ticks(s) == Ticks(t)
    decreases |s|
  {
    if s != "" { TicksKept(s[1..], t[1..]); }
  }

  lemma IssueKept(s: string, t: string, p: nat, q: nat)
    requires Resigiled(s, t)
    ensures IssueEnd(s, p, q) <==> IssueEnd(t, p, q)
  {
    forall k | 0 <= k < |s| ensures (IsDigit(s[k]) <==> IsDigit(t[k])) && (IsPath(s[k]) <==> IsPath(t[k])) {}
    if p < q <= |s| {
      assert AllDigits(s, p, q) <==> AllDigits(t, p, q);
      assert NoPathAt(s, q) <==> NoPathAt(t, q);
      assert NoPathAt(s, q + 1) <==> NoPathAt(t, q + 1);
    }
  }

  lemma TokenKept(s: string, t: string, p: nat)
    requires Resigiled(s, t)
    ensures TokenAt(s, p) <==> TokenAt(t, p)
  {
    forall q: nat ensures IssueEnd(s, p, q) <==> IssueEnd(t, p, q) { IssueKept(s, t, p, q); }
    SameIssues(s, t, p);
    hide IssueEnd, IssueNumber;
  }

  lemma SpanKept(s: string, t: string, a: nat, e: nat)
    requires Resigiled(s, t)
    ensures SpanAt(s, a, e) <==> SpanAt(t, a, e)
  {
    if a + 2 <= e <= |s| {
      TicksKept(s[..a], t[..a]);
      forall k | 0 <= k < |s| ensures s[k] == '`' <==> t[k] == '`' {}
    }
  }

  lemma MentionKept(s: string, t: string, i: nat)
    requires Resigiled(s, t) && i < |t| && t[i] == '#'
    ensures Mention(s, i) <==> Mention(t, i)
  {
    TokenKept(s, t, i + 1);
    TicksKept(s[..i], t[..i]);
    forall a: nat, e: nat ensures SpanAt(s, a, e) <==> SpanAt(t, a, e) { SpanKept(s, t, a, e); }
    hide TokenAt, SpanAt;
  }

  lemma LineTwice(line: string)
    ensures RewriteOutsideCodeSpans(RewriteOutsideCodeSpans(line)) == RewriteOutsideCodeSpans(line)
  {
    var r := RewriteOutsideCodeSpans(line);
    SegmentsResigiled(line);
    ExactlyMentionsChange(line);
    ExactlyMentionsChange(r);
    hide RewriteOutsideCodeSpans, Mention;
    forall i | 0 <= i < |r| ensures RewriteOutsideCodeSpans(r)[i] == r[i] {
      if r[i] == '#' { MentionKept(line, r, i); } else { MentionHasHash(r, i); }
    }
  }

  lemma MentionHasHash(line: string, i: nat)
    ensures Mention(line, i) ==> i < |line| && line[i] == '#'
  {
  }

  lemma {:induction false} IndentKept(s: string, t: string, p: nat)
    requires Resigiled(s, t) && p <= |s|
    ensures IndentEnd(s, p) == IndentEnd(t, p)
    decreases |s| - p
  {
    if p < |s| { IndentKept(s, t, p + 1); }
  }

  lemma {:induction false} RunKept(s: string, t: string, p: nat, c: char)
    requires Resigiled(s, t) && p <= |s| && c != '#' && c != '@'
    ensures RunLength(s, p, c) == RunLength(t, p, c)
    decreases |s| - p
  {
    if p < |s| { RunKept(s, t, p + 1, c); }
  }

  lemma MarkerKept(s: string, t: string)
    requires Resigiled(s, t)
    ensures Marker(s) == Marker(t)
  {
    IndentKept(s, t, 0);
    RunKept(s, t, IndentEnd(s, 0), '`');
    RunKept(s, t, IndentEnd(s, 0), '~');
  }

  lemma LineOutKeeps(fence: Option<Fence>, line: string)
    ensures Resigiled(line, LineOut(fence, line))
    ensures NextFence(fence, LineOut(fence, line)) == NextFence(fence, line)
    ensures LineOut(fence, LineOut(fence, line)) == LineOut(fence, line)
  {
    SegmentsResigiled(line);
    LineTwice(line);
    MarkerKept(line, LineOut(fence, line));
    hide RewriteOutsideCodeSpans, Marker, Resigiled;
  }

  lemma {:induction false} LinesTwice(lines: seq<string>, fence: Option<Fence>)
    ensures RewriteLines(RewriteLines(lines, fence), fence) == RewriteLines(lines, fence)
    decreases |lines|
  {
    if lines != [] {
      LineOutKeeps(fence, lines[0]);
      LinesTwice(lines[1..], NextFence(fence, lines[0]));
      hide LineOut, NextFence;
      var r := RewriteLines(lines, fence);
      assert r[1..] == RewriteLines(lines[1..], NextFence(fence, lines[0]));
    }
  }

  // ---- Lines and the whole text --------------------------------------------------------------

  ghost predicate OneLine(line: string) { forall k :: 0 <= k < |line| ==> line[k] != '\n' }

  lemma JoinCons(line: string, rest: seq<string>)
    requires rest != []
    ensures Join([line] + rest) == line + "\n" + Join(rest)
  {
    assert ([line] + rest)[1..] == rest;
  }

  lemma {:induction false} LinesJoin(text: string)
    ensures Join(Lines(text)) == text
    ensures forall n :: 0 <= n < |Lines(text)| ==> OneLine(Lines(text)[n])
    decreases |text|
  {
    var i := IndexOf(text, '\n');
    if i >= 0 {
      var rest := text[i + 1..];
      LinesJoin(rest);
      JoinCons(text[..i], Lines(rest));
      assert text == text[..i] + "\n" + rest;
      assert Lines(text) == [text[..i]] + Lines(rest);
      hide Join, Lines;
    } else {
      assert Lines(text) == [text];
    }
  }

  lemma LinesOfCons(line: string, rest: string)
    requires OneLine(line)
    ensures Lines(line + "\n" + rest) == [line] + Lines(rest)
  {
    var text := line + "\n" + rest;
    assert text[|line|] == '\n';
    assert forall k :: 0 <= k < |line| ==> text[k] == line[k];
    assert IndexOf(text, '\n') == |line|;
    assert text[..|line|] == line && text[|line| + 1..] == rest;
  }

  lemma {:induction false} JoinLines(lines: seq<string>)
    requires lines != [] && forall n :: 0 <= n < |lines| ==> OneLine(lines[n])
    ensures Lines(Join(lines)) == lines
    decreases |lines|
  {
    if |lines| == 1 {
      assert IndexOf(lines[0], '\n') < 0;
      assert lines == [lines[0]];
    } else {
      var rest := lines[1..];
      assert lines == [lines[0]] + rest;
      JoinCons(lines[0], rest);
      JoinLines(rest);
      LinesOfCons(lines[0], Join(rest));
      hide Join, Lines;
    }
  }

  lemma {:induction false} LinesResigiled(lines: seq<string>, fence: Option<Fence>)
    ensures |RewriteLines(lines, fence)| == |lines|
    ensures forall n :: 0 <= n < |lines| ==> Resigiled(lines[n], RewriteLines(lines, fence)[n])
    ensures Resigiled(Join(lines), Join(RewriteLines(lines, fence)))
    decreases |lines|
  {
    if lines != [] {
      var rest, next := lines[1..], NextFence(fence, lines[0]);
      LineOutKeeps(fence, lines[0]);
      LinesResigiled(rest, next);
      var r := RewriteLines(lines, fence);
      assert r[1..] == RewriteLines(rest, next) && r[0] == LineOut(fence, lines[0]);
      hide LineOut, NextFence, RewriteLines, Resigiled;
      forall n | 0 < n < |lines| ensures Resigiled(lines[n], r[n]) {
        assert lines[n] == rest[n - 1] && r[n] == r[1..][n - 1];
      }
      if |lines| > 1 {
        SelfResigiled("\n");
        ConcatResigiled(lines[0], r[0], "\n", "\n");
        ConcatResigiled(lines[0] + "\n", r[0] + "\n", Join(rest), Join(r[1..]));
      }
    }
  }

  /** The fence a line finds itself in. */
  function FenceBefore(lines: seq<string>, n: nat, fence: Option<Fence>): Option<Fence>
    requires n <= |lines|
    decreases n
  {
    if n == 0 then fence else NextFence(FenceBefore(lines, n - 1, fence), lines[n - 1])
  }

  lemma {:induction false} FenceAfterFirst(lines: seq<string>, n: nat, fence: Option<Fence>)
    requires 0 < n <= |lines|
    ensures FenceBefore(lines, n, fence) == FenceBefore(lines[1..], n - 1, NextFence(fence, lines[0]))
    decreases n
  {
    hide NextFence;
    if n > 1 { FenceAfterFirst(lines, n - 1, fence); }
  }

  lemma {:induction false} LineByLine(lines: seq<string>, fence: Option<Fence>, n: nat)
    requires n < |lines|
    ensures |RewriteLines(lines, fence)| == |lines|
    ensures RewriteLines(lines, fence)[n] == LineOut(FenceBefore(lines, n, fence), lines[n])
    decreases |lines|
  {
    hide LineOut, NextFence;
    if |lines| > 1 { LineByLine(lines[1..], NextFence(fence, lines[0]), if n > 0 then n - 1 else 0); }
    if n > 0 { FenceAfterFirst(lines, n, fence); }
  }

  // ---- The theorems --------------------------------------------------------------------------

  /** For every text: the length stays, the line breaks stay, and only `#` changes, into `@`. */
  lemma OnlySigilsChange(text: string)
    ensures var r := ToClaudeFileRefs(text);
            && |r| == |text|
            && (forall i :: 0 <= i < |text| ==> r[i] == text[i] || (text[i] == '#' && r[i] == '@'))
            && (forall i :: 0 <= i < |text| ==> (r[i] == '\n' <==> text[i] == '\n'))
  {
    LinesJoin(text);
    LinesResigiled(Lines(text), None);
  }

  /**
   Line by line, exactly: a fence line and every line inside a fence comes out as it went in; of any
   other line exactly the mentions change.
   */
  lemma FencedLinesStay(text: string, n: nat)
    requires n < |Lines(text)|
    ensures var ls, rs := Lines(text), Lines(ToClaudeFileRefs(text));
            var fenced := FenceBefore(ls, n, None).Some? || Marker(ls[n]).Some?;
            && |rs| == |ls| && |rs[n]| == |ls[n]|
            && (fenced ==> rs[n] == ls[n])
            && (!fenced ==> forall i :: 0 <= i < |ls[n]| ==> rs[n][i] == if Mention(ls[n], i) then '@' else ls[n][i])
  {
    var ls := Lines(text);
    LinesAreKept(text);
    LineByLine(ls, None, n);
    ExactlyMentionsChange(ls[n]);
    hide RewriteOutsideCodeSpans, Marker, Mention, RewriteLines, Lines, ToClaudeFileRefs;
  }

  /** The lines of the result are the rewritten lines. */
  lemma LinesAreKept(text: string)
    ensures Lines(ToClaudeFileRefs(text)) == RewriteLines(Lines(text), None)
  {
    LinesJoin(text);
    LinesResigiled(Lines(text), None);
    var rs := RewriteLines(Lines(text), None);
    forall n | 0 <= n < |rs| ensures OneLine(rs[n]) { assert Resigiled(Lines(text)[n], rs[n]); }
    JoinLines(rs);
  }

  /** Rewriting what was already rewritten changes nothing. */
  lemma Idempotent(text: string)
    ensures ToClaudeFileRefs(ToClaudeFileRefs(text)) == ToClaudeFileRefs(text)
  {
    LinesAreKept(text);
    LinesTwice(Lines(text), None);
    hide RewriteLines, Lines;
  }

  // ---- The loop ------------------------------------------------------------------------------

  /** A line of the first `m` lines is rewritten as it is among all. */
  lemma LineOfPrefix(lines: seq<string>, m: nat, k: nat)
    requires k < m <= |lines|
    ensures |RewriteLines(lines[..m], None)| == m
    ensures RewriteLines(lines[..m], None)[k] == LineOut(FenceBefore(lines, k, None), lines[k])
  {
    LineByLine(lines[..m], None, k);
    FencePrefix(lines, k);
    FencePrefix(lines[..m], k);
    assert lines[..m][..k] == lines[..k];
  }

  lemma RewriteLinesSnoc(lines: seq<string>, n: nat)
    requires n < |lines|
    ensures RewriteLines(lines[..n + 1], None)
         == RewriteLines(lines[..n], None) + [LineOut(FenceBefore(lines, n, None), lines[n])]
  {
    LineOfPrefix(lines, n + 1, n);
    if n > 0 { LineOfPrefix(lines, n, 0); }
    forall k | 0 <= k < n ensures RewriteLines(lines[..n + 1], None)[k] == RewriteLines(lines[..n], None)[k] {
      LineOfPrefix(lines, n + 1, k);
      LineOfPrefix(lines, n, k);
    }
  }

  lemma {:induction false} FencePrefix(lines: seq<string>, n: nat)
    requires n <= |lines|
    ensures FenceBefore(lines[..n], n, None) == FenceBefore(lines, n, None)
    decreases n
  {
    if n > 0 {
      FencePrefix(lines, n - 1);
      FencePrefix(lines[..n], n - 1);
      assert lines[..n][..n - 1] == lines[..n - 1];
      hide NextFence;
    }
  }

  lemma FenceStep(lines: seq<string>, n: nat)
    requires n < |lines|
    ensures FenceBefore(lines, n + 1, None) == NextFence(FenceBefore(lines, n, None), lines[n])
  {
    hide NextFence;
  }

  method ToClaudeFileRefsLoop(text: string) returns (result: string)
    ensures result == ToClaudeFileRefs(text)
  {
    hide RewriteLines, RewriteOutsideCodeSpans, Marker, FenceBefore, Lines, Join;
    var lines := Lines(text);
    var out: seq<string> := [];
    var fence: Option<Fence> := None;
    var n := 0;
    NothingRewritten(lines);
    while n < |lines|
      invariant 0 <= n <= |lines|
      invariant out == RewriteLines(lines[..n], None)
      invariant fence == FenceBefore(lines, n, None)
    {
      RewriteLinesSnoc(lines, n);
      FenceStep(lines, n);
      var line := lines[n];
      var marker := Marker(line);
      if fence.Some? {
        out := out + [line];
        if marker.Some? && marker.value.mark == fence.value.mark && marker.value.count >= fence.value.count {
          fence := None;
        }
      } else if marker.Some? {
        fence := marker;
        out := out + [line];
      } else {
        out := out + [RewriteOutsideCodeSpans(line)];
      }
      n := n + 1;
    }
    assert lines[..n] == lines;
    result := Join(out);
  }

  lemma NothingRewritten(lines: seq<string>)
    ensures RewriteLines(lines[..0], None) == [] && FenceBefore(lines, 0, None) == None
  {
  }
}
