/**
 Identifier tokens: text is cut at everything that is not alphanumeric and at camel-case humps, and every
 token remembers the byte range it came from. The character classes and the UTF-8 length of a character are
 parameters.
 */
module CodeTokens {
  import opened Results

  datatype Chars = Chars(isAlnum: char -> bool, isLower: char -> bool, isUpper: char -> bool, width: char -> nat)

  datatype Token = Token(text: string, from: nat, to: nat, position: nat)

  /** A stretch of characters, by index. */
  datatype Range = Range(start: nat, end: nat)

  predicate Wordy(u: Chars, c: char) {
    u.isAlnum(c) && c != '_' && c != '-'
  }

  predicate Hump(u: Chars, p: char, c: char) {
    u.isLower(p) && u.isUpper(c)
  }

  function AsciiLower(c: char): char {
    if 'A' <= c <= 'Z' then (c as int + 32) as char else c
  }

  function Lowered(s: string): (r: string)
    ensures |r| == |s|
  {
    seq(|s|, i requires 0 <= i < |s| => AsciiLower(s[i]))
  }

  /** The byte offset of the character at index `i`. */
  function Offset(u: Chars, s: string, i: nat): nat
    requires i <= |s|
  {
    if i == 0 then 0 else Offset(u, s, i - 1) + u.width(s[i - 1])
  }

  lemma {:induction false} OffsetsGrow(u: Chars, s: string, i: nat, j: nat)
    requires i <= j <= |s| && forall c :: u.width(c) > 0
    ensures i < j ==> Offset(u, s, i) < Offset(u, s, j)
  {
    if i < j {
      OffsetsGrow(u, s, i, j - 1);
    }
  }

  // ----- what a correct cut is -----

  predicate NoWords(u: Chars, s: string, from: nat, to: nat)
    requires from <= to <= |s|
  {
    forall j | from <= j < to :: !Wordy(u, s[j])
  }

  /** A run of word characters without a hump inside. */
  predicate Stretch(u: Chars, s: string, r: Range)
    requires r.start <= r.end <= |s|
  {
    && (forall j | r.start <= j < r.end :: Wordy(u, s[j]))
    && (forall j | r.start < j < r.end :: !Hump(u, s[j - 1], s[j]))
  }

  /** The ranges are the stretches of the first `n` characters: nothing but separators lies between them, and
      one starts right after a word character only at a hump. */
  predicate Cut(u: Chars, s: string, n: nat, ranges: seq<Range>)
    requires n <= |s|
    decreases |ranges|
  {
    if ranges == [] then NoWords(u, s, 0, n)
    else
      var last := ranges[|ranges| - 1];
      && last.start < last.end <= n
      && Stretch(u, s, last)
      && NoWords(u, s, last.end, n)
      && (last.start > 0 && Wordy(u, s[last.start - 1]) ==> Hump(u, s[last.start - 1], s[last.start]))
      && Cut(u, s, last.start, ranges[..|ranges| - 1])
  }

  function TokenAt(u: Chars, s: string, r: Range, position: nat): Token
    requires r.start <= r.end <= |s|
  {
    Token(Lowered(s[r.start..r.end]), Offset(u, s, r.start), Offset(u, s, r.end), position)
  }

  /** The tokens are those of the ranges: each is the lowercased slice of its byte range. */
  ghost predicate Tokens(u: Chars, s: string, ranges: seq<Range>, tokens: seq<Token>) {
    && |tokens| == |ranges|
    && forall k | 0 <= k < |ranges| ::
         ranges[k].start <= ranges[k].end <= |s| && tokens[k] == TokenAt(u, s, ranges[k], k)
  }

  // ----- the splitter -----

  /** Where the splitter stands before character `i`: the token being read starts at `start`, and is empty
      right after a separator. */
  ghost predicate Reading(u: Chars, s: string, i: nat, start: nat, ranges: seq<Range>, tokens: seq<Token>)
    requires i <= |s|
  {
    && start <= i
    && (start == i > 0 ==> !Wordy(u, s[i - 1]))
    && Tokens(u, s, ranges, tokens)
    && Cut(u, s, i, Opened(ranges, start, i))
  }

  /** The local variables of the splitter. */
  datatype Splitter = Splitter(
    tokens: seq<Token>, current: string, tokenStart: nat, byteIndex: nat, prev: Option<char>)

  ghost predicate At(u: Chars, s: string, i: nat, start: nat, ranges: seq<Range>, l: Splitter)
    requires i <= |s|
  {
    && Reading(u, s, i, start, ranges, l.tokens)
    && l.current == Lowered(s[start..i])
    && l.prev == (if start < i then Some(s[i - 1]) else None)
    && (start < i ==> l.tokenStart == Offset(u, s, start) && l.byteIndex == Offset(u, s, i))
  }

  /** The tokens of the text: those of a correct cut of all of it. */
  ghost predicate TokensOf(u: Chars, s: string, tokens: seq<Token>) {
    exists ranges :: Cut(u, s, |s|, ranges) && Tokens(u, s, ranges, tokens)
  }

  method SplitCodeTokens(u: Chars, s: string) returns (tokens: seq<Token>)
    ensures TokensOf(u, s, tokens)
  {
    var l := Splitter([], "", 0, 0, None);
    var offset := 0;
    ghost var start, ranges := 0, [];
    for i := 0 to |s|
      invariant At(u, s, i, start, ranges, l)
      invariant offset == Offset(u, s, i)
    {
      l, start, ranges := ReadChar(u, s, i, offset, l, start, ranges);
      offset := offset + u.width(s[i]);
    }
    tokens, ranges := PushCurrent(u, s, |s|, start, ranges, l.tokens, l.current, l.tokenStart, l.byteIndex);
  }

  method ReadChar(u: Chars, s: string, i: nat, offset: nat, l: Splitter, ghost start: nat, ghost ranges: seq<Range>)
    returns (next: Splitter, ghost newStart: nat, ghost newRanges: seq<Range>)
    requires i < |s| && offset == Offset(u, s, i) && At(u, s, i, start, ranges, l)
    ensures At(u, s, i + 1, newStart, newRanges, next)
  {
    var c := s[i];
    var isBoundary := !u.isAlnum(c);
    var camelBoundary := l.prev.Some? && u.isLower(l.prev.value) && u.isUpper(c);
    var underscoreBoundary := c == '_' || c == '-';
    var tokenStart := if l.current == "" then offset else l.tokenStart;
    newStart, newRanges := start, ranges;
    Standing(u, s, i, start, ranges, l);
    if isBoundary || underscoreBoundary || camelBoundary {
      var tokens;
      tokens, newRanges := PushCurrent(u, s, i, start, ranges, l.tokens, l.current, tokenStart, offset);
      if isBoundary || underscoreBoundary {
        next, newStart := Splitter(tokens, "", tokenStart, l.byteIndex, None), i + 1;
        Skipped(u, s, i, newRanges, next);
      } else {
        next, newStart := Splitter(tokens, [AsciiLower(c)], offset, offset + u.width(c), Some(c)), i;
        Opens(u, s, i, newRanges, next);
      }
    } else {
      next := Splitter(l.tokens, l.current + [AsciiLower(c)], tokenStart, offset + u.width(c), Some(c));
      Continues(u, s, i, start, ranges, l, next);
    }
  }

  /** The splitter sees a hump exactly when the next character starts one inside a token. */
  lemma Standing(u: Chars, s: string, i: nat, start: nat, ranges: seq<Range>, l: Splitter)
    requires i < |s| && At(u, s, i, start, ranges, l)
    ensures l.current == "" <==> start == i
    ensures (l.prev.Some? && u.isLower(l.prev.value) && u.isUpper(s[i])) <==> start < i && Hump(u, s[i - 1], s[i])
    ensures start == i > 0 ==> !Wordy(u, s[i - 1])
  {
  }

  /** Finishes the token being read, if it is not empty. */
  method PushCurrent(
    u: Chars, s: string, ghost i: nat, ghost start: nat, ghost ranges: seq<Range>,
    tokens: seq<Token>, current: string, from: nat, to: nat)
    returns (pushed: seq<Token>, ghost cut: seq<Range>)
    requires i <= |s| && Reading(u, s, i, start, ranges, tokens)
    requires current == Lowered(s[start..i])
    requires start < i ==> from == Offset(u, s, start) && to == Offset(u, s, i)
    ensures Cut(u, s, i, cut) && Tokens(u, s, cut, pushed)
  {
    pushed, cut := tokens, ranges;
    if current != "" {
      pushed, cut := pushed + [Token(current, from, to, |tokens|)], Opened(ranges, start, i);
      TokensSnoc(u, s, ranges, tokens, Range(start, i));
    }
  }

  /** The variables after a word character was read. */
  ghost predicate HasRead(u: Chars, s: string, i: nat, start: nat, next: Splitter)
    requires start <= i < |s|
  {
    && next.current == Lowered(s[start..i]) + [AsciiLower(s[i])] && next.prev == Some(s[i])
    && next.tokenStart == Offset(u, s, start) && next.byteIndex == Offset(u, s, i + 1)
  }

  /** A word character starts a token after a separator, or after a hump. */
  lemma Opens(u: Chars, s: string, i: nat, ranges: seq<Range>, next: Splitter)
    requires i < |s| && Tokens(u, s, ranges, next.tokens) && Cut(u, s, i, ranges) && Wordy(u, s[i])
    requires i > 0 && Wordy(u, s[i - 1]) ==> Hump(u, s[i - 1], s[i])
    requires HasRead(u, s, i, i, next)
    ensures At(u, s, i + 1, i, ranges, next)
  {
    LoweredSnoc(s, i, i);
    StartRange(u, s, i, ranges);
  }

  /** A word character joins the token being read, or starts the first after a separator. */
  lemma Continues(u: Chars, s: string, i: nat, start: nat, ranges: seq<Range>, l: Splitter, next: Splitter)
    requires i < |s| && At(u, s, i, start, ranges, l) && Wordy(u, s[i]) && !(start < i && Hump(u, s[i - 1], s[i]))
    requires next.tokens == l.tokens && HasRead(u, s, i, start, next)
    ensures At(u, s, i + 1, start, ranges, next)
  {
    LoweredSnoc(s, start, i);
    if start == i {
      StartRange(u, s, i, ranges);
    } else {
      GrowRange(u, s, i, ranges, start);
    }
  }

  lemma TokensSnoc(u: Chars, s: string, ranges: seq<Range>, tokens: seq<Token>, r: Range)
    requires Tokens(u, s, ranges, tokens) && r.start <= r.end <= |s|
    ensures Tokens(u, s, ranges + [r], tokens + [TokenAt(u, s, r, |tokens|)])
  {
  }

  lemma LoweredSnoc(s: string, start: nat, i: nat)
    requires start <= i < |s|
    ensures Lowered(s[start..i + 1]) == Lowered(s[start..i]) + [AsciiLower(s[i])]
  {
    assert s[start..i + 1] == s[start..i] + [s[i]];
  }

  /** The finished ranges and, if it is not empty, the one being read. */
  function Opened(ranges: seq<Range>, start: nat, i: nat): seq<Range> {
    if start < i then ranges + [Range(start, i)] else ranges
  }

  lemma Skipped(u: Chars, s: string, i: nat, ranges: seq<Range>, next: Splitter)
    requires i < |s| && Cut(u, s, i, ranges) && Tokens(u, s, ranges, next.tokens) && !Wordy(u, s[i])
    requires next.current == "" && next.prev == None
    ensures At(u, s, i + 1, i + 1, ranges, next)
  {
  }

  /** A word character opens a range after a separator, or after a hump. */
  lemma StartRange(u: Chars, s: string, i: nat, ranges: seq<Range>)
    requires i < |s| && Cut(u, s, i, ranges) && Wordy(u, s[i])
    requires i > 0 && Wordy(u, s[i - 1]) ==> Hump(u, s[i - 1], s[i])
    ensures Cut(u, s, i + 1, ranges + [Range(i, i + 1)])
  {
    assert (ranges + [Range(i, i + 1)])[..|ranges|] == ranges;
  }

  lemma GrowRange(u: Chars, s: string, i: nat, ranges: seq<Range>, start: nat)
    requires start < i < |s| && Cut(u, s, i, ranges + [Range(start, i)])
    requires Wordy(u, s[i]) && !Hump(u, s[i - 1], s[i])
    ensures Cut(u, s, i + 1, ranges + [Range(start, i + 1)])
  {
    assert (ranges + [Range(start, i)])[..|ranges|] == ranges;
    assert (ranges + [Range(start, i + 1)])[..|ranges|] == ranges;
  }

  // ----- what a correct cut shows -----

  ghost predicate Within(ranges: seq<Range>, k: nat, j: nat) {
    k < |ranges| && ranges[k].start <= j < ranges[k].end
  }

  lemma {:induction false} CutOrdered(u: Chars, s: string, n: nat, ranges: seq<Range>, k: nat, m: nat)
    requires n <= |s| && Cut(u, s, n, ranges) && k <= m < |ranges|
    ensures ranges[k].start < ranges[k].end <= n && Stretch(u, s, ranges[k])
    ensures k < m ==> ranges[k].end <= ranges[m].start
    decreases |ranges|
  {
    var init := ranges[..|ranges| - 1];
    if m == |ranges| - 1 {
      if k < m {
        CutOrdered(u, s, ranges[m].start, init, k, m - 1);
      }
    } else {
      CutOrdered(u, s, ranges[|ranges| - 1].start, init, k, m);
    }
  }

  lemma {:induction false} CutCovers(u: Chars, s: string, n: nat, ranges: seq<Range>, j: nat) returns (k: nat)
    requires n <= |s| && Cut(u, s, n, ranges) && j < n && Wordy(u, s[j])
    ensures Within(ranges, k, j)
    decreases |ranges|
  {
    var last := ranges[|ranges| - 1];
    if j >= last.start {
      k := |ranges| - 1;
    } else {
      k := CutCovers(u, s, last.start, ranges[..|ranges| - 1], j);
    }
  }

  /** Byte ranges of tokens are not empty, and strictly increase without overlap. */
  lemma TokensDisjoint(u: Chars, s: string, ranges: seq<Range>, tokens: seq<Token>, k: nat, m: nat)
    requires forall c :: u.width(c) > 0
    requires Cut(u, s, |s|, ranges) && Tokens(u, s, ranges, tokens) && k < m < |tokens|
    ensures tokens[k].from < tokens[k].to <= tokens[m].from < tokens[m].to
  {
    CutOrdered(u, s, |s|, ranges, k, m);
    CutOrdered(u, s, |s|, ranges, m, m);
    OffsetsGrow(u, s, ranges[k].start, ranges[k].end);
    OffsetsGrow(u, s, ranges[k].end, ranges[m].start);
    OffsetsGrow(u, s, ranges[m].start, ranges[m].end);
  }

  /** A character lies in a token exactly when it is a word character, and then in one token only. */
  lemma InOneToken(u: Chars, s: string, ranges: seq<Range>, j: nat)
    requires Cut(u, s, |s|, ranges) && j < |s|
    ensures Wordy(u, s[j]) <==> exists k :: Within(ranges, k, j)
    ensures forall k, m :: Within(ranges, k, j) && Within(ranges, m, j) ==> k == m
  {
    if Wordy(u, s[j]) {
      var k := CutCovers(u, s, |s|, ranges, j);
    }
    forall k | Within(ranges, k, j)
      ensures Wordy(u, s[j])
    {
      CutOrdered(u, s, |s|, ranges, k, k);
    }
    forall k, m | Within(ranges, k, j) && Within(ranges, m, j)
      ensures k == m
    {
      if k < m {
        CutOrdered(u, s, |s|, ranges, k, m);
      } else {
        CutOrdered(u, s, |s|, ranges, m, k);
      }
    }
  }

  /** Two neighbouring word characters are in different tokens exactly when the second starts a hump. */
  lemma {:induction false} SeparatedIffHump(u: Chars, s: string, n: nat, ranges: seq<Range>, j: nat, k: nat, m: nat)
    requires n <= |s| && Cut(u, s, n, ranges)
    requires Within(ranges, k, j) && Within(ranges, m, j + 1) && j + 1 < n
    ensures k != m <==> Hump(u, s[j], s[j + 1])
    decreases |ranges|
  {
    var last := |ranges| - 1;
    CutOrdered(u, s, n, ranges, k, k);
    CutOrdered(u, s, n, ranges, m, m);
    if m < last {
      CutOrdered(u, s, n, ranges, m, last);
      if k == last {
        assert false;
      }
      SeparatedIffHump(u, s, ranges[last].start, ranges[..last], j, k, m);
    } else if k < m {
      CutOrdered(u, s, n, ranges, k, m);
    }
  }

  /** No other cut of the same text exists. */
  lemma {:induction false} CutUnique(u: Chars, s: string, n: nat, a: seq<Range>, b: seq<Range>)
    requires n <= |s| && Cut(u, s, n, a) && Cut(u, s, n, b)
    ensures a == b
    decreases |a|
  {
    CutHasWords(u, s, n, a);
    CutHasWords(u, s, n, b);
    if a != [] && b != [] {
      var x, y := a[|a| - 1], b[|b| - 1];
      SameLast(u, s, n, x, y);
      SameLast(u, s, n, y, x);
      CutUnique(u, s, x.start, a[..|a| - 1], b[..|b| - 1]);
      assert a == a[..|a| - 1] + [x] && b == b[..|b| - 1] + [y];
    }
  }

  lemma CutHasWords(u: Chars, s: string, n: nat, a: seq<Range>)
    requires n <= |s| && Cut(u, s, n, a)
    ensures a != [] ==> !NoWords(u, s, 0, n)
  {
    if a != [] {
      assert Wordy(u, s[a[|a| - 1].start]);
    }
  }

  lemma SameLast(u: Chars, s: string, n: nat, x: Range, y: Range)
    requires x.start < x.end <= n <= |s| && Stretch(u, s, x) && NoWords(u, s, x.end, n)
    requires y.start < y.end <= n && Stretch(u, s, y) && NoWords(u, s, y.end, n)
    requires y.start > 0 && Wordy(u, s[y.start - 1]) ==> Hump(u, s[y.start - 1], s[y.start])
    ensures x.end <= y.end && y.start <= x.start
  {
    assert Wordy(u, s[x.end - 1]) && Wordy(u, s[y.end - 1]);
  }
}
