/**
 Transcript search: a scanner that sees one line at a time and keeps a window of the needle's length,
 against the batch search over the whole corpus.
 A line is the list of its graphemes after terminal sequences are stripped; lowercasing and the whitespace
 test of the Unicode tables are parameters.
 */
module TranscriptSearch {
  import opened Results

  datatype Unicode = Unicode(lower: char -> seq<char>, isSpace: char -> bool)

  datatype Span = Span(row: nat, startCol: nat, endCol: nat)

  datatype RawGrapheme = Grapheme(chars: seq<char>, width: nat)

  type Grapheme = g: RawGrapheme | g.chars != [] witness Grapheme(['a'], 1)

  type Line = seq<Grapheme>

  /** A corpus character and where it was drawn; separators between words and rows have no place. */
  datatype Entry = Entry(c: char, source: Option<Span>)

  datatype Match = Match(segments: seq<Span>)

  // ----- the corpus -----

  datatype Corpus = Corpus(entries: seq<Entry>, pending: bool)

  predicate Blank(u: Unicode, g: Grapheme) {
    forall i | 0 <= i < |g.chars| :: u.isSpace(g.chars[i])
  }

  function Drawn(g: Grapheme, row: nat, column: nat): (es: seq<Entry>)
    ensures |es| == |g.chars|
  {
    seq(|g.chars|, i requires 0 <= i < |g.chars| => Entry(g.chars[i], Some(Span(row, column, column + g.width))))
  }

  const Separator := Entry(' ', None)

  function AddGrapheme(u: Unicode, k: Corpus, row: nat, column: nat, g: Grapheme): Corpus {
    if Blank(u, g) then k.(pending := k.pending || k.entries != [])
    else Corpus(k.entries + (if k.pending then [Separator] else []) + Drawn(g, row, column), false)
  }

  function Width(line: Line): nat {
    if line == [] then 0 else Width(line[..|line| - 1]) + line[|line| - 1].width
  }

  function AddGraphemes(u: Unicode, k: Corpus, row: nat, line: Line): Corpus {
    if line == [] then k
    else
      var before := line[..|line| - 1];
      AddGrapheme(u, AddGraphemes(u, k, row, before), row, Width(before), line[|line| - 1])
  }

  function AddLine(u: Unicode, k: Corpus, row: nat, line: Line): Corpus {
    var after := AddGraphemes(u, k, row, line);
    after.(pending := after.pending || after.entries != [])
  }

  function CorpusOf(u: Unicode, lines: seq<Line>): Corpus {
    if lines == [] then Corpus([], false)
    else
      var n := |lines| - 1;
      AddLine(u, CorpusOf(u, lines[..n]), n, lines[n])
  }

  // ----- what the corpus is -----

  /** The entries that have a place. */
  function Placed(es: seq<Entry>): seq<Entry> {
    if es == [] then []
    else Placed(es[..|es| - 1]) + if es[|es| - 1].source.Some? then [es[|es| - 1]] else []
  }

  /** Every character of every grapheme that is not blank, where it stands, in reading order. */
  function DrawnLine(u: Unicode, row: nat, line: Line): seq<Entry> {
    if line == [] then []
    else
      var before, g := line[..|line| - 1], line[|line| - 1];
      DrawnLine(u, row, before) + if Blank(u, g) then [] else Drawn(g, row, Width(before))
  }

  function DrawnText(u: Unicode, lines: seq<Line>): seq<Entry> {
    if lines == [] then [] else DrawnText(u, lines[..|lines| - 1]) + DrawnLine(u, |lines| - 1, lines[|lines| - 1])
  }

  /** An entry without a place is a separator, and stands between two that have one. */
  predicate SeparatesAt(es: seq<Entry>, i: nat)
    requires i < |es|
  {
    es[i].source.None? ==>
      es[i] == Separator && 0 < i < |es| - 1 && es[i - 1].source.Some? && es[i + 1].source.Some?
  }

  /** Neighbours with no separator between them are drawn together or touch in one row. */
  predicate TouchesAt(es: seq<Entry>, i: nat)
    requires 0 < i < |es|
  {
    es[i - 1].source.Some? && es[i].source.Some? ==>
      var a, b := es[i - 1].source.value, es[i].source.value;
      a == b || (a.row == b.row && a.endCol == b.startCol)
  }

  predicate Spaced(es: seq<Entry>) {
    && (forall i | 0 <= i < |es| :: SeparatesAt(es, i))
    && (forall i | 0 < i < |es| :: TouchesAt(es, i))
  }

  /** While a row is read, what was drawn last touches the present column, unless a separator is owed. */
  predicate Ready(k: Corpus, row: nat, column: nat) {
    var n := |k.entries|;
    && Spaced(k.entries)
    && (k.pending ==> n > 0)
    && (n > 0 ==> k.entries[n - 1].source.Some?)
    && (n > 0 && !k.pending ==> k.entries[n - 1].source.value.row == row && k.entries[n - 1].source.value.endCol == column)
  }

  lemma {:induction false} PlacedConcat(a: seq<Entry>, b: seq<Entry>)
    ensures Placed(a + b) == Placed(a) + Placed(b)
    decreases |b|
  {
    if b == [] {
      assert a + b == a;
    } else {
      var n := |b| - 1;
      assert (a + b)[..|a| + n] == a + b[..n];
      PlacedConcat(a, b[..n]);
    }
  }

  lemma {:induction false} PlacedAll(es: seq<Entry>)
    requires forall i | 0 <= i < |es| :: es[i].source.Some?
    ensures Placed(es) == es
  {
    if es != [] {
      PlacedAll(es[..|es| - 1]);
    }
  }

  lemma GraphemePlaced(u: Unicode, k: Corpus, row: nat, column: nat, g: Grapheme)
    ensures Placed(AddGrapheme(u, k, row, column, g).entries)
      == Placed(k.entries) + if Blank(u, g) then [] else Drawn(g, row, column)
  {
    if Blank(u, g) {
      assert Placed(k.entries) + [] == Placed(k.entries);
    } else {
      var drawn := Drawn(g, row, column);
      PlacedAll(drawn);
      if k.pending {
        SeparatorUnplaced(k.entries);
        PlacedConcat(k.entries + [Separator], drawn);
      } else {
        assert k.entries + [] == k.entries;
        PlacedConcat(k.entries, drawn);
      }
    }
  }

  lemma SeparatorUnplaced(es: seq<Entry>)
    ensures Placed(es + [Separator]) == Placed(es)
  {
    assert (es + [Separator])[..|es|] == es;
  }

  lemma GraphemeReady(u: Unicode, k: Corpus, row: nat, column: nat, g: Grapheme)
    requires Ready(k, row, column)
    ensures Ready(AddGrapheme(u, k, row, column, g), row, column + g.width)
  {
    if !Blank(u, g) {
      var gap := if k.pending then [Separator] else [];
      var drawn := Drawn(g, row, column);
      var es := k.entries + gap + drawn;
      assert AddGrapheme(u, k, row, column, g).entries == es;
      forall i | 0 <= i < |es|
        ensures SeparatesAt(es, i)
      {
        assert i < |k.entries| ==> SeparatesAt(k.entries, i);
      }
      forall i | 0 < i < |es|
        ensures TouchesAt(es, i)
      {
        assert i < |k.entries| ==> TouchesAt(k.entries, i);
      }
    }
  }

  lemma {:induction false} LineIsCorpus(u: Unicode, k: Corpus, row: nat, line: Line)
    requires Ready(k, row, 0)
    ensures var after := AddGraphemes(u, k, row, line);
            Ready(after, row, Width(line)) && Placed(after.entries) == Placed(k.entries) + DrawnLine(u, row, line)
  {
    if line != [] {
      var before, g := line[..|line| - 1], line[|line| - 1];
      var sofar := AddGraphemes(u, k, row, before);
      var added := if Blank(u, g) then [] else Drawn(g, row, Width(before));
      LineIsCorpus(u, k, row, before);
      GraphemeReady(u, sofar, row, Width(before), g);
      assert Placed(AddGrapheme(u, sofar, row, Width(before), g).entries)
          == Placed(k.entries) + (DrawnLine(u, row, before) + added) by {
        GraphemePlaced(u, sofar, row, Width(before), g);
        ConcatAssoc(Placed(k.entries), DrawnLine(u, row, before), added);
      }
    }
  }

  /** The corpus is every drawn character in reading order with the place it was drawn at, and separators
      between them: none first, none last, no two together, and none left out where two neighbours do not
      touch in one row. */
  lemma {:induction false} CorpusIs(u: Unicode, lines: seq<Line>)
    ensures var k := CorpusOf(u, lines);
            && Placed(k.entries) == DrawnText(u, lines) && Spaced(k.entries)
            && (k.entries != [] ==> k.pending && k.entries[|k.entries| - 1].source.Some?)
            && (k.entries == [] ==> !k.pending)
  {
    if lines != [] {
      var n := |lines| - 1;
      CorpusIs(u, lines[..n]);
      LineIsCorpus(u, CorpusOf(u, lines[..n]), n, lines[n]);
    }
  }

  // ----- matches -----

  /** The runs a stretch of corpus covers: touching spans of one row are joined. */
  function Segments(window: seq<Entry>): seq<Span> {
    if window == [] then []
    else
      var before := Segments(window[..|window| - 1]);
      match window[|window| - 1].source
      case None => before
      case Some(span) => Joined(before, span)
  }

  function Joined(segments: seq<Span>, span: Span): seq<Span> {
    var n := |segments|;
    if n > 0 && segments[n - 1].row == span.row && span.startCol <= segments[n - 1].endCol then
      segments[n - 1 := segments[n - 1].(endCol := Max(segments[n - 1].endCol, span.endCol))]
    else segments + [span]
  }

  function Max(a: nat, b: nat): nat {
    if a < b then b else a
  }

  method CollectSegments(window: seq<Entry>) returns (segments: seq<Span>)
    ensures segments == Segments(window)
  {
    segments := [];
    for i := 0 to |window|
      invariant segments == Segments(window[..i])
    {
      assert window[..i + 1][..i] == window[..i];
      match window[i].source {
        case None =>
        case Some(span) => segments := Joined(segments, span);
      }
    }
    assert window[..|window|] == window;
  }

  function Report(window: seq<Entry>): seq<Match> {
    if Segments(window) == [] then [] else [Match(Segments(window))]
  }

  /** The needle occurs at `window`, comparing characters by their lowercase forms. */
  predicate Hit(u: Unicode, needle: seq<char>, window: seq<Entry>) {
    |window| == |needle| && forall i | 0 <= i < |needle| :: u.lower(window[i].c) == u.lower(needle[i])
  }

  /** All matches of a needle, by where they end. */
  function Matches(u: Unicode, needle: seq<char>, corpus: seq<Entry>): seq<Match> {
    if |corpus| < |needle| || needle == [] then []
    else
      var n := |corpus|;
      var window := corpus[n - |needle|..];
      Matches(u, needle, corpus[..n - 1]) + if Hit(u, needle, window) then Report(window) else []
  }

  // ----- the streaming scanner -----

  /** The last `n` entries, or all of them. */
  function Tail(entries: seq<Entry>, n: nat): seq<Entry> {
    if |entries| < n then entries else entries[|entries| - n..]
  }

  /** Appending to a text slides its tail by one. */
  lemma TailSnoc(entries: seq<Entry>, n: nat, e: Entry)
    ensures var w := Tail(entries, n) + [e];
            Tail(entries + [e], n) == if |w| > n then w[1..] else w
  {
  }

  /** What the entry just appended adds to the matches. */
  lemma MatchesSnoc(u: Unicode, needle: seq<char>, entries: seq<Entry>, e: Entry)
    requires needle != []
    ensures var w := Tail(entries + [e], |needle|);
            Matches(u, needle, entries + [e]) ==
              Matches(u, needle, entries) + if Hit(u, needle, w) then Report(w) else []
  {
    assert (entries + [e])[..|entries|] == entries;
  }

  class SearchScanner {
    const u: Unicode
    const needle: seq<char>
    var window: seq<Entry>
    var pendingSeparator: bool
    var hasText: bool
    var matches: seq<Match>
    /** Everything appended so far. */
    ghost var seen: seq<Entry>

    ghost predicate Valid()
      reads this
    {
      Tracking() && (hasText <==> seen != [])
    }

    ghost predicate Tracking()
      reads this
    {
      window == Tail(seen, |needle|) && matches == Matches(u, needle, seen)
    }

    ghost function Scanned(): Corpus
      reads this
    {
      Corpus(seen, pendingSeparator)
    }

    constructor (u: Unicode, needle: seq<char>)
      ensures Valid() && this.u == u && this.needle == needle && Scanned() == Corpus([], false)
    {
      this.u := u;
      this.needle := needle;
      window, pendingSeparator, hasText, matches := [], false, false, [];
      seen := [];
    }

    /** Slides the window and reports the match it completes, if any. */
    method Append(entry: Entry)
      requires Tracking()
      modifies this`window, this`matches, this`seen
      ensures Tracking() && |window| <= |needle|
      ensures seen == old(seen) + [entry]
    {
      seen := seen + [entry];
      if needle == [] {
        return;
      }
      TailSnoc(old(seen), |needle|, entry);
      MatchesSnoc(u, needle, old(seen), entry);
      window := window + [entry];
      if |window| > |needle| {
        window := window[1..];
      }
      if |window| != |needle| || !Hit(u, needle, window) {
        return;
      }
      var segments := CollectSegments(window);
      if segments != [] {
        matches := matches + [Match(segments)];
      }
    }

    method PushLine(row: nat, line: Line)
      requires Valid()
      modifies this
      ensures Valid() && |window| <= |needle|
      ensures Scanned() == AddLine(u, old(Scanned()), row, line)
    {
      var column := 0;
      for k := 0 to |line|
        invariant Valid()
        invariant column == Width(line[..k])
        invariant Scanned() == AddGraphemes(u, old(Scanned()), row, line[..k])
      {
        var g := line[k];
        assert line[..k + 1][..k] == line[..k];
        PushGrapheme(row, column, g);
        column := column + g.width;
      }
      assert line[..|line|] == line;
      if hasText {
        pendingSeparator := true;
      }
    }

    method PushGrapheme(row: nat, column: nat, g: Grapheme)
      requires Valid()
      modifies this
      ensures Valid()
      ensures Scanned() == AddGrapheme(u, old(Scanned()), row, column, g)
    {
      if Blank(u, g) {
        if hasText {
          pendingSeparator := true;
        }
        return;
      }
      SettleSeparator();
      AppendAll(row, column, g);
      hasText := true;
    }

    /** A separator that is due comes before the next character. */
    method SettleSeparator()
      requires Tracking()
      modifies this`window, this`matches, this`seen, this`pendingSeparator
      ensures Tracking() && !pendingSeparator
      ensures seen == old(seen) + if old(pendingSeparator) then [Separator] else []
    {
      if pendingSeparator {
        Append(Separator);
        pendingSeparator := false;
      }
    }

    method AppendAll(row: nat, column: nat, g: Grapheme)
      requires Tracking()
      modifies this`window, this`matches, this`seen
      ensures Tracking() && seen == old(seen) + Drawn(g, row, column)
    {
      ghost var drawn, before := Drawn(g, row, column), seen;
      for i := 0 to |g.chars|
        invariant Tracking() && seen == before + drawn[..i]
      {
        Append(Entry(g.chars[i], Some(Span(row, column, column + g.width))));
        ConcatAssoc(before, drawn[..i], [drawn[i]]);
        assert drawn[..i + 1] == drawn[..i] + [drawn[i]];
      }
      assert drawn[..|g.chars|] == drawn;
    }
  }

  /** Feeding lines 0..n in order reports every match over the whole corpus, in order. */
  method Scan(u: Unicode, needle: seq<char>, lines: seq<Line>) returns (matches: seq<Match>)
    ensures matches == Matches(u, needle, CorpusOf(u, lines).entries)
  {
    var scanner := new SearchScanner(u, needle);
    for row := 0 to |lines|
      invariant scanner.Valid() && scanner.u == u && scanner.needle == needle
      invariant scanner.Scanned() == CorpusOf(u, lines[..row])
    {
      assert lines[..row + 1][..row] == lines[..row];
      scanner.PushLine(row, lines[row]);
    }
    assert lines[..|lines|] == lines;
    matches := scanner.matches;
  }

  // ----- the batch search -----

  function AsciiLower(c: char): char {
    if 'A' <= c <= 'Z' then (c as int + 32) as char else c
  }

  function LowerAll(u: Unicode, s: seq<char>): seq<char> {
    if s == [] then [] else LowerAll(u, s[..|s| - 1]) + u.lower(s[|s| - 1])
  }

  function Text(corpus: seq<Entry>): seq<char> {
    seq(|corpus|, i requires 0 <= i < |corpus| => corpus[i].c)
  }

  /** The text compared: lowercased, unless that changes its length. */
  function Haystack(u: Unicode, corpus: seq<Entry>): (h: seq<char>)
    ensures |h| == |corpus|
  {
    var text := Text(corpus);
    if |LowerAll(u, text)| == |text| then LowerAll(u, text) else text
  }

  predicate BatchHit(needle: seq<char>, haystack: seq<char>, start: nat)
    requires start + |needle| <= |haystack|
  {
    forall i | 0 <= i < |needle| :: AsciiLower(haystack[start + i]) == AsciiLower(needle[i])
  }

  /** The matches starting before `bound`. */
  function BatchMatches(needle: seq<char>, haystack: seq<char>, corpus: seq<Entry>, bound: nat): seq<Match>
    requires |haystack| == |corpus| && (bound == 0 || bound - 1 + |needle| <= |haystack|)
  {
    if bound == 0 then []
    else
      BatchMatches(needle, haystack, corpus, bound - 1) +
      if BatchHit(needle, haystack, bound - 1) then Report(corpus[bound - 1..bound - 1 + |needle|]) else []
  }

  function AllBatchMatches(needle: seq<char>, haystack: seq<char>, corpus: seq<Entry>): seq<Match>
    requires |haystack| == |corpus|
  {
    if needle == [] || |needle| > |haystack| then []
    else BatchMatches(needle, haystack, corpus, |haystack| - |needle| + 1)
  }

  method BuildSearchCorpus(u: Unicode, lines: seq<Line>) returns (entries: seq<Entry>)
    ensures entries == CorpusOf(u, lines).entries
  {
    entries := [];
    var pending := false;
    for row := 0 to |lines|
      invariant Corpus(entries, pending) == CorpusOf(u, lines[..row])
    {
      var column, line := 0, lines[row];
      ghost var before := Corpus(entries, pending);
      for k := 0 to |line|
        invariant column == Width(line[..k])
        invariant Corpus(entries, pending) == AddGraphemes(u, before, row, line[..k])
      {
        var g := line[k];
        assert line[..k + 1][..k] == line[..k];
        if Blank(u, g) {
          pending := pending || entries != [];
        } else {
          if pending {
            entries := entries + [Separator];
            pending := false;
          }
          entries := entries + Drawn(g, row, column);
        }
        column := column + g.width;
      }
      assert line[..|line|] == line;
      pending := pending || entries != [];
      assert lines[..row + 1][..row] == lines[..row];
    }
    assert lines[..|lines|] == lines;
  }

  method FindMatches(u: Unicode, query: seq<char>, lines: seq<Line>) returns (matches: seq<Match>)
    ensures var corpus := CorpusOf(u, lines).entries;
            matches == AllBatchMatches(LowerAll(u, query), Haystack(u, corpus), corpus)
  {
    matches := [];
    if query == [] {
      return;
    }
    var corpus := BuildSearchCorpus(u, lines);
    matches := SearchHaystack(LowerAll(u, query), Haystack(u, corpus), corpus);
  }

  method SearchHaystack(needle: seq<char>, haystack: seq<char>, corpus: seq<Entry>) returns (matches: seq<Match>)
    requires |haystack| == |corpus|
    ensures matches == AllBatchMatches(needle, haystack, corpus)
  {
    matches := [];
    if needle == [] || |needle| > |haystack| {
      return;
    }
    var start := 0;
    while start + |needle| <= |haystack|
      invariant 0 <= start <= |haystack| - |needle| + 1
      invariant matches == BatchMatches(needle, haystack, corpus, start)
    {
      if BatchHit(needle, haystack, start) {
        matches := AddReport(matches, corpus[start..start + |needle|]);
      } else {
        assert matches + [] == matches;
      }
      start := start + 1;
    }
  }

  method AddReport(matches: seq<Match>, window: seq<Entry>) returns (more: seq<Match>)
    ensures more == matches + Report(window)
  {
    var segments := CollectSegments(window);
    more := if segments != [] then matches + [Match(segments)] else matches;
  }
}
