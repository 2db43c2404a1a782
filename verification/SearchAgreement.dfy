/**
 Where the streaming scanner and the batch search over the whole corpus agree.
 The scanner compares the lowercase forms of single characters. The batch search compares the lowercased
 texts ignoring ASCII case, or the unlowered text when some character's lowercase form is longer.
 */
module SearchAgreement {
  import opened Results
  import opened TranscriptSearch

  // ----- lowercasing that is one-to-one -----

  /** Lowercasing is one-to-one on a text, and yields no ASCII capitals. */
  predicate SimpleCase(u: Unicode, s: seq<char>) {
    forall i | 0 <= i < |s| :: |u.lower(s[i])| == 1 && !('A' <= u.lower(s[i])[0] <= 'Z')
  }

  lemma {:induction false} LowerPointwise(u: Unicode, s: seq<char>)
    requires SimpleCase(u, s)
    ensures |LowerAll(u, s)| == |s| && forall i | 0 <= i < |s| :: [LowerAll(u, s)[i]] == u.lower(s[i])
  {
    if s != [] {
      var n := |s| - 1;
      LowerPointwise(u, s[..n]);
      assert u.lower(s[n]) == [u.lower(s[n])[0]];
    }
  }

  lemma SameHits(u: Unicode, needle: seq<char>, corpus: seq<Entry>, start: nat)
    requires SimpleCase(u, needle) && SimpleCase(u, Text(corpus))
    requires start + |needle| <= |corpus|
    ensures |LowerAll(u, needle)| == |needle|
    ensures BatchHit(LowerAll(u, needle), Haystack(u, corpus), start) <==>
            Hit(u, needle, corpus[start..start + |needle|])
  {
    LowerPointwise(u, needle);
    LowerPointwise(u, Text(corpus));
    var low, hay, window := LowerAll(u, needle), Haystack(u, corpus), corpus[start..start + |needle|];
    forall i | 0 <= i < |needle|
      ensures AsciiLower(hay[start + i]) == AsciiLower(low[i]) <==> u.lower(window[i].c) == u.lower(needle[i])
    {
      assert window[i].c == Text(corpus)[start + i];
      assert [hay[start + i]] == u.lower(window[i].c) && [low[i]] == u.lower(needle[i]);
    }
  }

  lemma MatchesAt(u: Unicode, needle: seq<char>, corpus: seq<Entry>, end: nat)
    requires needle != [] && |needle| <= end <= |corpus|
    ensures var window := corpus[end - |needle|..end];
            Matches(u, needle, corpus[..end]) ==
              Matches(u, needle, corpus[..end - 1]) + if Hit(u, needle, window) then Report(window) else []
  {
    var text := corpus[..end];
    assert text[..end - 1] == corpus[..end - 1];
    assert text[end - |needle|..] == corpus[end - |needle|..end];
  }

  /** The matches at the marked starts before `bound`. */
  function Marked(hits: seq<bool>, width: nat, corpus: seq<Entry>, bound: nat): seq<Match>
    requires bound <= |hits| && |hits| + width <= |corpus| + 1
  {
    if bound == 0 then []
    else
      Marked(hits, width, corpus, bound - 1) +
      if hits[bound - 1] then Report(corpus[bound - 1..bound - 1 + width]) else []
  }

  lemma {:induction false} BatchIsMarked(
    needle: seq<char>, haystack: seq<char>, corpus: seq<Entry>, hits: seq<bool>, bound: nat)
    requires |haystack| == |corpus| && |hits| + |needle| == |corpus| + 1 && bound <= |hits|
    requires forall start | 0 <= start < |hits| :: hits[start] <==> BatchHit(needle, haystack, start)
    ensures BatchMatches(needle, haystack, corpus, bound) == Marked(hits, |needle|, corpus, bound)
    decreases bound
  {
    if bound > 0 {
      BatchIsMarked(needle, haystack, corpus, hits, bound - 1);
      assert hits[bound - 1] <==> BatchHit(needle, haystack, bound - 1);
    }
  }

  /** The window that starts at `start` hits. */
  predicate HitAt(u: Unicode, needle: seq<char>, corpus: seq<Entry>, start: nat)
    requires start + |needle| <= |corpus|
  {
    Hit(u, needle, corpus[start..start + |needle|])
  }

  lemma {:induction false} ScanIsMarked(
    u: Unicode, needle: seq<char>, corpus: seq<Entry>, hits: seq<bool>, bound: nat, end: nat)
    requires needle != [] && |hits| + |needle| == |corpus| + 1 && bound <= |hits| && end == bound + |needle| - 1
    requires forall start | 0 <= start < |hits| :: hits[start] <==> HitAt(u, needle, corpus, start)
    ensures Matches(u, needle, corpus[..end]) == Marked(hits, |needle|, corpus, bound)
    decreases bound
  {
    if bound > 0 {
      ScanIsMarked(u, needle, corpus, hits, bound - 1, end - 1);
      MatchesAt(u, needle, corpus, end);
      assert hits[bound - 1] <==> HitAt(u, needle, corpus, bound - 1);
    }
  }

  /** Where both tests hit: they agree at every start. */
  lemma HitTable(u: Unicode, needle: seq<char>, corpus: seq<Entry>) returns (hits: seq<bool>)
    requires SimpleCase(u, needle) && SimpleCase(u, Text(corpus)) && |needle| <= |corpus|
    ensures |LowerAll(u, needle)| == |needle| && |hits| + |needle| == |corpus| + 1
    ensures forall start | 0 <= start < |hits| ::
              hits[start] <==> BatchHit(LowerAll(u, needle), Haystack(u, corpus), start)
    ensures forall start | 0 <= start < |hits| :: hits[start] <==> HitAt(u, needle, corpus, start)
  {
    LowerPointwise(u, needle);
    var n := |corpus| - |needle| + 1;
    hits := seq(n, start requires 0 <= start < n => HitAt(u, needle, corpus, start));
    forall start | 0 <= start < n
      ensures HitAt(u, needle, corpus, start) <==> BatchHit(LowerAll(u, needle), Haystack(u, corpus), start)
    {
      SameHits(u, needle, corpus, start);
    }
  }

  lemma BatchList(low: seq<char>, haystack: seq<char>, corpus: seq<Entry>, hits: seq<bool>)
    requires |haystack| == |corpus| && low != [] && hits != [] && |hits| + |low| == |corpus| + 1
    requires forall start | 0 <= start < |hits| :: hits[start] <==> BatchHit(low, haystack, start)
    ensures AllBatchMatches(low, haystack, corpus) == Marked(hits, |low|, corpus, |hits|)
  {
    BatchIsMarked(low, haystack, corpus, hits, |hits|);
  }

  lemma ScanList(u: Unicode, needle: seq<char>, corpus: seq<Entry>, hits: seq<bool>)
    requires needle != [] && hits != [] && |hits| + |needle| == |corpus| + 1
    requires forall start | 0 <= start < |hits| :: hits[start] <==> HitAt(u, needle, corpus, start)
    ensures Matches(u, needle, corpus) == Marked(hits, |needle|, corpus, |hits|)
  {
    assert corpus[..|corpus|] == corpus;
    ScanIsMarked(u, needle, corpus, hits, |hits|, |corpus|);
  }

  /** On text whose lowercasing is one-to-one, what the scanner reports line by line and what the batch search
      reports over the whole corpus are the same list, segments included. */
  lemma ScannerAgreesWithBatch(u: Unicode, needle: seq<char>, corpus: seq<Entry>)
    requires SimpleCase(u, needle) && SimpleCase(u, Text(corpus))
    ensures Matches(u, needle, corpus) == AllBatchMatches(LowerAll(u, needle), Haystack(u, corpus), corpus)
  {
    LowerPointwise(u, needle);
    if needle != [] && |needle| <= |corpus| {
      var hits := HitTable(u, needle, corpus);
      ScanList(u, needle, corpus, hits);
      BatchList(LowerAll(u, needle), Haystack(u, corpus), corpus, hits);
    }
  }

  // ----- when exactly they agree -----

  /** What the Unicode tables satisfy: no lowercase form is empty, its characters are their own lowercase
      forms, and ASCII characters are lowered as ASCII. */
  ghost predicate Lowering(u: Unicode) {
    && (forall c :: u.lower(c) != [])
    && (forall c, i | 0 <= i < |u.lower(c)| :: u.lower(u.lower(c)[i]) == [u.lower(c)[i]])
    && (forall c | c as int < 128 :: u.lower(c) == [AsciiLower(c)])
  }

  /** No lowercase form is longer than one character. */
  predicate Single(u: Unicode, s: seq<char>) {
    forall i | 0 <= i < |s| :: |u.lower(s[i])| == 1
  }

  /** A character whose lowercase form is not the one ASCII gives: a capital outside ASCII. */
  predicate Foreign(u: Unicode, c: char) {
    u.lower(c) != [AsciiLower(c)]
  }

  predicate AnyForeign(u: Unicode, window: seq<Entry>) {
    exists i :: 0 <= i < |window| && Foreign(u, window[i].c)
  }

  predicate ScannerHits(u: Unicode, needle: seq<char>, corpus: seq<Entry>, start: nat) {
    needle != [] && start + |needle| <= |corpus| && HitAt(u, needle, corpus, start)
  }

  predicate BatchHits(u: Unicode, needle: seq<char>, corpus: seq<Entry>, start: nat) {
    var low := LowerAll(u, needle);
    low != [] && start + |low| <= |corpus| && BatchHit(low, Haystack(u, corpus), start)
  }

  lemma {:induction false} LowerAllLength(u: Unicode, s: seq<char>)
    requires Lowering(u)
    ensures |LowerAll(u, s)| >= |s| && (|LowerAll(u, s)| == |s| <==> Single(u, s))
  {
    if s != [] {
      var n := |s| - 1;
      LowerAllLength(u, s[..n]);
      assert |u.lower(s[n])| >= 1;
      assert Single(u, s) <==> Single(u, s[..n]) && |u.lower(s[n])| == 1;
    }
  }

  lemma FixedNotCapital(u: Unicode, c: char)
    requires Lowering(u) && u.lower(c) == [c]
    ensures AsciiLower(c) == c
  {
    if 'A' <= c <= 'Z' {
      assert u.lower(c) == [AsciiLower(c)];
    }
  }

  lemma SingleIsSimple(u: Unicode, s: seq<char>)
    requires Lowering(u) && Single(u, s)
    ensures SimpleCase(u, s)
  {
    forall i | 0 <= i < |s|
      ensures !('A' <= u.lower(s[i])[0] <= 'Z')
    {
      FixedNotCapital(u, u.lower(s[i])[0]);
    }
  }

  /** Against a character that is its own lowercase form, comparing ignoring ASCII case is comparing lowercase
      forms, except for the capitals outside ASCII, which it misses. */
  lemma RawComparison(u: Unicode, c: char, l: char)
    requires Lowering(u) && u.lower(l) == [l]
    ensures AsciiLower(c) == AsciiLower(l) <==> u.lower(c) == [l] && !Foreign(u, c)
  {
    FixedNotCapital(u, l);
    if c as int < 128 {
      assert u.lower(c) == [AsciiLower(c)];
    }
  }

  /** On unlowered text the batch search finds what the scanner finds, less the windows with a capital outside
      ASCII. */
  lemma RawHits(u: Unicode, needle: seq<char>, corpus: seq<Entry>, start: nat)
    requires Lowering(u) && Single(u, needle) && !Single(u, Text(corpus)) && start + |needle| <= |corpus|
    ensures |LowerAll(u, needle)| == |needle|
    ensures BatchHit(LowerAll(u, needle), Haystack(u, corpus), start)
            <==> HitAt(u, needle, corpus, start) && !AnyForeign(u, corpus[start..start + |needle|])
  {
    SingleIsSimple(u, needle);
    LowerPointwise(u, needle);
    LowerAllLength(u, Text(corpus));
    var low, hay, window := LowerAll(u, needle), Haystack(u, corpus), corpus[start..start + |needle|];
    forall i | 0 <= i < |needle|
      ensures AsciiLower(hay[start + i]) == AsciiLower(low[i])
              <==> u.lower(window[i].c) == u.lower(needle[i]) && !Foreign(u, window[i].c)
    {
      assert window[i].c == Text(corpus)[start + i] == hay[start + i];
      assert [low[i]] == u.lower(needle[i]);
      assert u.lower(needle[i])[0] == low[i];
      RawComparison(u, hay[start + i], low[i]);
    }
  }

  lemma {:induction false} LowerAllConcat(u: Unicode, a: seq<char>, b: seq<char>)
    ensures LowerAll(u, a + b) == LowerAll(u, a) + LowerAll(u, b)
    decreases |b|
  {
    if b == [] {
      assert a + b == a;
    } else {
      var n := |b| - 1;
      assert (a + b)[..|a| + n] == a + b[..n];
      LowerAllConcat(u, a, b[..n]);
      ConcatAssoc(LowerAll(u, a), LowerAll(u, b[..n]), u.lower(b[n]));
    }
  }

  /** The first character with a longer lowercase form stands, in the lowered needle, where it stood. */
  lemma FirstLong(u: Unicode, needle: seq<char>) returns (j: nat)
    requires Lowering(u) && !Single(u, needle)
    ensures j < |needle| && |u.lower(needle[j])| > 1
    ensures j < |LowerAll(u, needle)| && LowerAll(u, needle)[j] == u.lower(needle[j])[0]
  {
    j := 0;
    while |u.lower(needle[j])| == 1
      invariant 0 <= j < |needle| && Single(u, needle[..j]) && !Single(u, needle)
      decreases |needle| - j
    {
      assert j + 1 != |needle| by {
        assert needle[..j] + [needle[j]] == needle[..j + 1];
        assert forall i | 0 <= i < j :: needle[..j][i] == needle[i];
      }
      j := j + 1;
    }
    var before := needle[..j];
    LowerAllLength(u, before);
    assert needle[..j + 1] == before + [needle[j]];
    assert (before + [needle[j]])[..j] == before;
    assert needle == needle[..j + 1] + needle[j + 1..];
    LowerAllConcat(u, needle[..j + 1], needle[j + 1..]);
  }

  /** A needle with a longer lowercase form is never found by both searches at one start. */
  lemma NeverTogether(u: Unicode, needle: seq<char>, corpus: seq<Entry>, start: nat)
    requires Lowering(u) && !Single(u, needle)
    ensures !(ScannerHits(u, needle, corpus, start) && BatchHits(u, needle, corpus, start))
  {
    if ScannerHits(u, needle, corpus, start) && BatchHits(u, needle, corpus, start) {
      var j := FirstLong(u, needle);
      var c, low := corpus[start + j].c, LowerAll(u, needle);
      assert corpus[start..start + |needle|][j].c == c && u.lower(c) == u.lower(needle[j]);
      assert Text(corpus)[start + j] == c;
      assert !Single(u, Text(corpus));
      LowerAllLength(u, Text(corpus));
      assert Haystack(u, corpus)[start + j] == c;
      assert AsciiLower(c) == AsciiLower(low[j]);
      RawComparison(u, c, low[j]);
      assert false;
    }
  }

  /** What makes the searches part at a start: with a needle of one-to-one lowercasing, that the scanner hits a
      window holding a capital outside ASCII while some character of the text has a longer lowercase form;
      with any other needle, that either search hits. */
  predicate PartAt(u: Unicode, needle: seq<char>, corpus: seq<Entry>, start: nat) {
    if Single(u, needle) then
      && !Single(u, Text(corpus)) && ScannerHits(u, needle, corpus, start)
      && AnyForeign(u, corpus[start..start + |needle|])
    else ScannerHits(u, needle, corpus, start) || BatchHits(u, needle, corpus, start)
  }

  /** For every needle and text, both searches hit at a start or neither does, unless they part there. */
  lemma HitsPartIff(u: Unicode, needle: seq<char>, corpus: seq<Entry>, start: nat)
    requires Lowering(u)
    ensures (ScannerHits(u, needle, corpus, start) <==> BatchHits(u, needle, corpus, start))
            <==> !PartAt(u, needle, corpus, start)
  {
    LowerAllLength(u, needle);
    if !Single(u, needle) {
      NeverTogether(u, needle, corpus, start);
    } else if needle != [] && start + |needle| <= |corpus| {
      if Single(u, Text(corpus)) {
        SingleIsSimple(u, needle);
        SingleIsSimple(u, Text(corpus));
        SameHits(u, needle, corpus, start);
      } else {
        RawHits(u, needle, corpus, start);
      }
    }
  }

  // ----- the lists they report -----

  lemma {:induction false} SegmentsOfPlaced(window: seq<Entry>, i: nat)
    requires i < |window| && window[i].source.Some?
    ensures Segments(window) != []
  {
    if i < |window| - 1 {
      SegmentsOfPlaced(window[..|window| - 1], i);
    }
  }

  predicate Within(fewer: seq<bool>, more: seq<bool>) {
    |fewer| == |more| && forall i | 0 <= i < |fewer| :: fewer[i] ==> more[i]
  }

  /** Marking more starts reports no less, */
  lemma {:induction false} MarkedNoLess(fewer: seq<bool>, more: seq<bool>, width: nat, corpus: seq<Entry>, bound: nat)
    requires Within(fewer, more) && bound <= |more| && |more| + width <= |corpus| + 1
    ensures |Marked(fewer, width, corpus, bound)| <= |Marked(more, width, corpus, bound)|
    decreases bound
  {
    if bound > 0 {
      MarkedNoLess(fewer, more, width, corpus, bound - 1);
    }
  }

  /** and more when one of them reports something. */
  lemma {:induction false} MarkedMore(
    fewer: seq<bool>, more: seq<bool>, width: nat, corpus: seq<Entry>, bound: nat, at: nat)
    requires Within(fewer, more) && bound <= |more| && |more| + width <= |corpus| + 1
    requires at < bound && more[at] && !fewer[at] && Report(corpus[at..at + width]) != []
    ensures |Marked(fewer, width, corpus, bound)| < |Marked(more, width, corpus, bound)|
    decreases bound
  {
    if at == bound - 1 {
      MarkedNoLess(fewer, more, width, corpus, at);
    } else {
      MarkedMore(fewer, more, width, corpus, bound - 1, at);
    }
  }

  function ScannerTable(u: Unicode, needle: seq<char>, corpus: seq<Entry>, n: nat): (hits: seq<bool>)
    ensures |hits| == n
  {
    seq(n, start requires 0 <= start < n => ScannerHits(u, needle, corpus, start))
  }

  function BatchTable(u: Unicode, needle: seq<char>, corpus: seq<Entry>, n: nat): (hits: seq<bool>)
    ensures |hits| == n
  {
    seq(n, start requires 0 <= start < n => BatchHits(u, needle, corpus, start))
  }

  lemma TablesList(u: Unicode, needle: seq<char>, corpus: seq<Entry>, n: nat)
    requires Lowering(u) && Single(u, needle) && needle != [] && n > 0 && n + |needle| == |corpus| + 1
    ensures Matches(u, needle, corpus) == Marked(ScannerTable(u, needle, corpus, n), |needle|, corpus, n)
    ensures AllBatchMatches(LowerAll(u, needle), Haystack(u, corpus), corpus)
      == Marked(BatchTable(u, needle, corpus, n), |needle|, corpus, n)
  {
    ScannerTableList(u, needle, corpus, n);
    var low, haystack, batch := LowerAll(u, needle), Haystack(u, corpus), BatchTable(u, needle, corpus, n);
    LowerAllLength(u, needle);
    forall start | 0 <= start < n
      ensures batch[start] <==> BatchHit(low, haystack, start)
    {
    }
    BatchList(low, haystack, corpus, batch);
  }

  lemma ScannerTableList(u: Unicode, needle: seq<char>, corpus: seq<Entry>, n: nat)
    requires needle != [] && n > 0 && n + |needle| == |corpus| + 1
    ensures Matches(u, needle, corpus) == Marked(ScannerTable(u, needle, corpus, n), |needle|, corpus, n)
  {
    ScanList(u, needle, corpus, ScannerTable(u, needle, corpus, n));
  }

  predicate OnlySeparatorsUnplaced(corpus: seq<Entry>) {
    forall i | 0 <= i < |corpus| && corpus[i].source.None? :: corpus[i] == Separator
  }

  predicate ReportedAt(width: nat, corpus: seq<Entry>, at: nat)
    requires at + width <= |corpus|
  {
    Report(corpus[at..at + width]) != []
  }

  /** A separator is an ASCII character, so a window with a capital outside ASCII is reported. */
  lemma ForeignIsReported(u: Unicode, corpus: seq<Entry>, start: nat, width: nat)
    requires Lowering(u) && OnlySeparatorsUnplaced(corpus) && start + width <= |corpus|
    requires AnyForeign(u, corpus[start..start + width])
    ensures ReportedAt(width, corpus, start)
  {
    var window := corpus[start..start + width];
    var i :| 0 <= i < |window| && Foreign(u, window[i].c);
    assert window[i] == corpus[start + i];
    assert u.lower(' ') == [AsciiLower(' ')];
    SegmentsOfPlaced(window, i);
  }

  predicate NoForeignHit(u: Unicode, needle: seq<char>, corpus: seq<Entry>) {
    forall start | 0 <= start < |corpus| && ScannerHits(u, needle, corpus, start) ::
      !AnyForeign(u, corpus[start..start + |needle|])
  }

  /** With such a needle the batch search never hits where the scanner does not. */
  lemma HitsPart(u: Unicode, needle: seq<char>, corpus: seq<Entry>, start: nat)
    requires Lowering(u) && Single(u, needle)
    ensures BatchHits(u, needle, corpus, start)
            <==> ScannerHits(u, needle, corpus, start) && !PartAt(u, needle, corpus, start)
  {
    HitsPartIff(u, needle, corpus, start);
    LowerAllLength(u, needle);
    if BatchHits(u, needle, corpus, start) && !Single(u, Text(corpus)) {
      RawHits(u, needle, corpus, start);
    }
  }

  lemma BatchWithinScanner(u: Unicode, needle: seq<char>, corpus: seq<Entry>, n: nat)
    requires Lowering(u) && Single(u, needle)
    ensures Within(BatchTable(u, needle, corpus, n), ScannerTable(u, needle, corpus, n))
  {
    forall start | 0 <= start < n
      ensures BatchHits(u, needle, corpus, start) ==> ScannerHits(u, needle, corpus, start)
    {
      HitsPart(u, needle, corpus, start);
    }
  }

  lemma TablesSame(u: Unicode, needle: seq<char>, corpus: seq<Entry>, n: nat)
    requires Lowering(u) && Single(u, needle)
    requires Single(u, Text(corpus)) || NoForeignHit(u, needle, corpus)
    ensures ScannerTable(u, needle, corpus, n) == BatchTable(u, needle, corpus, n)
  {
    forall start | 0 <= start < n
      ensures ScannerHits(u, needle, corpus, start) == BatchHits(u, needle, corpus, start)
    {
      HitsPart(u, needle, corpus, start);
    }
  }

  lemma TablesDiffer(u: Unicode, needle: seq<char>, corpus: seq<Entry>, n: nat)
    requires Lowering(u) && Single(u, needle) && n + |needle| == |corpus| + 1
    requires !Single(u, Text(corpus)) && !NoForeignHit(u, needle, corpus)
    ensures ScannerTable(u, needle, corpus, n) != BatchTable(u, needle, corpus, n)
  {
    var start: nat :| start < |corpus| && ScannerHits(u, needle, corpus, start)
                      && AnyForeign(u, corpus[start..start + |needle|]);
    HitsPart(u, needle, corpus, start);
    assert ScannerTable(u, needle, corpus, n)[start] && !BatchTable(u, needle, corpus, n)[start];
  }

  lemma TablesSameIff(u: Unicode, needle: seq<char>, corpus: seq<Entry>, n: nat)
    requires Lowering(u) && Single(u, needle) && n + |needle| == |corpus| + 1
    ensures ScannerTable(u, needle, corpus, n) == BatchTable(u, needle, corpus, n)
            <==> Single(u, Text(corpus)) || NoForeignHit(u, needle, corpus)
  {
    if Single(u, Text(corpus)) || NoForeignHit(u, needle, corpus) {
      TablesSame(u, needle, corpus, n);
    } else {
      TablesDiffer(u, needle, corpus, n);
    }
  }

  predicate ForeignPartings(u: Unicode, width: nat, corpus: seq<Entry>, scanner: seq<bool>, batch: seq<bool>)
    requires |scanner| == |batch| && |scanner| + width == |corpus| + 1
  {
    forall at | 0 <= at < |scanner| && scanner[at] && !batch[at] :: AnyForeign(u, corpus[at..at + width])
  }

  /** A window where only the scanner hits holds a capital outside ASCII, */
  lemma PartingsForeign(u: Unicode, needle: seq<char>, corpus: seq<Entry>, n: nat)
    requires Lowering(u) && Single(u, needle) && n + |needle| == |corpus| + 1
    ensures ForeignPartings(u, |needle|, corpus, ScannerTable(u, needle, corpus, n), BatchTable(u, needle, corpus, n))
  {
    var scanner, batch := ScannerTable(u, needle, corpus, n), BatchTable(u, needle, corpus, n);
    forall at | 0 <= at < n && scanner[at] && !batch[at]
      ensures AnyForeign(u, corpus[at..at + |needle|])
    {
      HitsPart(u, needle, corpus, at);
    }
  }

  /** and such a window is reported. */
  lemma PartingsReported(u: Unicode, width: nat, corpus: seq<Entry>, scanner: seq<bool>, batch: seq<bool>)
    requires Lowering(u) && OnlySeparatorsUnplaced(corpus)
    requires |scanner| == |batch| && |scanner| + width == |corpus| + 1
    requires ForeignPartings(u, width, corpus, scanner, batch)
    ensures forall at | 0 <= at < |scanner| && scanner[at] && !batch[at] :: ReportedAt(width, corpus, at)
  {
    forall at | 0 <= at < |scanner| && scanner[at] && !batch[at]
      ensures ReportedAt(width, corpus, at)
    {
      ForeignIsReported(u, corpus, at, width);
    }
  }

  /** What the two searches find, as tables of starts: the batch search's is within the scanner's, they are the
      same exactly under the condition below, and where they are not something is reported. */
  lemma Tables(u: Unicode, needle: seq<char>, corpus: seq<Entry>, n: nat)
    returns (scanner: seq<bool>, batch: seq<bool>)
    requires Lowering(u) && Single(u, needle) && OnlySeparatorsUnplaced(corpus)
    requires needle != [] && n > 0 && n + |needle| == |corpus| + 1
    ensures |scanner| == |batch| == n && Within(batch, scanner)
    ensures Matches(u, needle, corpus) == Marked(scanner, |needle|, corpus, n)
    ensures AllBatchMatches(LowerAll(u, needle), Haystack(u, corpus), corpus) == Marked(batch, |needle|, corpus, n)
    ensures scanner == batch <==> Single(u, Text(corpus)) || NoForeignHit(u, needle, corpus)
    ensures forall at | 0 <= at < n && scanner[at] && !batch[at] :: ReportedAt(|needle|, corpus, at)
  {
    scanner, batch := ScannerTable(u, needle, corpus, n), BatchTable(u, needle, corpus, n);
    TablesList(u, needle, corpus, n);
    BatchWithinScanner(u, needle, corpus, n);
    TablesSameIff(u, needle, corpus, n);
    PartingsForeign(u, needle, corpus, n);
    PartingsReported(u, |needle|, corpus, scanner, batch);
  }

  lemma ListsByTables(width: nat, corpus: seq<Entry>, scanner: seq<bool>, batch: seq<bool>)
    requires |scanner| == |batch| && Within(batch, scanner) && |scanner| + width == |corpus| + 1
    requires forall at | 0 <= at < |scanner| && scanner[at] && !batch[at] :: ReportedAt(width, corpus, at)
    ensures Marked(scanner, width, corpus, |scanner|) == Marked(batch, width, corpus, |batch|) <==> scanner == batch
  {
    if scanner != batch {
      var at :| 0 <= at < |scanner| && scanner[at] != batch[at];
      assert ReportedAt(width, corpus, at);
      MarkedMore(batch, scanner, width, corpus, |scanner|, at);
    }
  }

  lemma ListsAgreeIff(u: Unicode, needle: seq<char>, corpus: seq<Entry>)
    requires Lowering(u) && Single(u, needle) && OnlySeparatorsUnplaced(corpus)
    requires needle != [] && |needle| <= |corpus|
    ensures Matches(u, needle, corpus) == AllBatchMatches(LowerAll(u, needle), Haystack(u, corpus), corpus)
            <==> Single(u, Text(corpus)) || NoForeignHit(u, needle, corpus)
  {
    var scanner, batch := Tables(u, needle, corpus, |corpus| - |needle| + 1);
    ListsByTables(|needle|, corpus, scanner, batch);
  }

  /** For every transcript and every needle whose lowercasing is one-to-one, the two searches report the same
      list exactly when every character of the text has a one-character lowercase form, or no occurrence the
      scanner finds holds a capital outside ASCII. */
  lemma SearchesAgreeIff(u: Unicode, needle: seq<char>, lines: seq<Line>)
    requires Lowering(u) && Single(u, needle)
    ensures var corpus := CorpusOf(u, lines).entries;
            Matches(u, needle, corpus) == AllBatchMatches(LowerAll(u, needle), Haystack(u, corpus), corpus)
            <==> Single(u, Text(corpus)) || NoForeignHit(u, needle, corpus)
  {
    var corpus := CorpusOf(u, lines).entries;
    SeparatorsOnly(u, lines);
    LowerAllLength(u, needle);
    if needle != [] && |needle| <= |corpus| {
      ListsAgreeIff(u, needle, corpus);
    }
  }

  // ----- needles with a longer lowercase form -----

  lemma {:induction false} NothingMarked(hits: seq<bool>, width: nat, corpus: seq<Entry>, bound: nat)
    requires bound <= |hits| && |hits| + width <= |corpus| + 1
    requires forall at | 0 <= at < |hits| :: !hits[at]
    ensures Marked(hits, width, corpus, bound) == []
    decreases bound
  {
    if bound > 0 {
      NothingMarked(hits, width, corpus, bound - 1);
    }
  }

  /** When every hit is reported, the list is empty exactly when nothing hits. */
  lemma MarkedEmptyIff(hits: seq<bool>, width: nat, corpus: seq<Entry>)
    requires |hits| + width <= |corpus| + 1
    requires forall at | 0 <= at < |hits| && hits[at] :: ReportedAt(width, corpus, at)
    ensures Marked(hits, width, corpus, |hits|) == [] <==> forall at | 0 <= at < |hits| :: !hits[at]
  {
    if at: nat :| at < |hits| && hits[at] {
      assert ReportedAt(width, corpus, at);
      MarkedMore(seq(|hits|, _ => false), hits, width, corpus, |hits|, at);
    } else {
      NothingMarked(hits, width, corpus, |hits|);
    }
  }

  /** Separators do not stand together, */
  lemma PairPlaced(u: Unicode, lines: seq<Line>, at: nat)
    requires at + 1 < |CorpusOf(u, lines).entries|
    ensures var corpus := CorpusOf(u, lines).entries; corpus[at].source.Some? || corpus[at + 1].source.Some?
  {
    CorpusIs(u, lines);
    assert SeparatesAt(CorpusOf(u, lines).entries, at);
  }

  /** so any two neighbours are reported; and so is a character with a longer lowercase form. */
  lemma PairReported(u: Unicode, lines: seq<Line>, at: nat, width: nat)
    requires width >= 2 && at + width <= |CorpusOf(u, lines).entries|
    ensures ReportedAt(width, CorpusOf(u, lines).entries, at)
  {
    var corpus := CorpusOf(u, lines).entries;
    var window := corpus[at..at + width];
    PairPlaced(u, lines, at);
    assert window[0] == corpus[at] && window[1] == corpus[at + 1];
    SegmentsOfPlaced(window, if window[0].source.Some? then 0 else 1);
  }

  lemma LongReported(u: Unicode, needle: seq<char>, corpus: seq<Entry>, at: nat)
    requires Lowering(u) && OnlySeparatorsUnplaced(corpus) && !Single(u, needle)
    requires ScannerHits(u, needle, corpus, at)
    ensures ReportedAt(|needle|, corpus, at) && !Single(u, Text(corpus))
  {
    var window := corpus[at..at + |needle|];
    var j := FirstLong(u, needle);
    assert u.lower(window[j].c) == u.lower(needle[j]);
    assert window[j] == corpus[at + j] && Text(corpus)[at + j] == corpus[at + j].c;
    assert Foreign(u, window[j].c);
    ForeignIsReported(u, corpus, at, |needle|);
  }

  /** The list of the scanner is empty exactly when it hits nowhere, */
  lemma ScannerListEmptyIff(u: Unicode, needle: seq<char>, corpus: seq<Entry>)
    requires Lowering(u) && !Single(u, needle) && OnlySeparatorsUnplaced(corpus)
    ensures Matches(u, needle, corpus) == [] <==> forall at: nat :: !ScannerHits(u, needle, corpus, at)
  {
    if |needle| <= |corpus| {
      var n := |corpus| - |needle| + 1;
      var hits := ScannerTable(u, needle, corpus, n);
      ScannerTableList(u, needle, corpus, n);
      forall at | 0 <= at < n && hits[at]
        ensures ReportedAt(|needle|, corpus, at)
      {
        LongReported(u, needle, corpus, at);
      }
      MarkedEmptyIff(hits, |needle|, corpus);
      assert forall at | 0 <= at < n :: hits[at] == ScannerHits(u, needle, corpus, at);
    }
  }

  /** and so is that of the batch search. */
  lemma BatchListEmptyIff(u: Unicode, needle: seq<char>, lines: seq<Line>)
    requires Lowering(u) && !Single(u, needle)
    ensures var corpus := CorpusOf(u, lines).entries;
            AllBatchMatches(LowerAll(u, needle), Haystack(u, corpus), corpus) == []
            <==> forall at: nat :: !BatchHits(u, needle, corpus, at)
  {
    var corpus := CorpusOf(u, lines).entries;
    var low, haystack := LowerAll(u, needle), Haystack(u, corpus);
    LowerAllLength(u, needle);
    if |low| <= |corpus| {
      var n := |corpus| - |low| + 1;
      var hits := BatchTable(u, needle, corpus, n);
      forall start | 0 <= start < n
        ensures hits[start] <==> BatchHit(low, haystack, start)
        ensures hits[start] <==> BatchHits(u, needle, corpus, start)
      {
      }
      BatchList(low, haystack, corpus, hits);
      forall at | 0 <= at < n && hits[at]
        ensures ReportedAt(|low|, corpus, at)
      {
        PairReported(u, lines, at, |low|);
      }
      MarkedEmptyIff(hits, |low|, corpus);
    }
  }

  /** For every transcript and every needle with a longer lowercase form: the searches never hit at one start, each
      list is empty exactly when its search hits nowhere, and the scanner hits nowhere when the text's lowercasing is
      one-to-one. So the lists are equal when neither hits, and differ when just one of them does. */
  lemma LongNeedleLists(u: Unicode, needle: seq<char>, lines: seq<Line>)
    requires Lowering(u) && !Single(u, needle)
    ensures var corpus := CorpusOf(u, lines).entries;
            var batch := AllBatchMatches(LowerAll(u, needle), Haystack(u, corpus), corpus);
            && (Matches(u, needle, corpus) == [] <==> forall at: nat :: !ScannerHits(u, needle, corpus, at))
            && (batch == [] <==> forall at: nat :: !BatchHits(u, needle, corpus, at))
            && (Single(u, Text(corpus)) ==> Matches(u, needle, corpus) == [])
            && (forall at: nat :: !(ScannerHits(u, needle, corpus, at) && BatchHits(u, needle, corpus, at)))
  {
    var corpus := CorpusOf(u, lines).entries;
    SeparatorsOnly(u, lines);
    ScannerListEmptyIff(u, needle, corpus);
    BatchListEmptyIff(u, needle, lines);
    forall at: nat
      ensures !(ScannerHits(u, needle, corpus, at) && BatchHits(u, needle, corpus, at))
      ensures Single(u, Text(corpus)) ==> !ScannerHits(u, needle, corpus, at)
    {
      NeverTogether(u, needle, corpus, at);
      if ScannerHits(u, needle, corpus, at) {
        LongReported(u, needle, corpus, at);
      }
    }
  }

  lemma SeparatorsOnly(u: Unicode, lines: seq<Line>)
    ensures OnlySeparatorsUnplaced(CorpusOf(u, lines).entries)
  {
    var corpus := CorpusOf(u, lines).entries;
    CorpusIs(u, lines);
    forall i | 0 <= i < |corpus| && corpus[i].source.None?
      ensures corpus[i] == Separator
    {
      assert SeparatesAt(corpus, i);
    }
  }

  // ----- a transcript on which they disagree -----

  /** A capital, its small form, and a character whose lowercase form is longer (as \U{C9}, \U{E9} and \U{130}
      are), none of them equal ignoring ASCII case. */
  predicate Awkward(u: Unicode, capital: char, small: char, long: char) {
    && u.lower(capital) == [small] && u.lower(small) == [small]
    && |u.lower(long)| > 1
    && AsciiLower(capital) != AsciiLower(small) && AsciiLower(long) != AsciiLower(small)
    && !u.isSpace(capital) && !u.isSpace(long)
  }

  /** On one line holding the two, the scanner finds the capital and the batch search misses it: the longer
      lowercase form makes it compare unlowered text. */
  lemma LongLowercaseDisagrees(u: Unicode, capital: char, small: char, long: char)
    requires Awkward(u, capital, small, long)
    ensures var corpus := CorpusOf(u, [[Grapheme([capital], 1), Grapheme([long], 1)]]).entries;
            && Matches(u, [small], corpus) == [Match([Span(0, 0, 1)])]
            && AllBatchMatches(LowerAll(u, [small]), Haystack(u, corpus), corpus) == []
  {
    var a, b := Entry(capital, Some(Span(0, 0, 1))), Entry(long, Some(Span(0, 1, 2)));
    assert u.isSpace([capital][0]) == u.isSpace([long][0]) == false;
    TwoDrawn(u, Grapheme([capital], 1), Grapheme([long], 1));
    assert CorpusOf(u, [[Grapheme([capital], 1), Grapheme([long], 1)]]).entries == [a, b];
    ScannerFindsCapital(u, small, a, b);
    BatchMissesCapital(u, small, a, b);
  }

  lemma TwoDrawn(u: Unicode, g: Grapheme, h: Grapheme)
    requires !Blank(u, g) && !Blank(u, h)
    ensures CorpusOf(u, [[g, h]]).entries == Drawn(g, 0, 0) + Drawn(h, 0, g.width)
  {
    var line := [g, h];
    var lines: seq<Line> := [line];
    assert lines[..0] == [] && line[..1] == [g] && [g][..0] == [];
    var k := CorpusOf(u, []);
    assert AddGraphemes(u, k, 0, [g]) == Corpus(Drawn(g, 0, 0), false);
    assert Width([g]) == g.width;
  }

  lemma BatchMissesCapital(u: Unicode, small: char, a: Entry, b: Entry)
    requires Awkward(u, a.c, small, b.c)
    ensures AllBatchMatches(LowerAll(u, [small]), Haystack(u, [a, b]), [a, b]) == []
  {
    LowerOne(u, small);
    HaystackUnlowered(u, a, b);
    var needle, haystack := LowerAll(u, [small]), Haystack(u, [a, b]);
    BatchMissesBoth(needle, haystack, [a, b]);
  }

  lemma HaystackUnlowered(u: Unicode, a: Entry, b: Entry)
    requires |u.lower(a.c)| == 1 && |u.lower(b.c)| > 1
    ensures Haystack(u, [a, b]) == [a.c, b.c]
  {
    assert Text([a, b]) == [a.c, b.c];
    LowerPair(u, a.c, b.c);
  }

  lemma ScannerFindsCapital(u: Unicode, small: char, a: Entry, b: Entry)
    requires a.source.Some? && u.lower(a.c) == u.lower(small) != u.lower(b.c)
    ensures Matches(u, [small], [a, b]) == [Match([a.source.value])]
  {
    MatchesSnoc(u, [small], [a], b);
    MatchesSnoc(u, [small], [], a);
    assert [a] + [b] == [a, b] && [] + [a] == [a];
    assert Tail([a], 1) == [a] && Tail([a, b], 1) == [b];
    assert [a][..0] == [];
    assert Segments([a]) == [a.source.value];
  }

  lemma BatchMissesBoth(needle: seq<char>, haystack: seq<char>, corpus: seq<Entry>)
    requires |needle| == 1 && |haystack| == |corpus| == 2
    requires forall i | 0 <= i < 2 :: AsciiLower(haystack[i]) != AsciiLower(needle[0])
    ensures AllBatchMatches(needle, haystack, corpus) == []
  {
    assert !BatchHit(needle, haystack, 0) by {
      assert AsciiLower(haystack[0 + 0]) != AsciiLower(needle[0]);
    }
    assert !BatchHit(needle, haystack, 1) by {
      assert AsciiLower(haystack[1 + 0]) != AsciiLower(needle[0]);
    }
    assert BatchMatches(needle, haystack, corpus, 1) == [];
  }

  lemma LowerOne(u: Unicode, c: char)
    ensures LowerAll(u, [c]) == u.lower(c)
  {
    assert [c][..0] == [];
    assert [] + u.lower(c) == u.lower(c);
  }

  lemma LowerPair(u: Unicode, c: char, d: char)
    ensures LowerAll(u, [c, d]) == u.lower(c) + u.lower(d)
  {
    assert [c, d][..1] == [c];
    LowerOne(u, c);
  }
}
