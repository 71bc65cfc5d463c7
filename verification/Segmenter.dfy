/**
  Streaming segmentation of generated text into speech segments, and the token loop that feeds it.

  `Words` counts maximal runs of non-space characters, as `\S+` finds them.
*/
module Text {
  /** Python's whitespace, as `\s`, `strip` and `split` use it. */
  predicate Space(c: char) {
    || '\t' <= c <= '\r' || '\U{1C}' <= c <= ' ' || c == '\U{85}' || c == '\U{A0}' || c == '\U{1680}'
    || '\U{2000}' <= c <= '\U{200A}' || c == '\U{2028}' || c == '\U{2029}' || c == '\U{202F}' || c == '\U{205F}'
    || c == '\U{3000}'
  }

  function Visible(s: string): string {
    if s == [] then []
    else Visible(s[..|s| - 1]) + if Space(s[|s| - 1]) then [] else [s[|s| - 1]]
  }

  predicate StartsWord(s: string, i: nat)
    requires i < |s|
  {
    !Space(s[i]) && (i == 0 || Space(s[i - 1]))
  }

  function Words(s: string): nat {
    if s == [] then 0
    else Words(s[..|s| - 1]) + if StartsWord(s, |s| - 1) then 1 else 0
  }

  /** A word or the text ends at e. */
  predicate Break(s: string, e: nat)
    requires e <= |s|
  {
    e == |s| || Space(s[e])
  }

  function Lstrip(s: string): (t: string)
    ensures |t| <= |s|
  {
    if s != [] && Space(s[0]) then Lstrip(s[1..]) else s
  }

  function Rstrip(s: string): string {
    if s != [] && Space(s[|s| - 1]) then Rstrip(s[..|s| - 1]) else s
  }

  function Strip(s: string): string {
    Rstrip(Lstrip(s))
  }

  // ---- counting ----

  lemma TakeTake(s: string, i: nat, j: nat)
    requires j <= i <= |s|
    ensures s[..i][..j] == s[..j]
  {}

  lemma WordsStep(s: string, i: nat)
    requires i < |s|
    ensures Words(s[..i + 1]) == Words(s[..i]) + if StartsWord(s, i) then 1 else 0
  {
    TakeTake(s, i + 1, i);
    assert StartsWord(s[..i + 1], i) == StartsWord(s, i);
  }

  lemma {:induction false} WordsGrow(s: string, i: nat, j: nat)
    requires i <= j <= |s|
    ensures Words(s[..i]) <= Words(s[..j])
    decreases j - i
  {
    if i < j {
      WordsStep(s, i);
      WordsGrow(s, i + 1, j);
    }
  }

  lemma {:induction false} NoWordsAllSpace(s: string)
    ensures Words(s) == 0 <==> Visible(s) == []
    ensures Words(s) == 0 <==> forall i | 0 <= i < |s| :: Space(s[i])
    decreases |s|
  {
    if s != [] {
      NoWordsAllSpace(s[..|s| - 1]);
    }
  }

  lemma {:induction false} VisibleConcat(s: string, t: string)
    ensures Visible(s + t) == Visible(s) + Visible(t)
    decreases |t|
  {
    if t == [] {
      assert s + t == s;
    } else {
      assert (s + t)[..|s + t| - 1] == s + t[..|t| - 1];
      VisibleConcat(s, t[..|t| - 1]);
    }
  }

  /** A leading space changes neither words nor visible characters. */
  lemma {:induction false} DropSpace(s: string)
    requires s != [] && Space(s[0])
    ensures Words(s[1..]) == Words(s) && Visible(s[1..]) == Visible(s)
    decreases |s|
  {
    if |s| == 1 {
      assert s[..0] == [];
    } else {
      var n := |s| - 1;
      DropSpace(s[..n]);
      assert s[1..][..n - 1] == s[..n][1..];
      assert StartsWord(s[1..], n - 1) == StartsWord(s, n);
    }
  }

  lemma {:induction false} LstripKeeps(s: string)
    ensures Words(Lstrip(s)) == Words(s) && Visible(Lstrip(s)) == Visible(s) && |Lstrip(s)| <= |s|
    decreases |s|
  {
    if s != [] && Space(s[0]) {
      DropSpace(s);
      LstripKeeps(s[1..]);
    }
  }

  lemma {:induction false} RstripKeeps(s: string)
    ensures Words(Rstrip(s)) == Words(s) && Visible(Rstrip(s)) == Visible(s) && |Rstrip(s)| <= |s|
    decreases |s|
  {
    if s != [] && Space(s[|s| - 1]) {
      RstripKeeps(s[..|s| - 1]);
    }
  }

  lemma StripKeeps(s: string)
    ensures Words(Strip(s)) == Words(s) && Visible(Strip(s)) == Visible(s) && |Strip(s)| <= |s|
  {
    LstripKeeps(s);
    RstripKeeps(Lstrip(s));
  }

  lemma StripBlank(s: string)
    ensures Strip(s) == [] <==> Words(s) == 0
  {
    StripKeeps(s);
    NoWordsAllSpace(Strip(s));
    if Strip(s) != [] && Words(s) == 0 {
      RstripEnds(Lstrip(s));
    }
  }

  lemma {:induction false} RstripEnds(s: string)
    ensures Rstrip(s) != [] ==> !Space(Rstrip(s)[|Rstrip(s)| - 1])
    decreases |s|
  {
    if s != [] && Space(s[|s| - 1]) {
      RstripEnds(s[..|s| - 1]);
    }
  }

  lemma {:induction false} StripStarts(s: string)
    ensures Strip(s) != [] ==> !Space(Strip(s)[0])
    decreases |s|
  {
    if s != [] && Space(s[0]) {
      StripStarts(s[1..]);
    } else if s != [] {
      RstripPrefix(s);
    }
  }

  lemma {:induction false} RstripPrefix(s: string)
    ensures Rstrip(s) <= s
    decreases |s|
  {
    if s != [] && Space(s[|s| - 1]) {
      RstripPrefix(s[..|s| - 1]);
    }
  }

  /** Where the k-th word ends, looking from i on. */
  function WordEnd(s: string, k: nat, i: nat): (e: nat)
    requires i <= |s|
    ensures i <= e <= |s|
    decreases |s| - i
  {
    if i == |s| || (Words(s[..i]) >= k && Break(s, i)) then i else WordEnd(s, k, i + 1)
  }

  lemma {:induction false} WordEndCounts(s: string, k: nat, i: nat)
    requires i <= |s| && 0 < k <= Words(s)
    requires Words(s[..i]) < k || (Words(s[..i]) == k && 0 < i && !Space(s[i - 1]))
    ensures 0 < WordEnd(s, k, i)
    ensures Words(s[..WordEnd(s, k, i)]) == k && Break(s, WordEnd(s, k, i))
    decreases |s| - i
  {
    if i == |s| {
      assert s[..i] == s;
    } else if !(Words(s[..i]) >= k && Break(s, i)) {
      WordsStep(s, i);
      WordEndCounts(s, k, i + 1);
    }
  }
}

/** Boundaries, and the class that cuts an arriving stream at them. */
module Segmenter {
  import opened Wrappers
  import opened Text

  datatype Limits = Limits(minWords: nat, maxWords: nat)

  predicate ValidLimits(l: Limits) {
    1 <= l.minWords <= l.maxWords
  }

  predicate Stop(c: char) {
    c == '.' || c == '!' || c == '?'
  }

  predicate Closer(c: char) {
    c == '"' || c == '\'' || c == ')' || c == ']'
  }

  predicate Soft(c: char) {
    c == ',' || c == ';' || c == ':' || c == '\U{2014}' || c == '\U{2013}'
  }

  // ---- hard boundaries, as the scan for `(?:[.!?]+["')\]]*|\n+)(?=\s|$)` finds them ----

  function SkipStops(s: string, i: nat): (j: nat)
    requires i <= |s|
    ensures i <= j <= |s| && (forall k | i <= k < j :: Stop(s[k])) && (j < |s| ==> !Stop(s[j]))
    decreases |s| - i
  {
    if i < |s| && Stop(s[i]) then SkipStops(s, i + 1) else i
  }

  function SkipClosers(s: string, i: nat): (j: nat)
    requires i <= |s|
    ensures i <= j <= |s| && (forall k | i <= k < j :: Closer(s[k])) && (j < |s| ==> !Closer(s[j]))
    decreases |s| - i
  {
    if i < |s| && Closer(s[i]) then SkipClosers(s, i + 1) else i
  }

  function SkipNewlines(s: string, i: nat): (j: nat)
    requires i <= |s|
    ensures i <= j <= |s| && (forall k | i <= k < j :: s[k] == '\n') && (j < |s| ==> s[j] != '\n')
    decreases |s| - i
  {
    if i < |s| && s[i] == '\n' then SkipNewlines(s, i + 1) else i
  }

  /** The end of a match that begins at i. Giving characters back helps a run of newlines only, by one. */
  function MatchAt(s: string, i: nat): (end: Option<nat>)
    requires i < |s|
    ensures end.Some? ==> i < end.value <= |s| && Break(s, end.value)
  {
    if Stop(s[i]) then
      var j := SkipClosers(s, SkipStops(s, i));
      if Break(s, j) then Some(j) else None
    else if s[i] == '\n' then
      var j := SkipNewlines(s, i);
      if Break(s, j) then Some(j) else if j - 1 > i then Some(j - 1) else None
    else None
  }

  /** The first match from i on whose end has enough words before it. */
  function FindHard(s: string, i: nat, minWords: nat): (end: Option<nat>)
    requires i <= |s|
    ensures end.Some? ==> i < end.value <= |s| && Words(s[..end.value]) >= minWords && Break(s, end.value)
    decreases |s| - i
  {
    if i == |s| then None else
    var end := MatchAt(s, i);
    if end.None? then FindHard(s, i + 1, minWords)
    else if Words(s[..end.value]) >= minWords then end
    else FindHard(s, end.value, minWords)
  }

  /** A stop at p or later, only closers after it, and a break; or a newline at p or later and a break. */
  ghost predicate HardEndFrom(s: string, e: nat, i: nat) {
    && i < e <= |s| && Break(s, e)
    && (s[e - 1] == '\n' || exists p | i <= p < e :: StopThenClosers(s, p, e))
  }

  ghost predicate StopThenClosers(s: string, p: nat, e: nat) {
    p < e <= |s| && Stop(s[p]) && forall k | p < k < e :: Closer(s[k])
  }

  /** A place where a sentence or a line ends, said without the scan. */
  ghost predicate HardEnd(s: string, e: nat) {
    HardEndFrom(s, e, 0)
  }

  predicate Newlines(s: string, i: nat, j: nat) {
    i <= j <= |s| && forall k | i <= k < j :: s[k] == '\n'
  }

  /** Only the end of the match is a hard end for what lies inside it, up to further newlines. */
  lemma InsideMatch(s: string, i: nat, e: nat)
    requires i < |s| && HardEndFrom(s, e, i) && (MatchAt(s, i).None? || e <= MatchAt(s, i).value)
    requires MatchAt(s, i).None? ==> !HardEndFrom(s, e, i + 1)
    ensures MatchAt(s, i).Some?
    ensures e == MatchAt(s, i).value || Newlines(s, e, MatchAt(s, i).value)
  {
    if Stop(s[i]) {
      var stops := SkipStops(s, i);
      var end := SkipClosers(s, stops);
      assert forall k | i <= k < end :: s[k] != '\n' && !Space(s[k]);
      assert stops > i && Stop(s[stops - 1]);
      if e <= end {
        assert e == end;
      }
    } else if s[i] == '\n' {
      var end := SkipNewlines(s, i);
      assert end > i;
    }
  }

  lemma MatchIsHardEnd(s: string, i: nat)
    requires i < |s| && MatchAt(s, i).Some?
    ensures HardEndFrom(s, MatchAt(s, i).value, i)
  {
    if Stop(s[i]) {
      var stops := SkipStops(s, i);
      assert StopThenClosers(s, stops - 1, SkipClosers(s, stops));
    }
  }

  /** Skipping a match loses no hard end with enough words. */
  lemma BeyondMatch(s: string, i: nat, e: nat, minWords: nat)
    requires i < |s| && MatchAt(s, i).Some? && Words(s[..MatchAt(s, i).value]) < minWords
    requires HardEndFrom(s, e, i) && Words(s[..e]) >= minWords
    ensures HardEndFrom(s, e, MatchAt(s, i).value)
  {
    var end := MatchAt(s, i).value;
    if e <= end {
      WordsGrow(s, e, end);
    } else if s[e - 1] != '\n' {
      var p :| i <= p < e && StopThenClosers(s, p, e);
    }
  }

  /** The first hard end with enough words, from i on, up to further newlines; none exactly when there is none. */
  lemma {:induction false} FindHardExactly(s: string, i: nat, minWords: nat)
    requires i <= |s|
    ensures var found := FindHard(s, i, minWords);
            && (found.Some? ==> HardEndFrom(s, found.value, i))
            && (forall e: nat | HardEndFrom(s, e, i) && Words(s[..e]) >= minWords ::
                  found.Some? && (found.value <= e || Newlines(s, e, found.value)))
    decreases |s| - i
  {
    if i < |s| {
      var end := MatchAt(s, i);
      var found := FindHard(s, i, minWords);
      if end.Some? {
        MatchIsHardEnd(s, i);
        if Words(s[..end.value]) < minWords {
          FindHardExactly(s, end.value, minWords);
        }
      } else {
        FindHardExactly(s, i + 1, minWords);
      }
      forall e: nat | HardEndFrom(s, e, i) && Words(s[..e]) >= minWords
        ensures found.Some? && (found.value <= e || Newlines(s, e, found.value))
      {
        if end.Some? {
          if Words(s[..end.value]) < minWords {
            BeyondMatch(s, i, e, minWords);
          } else if e < end.value {
            InsideMatch(s, i, e);
          }
        } else if !HardEndFrom(s, e, i + 1) {
          InsideMatch(s, i, e);
        }
      }
    }
  }

  // ---- soft boundaries and the next boundary ----

  predicate SoftEnd(s: string, e: nat)
    requires e <= |s|
  {
    0 < e && Soft(s[e - 1]) && Break(s, e)
  }

  /** The last soft boundary up to `limit` with enough words before it. */
  function LastSoft(s: string, limit: nat, minWords: nat): (end: Option<nat>)
    requires limit <= |s|
    ensures end.Some? ==> 0 < end.value <= limit && SoftEnd(s, end.value) && Words(s[..end.value]) >= minWords
    ensures forall e: nat | e <= limit && SoftEnd(s, e) && Words(s[..e]) >= minWords :: end.Some? && e <= end.value
  {
    if limit == 0 then None
    else if SoftEnd(s, limit) && Words(s[..limit]) >= minWords then Some(limit)
    else LastSoft(s, limit - 1, minWords)
  }

  function NextBoundary(s: string, l: Limits): (b: Option<nat>)
    requires ValidLimits(l)
    ensures b.Some? ==> 0 < b.value <= |s|
  {
    if Words(s) == 0 then None else
    var hard := FindHard(s, 0, l.minWords);
    if hard.Some? && Words(s[..hard.value]) <= l.maxWords then hard
    else if Words(s) < l.maxWords then None
    else
      WordEndCounts(s, l.maxWords, 0);
      var limit := WordEnd(s, l.maxWords, 0);
      var soft := LastSoft(s, limit, l.minWords);
      if soft.Some? then soft else Some(limit)
  }

  /** A boundary cuts at a break, within the word limits; without one, fewer than the most words are buffered. */
  lemma BoundaryInLimits(s: string, l: Limits)
    requires ValidLimits(l)
    ensures var b := NextBoundary(s, l);
            && (b.Some? ==> 0 < b.value <= |s| && Break(s, b.value) && l.minWords <= Words(s[..b.value]) <= l.maxWords)
            && (b.None? ==> Words(s) < l.maxWords)
  {
    if Words(s) >= l.maxWords {
      WordEndCounts(s, l.maxWords, 0);
      var limit := WordEnd(s, l.maxWords, 0);
      var soft := LastSoft(s, limit, l.minWords);
      if soft.Some? {
        WordsGrow(s, soft.value, limit);
      }
    }
  }

  /** A boundary exists exactly when a useful sentence or line has ended, or the most words have arrived; a hard
      end within the limits wins, and nothing useful ends before it. */
  lemma BoundaryExactly(s: string, l: Limits)
    requires ValidLimits(l)
    ensures NextBoundary(s, l).Some? <==>
              Words(s) >= l.maxWords || exists e: nat :: HardEnd(s, e) && Words(s[..e]) >= l.minWords
    ensures forall e: nat | HardEnd(s, e) && l.minWords <= Words(s[..e]) <= l.maxWords ::
              NextBoundary(s, l).Some? && (NextBoundary(s, l).value <= e || Newlines(s, e, NextBoundary(s, l).value))
  {
    FindHardExactly(s, 0, l.minWords);
    var hard := FindHard(s, 0, l.minWords);
    assert s[..|s|] == s;
    if hard.Some? {
      WordsGrow(s, hard.value, |s|);
    }
    forall e: nat | HardEnd(s, e) && l.minWords <= Words(s[..e]) <= l.maxWords
      ensures hard.Some? && Words(s[..hard.value]) <= l.maxWords && Words(s) > 0
    {
      WordsGrow(s, e, |s|);
      if e < hard.value {
        NewlinesKeepWords(s, e, hard.value);
      } else {
        WordsGrow(s, hard.value, e);
      }
    }
  }

  lemma {:induction false} NewlinesKeepWords(s: string, i: nat, j: nat)
    requires i <= j <= |s| && Newlines(s, i, j)
    ensures Words(s[..i]) == Words(s[..j])
    decreases j - i
  {
    if i < j {
      WordsStep(s, j - 1);
      NewlinesKeepWords(s, i, j - 1);
    }
  }

  /** A soft end within the word limits. */
  ghost predicate UsefulSoftEnd(s: string, e: nat, l: Limits) {
    e <= |s| && SoftEnd(s, e) && l.minWords <= Words(s[..e]) <= l.maxWords
  }

  lemma BeyondWordLimit(s: string, k: nat, e: nat)
    requires 0 < k <= Words(s) && WordEnd(s, k, 0) < e <= |s| && !Space(s[e - 1])
    ensures Words(s[..e]) > k
  {
    assert s[..0] == [];
    WordEndCounts(s, k, 0);
    var limit := WordEnd(s, k, 0);
    NewWordAfter(s, limit, e);
  }

  lemma {:induction false} NewWordAfter(s: string, i: nat, e: nat)
    requires i < e <= |s| && Space(s[i]) && !Space(s[e - 1])
    ensures Words(s[..e]) > Words(s[..i])
    decreases e - i
  {
    WordsStep(s, e - 1);
    if Space(s[e - 2]) {
      WordsGrow(s, i, e - 1);
    } else {
      NewWordAfter(s, i, e - 1);
    }
  }

  lemma NoUsefulHardEnd(s: string, l: Limits)
    requires ValidLimits(l)
    requires forall e: nat | HardEnd(s, e) :: !(l.minWords <= Words(s[..e]) <= l.maxWords)
    ensures FindHard(s, 0, l.minWords).Some? ==> Words(s[..FindHard(s, 0, l.minWords).value]) > l.maxWords
  {
    FindHardExactly(s, 0, l.minWords);
    var hard := FindHard(s, 0, l.minWords);
    if hard.Some? {
      assert HardEnd(s, hard.value);
    }
  }

  /** The choice among soft ends up to the end of the last word allowed. */
  lemma SoftCut(s: string, l: Limits)
    requires ValidLimits(l) && Words(s) >= l.maxWords
    ensures var limit := WordEnd(s, l.maxWords, 0);
            var soft := LastSoft(s, limit, l.minWords);
            && 0 < limit && Words(s[..limit]) == l.maxWords && Break(s, limit) && !Space(s[limit - 1])
            && (soft.Some? ==> UsefulSoftEnd(s, soft.value, l))
            && (forall e: nat | UsefulSoftEnd(s, e, l) :: soft.Some? && e <= soft.value)
  {
    assert s[..0] == [];
    WordEndCounts(s, l.maxWords, 0);
    WordEndIsWord(s, l.maxWords);
    var limit := WordEnd(s, l.maxWords, 0);
    var soft := LastSoft(s, limit, l.minWords);
    if soft.Some? {
      WordsGrow(s, soft.value, limit);
    }
    forall e: nat | UsefulSoftEnd(s, e, l) ensures e <= limit {
      if e > limit {
        BeyondWordLimit(s, l.maxWords, e);
      }
    }
    hide Words, WordEnd;
  }

  /** When the most words have arrived without a useful sentence or line end within the limits, the cut is at the last
      soft end within them, and without one exactly behind the last word allowed. */
  lemma WordLimitCut(s: string, l: Limits)
    requires ValidLimits(l) && Words(s) >= l.maxWords
    requires forall e: nat | HardEnd(s, e) :: !(l.minWords <= Words(s[..e]) <= l.maxWords)
    ensures var b := NextBoundary(s, l);
            && b.Some? && 0 < b.value <= |s|
            && (forall e: nat | UsefulSoftEnd(s, e, l) :: UsefulSoftEnd(s, b.value, l) && e <= b.value)
            && (UsefulSoftEnd(s, b.value, l)
                || (Words(s[..b.value]) == l.maxWords && Break(s, b.value) && !Space(s[b.value - 1])))
  {
    hide FindHard, LastSoft, WordEnd, Words, HardEnd, UsefulSoftEnd, Break, Space;
    NoUsefulHardEnd(s, l);
    SoftCut(s, l);
  }

  /** The k-th word ends in a character of it. */
  lemma WordEndIsWord(s: string, k: nat)
    requires 0 < k <= Words(s)
    ensures 0 < WordEnd(s, k, 0) && !Space(s[WordEnd(s, k, 0) - 1])
  {
    assert s[..0] == [];
    WordEndAfter(s, k, 0);
  }

  lemma {:induction false} WordEndAfter(s: string, k: nat, i: nat)
    requires i <= |s| && 0 < k <= Words(s)
    requires Words(s[..i]) < k || (Words(s[..i]) == k && 0 < i && !Space(s[i - 1]))
    ensures 0 < WordEnd(s, k, i) && !Space(s[WordEnd(s, k, i) - 1])
    decreases |s| - i
  {
    if i == |s| {
      assert s[..i] == s;
    } else if !(Words(s[..i]) >= k && Break(s, i)) {
      WordsStep(s, i);
      WordEndAfter(s, k, i + 1);
    }
  }

  // ---- feeding ----

  /** What `feed` leaves when no boundary is found: blank text is dropped. */
  function Kept(s: string): string {
    if Words(s) == 0 then [] else s
  }

  function Segments(s: string, l: Limits): seq<string>
    requires ValidLimits(l)
    decreases |s|
  {
    var b := NextBoundary(s, l);
    if b.None? then [] else [Strip(s[..b.value])] + Segments(Lstrip(s[b.value..]), l)
  }

  function Rest(s: string, l: Limits): string
    requires ValidLimits(l)
    decreases |s|
  {
    var b := NextBoundary(s, l);
    if b.None? then Kept(s) else Rest(Lstrip(s[b.value..]), l)
  }

  function Concat(parts: seq<string>): string {
    if parts == [] then [] else parts[0] + Concat(parts[1..])
  }

  /** A segment that `feed` may hand out. */
  ghost predicate GoodSegment(segment: string, l: Limits) {
    && l.minWords <= Words(segment) <= l.maxWords
    && segment != [] && !Space(segment[0]) && !Space(segment[|segment| - 1])
  }

  lemma StripIsGood(s: string, l: Limits)
    requires ValidLimits(l) && l.minWords <= Words(s) <= l.maxWords
    ensures GoodSegment(Strip(s), l)
  {
    StripKeeps(s);
    StripBlank(s);
    RstripEnds(Lstrip(s));
    StripStarts(s);
  }

  /** The segment and the text left after one boundary keep the visible characters. */
  lemma CutKeepsVisible(s: string, b: nat)
    requires b <= |s|
    ensures Visible(s) == Visible(Strip(s[..b])) + Visible(Lstrip(s[b..]))
  {
    hide *;
    var head, tail := s[..b], s[b..];
    assert s == head + tail;
    StripKeeps(head);
    LstripKeeps(tail);
    VisibleConcat(head, tail);
  }

  lemma ConcatCons(part: string, parts: seq<string>)
    ensures Visible(Concat([part] + parts)) == Visible(part) + Visible(Concat(parts))
  {
    assert ([part] + parts)[1..] == parts;
    VisibleConcat(part, Concat(parts));
  }

  /** Feeding loses, adds and reorders no visible character. */
  lemma {:induction false} FeedKeepsVisible(s: string, l: Limits)
    requires ValidLimits(l)
    ensures Visible(s) == Visible(Concat(Segments(s, l))) + Visible(Rest(s, l))
    decreases |s|
  {
    hide NextBoundary, Strip, Lstrip, Visible;
    var b := NextBoundary(s, l);
    if b.Some? {
      var segment, tail := Strip(s[..b.value]), Lstrip(s[b.value..]);
      FeedKeepsVisible(tail, l);
      CutKeepsVisible(s, b.value);
      ConcatCons(segment, Segments(tail, l));
    } else {
      NoWordsAllSpace(s);
      NoVisible();
    }
  }

  lemma NoVisible()
    ensures Visible(Concat([])) == [] && Visible([]) == []
  {}

  /** Every segment fed has a word count within the limits, and the rest is below the upper one. */
  lemma {:induction false} FeedInLimits(s: string, l: Limits)
    requires ValidLimits(l)
    ensures forall i | 0 <= i < |Segments(s, l)| :: GoodSegment(Segments(s, l)[i], l)
    ensures Words(Rest(s, l)) < l.maxWords
    decreases |s|
  {
    hide NextBoundary, GoodSegment, Strip, Lstrip;
    BoundaryInLimits(s, l);
    var b := NextBoundary(s, l);
    if b.Some? {
      FeedInLimits(Lstrip(s[b.value..]), l);
      StripIsGood(s[..b.value], l);
    }
  }

  /** What is left after feeding has no boundary any more, every useful end has been cut at, and it is not blank. */
  lemma {:induction false} RestHasNoBoundary(s: string, l: Limits)
    requires ValidLimits(l)
    ensures NextBoundary(Rest(s, l), l).None?
    ensures Rest(s, l) != [] ==> Words(Rest(s, l)) > 0
    decreases |s|
  {
    hide Strip, Lstrip, FindHard, LastSoft, WordEnd;
    var b := NextBoundary(s, l);
    if b.Some? {
      RestHasNoBoundary(Lstrip(s[b.value..]), l);
    }
  }

  // ---- the class ----

  class CallTtsSegmenter {
    const limits: Limits
    var buffer: string
    var finished: bool

    constructor (limits: Limits)
      requires ValidLimits(limits)
      ensures this.limits == limits && buffer == [] && !finished
    {
      this.limits, buffer, finished := limits, [], false;
    }

    /** The loop over hard boundaries, up to the first with enough words. */
    method HardBoundary() returns (end: Option<nat>)
      ensures end == FindHard(buffer, 0, limits.minWords)
    {
      var i := 0;
      while i < |buffer|
        invariant 0 <= i <= |buffer|
        invariant FindHard(buffer, 0, limits.minWords) == FindHard(buffer, i, limits.minWords)
      {
        end := MatchAt(buffer, i);
        if end.None? {
          i := i + 1;
        } else if Words(buffer[..end.value]) >= limits.minWords {
          return;
        } else {
          i := end.value;
        }
      }
      end := None;
    }

    /** The loop over soft boundaries before the word limit; the last one counts. */
    method SoftBoundary(limit: nat) returns (end: Option<nat>)
      requires limit <= |buffer|
      ensures end == LastSoft(buffer, limit, limits.minWords)
    {
      end := None;
      var e := 0;
      while e < limit
        invariant 0 <= e <= limit && end == LastSoft(buffer, e, limits.minWords)
      {
        e := e + 1;
        if Soft(buffer[e - 1]) && (e == |buffer| || Space(buffer[e])) && Words(buffer[..e]) >= limits.minWords {
          end := Some(e);
        }
      }
    }

    method FindBoundary() returns (boundary: Option<nat>)
      requires ValidLimits(limits)
      modifies `buffer
      ensures boundary == NextBoundary(old(buffer), limits)
      ensures buffer == if boundary.None? then Kept(old(buffer)) else old(buffer)
    {
      if Words(buffer) == 0 {
        buffer := [];
        return None;
      }
      boundary := HardBoundary();
      if boundary.Some? && Words(buffer[..boundary.value]) <= limits.maxWords {
        return;
      }
      if Words(buffer) < limits.maxWords {
        return None;
      }
      WordEndCounts(buffer, limits.maxWords, 0);
      var limit := WordEnd(buffer, limits.maxWords, 0);
      boundary := SoftBoundary(limit);
      if boundary.None? {
        boundary := Some(limit);
      }
    }

    /** Adds a token and hands out every segment that is complete; `None` is the error after `Finish`. */
    method Feed(token: string) returns (emitted: Option<seq<string>>)
      requires ValidLimits(limits)
      modifies `buffer
      ensures old(finished) ==> emitted.None? && buffer == old(buffer)
      ensures !old(finished) ==>
                emitted == Some(Segments(old(buffer) + token, limits)) && buffer == Rest(old(buffer) + token, limits)
    {
      if finished {
        return None;
      }
      hide Segments, Rest, NextBoundary, Strip, Lstrip, Kept;
      ghost var whole := buffer + token;
      buffer := buffer + token;
      assert [] + Segments(whole, limits) == Segments(whole, limits);
      var segments: seq<string> := [];
      while true
        invariant segments + Segments(buffer, limits) == Segments(whole, limits)
        invariant Rest(buffer, limits) == Rest(whole, limits)
        decreases |buffer|
      {
        ghost var before := buffer;
        SegmentsNext(before, limits);
        var boundary := FindBoundary();
        if boundary.None? {
          assert segments + [] == segments;
          return Some(segments);
        }
        var segment := Strip(buffer[..boundary.value]);
        buffer := Lstrip(buffer[boundary.value..]);
        Associative(segments, [segment], Segments(buffer, limits));
        if segment != [] {
          segments := segments + [segment];
        }
      }
    }

    method Finish() returns (tail: string)
      modifies this
      ensures finished && tail == (if old(finished) then [] else Strip(old(buffer)))
      ensures buffer == if old(finished) then old(buffer) else []
    {
      if finished {
        return [];
      }
      finished := true;
      tail := Strip(buffer);
      buffer := [];
    }
  }

  lemma Associative<T>(x: seq<T>, y: seq<T>, z: seq<T>)
    ensures x + (y + z) == x + y + z
  {}

  lemma SegmentsNext(s: string, l: Limits)
    requires ValidLimits(l)
    ensures var b := NextBoundary(s, l);
            if b.None? then Segments(s, l) == [] && Rest(s, l) == Kept(s)
            else
              var segment, tail := Strip(s[..b.value]), Lstrip(s[b.value..]);
              && segment != [] && |tail| < |s|
              && Segments(s, l) == [segment] + Segments(tail, l) && Rest(s, l) == Rest(tail, l)
  {
    BoundaryInLimits(s, l);
    if NextBoundary(s, l).Some? {
      StripBlank(s[..NextBoundary(s, l).value]);
    }
    hide NextBoundary, Strip;
  }
}

/** The token loop of a call turn: what is sent to speech and what is recorded. */
module TokenLoop {
  import opened Text
  import opened Segmenter
  import opened Wrappers

  /** `recorded` is the accumulated text, `pending` the blank tokens held back before the first visible one. */
  datatype Loop = Loop(recorded: string, started: bool, pending: string, spoken: seq<string>, buffer: string)

  function Step(loop: Loop, token: string, l: Limits): Loop
    requires ValidLimits(l)
  {
    if token == [] then loop
    else if !loop.started && Words(token) == 0 then loop.(pending := loop.pending + token)
    else
      var text := loop.pending + token;
      Loop(loop.recorded + text, true, [], loop.spoken + Segments(loop.buffer + text, l), Rest(loop.buffer + text, l))
  }

  function Consume(tokens: seq<string>, l: Limits): Loop
    requires ValidLimits(l)
    decreases |tokens|
  {
    if tokens == [] then Loop([], false, [], [], [])
    else Step(Consume(tokens[..|tokens| - 1], l), tokens[|tokens| - 1], l)
  }

  function Joined(tokens: seq<string>): string
    decreases |tokens|
  {
    if tokens == [] then [] else Joined(tokens[..|tokens| - 1]) + tokens[|tokens| - 1]
  }

  lemma {:induction false} ConcatAppend(a: seq<string>, b: seq<string>)
    ensures Visible(Concat(a + b)) == Visible(Concat(a)) + Visible(Concat(b))
    decreases |a|
  {
    hide Visible;
    if a == [] {
      assert a + b == b;
      NoVisible();
      assert [] + Visible(Concat(b)) == Visible(Concat(b));
    } else {
      Associative(Visible(a[0]), Visible(Concat(a[1..])), Visible(Concat(b)));
      assert a + b == [a[0]] + (a[1..] + b) && a == [a[0]] + a[1..];
      ConcatCons(a[0], a[1..] + b);
      ConcatCons(a[0], a[1..]);
      ConcatAppend(a[1..], b);
    }
  }

  ghost predicate LoopInv(loop: Loop, tokens: seq<string>, l: Limits) {
    && Visible(loop.recorded) == Visible(Concat(loop.spoken)) + Visible(loop.buffer)
    && (forall i | 0 <= i < |loop.spoken| :: GoodSegment(loop.spoken[i], l))
    && Words(loop.buffer) < l.maxWords
    && loop.recorded + loop.pending == Joined(tokens)
    && (!loop.started ==> Words(loop.pending) == 0 && loop.recorded == [])
    && (loop.started ==> loop.pending == [] && Words(loop.recorded) > 0)
  }

  lemma SpeakKeeps(loop: Loop, text: string, l: Limits)
    requires ValidLimits(l)
    requires Visible(loop.recorded) == Visible(Concat(loop.spoken)) + Visible(loop.buffer)
    ensures Visible(loop.recorded + text)
         == Visible(Concat(loop.spoken + Segments(loop.buffer + text, l))) + Visible(Rest(loop.buffer + text, l))
  {
    hide Segments, Rest, Visible, Concat;
    VisibleConcat(loop.recorded, text);
    VisibleConcat(loop.buffer, text);
    FeedKeepsVisible(loop.buffer + text, l);
    ConcatAppend(loop.spoken, Segments(loop.buffer + text, l));
    Associative(Visible(Concat(loop.spoken)), Visible(loop.buffer), Visible(text));
    Associative(Visible(Concat(loop.spoken)), Visible(Concat(Segments(loop.buffer + text, l))),
                Visible(Rest(loop.buffer + text, l)));
  }

  lemma TextGrows(s: string, t: string)
    ensures Words(s) == 0 && Words(t) == 0 <==> Words(s + t) == 0
  {
    VisibleConcat(s, t);
    NoWordsAllSpace(s);
    NoWordsAllSpace(t);
    NoWordsAllSpace(s + t);
    hide Visible, Words;
  }

  lemma StepKeeps(loop: Loop, token: string, tokens: seq<string>, l: Limits)
    requires ValidLimits(l) && LoopInv(loop, tokens, l)
    ensures LoopInv(Step(loop, token, l), tokens + [token], l)
  {
    hide Segments, Rest, Visible, Concat, GoodSegment, Words;
    assert (tokens + [token])[..|tokens|] == tokens;
    var text := loop.pending + token;
    Associative(loop.recorded, loop.pending, token);
    if token == [] {
      assert Joined(tokens) + [] == Joined(tokens);
    } else if !loop.started && Words(token) == 0 {
      TextGrows(loop.pending, token);
    } else {
      if loop.started {
        assert text == token;
      } else {
        assert loop.recorded + text == text;
      }
      TextGrows(loop.pending, token);
      TextGrows(loop.recorded, text);
      SpeakKeeps(loop, text, l);
      FeedInLimits(loop.buffer + text, l);
      assert loop.recorded + text + [] == loop.recorded + text;
    }
  }

  lemma {:induction false} LoopKeeps(tokens: seq<string>, l: Limits)
    requires ValidLimits(l)
    ensures LoopInv(Consume(tokens, l), tokens, l)
    decreases |tokens|
  {
    hide LoopInv, Step;
    if tokens != [] {
      var before := tokens[..|tokens| - 1];
      LoopKeeps(before, l);
      StepKeeps(Consume(before, l), tokens[|tokens| - 1], before, l);
      assert before + [tokens[|tokens| - 1]] == tokens;
    } else {
      LoopStarts(l);
    }
  }

  lemma LoopStarts(l: Limits)
    requires ValidLimits(l)
    ensures LoopInv(Loop([], false, [], [], []), [], l)
  {}

  /** What is spoken is what is recorded: for every token stream the segments and the final tail carry exactly the
      visible characters of the recorded text, in order, and the recorded text is the whole stream. */
  lemma SpokenIsRecorded(tokens: seq<string>, l: Limits)
    requires ValidLimits(l)
    ensures var loop := Consume(tokens, l);
            && Visible(Concat(loop.spoken + [Strip(loop.buffer)])) == Visible(loop.recorded)
            && loop.recorded == (if Words(Joined(tokens)) == 0 then [] else Joined(tokens))
            && (forall i | 0 <= i < |loop.spoken| :: l.minWords <= Words(loop.spoken[i]) <= l.maxWords)
            && Words(Strip(loop.buffer)) < l.maxWords
  {
    LoopKeeps(tokens, l);
    var loop := Consume(tokens, l);
    ConcatAppend(loop.spoken, [Strip(loop.buffer)]);
    assert Concat([Strip(loop.buffer)]) == Strip(loop.buffer) + Concat([]);
    assert Strip(loop.buffer) + [] == Strip(loop.buffer);
    StripKeeps(loop.buffer);
    assert loop.recorded + [] == loop.recorded && [] + loop.pending == loop.pending;
    hide Consume, Segments, Rest, Visible;
  }

  /** The loop in the source's form, with its segmenter. */
  method ConsumeTokens(tokens: seq<string>, l: Limits) returns (recorded: string, spoken: seq<string>, tail: string)
    requires ValidLimits(l)
    ensures recorded == (if Words(Joined(tokens)) == 0 then [] else Joined(tokens))
    ensures Visible(Concat(spoken + [tail])) == Visible(recorded)
    ensures forall i | 0 <= i < |spoken| :: l.minWords <= Words(spoken[i]) <= l.maxWords
    ensures Words(tail) < l.maxWords
  {
    var segmenter := new CallTtsSegmenter(l);
    var started, pending := false, [];
    recorded, spoken := [], [];
    for i := 0 to |tokens|
      invariant fresh(segmenter) && segmenter.limits == l && !segmenter.finished
      invariant Consume(tokens[..i], l) == Loop(recorded, started, pending, spoken, segmenter.buffer)
    {
      var token := tokens[i];
      assert tokens[..i + 1][..i] == tokens[..i];
      if token == [] {
        continue;
      }
      if !started && Words(token) == 0 {
        pending := pending + token;
        continue;
      }
      var text := pending + token;
      pending, started := [], true;
      recorded := recorded + text;
      var segments := segmenter.Feed(text);
      spoken := spoken + segments.value;
    }
    assert tokens[..|tokens|] == tokens;
    tail := segmenter.Finish();
    SpokenIsRecorded(tokens, l);
  }
}

/** The limits of a generation request, from its word count alone. */
module GenerationLimits {
  import opened Wrappers
  import opened Text
  import QwenStream
  import Segmenter

  const MAX_SEGMENT_WORDS: nat := 60
  const MAX_TEXT: nat := 8_000

  datatype Refusal = TargetRequired | TargetTooLong

  datatype Outcome = Refused(refusal: Refusal) | Accepted(tokens: nat, audioMs: nat)

  function MaxReal(a: real, b: real): real {
    if a >= b then a else b
  }

  function MinReal(a: real, b: real): real {
    if a <= b then a else b
  }

  /** The hard audio limit in seconds, before rounding. */
  function HardSeconds(words: nat): real {
    MinReal(32.0, MaxReal(6.0, MaxReal(1.0, (words as real) / 2.2) * 2.25 + 2.0))
  }

  function Ceil(x: real): int {
    -((-x).Floor)
  }

  function Tokens(words: nat): int {
    var needed := Ceil(HardSeconds(words) * 12.0 / 4.0) * 4;
    if needed <= 384 then needed else 384
  }

  /** Rounded to milliseconds; no word count lands on a half. */
  function AudioMs(words: nat): int {
    (HardSeconds(words) * 1000.0 + 0.5).Floor
  }

  lemma LimitsInRange(words: nat)
    requires 1 <= words <= MAX_SEGMENT_WORDS
    ensures 6.0 <= HardSeconds(words) <= 32.0
    ensures 4 <= Tokens(words) <= 384 && Tokens(words) % 4 == 0
    ensures (Tokens(words) as real) >= 12.0 * HardSeconds(words)
    ensures 6_000 <= AudioMs(words) <= 32_000
  {}

  /** What the limits are: 2.25 times the expected speech at 2.2 words a second, and two seconds more, but six seconds
      up to three words and 32 from thirty on; the fewest tokens in fours that cover twelve a second; and the audio
      limit to the nearest millisecond. */
  lemma LimitsExactly(words: nat)
    requires 1 <= words <= MAX_SEGMENT_WORDS
    ensures HardSeconds(words)
            == if words <= 3 then 6.0 else if words >= 30 then 32.0 else 2.25 * (words as real) / 2.2 + 2.0
    ensures (Tokens(words) as real) - 4.0 < 12.0 * HardSeconds(words) <= (Tokens(words) as real)
    ensures -0.5 <= (AudioMs(words) as real) - 1000.0 * HardSeconds(words) <= 0.5
  {}

  function Of(words: nat): Outcome {
    if words == 0 then Refused(TargetRequired)
    else if words > MAX_SEGMENT_WORDS then Refused(TargetTooLong)
    else
      LimitsInRange(words);
      Accepted(Tokens(words), AudioMs(words))
  }

  /** More words never get less. */
  lemma LimitsGrow(words: nat, more: nat)
    requires 1 <= words <= more <= MAX_SEGMENT_WORDS
    ensures HardSeconds(words) <= HardSeconds(more)
    ensures Tokens(words) <= Tokens(more) && AudioMs(words) <= AudioMs(more)
  {
    assert (words as real) / 2.2 <= (more as real) / 2.2;
  }

  /** The text rule of a generate command. */
  predicate ValidText(text: string) {
    1 <= |text| <= MAX_TEXT && Words(text) > 0
  }

  const DEFAULT := Segmenter.Limits(4, 60)

  /** A text gets through, limits, command and text rule together, exactly when it has 1 to 60 words and is not too
      long: the limits computed for it never break a numeric rule of the command, and its tokens cover twelve per
      second of the unrounded audio limit. */
  lemma AcceptedExactly(text: string)
    ensures var limits := Of(Words(text));
            && (limits.Accepted? && QwenStream.ValidCommand(QwenStream.Command(limits.tokens, 1000 * limits.audioMs))
                && ValidText(text)
                <==> 1 <= Words(text) <= MAX_SEGMENT_WORDS && |text| <= MAX_TEXT)
            && (limits.Accepted? ==>
                  && QwenStream.ValidCommand(QwenStream.Command(limits.tokens, 1000 * limits.audioMs))
                  && (limits.tokens as real) >= 12.0 * HardSeconds(Words(text))
                  && (ValidText(text) <==> |text| <= MAX_TEXT))
            && (limits.Accepted? <==> 1 <= Words(text) <= MAX_SEGMENT_WORDS)
  {
    if 1 <= Words(text) <= MAX_SEGMENT_WORDS {
      LimitsInRange(Words(text));
      assert text != [];
    }
  }

  /** Every segment and every non-empty tail of a default segmenter is accepted downstream. */
  lemma DefaultSegmentsAreAccepted(buffered: string, token: string, i: nat)
    ensures i < |Segmenter.Segments(buffered + token, DEFAULT)| ==>
              Of(Words(Segmenter.Segments(buffered + token, DEFAULT)[i])).Accepted?
    ensures var tail := Strip(Segmenter.Rest(buffered + token, DEFAULT));
            tail != [] ==> Of(Words(tail)).Accepted?
  {
    Segmenter.FeedInLimits(buffered + token, DEFAULT);
    var rest := Segmenter.Rest(buffered + token, DEFAULT);
    StripKeeps(rest);
    StripBlank(rest);
    hide HardSeconds, Segmenter.Segments, Segmenter.Rest, Strip;
  }

  lemma {:induction false} OneWord(n: nat)
    requires n > 0
    ensures Words(seq(n, _ => 'a')) == 1
  {
    var s := seq(n, _ => 'a');
    if n > 1 {
      OneWord(n - 1);
      assert s[..n - 1] == seq(n - 1, _ => 'a');
    } else {
      assert s[..0] == [];
    }
  }

  /** Word counts do not bound length: one word of 8001 letters gets limits and is then refused by the command. */
  lemma LongWordIsRefused()
    ensures var text := seq(8001, _ => 'a');
            Words(text) == 1 && Of(Words(text)).Accepted? && !ValidText(text)
  {
    OneWord(8001);
  }
}
