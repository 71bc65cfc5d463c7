/**
  The voice-activity analysis window: appended sample arrays, trimmed from the front to a maximum.
*/
module VadWindow {
  type Sample = int

  /** The last min(n, |s|) elements. */
  function Last<T>(s: seq<T>, n: nat): (r: seq<T>)
    ensures |r| == if |s| <= n then |s| else n
  {
    if |s| <= n then s else s[|s| - n..]
  }

  function Flat(chunks: seq<seq<Sample>>): seq<Sample> {
    if chunks == [] then [] else chunks[0] + Flat(chunks[1..])
  }

  /** The window after a run of appends: each with its samples and its maximum. */
  datatype Append = Append(samples: seq<Sample>, max: nat)

  function Window(appends: seq<Append>): seq<Sample>
    decreases |appends|
  {
    if appends == [] then []
    else var a := appends[|appends| - 1]; Last(Window(appends[..|appends| - 1]) + a.samples, a.max)
  }

  function All(appends: seq<Append>): seq<Sample>
    decreases |appends|
  {
    if appends == [] then [] else All(appends[..|appends| - 1]) + appends[|appends| - 1].samples
  }

  lemma {:induction false} FlatSnoc(chunks: seq<seq<Sample>>, chunk: seq<Sample>)
    ensures Flat(chunks + [chunk]) == Flat(chunks) + chunk
    decreases |chunks|
  {
    if chunks == [] {
      assert Flat([chunk]) == chunk + [];
    } else {
      assert (chunks + [chunk])[1..] == chunks[1..] + [chunk];
      FlatSnoc(chunks[1..], chunk);
      assert chunks[0] + (Flat(chunks[1..]) + chunk) == chunks[0] + Flat(chunks[1..]) + chunk;
    }
  }

  lemma LastOfLast(a: seq<Sample>, b: seq<Sample>, n: nat)
    ensures Last(Last(a, n) + b, n) == Last(a + b, n)
  {}

  /** With one maximum throughout, the window is exactly the last samples of everything appended. */
  lemma {:induction false} WindowIsLast(appends: seq<Append>, max: nat)
    requires forall i | 0 <= i < |appends| :: appends[i].max == max
    ensures Window(appends) == Last(All(appends), max)
    decreases |appends|
  {
    if appends != [] {
      var before := appends[..|appends| - 1];
      WindowIsLast(before, max);
      LastOfLast(All(before), appends[|appends| - 1].samples, max);
    }
  }

  ghost predicate Suffix(window: seq<Sample>, all: seq<Sample>) {
    |window| <= |all| && window == all[|all| - |window|..]
  }

  lemma LastIsSuffix(all: seq<Sample>, window: seq<Sample>, samples: seq<Sample>, n: nat)
    requires Suffix(window, all)
    ensures Suffix(Last(window + samples, n), all + samples)
  {}

  /** Whatever the maxima, the window is a suffix of everything appended, no longer than the last maximum. */
  lemma {:induction false} WindowIsSuffix(appends: seq<Append>)
    ensures Suffix(Window(appends), All(appends))
    ensures appends != [] ==> |Window(appends)| <= appends[|appends| - 1].max
    decreases |appends|
  {
    hide Suffix, Last;
    if appends == [] {
      EmptySuffix();
    } else {
      var before := appends[..|appends| - 1];
      WindowIsSuffix(before);
      LastIsSuffix(All(before), Window(before), appends[|appends| - 1].samples, appends[|appends| - 1].max);
    }
  }

  lemma EmptySuffix()
    ensures Suffix([], [])
  {}

  class VadAnalysisWindow {
    var recentSamples: seq<seq<Sample>>
    var recentSampleCount: nat
    ghost var appends: seq<Append>

    /** The count is the sum of the lengths, and the contents are what the appends since the reset leave. */
    ghost predicate Valid()
      reads this
    {
      recentSampleCount == |Flat(recentSamples)| && Flat(recentSamples) == Window(appends)
    }

    constructor ()
      ensures Valid() && appends == []
    {
      recentSamples, recentSampleCount, appends := [], 0, [];
    }

    method AppendSamples(samples: seq<Sample>, maxSamples: nat)
      requires Valid()
      modifies this
      ensures Valid() && appends == old(appends) + [Append(samples, maxSamples)]
    {
      ghost var whole := Flat(recentSamples) + samples;
      if samples != [] {
        FlatSnoc(recentSamples, samples);
        recentSamples := recentSamples + [samples];
        recentSampleCount := recentSampleCount + |samples|;
      }
      appends := appends + [Append(samples, maxSamples)];
      assert appends[..|appends| - 1] == old(appends);
      Trim(maxSamples);
    }

    /** Drops or shortens the oldest arrays until at most `maxSamples` samples are left. */
    method Trim(maxSamples: nat)
      requires recentSampleCount == |Flat(recentSamples)|
      modifies `recentSamples, `recentSampleCount
      ensures recentSampleCount == |Flat(recentSamples)|
      ensures Flat(recentSamples) == Last(old(Flat(recentSamples)), maxSamples)
    {
      ghost var whole := Flat(recentSamples);
      while recentSamples != [] && recentSampleCount > maxSamples
        invariant recentSampleCount == |Flat(recentSamples)| <= |whole|
        invariant Flat(recentSamples) == whole[|whole| - recentSampleCount..]
        invariant recentSampleCount >= maxSamples || recentSampleCount == |whole|
        decreases |recentSamples|, recentSampleCount
      {
        var overflow := recentSampleCount - maxSamples;
        var oldest := recentSamples[0];
        assert Flat(recentSamples) == oldest + Flat(recentSamples[1..]);
        if |oldest| <= overflow {
          recentSamples := recentSamples[1..];
          recentSampleCount := recentSampleCount - |oldest|;
        } else {
          assert recentSamples[0 := oldest[overflow..]][1..] == recentSamples[1..];
          recentSamples := recentSamples[0 := oldest[overflow..]];
          recentSampleCount := recentSampleCount - overflow;
        }
      }
    }

    method Reset()
      modifies this
      ensures Valid() && appends == [] && recentSamples == []
    {
      recentSamples, recentSampleCount, appends := [], 0, [];
    }

    /** What the analysis reads. */
    method AnalysisSamples() returns (samples: seq<Sample>)
      requires Valid()
      ensures samples == Window(appends)
    {
      samples := [];
      var i := 0;
      while i < |recentSamples|
        invariant 0 <= i <= |recentSamples|
        invariant samples + Flat(recentSamples[i..]) == Flat(recentSamples)
      {
        assert recentSamples[i..] == [recentSamples[i]] + recentSamples[i + 1..];
        samples := samples + recentSamples[i];
        i := i + 1;
      }
    }
  }
}
