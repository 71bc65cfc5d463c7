/**
  The speech worker's event stream and the validator that polices it.

  Time is in microseconds. A sample at 24 kHz lasts 125/3 microseconds, so thirds of a microsecond are exact:
  `TICKS_PER_SAMPLE` of them to a sample, three to a microsecond.
*/
module QwenStream {
  import opened Wrappers

  const CHUNK_SIZE: nat := 4
  const TICKS_PER_SAMPLE: nat := 125
  const MAX_CHUNK_US: nat := 2_000_000
  const MAX_STEPS: nat := 384

  /** `hardUs` is the hard audio limit of the request. */
  datatype Command = Command(maxNewTokens: nat, hardUs: nat)

  /** One item of the model's stream: how many samples, how many steps the model reports, when it was ready, whether
      it has the right form and rate, and whether its audio makes a valid event. */
  datatype Generated = Generated(samples: nat, steps: nat, clockUs: nat, wellFormed: bool, audioValid: bool)

  datatype ErrorCode = GenerationCeiling | GenerationFailed

  datatype TerminalKind = Done | Cancelled | Error(code: ErrorCode)

  datatype Event =
    | Chunk(index: nat, samples: nat, generatedAtUs: nat, totalSteps: nat)
    | Terminal(kind: TerminalKind, chunkCount: nat)

  /** The limits a generate command must respect. */
  predicate ValidCommand(c: Command) {
    && 4 <= c.maxNewTokens <= MAX_STEPS && c.maxNewTokens % 4 == 0
    && 100_000 <= c.hardUs <= 32_000_000
  }

  /** The duration an event states: rounded to whole microseconds. A sample count never lands on a half. */
  function RoundedUs(samples: nat): nat {
    (2 * TICKS_PER_SAMPLE * samples + 3) / 6
  }

  function Max(a: nat, b: nat): nat {
    if a >= b then a else b
  }

  // ---- the producer ----

  /** What has been sent so far. */
  datatype Sent = Sent(chunks: nat, samples: nat, steps: nat)

  function StepsAfter(sent: Sent, g: Generated): nat {
    Max(sent.steps + CHUNK_SIZE, g.steps)
  }

  /** Why an item does not become a chunk, in the order of the checks. */
  function Refusal(c: Command, sent: Sent, g: Generated): Option<ErrorCode> {
    if !g.wellFormed || g.samples == 0 then Some(GenerationFailed)
    else if TICKS_PER_SAMPLE * (sent.samples + g.samples) > 3 * c.hardUs then Some(GenerationCeiling)
    else if StepsAfter(sent, g) >= c.maxNewTokens then Some(GenerationCeiling)
    else if !g.audioValid || RoundedUs(g.samples) > MAX_CHUNK_US then Some(GenerationFailed)
    else None
  }

  /** Cancellation is looked at before the first item, twice per item and once at the end; it is seen from
      check number `cancelAt` on. The stream ends by itself or, with `raises`, by an exception. */
  function Produce(c: Command, items: seq<Generated>, raises: bool, cancelAt: nat, check: nat, sent: Sent): seq<Event>
    decreases |items|
  {
    if items == [] then
      if raises then [Terminal(Error(GenerationFailed), sent.chunks)]
      else if check >= cancelAt then [Terminal(Cancelled, sent.chunks)]
      else if sent.steps >= c.maxNewTokens then [Terminal(Error(GenerationCeiling), sent.chunks)]
      else [Terminal(Done, sent.chunks)]
    else if check >= cancelAt then [Terminal(Cancelled, sent.chunks)]
    else
      var g := items[0];
      var refusal := Refusal(c, sent, g);
      if refusal.Some? then [Terminal(Error(refusal.value), sent.chunks)]
      else if check + 1 >= cancelAt then [Terminal(Cancelled, sent.chunks)]
      else
        [Chunk(sent.chunks, g.samples, g.clockUs, StepsAfter(sent, g))]
        + Produce(c, items[1..], raises, cancelAt, check + 2,
                  Sent(sent.chunks + 1, sent.samples + g.samples, StepsAfter(sent, g)))
  }

  function Stream(c: Command, items: seq<Generated>, raises: bool, cancelAt: nat): seq<Event> {
    if cancelAt == 0 then [Terminal(Cancelled, 0)] else Produce(c, items, raises, cancelAt, 1, Sent(0, 0, 0))
  }

  lemma ProduceNext(c: Command, items: seq<Generated>, i: nat, raises: bool, cancelAt: nat, check: nat, sent: Sent)
    requires i < |items| && check + 1 < cancelAt && Refusal(c, sent, items[i]).None?
    ensures var g := items[i];
            Produce(c, items[i..], raises, cancelAt, check, sent)
            == [Chunk(sent.chunks, g.samples, g.clockUs, StepsAfter(sent, g))]
               + Produce(c, items[i + 1..], raises, cancelAt, check + 2,
                         Sent(sent.chunks + 1, sent.samples + g.samples, StepsAfter(sent, g)))
  {
    assert items[i..][1..] == items[i + 1..];
  }

  lemma ProduceTerminal(c: Command, items: seq<Generated>, i: nat, raises: bool, cancelAt: nat, check: nat, sent: Sent)
    requires i < |items| && (check + 1 >= cancelAt || Refusal(c, sent, items[i]).Some?)
    ensures var refusal := Refusal(c, sent, items[i]);
            Produce(c, items[i..], raises, cancelAt, check, sent)
            == [Terminal(if check >= cancelAt || refusal.None? then Cancelled else Error(refusal.value), sent.chunks)]
  {}

  lemma ProduceEnd(c: Command, items: seq<Generated>, raises: bool, cancelAt: nat, check: nat, sent: Sent)
    ensures Produce(c, items[|items|..], raises, cancelAt, check, sent)
            == [Terminal(if raises then Error(GenerationFailed) else if check >= cancelAt then Cancelled
                         else if sent.steps >= c.maxNewTokens then Error(GenerationCeiling) else Done, sent.chunks)]
  {}

  lemma Associative<T>(x: seq<T>, y: seq<T>, z: seq<T>)
    ensures x + (y + z) == x + y + z
  {}

  /** The checks an item must pass, in the source's order. */
  method CheckItem(c: Command, cumulative: nat, lastSteps: nat, g: Generated, ghost chunks: nat)
    returns (totalSteps: nat, refusal: Option<ErrorCode>)
    ensures var sent := Sent(chunks, cumulative, lastSteps);
            totalSteps == StepsAfter(sent, g) && refusal == Refusal(c, sent, g)
  {
    hide RoundedUs;
    totalSteps := Max(lastSteps + CHUNK_SIZE, g.steps);
    if !g.wellFormed || g.samples == 0 {
      return totalSteps, Some(GenerationFailed);
    }
    if TICKS_PER_SAMPLE * (cumulative + g.samples) > 3 * c.hardUs {
      return totalSteps, Some(GenerationCeiling);
    }
    if totalSteps >= c.maxNewTokens {
      return totalSteps, Some(GenerationCeiling);
    }
    if !g.audioValid || RoundedUs(g.samples) > MAX_CHUNK_US {
      return totalSteps, Some(GenerationFailed);
    }
    refusal := None;
  }

  /** The producer in the source's form. */
  method IterGenerationEvents(c: Command, items: seq<Generated>, raises: bool, cancelAt: nat) returns (events: seq<Event>)
    ensures events == Stream(c, items, raises, cancelAt)
  {
    if cancelAt == 0 {
      return [Terminal(Cancelled, 0)];
    }
    assert items[0..] == items;
    ghost var whole := Stream(c, items, raises, cancelAt);
    assert whole == Produce(c, items, raises, cancelAt, 1, Sent(0, 0, 0));
    hide *;
    events := [];
    var chunkCount: nat, cumulative: nat, lastSteps: nat, check: nat := 0, 0, 0, 1;
    var i := 0;
    while i < |items|
      invariant 0 <= i <= |items|
      invariant whole
             == events + Produce(c, items[i..], raises, cancelAt, check, Sent(chunkCount, cumulative, lastSteps))
    {
      ghost var sent := Sent(chunkCount, cumulative, lastSteps);
      var g := items[i];
      if check >= cancelAt {
        ProduceTerminal(c, items, i, raises, cancelAt, check, sent);
        return events + [Terminal(Cancelled, chunkCount)];
      }
      var totalSteps, refusal := CheckItem(c, cumulative, lastSteps, g, chunkCount);
      if refusal.Some? {
        ProduceTerminal(c, items, i, raises, cancelAt, check, sent);
        return events + [Terminal(Error(refusal.value), chunkCount)];
      }
      if check + 1 >= cancelAt {
        ProduceTerminal(c, items, i, raises, cancelAt, check, sent);
        return events + [Terminal(Cancelled, chunkCount)];
      }
      ProduceNext(c, items, i, raises, cancelAt, check, sent);
      ghost var next := Sent(chunkCount + 1, cumulative + g.samples, totalSteps);
      Associative(events, [Chunk(chunkCount, g.samples, g.clockUs, totalSteps)],
                  Produce(c, items[i + 1..], raises, cancelAt, check + 2, next));
      events := events + [Chunk(chunkCount, g.samples, g.clockUs, totalSteps)];
      chunkCount, cumulative, lastSteps, check := chunkCount + 1, cumulative + g.samples, totalSteps, check + 2;
      i := i + 1;
    }
    ProduceEnd(c, items, raises, cancelAt, check, Sent(chunkCount, cumulative, lastSteps));
    if raises {
      events := events + [Terminal(Error(GenerationFailed), chunkCount)];
    } else if check >= cancelAt {
      events := events + [Terminal(Cancelled, chunkCount)];
    } else if lastSteps >= c.maxNewTokens {
      events := events + [Terminal(Error(GenerationCeiling), chunkCount)];
    } else {
      events := events + [Terminal(Done, chunkCount)];
    }
  }

  // ---- the validator ----

  /** `rounded`: durations as the events state them; otherwise exact. In ticks. */
  function Ticks(samples: nat, rounded: bool): nat {
    if rounded then 3 * RoundedUs(samples) else TICKS_PER_SAMPLE * samples
  }

  datatype Validator = Validator(
    ceilingUs: nat, rounded: bool, nextIndex: nat, lastAtUs: nat, lastSteps: nat, ticks: nat, terminal: Option<Event>)

  predicate Accepts(v: Validator, e: Event) {
    && v.terminal.None?
    && match e
       case Chunk(index, samples, at, steps) =>
         index == v.nextIndex && at >= v.lastAtUs && steps > v.lastSteps
         && v.ticks + Ticks(samples, v.rounded) <= 3 * v.ceilingUs
       case Terminal(_, count) => count == v.nextIndex
  }

  function Accept(v: Validator, e: Event): Validator
    requires Accepts(v, e)
  {
    match e
    case Chunk(index, samples, at, steps) =>
      v.(nextIndex := v.nextIndex + 1, lastAtUs := at, lastSteps := steps, ticks := v.ticks + Ticks(samples, v.rounded))
    case Terminal(_, _) => v.(terminal := Some(e))
  }

  predicate AcceptsAll(v: Validator, events: seq<Event>)
    decreases |events|
  {
    events == [] || (Accepts(v, events[0]) && AcceptsAll(Accept(v, events[0]), events[1..]))
  }

  function NewValidator(ceilingUs: nat, rounded: bool): Validator {
    Validator(ceilingUs, rounded, 0, 0, 0, 0, None)
  }

  /** The validator in the source's form. */
  class QwenStreamEventValidator {
    const maxCumulativeUs: nat
    var nextChunkIndex: nat
    var lastGeneratedAtUs: nat
    var lastTotalSteps: nat
    var cumulativeUs: nat
    var terminal: Option<Event>

    function View(): Validator
      reads this
    {
      Validator(maxCumulativeUs, true, nextChunkIndex, lastGeneratedAtUs, lastTotalSteps, 3 * cumulativeUs, terminal)
    }

    constructor (maxCumulativeUs: nat)
      ensures View() == NewValidator(maxCumulativeUs, true)
    {
      this.maxCumulativeUs := maxCumulativeUs;
      nextChunkIndex, lastGeneratedAtUs, lastTotalSteps, cumulativeUs, terminal := 0, 0, 0, 0, None;
    }

    /** False stands for the protocol error the source raises; nothing is changed then. */
    method AcceptEvent(e: Event) returns (ok: bool)
      modifies this
      ensures ok == Accepts(old(View()), e)
      ensures View() == if ok then Accept(old(View()), e) else old(View())
    {
      if terminal.Some? {
        return false;
      }
      match e {
        case Chunk(index, samples, at, steps) =>
          if index != nextChunkIndex || at < lastGeneratedAtUs || steps <= lastTotalSteps {
            return false;
          }
          var next := cumulativeUs + RoundedUs(samples);
          if next > maxCumulativeUs {
            return false;
          }
          nextChunkIndex := nextChunkIndex + 1;
          lastGeneratedAtUs, lastTotalSteps, cumulativeUs := at, steps, next;
        case Terminal(_, count) =>
          if count != nextChunkIndex {
            return false;
          }
          terminal := Some(e);
      }
      ok := true;
    }
  }

  // ---- the shape of a stream ----

  function SamplesOf(events: seq<Event>): nat {
    if events == [] then 0 else (if events[0].Chunk? then events[0].samples else 0) + SamplesOf(events[1..])
  }

  /** What a stream that continues after `sent` looks like: chunks with consecutive indices and increasing steps
      within the limits, then one terminal that counts them. */
  ghost predicate Shaped(events: seq<Event>, c: Command, sent: Sent) {
    && events != []
    && (forall i | 0 <= i < |events| :: events[i].Terminal? <==> i == |events| - 1)
    && events[|events| - 1].chunkCount == sent.chunks + |events| - 1
    && (forall i | 0 <= i < |events| - 1 ::
          && events[i].index == sent.chunks + i
          && sent.steps + CHUNK_SIZE * (i + 1) <= events[i].totalSteps < c.maxNewTokens
          && 0 < events[i].samples && RoundedUs(events[i].samples) <= MAX_CHUNK_US)
    && (forall i, j | 0 <= i < j < |events| - 1 :: events[i].totalSteps < events[j].totalSteps)
    && (|events| > 1 ==> TICKS_PER_SAMPLE * (sent.samples + SamplesOf(events)) <= 3 * c.hardUs)
  }

  lemma ShapedCons(chunk: Event, rest: seq<Event>, c: Command, sent: Sent, next: Sent)
    requires chunk.Chunk? && chunk.index == sent.chunks && 0 < chunk.samples && RoundedUs(chunk.samples) <= MAX_CHUNK_US
    requires sent.steps + CHUNK_SIZE <= chunk.totalSteps < c.maxNewTokens
    requires TICKS_PER_SAMPLE * (sent.samples + chunk.samples) <= 3 * c.hardUs
    requires next == Sent(sent.chunks + 1, sent.samples + chunk.samples, chunk.totalSteps)
    requires Shaped(rest, c, next)
    ensures Shaped([chunk] + rest, c, sent)
  {
    var events := [chunk] + rest;
    assert events[1..] == rest;
    if |rest| == 1 {
      assert SamplesOf(rest) == SamplesOf(rest[1..]);
      assert rest[1..] == [];
    }
    forall i | 0 < i < |events| - 1
      ensures sent.steps + CHUNK_SIZE * (i + 1) <= events[i].totalSteps && chunk.totalSteps < events[i].totalSteps
    {
      assert events[i] == rest[i - 1];
    }
  }

  lemma ShapedEnd(terminal: Event, c: Command, sent: Sent)
    requires terminal.Terminal? && terminal.chunkCount == sent.chunks
    ensures Shaped([terminal], c, sent)
  {}

  /** The one terminal of a stream that sends no further chunk. */
  lemma StopsHere(c: Command, items: seq<Generated>, raises: bool, cancelAt: nat, check: nat, sent: Sent)
    requires items == [] || check + 1 >= cancelAt || Refusal(c, sent, items[0]).Some?
    ensures var events := Produce(c, items, raises, cancelAt, check, sent);
            |events| == 1 && events[0].Terminal? && events[0].chunkCount == sent.chunks
  {}

  lemma {:induction false} ProduceShaped(c: Command, items: seq<Generated>, raises: bool, cancelAt: nat, check: nat, sent: Sent)
    requires sent.steps < c.maxNewTokens
    ensures Shaped(Produce(c, items, raises, cancelAt, check, sent), c, sent)
    decreases |items|
  {
    hide Shaped;
    var events := Produce(c, items, raises, cancelAt, check, sent);
    if items == [] || check + 1 >= cancelAt || Refusal(c, sent, items[0]).Some? {
      StopsHere(c, items, raises, cancelAt, check, sent);
      assert events == [events[0]];
      ShapedEnd(events[0], c, sent);
    } else {
      var g := items[0];
      var next := Sent(sent.chunks + 1, sent.samples + g.samples, StepsAfter(sent, g));
      ProduceShaped(c, items[1..], raises, cancelAt, check + 2, next);
      ShapedCons(Chunk(sent.chunks, g.samples, g.clockUs, next.steps), Produce(c, items[1..], raises, cancelAt, check + 2, next),
                 c, sent, next);
    }
  }

  /** Every stream has exactly one terminal, last, that counts the chunks before it; indices run from 0, steps
      increase, four per chunk fit below the token limit, and the audio stays within the hard limit. */
  lemma StreamConforms(c: Command, items: seq<Generated>, raises: bool, cancelAt: nat)
    requires ValidCommand(c)
    ensures var events := Stream(c, items, raises, cancelAt);
            var k := |events| - 1;
            && Shaped(events, c, Sent(0, 0, 0))
            && events[k].Terminal? && events[k].chunkCount == k
            && CHUNK_SIZE * k < c.maxNewTokens
            && TICKS_PER_SAMPLE * SamplesOf(events) <= 3 * c.hardUs
  {
    var events := Stream(c, items, raises, cancelAt);
    if cancelAt != 0 {
      ProduceShaped(c, items, raises, cancelAt, 1, Sent(0, 0, 0));
    }
    var k := |events| - 1;
    hide Produce, Stream;
    if k == 0 {
      assert events[1..] == [];
    } else {
      assert CHUNK_SIZE * ((k - 1) + 1) <= events[k - 1].totalSteps;
    }
  }

  /** No chunk is sent once a cancellation has been seen: k chunks mean that the first 2k + 1 checks saw none. */
  lemma {:induction false} CancelStopsChunks(c: Command, items: seq<Generated>, raises: bool, cancelAt: nat, check: nat, sent: Sent)
    ensures check + 2 * (|Produce(c, items, raises, cancelAt, check, sent)| - 1) <= Max(check, cancelAt)
    ensures var events := Produce(c, items, raises, cancelAt, check, sent);
            events != [] && (events[|events| - 1] == Terminal(Done, sent.chunks + |events| - 1) ==> check + 2 * |items| < cancelAt)
    decreases |items|
  {
    if items != [] && check + 1 < cancelAt && Refusal(c, sent, items[0]).None? {
      var g := items[0];
      CancelStopsChunks(c, items[1..], raises, cancelAt, check + 2,
                        Sent(sent.chunks + 1, sent.samples + g.samples, StepsAfter(sent, g)));
    }
  }

  // ---- the stream from its inputs alone ----

  function SamplesUpTo(items: seq<Generated>, n: nat): nat
    requires n <= |items|
  {
    if n == 0 then 0 else SamplesUpTo(items, n - 1) + items[n - 1].samples
  }

  /** The step count stated with the n-th chunk: at least four more than the one before. */
  function StepsUpTo(items: seq<Generated>, n: nat): nat
    requires n <= |items|
  {
    if n == 0 then 0 else Max(StepsUpTo(items, n - 1) + CHUNK_SIZE, items[n - 1].steps)
  }

  predicate OverLimit(c: Command, items: seq<Generated>, i: nat)
    requires i < |items|
  {
    TICKS_PER_SAMPLE * SamplesUpTo(items, i + 1) > 3 * c.hardUs || StepsUpTo(items, i + 1) >= c.maxNewTokens
  }

  predicate Malformed(g: Generated) {
    !g.wellFormed || g.samples == 0
  }

  predicate Unusable(c: Command, items: seq<Generated>, i: nat)
    requires i < |items|
  {
    Malformed(items[i]) || OverLimit(c, items, i) || !items[i].audioValid || RoundedUs(items[i].samples) > MAX_CHUNK_US
  }

  /** The first unusable item from `i` on, or the number of items. */
  function FirstUnusable(c: Command, items: seq<Generated>, i: nat): (k: nat)
    requires i <= |items|
    ensures i <= k <= |items| && (k < |items| ==> Unusable(c, items, k))
    ensures forall j | i <= j < k :: !Unusable(c, items, j)
    decreases |items| - i
  {
    if i == |items| || Unusable(c, items, i) then i else FirstUnusable(c, items, i + 1)
  }

  /** The last moment at which the stream looks for a cancellation: before the first unusable item, after the last
      item if the model raises then, and once more if it does not. */
  function LastCheck(c: Command, items: seq<Generated>, raises: bool): nat {
    var k := FirstUnusable(c, items, 0);
    if k < |items| then 2 * k + 1 else if raises then 2 * k else 2 * k + 1
  }

  /** How many chunks a stream sends: two checks per chunk after the first one, and no unusable item. */
  function ChunkCount(c: Command, items: seq<Generated>, cancelAt: nat): nat {
    var k := FirstUnusable(c, items, 0);
    if cancelAt == 0 then 0 else if (cancelAt - 1) / 2 < k then (cancelAt - 1) / 2 else k
  }

  function ChunkFrom(items: seq<Generated>, i: nat): Event
    requires i < |items|
  {
    Chunk(i, items[i].samples, items[i].clockUs, StepsUpTo(items, i + 1))
  }

  ghost predicate RunsTo(events: seq<Event>, c: Command, items: seq<Generated>, i: nat, raises: bool, cancelAt: nat) {
    var k, n := FirstUnusable(c, items, 0), ChunkCount(c, items, cancelAt);
    && i <= n <= |items| && |events| == n - i + 1
    && (forall j | i <= j < n :: events[j - i] == ChunkFrom(items, j))
    && events[n - i] == Terminal(
         if cancelAt <= LastCheck(c, items, raises) then Cancelled
         else if k < |items| then Error(if !Malformed(items[k]) && OverLimit(c, items, k) then GenerationCeiling else GenerationFailed)
         else if raises then Error(GenerationFailed) else Done, n)
  }

  lemma RefusalOf(c: Command, items: seq<Generated>, i: nat)
    requires i < |items|
    ensures Refusal(c, Sent(i, SamplesUpTo(items, i), StepsUpTo(items, i)), items[i])
            == if !Unusable(c, items, i) then None
               else Some(if !Malformed(items[i]) && OverLimit(c, items, i) then GenerationCeiling else GenerationFailed)
  {}

  lemma FirstUnusableFrom(c: Command, items: seq<Generated>, i: nat)
    requires i <= |items| && forall j | 0 <= j < i :: !Unusable(c, items, j)
    ensures FirstUnusable(c, items, 0) == FirstUnusable(c, items, i)
  {}

  lemma FewSteps(c: Command, items: seq<Generated>, n: nat)
    requires n <= |items| && 0 < c.maxNewTokens && forall j | 0 <= j < n :: !Unusable(c, items, j)
    ensures StepsUpTo(items, n) < c.maxNewTokens
  {
    if n > 0 {
      assert !Unusable(c, items, n - 1);
    }
  }

  /** A stream that sends no further chunk. */
  lemma ProduceStops(c: Command, items: seq<Generated>, i: nat, raises: bool, cancelAt: nat)
    requires i <= |items| && 2 * i < cancelAt && StepsUpTo(items, i) < c.maxNewTokens
    requires FirstUnusable(c, items, 0) >= i && ChunkCount(c, items, cancelAt) == i
    ensures RunsTo(Produce(c, items[i..], raises, cancelAt, 2 * i + 1, Sent(i, SamplesUpTo(items, i), StepsUpTo(items, i))),
                   c, items, i, raises, cancelAt)
  {
    if i < |items| {
      assert items[i..][0] == items[i];
      RefusalOf(c, items, i);
      assert Unusable(c, items, i) <==> FirstUnusable(c, items, 0) == i;
    }
    hide SamplesUpTo, StepsUpTo, OverLimit, Unusable, Malformed, Refusal, FirstUnusable;
  }

  lemma RunsCons(rest: seq<Event>, c: Command, items: seq<Generated>, i: nat, raises: bool, cancelAt: nat)
    requires i < |items| && RunsTo(rest, c, items, i + 1, raises, cancelAt)
    ensures RunsTo([ChunkFrom(items, i)] + rest, c, items, i, raises, cancelAt)
  {
    hide FirstUnusable, LastCheck, Unusable, OverLimit, Malformed, ChunkCount, ChunkFrom;
    var n := ChunkCount(c, items, cancelAt);
    forall j | i <= j < n ensures ([ChunkFrom(items, i)] + rest)[j - i] == ChunkFrom(items, j) {
      if j > i {
        assert ([ChunkFrom(items, i)] + rest)[j - i] == rest[j - (i + 1)];
      }
    }
  }

  lemma ProduceGoesOn(c: Command, items: seq<Generated>, i: nat, raises: bool, cancelAt: nat)
    requires i < |items| && !Unusable(c, items, i) && 2 * i + 2 < cancelAt
    requires RunsTo(Produce(c, items[i + 1..], raises, cancelAt, 2 * (i + 1) + 1,
                            Sent(i + 1, SamplesUpTo(items, i + 1), StepsUpTo(items, i + 1))),
                    c, items, i + 1, raises, cancelAt)
    ensures RunsTo(Produce(c, items[i..], raises, cancelAt, 2 * i + 1, Sent(i, SamplesUpTo(items, i), StepsUpTo(items, i))),
                   c, items, i, raises, cancelAt)
  {
    var sent := Sent(i, SamplesUpTo(items, i), StepsUpTo(items, i));
    var next := Sent(i + 1, SamplesUpTo(items, i + 1), StepsUpTo(items, i + 1));
    RefusalOf(c, items, i);
    hide Produce, FirstUnusable, LastCheck, Unusable, OverLimit, Malformed, Refusal, RunsTo;
    ProduceNext(c, items, i, raises, cancelAt, 2 * i + 1, sent);
    RunsCons(Produce(c, items[i + 1..], raises, cancelAt, 2 * (i + 1) + 1, next), c, items, i, raises, cancelAt);
  }

  lemma {:induction false} ProduceExactly(c: Command, items: seq<Generated>, i: nat, raises: bool, cancelAt: nat)
    requires i <= |items| && 2 * i < cancelAt && 0 < c.maxNewTokens
    requires forall j | 0 <= j < i :: !Unusable(c, items, j)
    ensures RunsTo(Produce(c, items[i..], raises, cancelAt, 2 * i + 1, Sent(i, SamplesUpTo(items, i), StepsUpTo(items, i))),
                   c, items, i, raises, cancelAt)
    decreases |items| - i
  {
    FirstUnusableFrom(c, items, i);
    if i < |items| && !Unusable(c, items, i) && 2 * i + 2 < cancelAt {
      ProduceExactly(c, items, i + 1, raises, cancelAt);
      ProduceGoesOn(c, items, i, raises, cancelAt);
    } else {
      FewSteps(c, items, i);
      ProduceStops(c, items, i, raises, cancelAt);
      hide Produce, LastCheck, OverLimit, Malformed, Refusal, RunsTo, StepsUpTo, SamplesUpTo;
    }
  }

  /** Every stream, from its inputs: chunk i is item i, with the running step count; the stream stops before the first
      unusable item and once a check has seen the cancellation. It ends as done exactly when every item became a
      chunk, the model did not raise and no check up to the last one saw a cancellation; as cancelled exactly when
      one did; and otherwise with an error, the ceiling exactly when it was a limit that stopped it. */
  lemma StreamExactly(c: Command, items: seq<Generated>, raises: bool, cancelAt: nat)
    requires ValidCommand(c)
    ensures var events, n, k := Stream(c, items, raises, cancelAt), ChunkCount(c, items, cancelAt), FirstUnusable(c, items, 0);
            && |events| == n + 1 && n <= |items|
            && (forall i | 0 <= i < n :: events[i] == ChunkFrom(items, i))
            && events[n].Terminal? && events[n].chunkCount == n
            && (events[n].kind == Done <==>
                  (forall i | 0 <= i < |items| :: !Unusable(c, items, i)) && !raises && 2 * |items| + 1 < cancelAt)
            && (events[n].kind == Cancelled <==> cancelAt <= LastCheck(c, items, raises))
            && (events[n].kind == Error(GenerationCeiling) <==>
                  LastCheck(c, items, raises) < cancelAt && k < |items| && !Malformed(items[k]) && OverLimit(c, items, k))
            && (events[n].kind == Error(GenerationFailed) <==>
                  LastCheck(c, items, raises) < cancelAt
                  && if k < |items| then Malformed(items[k]) || !OverLimit(c, items, k) else raises)
  {
    if cancelAt != 0 {
      assert items[0..] == items;
      ProduceExactly(c, items, 0, raises, cancelAt);
    }
    hide Produce, Unusable, OverLimit, Malformed;
  }

  // ---- the validator accepts exactly the conforming streams ----

  ghost predicate ClockedFrom(events: seq<Event>, at: nat) {
    && (forall i | 0 <= i < |events| && events[i].Chunk? :: at <= events[i].generatedAtUs)
    && (forall i, j | 0 <= i < j < |events| && events[i].Chunk? && events[j].Chunk? ::
          events[i].generatedAtUs <= events[j].generatedAtUs)
  }

  function TicksOf(events: seq<Event>, rounded: bool): nat {
    if events == [] then 0
    else (if events[0].Chunk? then Ticks(events[0].samples, rounded) else 0) + TicksOf(events[1..], rounded)
  }

  /** What the validator is for, said without its state. */
  ghost predicate Wanted(v: Validator, events: seq<Event>) {
    && (forall i | 0 <= i < |events| && events[i].Terminal? :: i == |events| - 1 && events[i].chunkCount == v.nextIndex + i)
    && (forall i | 0 <= i < |events| && events[i].Chunk? :: events[i].index == v.nextIndex + i && events[i].totalSteps > v.lastSteps)
    && (forall i, j | 0 <= i < j < |events| && events[i].Chunk? && events[j].Chunk? :: events[i].totalSteps < events[j].totalSteps)
    && ClockedFrom(events, v.lastAtUs)
    && v.ticks + TicksOf(events, v.rounded) <= 3 * v.ceilingUs
  }

  lemma TicksCons(e: Event, rest: seq<Event>, rounded: bool)
    requires e.Chunk?
    ensures TicksOf([e] + rest, rounded) == Ticks(e.samples, rounded) + TicksOf(rest, rounded)
  {
    assert ([e] + rest)[1..] == rest;
  }

  lemma WantedSplits(v: Validator, e: Event, rest: seq<Event>)
    requires v.terminal.None? && e.Chunk? && Wanted(v, [e] + rest)
    ensures Accepts(v, e) && Wanted(Accept(v, e), rest)
  {
    TicksCons(e, rest, v.rounded);
    hide TicksOf;
    var events := [e] + rest;
    assert events[0] == e && forall i | 0 <= i < |rest| :: rest[i] == events[i + 1];
  }

  lemma WantedJoins(v: Validator, e: Event, rest: seq<Event>)
    requires v.terminal.None? && e.Chunk? && Accepts(v, e) && Wanted(Accept(v, e), rest)
    ensures Wanted(v, [e] + rest)
  {
    TicksCons(e, rest, v.rounded);
    hide TicksOf;
    var events := [e] + rest;
    assert events[0] == e && forall i | 0 < i < |events| :: events[i] == rest[i - 1];
  }

  /** The validator accepts exactly the sequences it wants, whole streams and unfinished ones. */
  lemma {:induction false} ValidatorExactly(v: Validator, events: seq<Event>)
    requires v.terminal.None? && v.ticks <= 3 * v.ceilingUs
    ensures AcceptsAll(v, events) <==> Wanted(v, events)
    decreases |events|
  {
    if events != [] {
      var e, rest := events[0], events[1..];
      assert events == [e] + rest;
      if e.Terminal? {
        if rest == [] {
          assert TicksOf(events, v.rounded) == TicksOf(rest, v.rounded) == 0;
        } else if Accepts(v, e) {
          assert !Accepts(Accept(v, e), rest[0]);
        }
      } else {
        if Wanted(v, events) {
          WantedSplits(v, e, rest);
        }
        if Accepts(v, e) {
          ValidatorExactly(Accept(v, e), rest);
          if Wanted(Accept(v, e), rest) {
            WantedJoins(v, e, rest);
          }
        }
      }
    }
  }

  // ---- the two together ----

  ghost predicate ClockRuns(items: seq<Generated>) {
    forall i, j | 0 <= i < j < |items| :: items[i].clockUs <= items[j].clockUs
  }

  lemma {:induction false} ProduceClocked(c: Command, items: seq<Generated>, raises: bool, cancelAt: nat, check: nat, sent: Sent,
                                          at: nat)
    requires ClockRuns(items) && (items != [] ==> at <= items[0].clockUs)
    ensures ClockedFrom(Produce(c, items, raises, cancelAt, check, sent), at)
    decreases |items|
  {
    if items != [] && check + 1 < cancelAt && Refusal(c, sent, items[0]).None? {
      var g := items[0];
      var next := Sent(sent.chunks + 1, sent.samples + g.samples, StepsAfter(sent, g));
      ProduceClocked(c, items[1..], raises, cancelAt, check + 2, next, g.clockUs);
    }
  }

  lemma {:induction false} ExactTicks(events: seq<Event>)
    ensures TicksOf(events, false) == TICKS_PER_SAMPLE * SamplesOf(events)
    decreases |events|
  {
    if events != [] {
      ExactTicks(events[1..]);
    }
  }

  function ChunksOf(events: seq<Event>): nat {
    if events == [] then 0 else (if events[0].Chunk? then 1 else 0) + ChunksOf(events[1..])
  }

  /** Rounding moves a duration by at most a third of a microsecond, so k chunks by at most k thirds: within the
      0.0005 ms per chunk of rounding to three decimals. */
  lemma {:induction false} RoundingDrift(events: seq<Event>)
    ensures TicksOf(events, false) - ChunksOf(events) <= TicksOf(events, true) <= TicksOf(events, false) + ChunksOf(events)
    decreases |events|
  {
    if events != [] {
      RoundingDrift(events[1..]);
      if events[0].Chunk? {
        RoundingOne(events[0].samples);
      }
    }
  }

  lemma RoundingOne(samples: nat)
    ensures TICKS_PER_SAMPLE * samples - 1 <= 3 * RoundedUs(samples) <= TICKS_PER_SAMPLE * samples + 1
  {}

  /** The validator takes a worker's stream exactly when its stated durations add up to no more than the ceiling;
      everything else about the stream is always in order. */
  lemma AcceptedExactly(c: Command, items: seq<Generated>, raises: bool, cancelAt: nat, rounded: bool)
    requires ValidCommand(c) && ClockRuns(items)
    ensures var events := Stream(c, items, raises, cancelAt);
            AcceptsAll(NewValidator(c.hardUs, rounded), events) <==> TicksOf(events, rounded) <= 3 * c.hardUs
  {
    var events, v := Stream(c, items, raises, cancelAt), NewValidator(c.hardUs, rounded);
    StreamConforms(c, items, raises, cancelAt);
    if cancelAt != 0 {
      ProduceClocked(c, items, raises, cancelAt, 1, Sent(0, 0, 0), 0);
    }
    ValidatorExactly(v, events);
    hide Produce, Stream, TicksOf, AcceptsAll;
  }

  /** With exact durations every stream is accepted. */
  lemma ExactDurationsAreAccepted(c: Command, items: seq<Generated>, raises: bool, cancelAt: nat)
    requires ValidCommand(c) && ClockRuns(items)
    ensures AcceptsAll(NewValidator(c.hardUs, false), Stream(c, items, raises, cancelAt))
  {
    AcceptedExactly(c, items, raises, cancelAt, false);
    StreamConforms(c, items, raises, cancelAt);
    ExactTicks(Stream(c, items, raises, cancelAt));
  }

  /** With rounded durations it is enough to stay a third of a microsecond per chunk below the limit. */
  lemma MarginIsEnough(c: Command, items: seq<Generated>, raises: bool, cancelAt: nat)
    requires ValidCommand(c) && ClockRuns(items)
    requires var events := Stream(c, items, raises, cancelAt);
             TICKS_PER_SAMPLE * SamplesOf(events) + ChunksOf(events) <= 3 * c.hardUs
    ensures AcceptsAll(NewValidator(c.hardUs, true), Stream(c, items, raises, cancelAt))
  {
    var events := Stream(c, items, raises, cancelAt);
    AcceptedExactly(c, items, raises, cancelAt, true);
    ExactTicks(events);
    RoundingDrift(events);
  }

  lemma SumsCons(e: Event, rest: seq<Event>)
    requires e.Chunk?
    ensures SamplesOf([e] + rest) == e.samples + SamplesOf(rest)
    ensures TicksOf([e] + rest, true) == 3 * RoundedUs(e.samples) + TicksOf(rest, true)
    ensures SamplesOf([Terminal(Done, 3)]) == 0 && TicksOf([Terminal(Done, 3)], true) == 0
  {
    assert ([e] + rest)[1..] == rest;
  }

  /** And rounding can make the validator refuse a stream that keeps the limit: one, one and 2398 samples are
      exactly 100 ms, but their durations are stated as 42, 42 and 99917 microseconds. */
  lemma RoundingCanRefuse()
    ensures var c, items := Command(384, 100_000),
              [Generated(1, 4, 0, true, true), Generated(1, 8, 0, true, true), Generated(2398, 12, 0, true, true)];
            var events := Stream(c, items, false, 100);
            && ValidCommand(c) && ClockRuns(items)
            && |events| == 4 && events[3] == Terminal(Done, 3)
            && TICKS_PER_SAMPLE * SamplesOf(events) == 3 * c.hardUs
            && !AcceptsAll(NewValidator(c.hardUs, true), events)
  {
    var c := Command(384, 100_000);
    var g1, g2, g3 := Generated(1, 4, 0, true, true), Generated(1, 8, 0, true, true), Generated(2398, 12, 0, true, true);
    var c1, c2, c3, end := Chunk(0, 1, 0, 4), Chunk(1, 1, 0, 8), Chunk(2, 2398, 0, 12), Terminal(Done, 3);
    assert Produce(c, [], false, 100, 7, Sent(3, 2400, 12)) == [end];
    assert [g3][1..] == [] && [g2, g3][1..] == [g3] && [g1, g2, g3][1..] == [g2, g3];
    assert Produce(c, [g3], false, 100, 5, Sent(2, 2, 8)) == [c3, end];
    assert Produce(c, [g2, g3], false, 100, 3, Sent(1, 1, 4)) == [c2, c3, end];
    assert Produce(c, [g1, g2, g3], false, 100, 1, Sent(0, 0, 0)) == [c1, c2, c3, end];
    var events := [c1, c2, c3, end];
    assert events[1..] == [c2, c3, end] && [c2, c3, end][1..] == [c3, end] && [c3, end][1..] == [end] && [end][1..] == [];
    SumsCons(c3, [end]);
    SumsCons(c2, [c3, end]);
    SumsCons(c1, [c2, c3, end]);
    assert [c1] + [c2, c3, end] == events && [c2] + [c3, end] == [c2, c3, end] && [c3] + [end] == [c3, end];
    assert RoundedUs(1) == 42 && RoundedUs(2398) == 99_917;
    hide SamplesOf, TicksOf, Produce;
    AcceptedExactly(c, [g1, g2, g3], false, 100, true);
  }
}
