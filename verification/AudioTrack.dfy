/**
  The outbound audio track: variable chunks go in under an admission credit, fixed frames come out, and a stop
  discards everything in between.

  `recv` is two steps: the cut takes samples off the buffer, the release gives their credit back after an await.
  A stop and a new admission can fall in between.
*/
module AudioTrack {
  import opened Wrappers

  type Sample = int

  datatype Chunk = Chunk(sequence: nat, samples: seq<Sample>)

  /** A cut frame, without its padding, and the epoch it was cut in. */
  datatype Frame = Frame(samples: seq<Sample>, epoch: nat)

  /** An admission under way: what was offered, how much of it is in, and the epoch it began in. */
  datatype Admission = Admission(samples: seq<Sample>, offset: nat, epoch: nat)

  datatype Config = Config(frameSamples: nat, maxPending: nat)

  datatype Buffers = Buffers(
    queue: seq<Chunk>, buffer: seq<Sample>, nextSequence: nat, lastConsumed: Option<nat>, violations: nat)

  datatype Counters = Counters(offered: nat, played: nat, discarded: nat)

  /** Samples of the current epoch: offered, admitted, and cut. */
  datatype EpochHistory = EpochHistory(offered: seq<Sample>, admitted: seq<Sample>, cut: seq<Sample>)

  datatype Track = Track(
    buffers: Buffers, pending: nat, epoch: nat, ended: bool,
    producer: Option<Admission>, cutting: Option<Frame>,
    counters: Counters, history: EpochHistory, emitted: seq<Frame>)

  datatype Event =
    | Offer(samples: seq<Sample>)
    | Admit
    | Cut
    | Release
    | StopCurrent
    | Stop

  predicate ValidConfig(c: Config) {
    0 < c.frameSamples <= c.maxPending
  }

  function Flat(queue: seq<Chunk>): seq<Sample> {
    if queue == [] then [] else queue[0].samples + Flat(queue[1..])
  }

  /** Everything held between admission and the cut, in playing order. */
  function Held(b: Buffers): seq<Sample> {
    b.buffer + Flat(b.queue)
  }

  // ---- the cut ----

  /** Moves chunks from the queue into the buffer until it holds a frame. */
  function Fill(b: Buffers, frameSamples: nat): Buffers
    decreases |b.queue|
  {
    if |b.buffer| >= frameSamples || b.queue == [] then b else
    var chunk := b.queue[0];
    var violated := b.lastConsumed.Some? && chunk.sequence <= b.lastConsumed.value;
    Fill(b.(queue := b.queue[1..], buffer := b.buffer + chunk.samples, lastConsumed := Some(chunk.sequence),
            violations := b.violations + if violated then 1 else 0), frameSamples)
  }

  function Min(a: nat, b: nat): nat {
    if a <= b then a else b
  }

  function StepCut(t: Track, c: Config): Track {
    if t.cutting.Some? then t else
    var filled := if t.ended then t.buffers else Fill(t.buffers, c.frameSamples);
    var consumed := Min(|filled.buffer|, c.frameSamples);
    var samples := filled.buffer[..consumed];
    t.(buffers := filled.(buffer := filled.buffer[consumed..]), cutting := Some(Frame(samples, t.epoch)),
       history := t.history.(cut := t.history.cut + samples))
  }

  /** Gives the credit back, as far as there is any, and hands the frame out. */
  function StepRelease(t: Track): Track {
    if t.cutting.None? then t else
    var released := Min(|t.cutting.value.samples|, t.pending);
    t.(pending := t.pending - released, counters := t.counters.(played := t.counters.played + released),
       emitted := t.emitted + [t.cutting.value], cutting := None)
  }

  // ---- admission ----

  function StepOffer(t: Track, samples: seq<Sample>): Track {
    if t.producer.Some? || samples == [] then t else
    t.(producer := Some(Admission(samples, 0, t.epoch)), counters := t.counters.(offered := t.counters.offered + |samples|),
       history := t.history.(offered := t.history.offered + samples))
  }

  predicate AdmissionOver(t: Track) {
    t.producer.Some? && (t.producer.value.epoch != t.epoch || t.ended)
  }

  function Remaining(producer: Option<Admission>): nat {
    if producer.None? || producer.value.offset >= |producer.value.samples| then 0
    else |producer.value.samples| - producer.value.offset
  }

  /** One turn of the admission loop: gives up, waits for credit, or admits what the credit allows. */
  function StepAdmit(t: Track, c: Config): Track {
    if t.producer.None? then t
    else if AdmissionOver(t) then
      t.(producer := None, counters := t.counters.(discarded := t.counters.discarded + Remaining(t.producer)))
    else if t.pending >= c.maxPending || Remaining(t.producer) == 0 then t
    else
      var a := t.producer.value;
      var admitted := Min(c.maxPending - t.pending, |a.samples| - a.offset);
      var samples := a.samples[a.offset..a.offset + admitted];
      var end := a.offset + admitted;
      t.(buffers := t.buffers.(queue := t.buffers.queue + [Chunk(t.buffers.nextSequence, samples)],
                               nextSequence := t.buffers.nextSequence + 1),
         producer := if end == |a.samples| then None else Some(a.(offset := end)),
         pending := t.pending + admitted,
         history := t.history.(admitted := t.history.admitted + samples))
  }

  // ---- stop ----

  function StepStopCurrent(t: Track): Track {
    t.(epoch := t.epoch + 1, pending := 0,
       buffers := t.buffers.(queue := [], buffer := [], lastConsumed := None),
       counters := t.counters.(discarded := t.counters.discarded + t.pending),
       history := EpochHistory([], [], []))
  }

  function Next(t: Track, c: Config, e: Event): Track {
    match e
    case Offer(samples) => StepOffer(t, samples)
    case Admit => StepAdmit(t, c)
    case Cut => StepCut(t, c)
    case Release => StepRelease(t)
    case StopCurrent => StepStopCurrent(t)
    case Stop => StepStopCurrent(t).(ended := true)
  }

  function Start(): Track {
    Track(Buffers([], [], 0, None, 0), 0, 0, false, None, None, Counters(0, 0, 0), EpochHistory([], [], []), [])
  }

  function Run(t: Track, c: Config, events: seq<Event>): Track
    decreases |events|
  {
    if events == [] then t else Next(Run(t, c, events[..|events| - 1]), c, events[|events| - 1])
  }

  // ---- Fill against the flat queue ----

  lemma {:induction false} FlatSnoc(queue: seq<Chunk>, chunk: Chunk)
    ensures Flat(queue + [chunk]) == Flat(queue) + chunk.samples
    decreases |queue|
  {
    if queue == [] {
      assert Flat([chunk]) == chunk.samples + [];
    } else {
      assert (queue + [chunk])[1..] == queue[1..] + [chunk];
      FlatSnoc(queue[1..], chunk);
    }
  }

  /** Sequence numbers increase along the queue, above the last one consumed; chunks are not empty. */
  ghost predicate Sequenced(b: Buffers) {
    && (forall i, j | 0 <= i < j < |b.queue| :: b.queue[i].sequence < b.queue[j].sequence)
    && (forall i | 0 <= i < |b.queue| :: b.queue[i].sequence < b.nextSequence && b.queue[i].samples != [])
    && (b.lastConsumed.Some? ==>
          b.lastConsumed.value < b.nextSequence
          && forall i | 0 <= i < |b.queue| :: b.lastConsumed.value < b.queue[i].sequence)
    && b.violations == 0
  }

  /** Filling changes nothing about what is held, keeps the order, and yields a full frame if there is one. */
  lemma {:induction false} FillKeeps(b: Buffers, frameSamples: nat)
    requires Sequenced(b)
    ensures Sequenced(Fill(b, frameSamples)) && Held(Fill(b, frameSamples)) == Held(b)
    ensures |Fill(b, frameSamples).buffer| >= frameSamples || Fill(b, frameSamples).queue == []
    ensures Fill(b, frameSamples).nextSequence == b.nextSequence
    decreases |b.queue|
  {
    if |b.buffer| < frameSamples && b.queue != [] {
      var chunk := b.queue[0];
      var next := b.(queue := b.queue[1..], buffer := b.buffer + chunk.samples, lastConsumed := Some(chunk.sequence));
      assert next.buffer + Flat(next.queue) == b.buffer + (chunk.samples + Flat(b.queue[1..]));
      FillKeeps(next, frameSamples);
    }
  }

  // ---- invariants ----

  /** Samples cut but not yet released, if the cut is of this epoch. */
  function InFlight(t: Track): nat {
    if t.cutting.Some? && t.cutting.value.epoch == t.epoch then |t.cutting.value.samples| else 0
  }

  /** The credit counts what is held or in flight, up to one frame too little after a stale release. */
  ghost predicate CreditInv(t: Track, c: Config) {
    && t.pending <= c.maxPending
    && t.pending <= |Held(t.buffers)| + InFlight(t) <= t.pending + c.frameSamples
    && (t.cutting.Some? ==> |t.cutting.value.samples| <= c.frameSamples && t.cutting.value.epoch <= t.epoch)
    && (t.cutting.Some? && t.cutting.value.epoch < t.epoch ==> |Held(t.buffers)| == t.pending)
  }

  ghost predicate ProducerInv(t: Track) {
    t.producer.Some? ==> t.producer.value.offset < |t.producer.value.samples| && t.producer.value.epoch <= t.epoch
  }

  ghost predicate CountersInv(t: Track) {
    t.counters.offered == t.counters.played + t.counters.discarded + t.pending + Remaining(t.producer)
  }

  function ToAdmit(t: Track): seq<Sample> {
    if t.producer.Some? && t.producer.value.epoch == t.epoch && t.producer.value.offset <= |t.producer.value.samples|
    then t.producer.value.samples[t.producer.value.offset..] else []
  }

  /** What was cut, what is held and what still waits to be admitted is, in order, what was offered. */
  ghost predicate FifoInv(t: Track) {
    && t.history.admitted == t.history.cut + Held(t.buffers)
    && (!t.ended ==> t.history.offered == t.history.admitted + ToAdmit(t))
    && (t.ended ==> Held(t.buffers) == [])
  }

  function EmittedIn(frames: seq<Frame>, epoch: nat): seq<Sample> {
    if frames == [] then [] else
    EmittedIn(frames[..|frames| - 1], epoch)
    + if frames[|frames| - 1].epoch == epoch then frames[|frames| - 1].samples else []
  }

  function CutNow(t: Track): seq<Sample> {
    if t.cutting.Some? && t.cutting.value.epoch == t.epoch then t.cutting.value.samples else []
  }

  ghost predicate EmittedInv(t: Track) {
    && (forall i | 0 <= i < |t.emitted| :: t.emitted[i].epoch <= t.epoch)
    && EmittedIn(t.emitted, t.epoch) + CutNow(t) == t.history.cut
  }

  ghost predicate TrackInv(t: Track, c: Config) {
    Sequenced(t.buffers) && CreditInv(t, c) && ProducerInv(t) && CountersInv(t) && FifoInv(t) && EmittedInv(t)
  }

  lemma OfferKeeps(t: Track, c: Config, samples: seq<Sample>)
    requires TrackInv(t, c)
    ensures TrackInv(StepOffer(t, samples), c)
  {
    hide Sequenced;
    if t.producer.None? {
      assert samples[0..] == samples;
      assert t.history.admitted + [] + samples == t.history.admitted + samples;
    }
  }

  predicate Admits(t: Track, c: Config) {
    t.producer.Some? && !AdmissionOver(t) && t.pending < c.maxPending && Remaining(t.producer) > 0
  }

  function AdmittedNow(t: Track, c: Config): seq<Sample>
    requires Admits(t, c)
  {
    var a := t.producer.value;
    a.samples[a.offset..a.offset + Min(c.maxPending - t.pending, |a.samples| - a.offset)]
  }

  lemma AdmitQueues(t: Track, c: Config)
    requires Admits(t, c) && Sequenced(t.buffers)
    ensures Sequenced(StepAdmit(t, c).buffers)
    ensures Held(StepAdmit(t, c).buffers) == Held(t.buffers) + AdmittedNow(t, c)
  {
    var samples := AdmittedNow(t, c);
    FlatSnoc(t.buffers.queue, Chunk(t.buffers.nextSequence, samples));
    Associative(t.buffers.buffer, Flat(t.buffers.queue), samples);
    QueueSnoc(t.buffers, samples);
    assert samples != [];
    hide Flat, Sequenced;
    assert StepAdmit(t, c).buffers
        == t.buffers.(queue := t.buffers.queue + [Chunk(t.buffers.nextSequence, samples)],
                      nextSequence := t.buffers.nextSequence + 1);
  }

  lemma QueueSnoc(b: Buffers, samples: seq<Sample>)
    requires Sequenced(b) && samples != []
    ensures Sequenced(b.(queue := b.queue + [Chunk(b.nextSequence, samples)], nextSequence := b.nextSequence + 1))
  {}

  lemma AdmitCounts(t: Track, c: Config)
    requires Admits(t, c) && CreditInv(t, c) && ProducerInv(t) && CountersInv(t)
    requires |Held(StepAdmit(t, c).buffers)| == |Held(t.buffers)| + |AdmittedNow(t, c)|
    ensures CreditInv(StepAdmit(t, c), c) && ProducerInv(StepAdmit(t, c)) && CountersInv(StepAdmit(t, c))
  {
    hide Held;
  }

  lemma Associative<T>(x: seq<T>, y: seq<T>, z: seq<T>)
    ensures x + (y + z) == x + y + z
  {}

  lemma AdmitOrders(t: Track, c: Config)
    requires Admits(t, c) && ProducerInv(t) && FifoInv(t)
    requires Held(StepAdmit(t, c).buffers) == Held(t.buffers) + AdmittedNow(t, c)
    ensures FifoInv(StepAdmit(t, c))
  {
    hide Held;
    var a, samples := t.producer.value, AdmittedNow(t, c);
    var rest := a.samples[a.offset + |samples|..];
    AdmitRest(t, c);
    Associative(t.history.cut, Held(t.buffers), samples);
    Associative(t.history.admitted, samples, rest);
    hide StepAdmit, ToAdmit, AdmittedNow;
  }

  lemma AdmitRest(t: Track, c: Config)
    requires Admits(t, c) && ProducerInv(t)
    ensures var a, samples := t.producer.value, AdmittedNow(t, c);
            && ToAdmit(t) == samples + ToAdmit(StepAdmit(t, c))
            && ToAdmit(StepAdmit(t, c)) == a.samples[a.offset + |samples|..]
            && StepAdmit(t, c).history == t.history.(admitted := t.history.admitted + samples)
            && StepAdmit(t, c).ended == t.ended
  {
    hide Held;
    var a, samples := t.producer.value, AdmittedNow(t, c);
    assert a.samples[a.offset..] == samples + a.samples[a.offset + |samples|..];
  }

  lemma AdmitEmits(t: Track, c: Config)
    requires EmittedInv(t)
    ensures EmittedInv(StepAdmit(t, c))
  {
    hide EmittedIn;
  }

  lemma AdmitKeeps(t: Track, c: Config)
    requires TrackInv(t, c)
    ensures TrackInv(StepAdmit(t, c), c)
  {
    if Admits(t, c) {
      hide Sequenced, CreditInv, ProducerInv, CountersInv, FifoInv, EmittedInv, Held, StepAdmit;
      AdmitQueues(t, c);
      AdmitCounts(t, c);
      AdmitOrders(t, c);
      AdmitEmits(t, c);
    } else {
      hide Sequenced, Held, EmittedIn;
    }
  }

  lemma EmptyFlat(queue: seq<Chunk>)
    ensures queue == [] ==> Flat(queue) == []
  {}

  lemma SequencedIgnoresBuffer(b: Buffers, buffer: seq<Sample>)
    requires Sequenced(b)
    ensures Sequenced(b.(buffer := buffer))
  {}

  lemma HeldSplits(b: Buffers, n: nat)
    requires n <= |b.buffer|
    ensures Held(b) == b.buffer[..n] + Held(b.(buffer := b.buffer[n..]))
  {
    hide Flat;
    assert b.buffer == b.buffer[..n] + b.buffer[n..];
    Associative(b.buffer[..n], b.buffer[n..], Flat(b.queue));
  }

  /** A cut takes the oldest samples held, a full frame if there is one. */
  lemma CutTakes(t: Track, c: Config)
    requires Sequenced(t.buffers) && t.cutting.None? && (t.ended ==> Held(t.buffers) == [])
    ensures |StepCut(t, c).cutting.value.samples| == Min(|Held(t.buffers)|, c.frameSamples)
    ensures var after := StepCut(t, c);
            && Sequenced(after.buffers)
            && Held(t.buffers) == after.cutting.value.samples + Held(after.buffers)
            && after.cutting.value.samples <= Held(t.buffers)
  {
    FillKeeps(t.buffers, c.frameSamples);
    var filled := if t.ended then t.buffers else Fill(t.buffers, c.frameSamples);
    HeldSplits(filled, Min(|filled.buffer|, c.frameSamples));
    EmptyFlat(filled.queue);
    assert |Held(filled)| == |filled.buffer| + |Flat(filled.queue)|;
    SequencedIgnoresBuffer(filled, filled.buffer[Min(|filled.buffer|, c.frameSamples)..]);
    hide Held, Fill, Sequenced;
  }

  lemma CutFrame(t: Track, c: Config)
    requires t.cutting.None?
    ensures var after := StepCut(t, c);
            after.cutting.Some? && after.cutting.value.epoch == t.epoch
            && after == t.(buffers := after.buffers, cutting := after.cutting,
                           history := t.history.(cut := t.history.cut + after.cutting.value.samples))
  {
    hide Fill;
  }

  lemma CutOrders(t: Track, samples: seq<Sample>, buffers: Buffers)
    requires FifoInv(t) && EmittedInv(t) && t.cutting.None? && Held(t.buffers) == samples + Held(buffers)
    ensures var after := t.(buffers := buffers, cutting := Some(Frame(samples, t.epoch)),
                            history := t.history.(cut := t.history.cut + samples));
            FifoInv(after) && EmittedInv(after)
  {
    hide Held, EmittedIn;
    Associative(t.history.cut, samples, Held(buffers));
    assert EmittedIn(t.emitted, t.epoch) + [] == EmittedIn(t.emitted, t.epoch);
  }

  lemma CutKeeps(t: Track, c: Config)
    requires TrackInv(t, c)
    ensures TrackInv(StepCut(t, c), c)
  {
    if t.cutting.None? {
      hide StepCut, Held, Sequenced, EmittedInv, EmittedIn;
      var after := StepCut(t, c);
      CutFrame(t, c);
      CutTakes(t, c);
      CutOrders(t, after.cutting.value.samples, after.buffers);
      hide FifoInv;
    }
  }

  lemma ReleaseKeeps(t: Track, c: Config)
    requires TrackInv(t, c)
    ensures TrackInv(StepRelease(t), c)
  {
    if t.cutting.Some? {
      assert (t.emitted + [t.cutting.value])[..|t.emitted|] == t.emitted;
    }
  }

  lemma {:induction false} NothingEmittedYet(frames: seq<Frame>, epoch: nat)
    requires forall i | 0 <= i < |frames| :: frames[i].epoch < epoch
    ensures EmittedIn(frames, epoch) == []
    decreases |frames|
  {
    if frames != [] {
      NothingEmittedYet(frames[..|frames| - 1], epoch);
    }
  }

  lemma StopEmits(t: Track)
    requires EmittedInv(t) && (t.cutting.Some? ==> t.cutting.value.epoch <= t.epoch)
    ensures EmittedInv(StepStopCurrent(t))
  {
    NothingEmittedYet(t.emitted, t.epoch + 1);
    hide EmittedIn;
  }

  lemma StopHolds(t: Track, c: Config)
    requires CreditInv(t, c) && ProducerInv(t) && CountersInv(t) && Sequenced(t.buffers)
    ensures var after := StepStopCurrent(t);
            CreditInv(after, c) && ProducerInv(after) && CountersInv(after) && Sequenced(after.buffers)
            && Held(after.buffers) == []
  {
    assert Held(StepStopCurrent(t).buffers) == [];
    hide Held;
  }

  lemma StopKeeps(t: Track, c: Config)
    requires TrackInv(t, c)
    ensures TrackInv(StepStopCurrent(t), c) && TrackInv(StepStopCurrent(t).(ended := true), c)
  {
    StopEmits(t);
    StopHolds(t, c);
    hide Held, EmittedIn, Sequenced;
  }

  lemma NextKeeps(t: Track, c: Config, e: Event)
    requires ValidConfig(c) && TrackInv(t, c)
    ensures TrackInv(Next(t, c, e), c)
  {
    hide TrackInv, StepOffer, StepAdmit, StepCut, StepRelease, StepStopCurrent;
    match e
    case Offer(samples) => OfferKeeps(t, c, samples);
    case Admit => AdmitKeeps(t, c);
    case Cut => CutKeeps(t, c);
    case Release => ReleaseKeeps(t, c);
    case StopCurrent => StopKeeps(t, c);
    case Stop => StopKeeps(t, c);
  }

  lemma {:induction false} InvRun(c: Config, events: seq<Event>)
    requires ValidConfig(c)
    ensures TrackInv(Run(Start(), c, events), c)
    decreases |events|
  {
    hide TrackInv, Next;
    if events == [] {
      StartInv(c);
    } else {
      InvRun(c, events[..|events| - 1]);
      NextKeeps(Run(Start(), c, events[..|events| - 1]), c, events[|events| - 1]);
    }
  }

  lemma StartInv(c: Config)
    ensures TrackInv(Start(), c)
  {
    assert Held(Start().buffers) == [];
    assert EmittedIn(Start().emitted, 0) == [] && CutNow(Start()) == [];
  }

  // ---- every run, with recv in two steps ----

  /** The audio debt: what is held never exceeds the credit by more than one frame, and the count of pending
      samples misses at most one frame of what is held or in flight. */
  lemma DebtIsBounded(c: Config, events: seq<Event>)
    requires ValidConfig(c)
    ensures var t := Run(Start(), c, events);
            && |Held(t.buffers)| <= c.maxPending + c.frameSamples
            && t.pending <= c.maxPending
            && t.pending <= |Held(t.buffers)| + InFlight(t) <= t.pending + c.frameSamples
  {
    InvRun(c, events);
    hide Run, Held, Sequenced, FifoInv, EmittedInv;
  }

  /** Every sample offered was played, was discarded, is pending, or still waits to be admitted. */
  lemma {:induction false} SamplesAreConserved(c: Config, events: seq<Event>)
    requires ValidConfig(c)
    ensures var t := Run(Start(), c, events);
            t.counters.offered == t.counters.played + t.counters.discarded + t.pending + Remaining(t.producer)
  {
    InvRun(c, events);
  }

  lemma NoOrderViolations(c: Config, events: seq<Event>)
    requires ValidConfig(c)
    ensures Run(Start(), c, events).buffers.violations == 0
  {
    InvRun(c, events);
  }

  lemma EmittedUpTo(t: Track, c: Config)
    requires TrackInv(t, c)
    ensures forall i | 0 <= i < |t.emitted| :: t.emitted[i].epoch <= t.epoch
    ensures EmittedIn(t.emitted, t.epoch) <= t.history.admitted
    ensures !t.ended ==> EmittedIn(t.emitted, t.epoch) <= t.history.offered
  {
    PrefixOf(EmittedIn(t.emitted, t.epoch), CutNow(t), Held(t.buffers), ToAdmit(t));
    hide Held, EmittedIn, ToAdmit, Sequenced, CreditInv;
  }

  /** What left the track in this epoch is a prefix of what was admitted, and of what was offered, in it. */
  lemma EmittedIsPrefix(c: Config, events: seq<Event>)
    requires ValidConfig(c)
    ensures var t := Run(Start(), c, events);
            && EmittedIn(t.emitted, t.epoch) <= t.history.admitted
            && (!t.ended ==> EmittedIn(t.emitted, t.epoch) <= t.history.offered)
  {
    InvRun(c, events);
    EmittedUpTo(Run(Start(), c, events), c);
  }

  lemma PrefixOf<T>(a: seq<T>, b: seq<T>, c: seq<T>, d: seq<T>)
    ensures a <= a + b + c && a <= a + b + c + d
  {}

  /** After a stop, of the frames handed out only the first can be from before it, and only the one that was
      already cut. */
  lemma {:induction false} OneStaleFrame(t: Track, c: Config, ended: bool, events: seq<Event>, i: nat)
    requires var stopped := if ended then Next(t, c, Stop) else Next(t, c, StopCurrent);
             |t.emitted| <= i < |Run(stopped, c, events).emitted|
    ensures var stopped := if ended then Next(t, c, Stop) else Next(t, c, StopCurrent);
            var frame := Run(stopped, c, events).emitted[i];
            frame.epoch > t.epoch || (i == |t.emitted| && t.cutting == Some(frame))
  {
    var stopped := if ended then Next(t, c, Stop) else Next(t, c, StopCurrent);
    StaleOnlyInFlight(stopped, c, events, t.epoch);
  }

  lemma {:induction false} StaleOnlyInFlight(t: Track, c: Config, events: seq<Event>, epoch: nat)
    requires epoch < t.epoch
    ensures var after := Run(t, c, events);
            && epoch < after.epoch && |t.emitted| <= |after.emitted|
            && (after.cutting.Some? && after.cutting.value.epoch <= epoch ==>
                  |after.emitted| == |t.emitted| && after.cutting == t.cutting)
            && (forall i | |t.emitted| <= i < |after.emitted| ::
                  after.emitted[i].epoch > epoch || (i == |t.emitted| && t.cutting == Some(after.emitted[i])))
    decreases |events|
  {
    if events != [] {
      StaleOnlyInFlight(t, c, events[..|events| - 1], epoch);
      hide Run, Fill, StepAdmit, StepOffer;
      StaleStep(Run(t, c, events[..|events| - 1]), c, events[|events| - 1]);
    }
  }

  lemma StaleStep(t: Track, c: Config, e: Event)
    ensures var after := Next(t, c, e);
            && t.epoch <= after.epoch
            && (after.cutting == t.cutting || after.cutting.None? || after.cutting.value.epoch == t.epoch)
            && (after.emitted == t.emitted
                || (t.cutting.Some? && after.emitted == t.emitted + [t.cutting.value] && after.cutting.None?))
            && (t.cutting.Some? ==> after.cutting == t.cutting || after.emitted == t.emitted + [t.cutting.value])
  {
    hide Fill;
  }

  /** While a frame is cut and not released nothing else goes out, and the first release hands it out. */
  lemma {:induction false} CutFrameGoesFirst(t: Track, c: Config, events: seq<Event>)
    requires t.cutting.Some?
    ensures var after := Run(t, c, events);
            if Release in events then
              t.emitted + [t.cutting.value] <= after.emitted
            else after.emitted == t.emitted && after.cutting == t.cutting
    decreases |events|
  {
    if events != [] {
      var before, e := events[..|events| - 1], events[|events| - 1];
      assert events == before + [e];
      CutFrameGoesFirst(t, c, before);
      hide Run, Fill, StepAdmit, StepOffer;
      EmitStep(Run(t, c, before), c, e);
    }
  }

  lemma EmitStep(t: Track, c: Config, e: Event)
    ensures var after := Next(t, c, e);
            && t.emitted <= after.emitted
            && (!e.Release? ==> after.emitted == t.emitted && (t.cutting.Some? ==> after.cutting == t.cutting))
            && (e.Release? && t.cutting.Some? ==> after.emitted == t.emitted + [t.cutting.value])
  {
    hide Fill;
  }

  lemma CutIsNotNewer(t: Track, c: Config)
    requires TrackInv(t, c)
    ensures t.cutting.Some? ==> t.cutting.value.epoch <= t.epoch
  {
    hide Sequenced, ProducerInv, CountersInv, FifoInv, EmittedInv;
  }

  lemma StopKeepsCut(t: Track, c: Config, ended: bool)
    ensures var stopped := Next(t, c, if ended then Stop else StopCurrent);
            stopped.cutting == t.cutting && stopped.emitted == t.emitted
  {}

  lemma StaleFrameFrom(t: Track, c: Config, ended: bool, after: seq<Event>)
    requires t.cutting.Some? ==> t.cutting.value.epoch <= t.epoch
    ensures var emitted := Run(Next(t, c, if ended then Stop else StopCurrent), c, after).emitted;
            && ((exists i | |t.emitted| <= i < |emitted| :: emitted[i].epoch <= t.epoch)
                <==> t.cutting.Some? && Release in after)
            && (t.cutting.Some? && Release in after ==> t.emitted + [t.cutting.value] <= emitted)
            && (t.cutting.Some? && Release !in after ==> emitted == t.emitted)
  {
    hide Run, Next;
    var stopped := Next(t, c, if ended then Stop else StopCurrent);
    var emitted := Run(stopped, c, after).emitted;
    StopKeepsCut(t, c, ended);
    if t.cutting.Some? {
      CutFrameGoesFirst(stopped, c, after);
      if Release in after {
        assert emitted[|t.emitted|] == t.cutting.value;
      }
    } else {
      forall i | |t.emitted| <= i < |emitted| ensures emitted[i].epoch > t.epoch {
        OneStaleFrame(t, c, ended, after, i);
      }
    }
  }

  /** In every run, a frame from before a stop is handed out after it if and only if one was cut and not released
      when the stop came, and a release follows; it is then the first frame out. */
  lemma StaleFrameExactly(c: Config, before: seq<Event>, ended: bool, after: seq<Event>)
    requires ValidConfig(c)
    ensures var t := Run(Start(), c, before);
            var emitted := Run(Next(t, c, if ended then Stop else StopCurrent), c, after).emitted;
            && ((exists i | |t.emitted| <= i < |emitted| :: emitted[i].epoch <= t.epoch)
                <==> t.cutting.Some? && Release in after)
            && (t.cutting.Some? && Release in after ==> t.emitted + [t.cutting.value] <= emitted)
            && (t.cutting.Some? && Release !in after ==> emitted == t.emitted)
  {
    hide Run, Next, TrackInv;
    InvRun(c, before);
    CutIsNotNewer(Run(Start(), c, before), c);
    StaleFrameFrom(Run(Start(), c, before), c, ended, after);
  }

  // ---- recv in one step ----

  datatype AtomicEvent = AtomicOffer(samples: seq<Sample>) | AtomicAdmit | Recv | AtomicStopCurrent | AtomicStop

  function Steps(e: AtomicEvent): seq<Event> {
    match e
    case AtomicOffer(samples) => [Offer(samples)]
    case AtomicAdmit => [Admit]
    case Recv => [Cut, Release]
    case AtomicStopCurrent => [StopCurrent]
    case AtomicStop => [Stop]
  }

  function Split(events: seq<AtomicEvent>): seq<Event>
    decreases |events|
  {
    if events == [] then [] else Split(events[..|events| - 1]) + Steps(events[|events| - 1])
  }

  function StepAtomic(t: Track, c: Config, e: AtomicEvent): Track {
    if e.Recv? then StepRelease(StepCut(t, c)) else Next(t, c, Steps(e)[0])
  }

  lemma RunOne(t: Track, c: Config, events: seq<Event>, e: Event)
    ensures Run(t, c, events + [e]) == Next(Run(t, c, events), c, e)
  {
    assert (events + [e])[..|events + [e]| - 1] == events;
  }

  lemma RunSteps(t: Track, c: Config, events: seq<AtomicEvent>)
    requires events != []
    ensures Run(t, c, Split(events)) == StepAtomic(Run(t, c, Split(events[..|events| - 1])), c, events[|events| - 1])
  {
    hide Run, StepCut, StepRelease, StepOffer, StepAdmit, StepStopCurrent;
    var before, e := Split(events[..|events| - 1]), events[|events| - 1];
    if e.Recv? {
      Associative(before, [Cut], [Release]);
      assert [Cut] + [Release] == [Cut, Release];
      RunOne(t, c, before, Cut);
      RunOne(t, c, before + [Cut], Release);
    } else {
      RunOne(t, c, before, Steps(e)[0]);
    }
  }

  ghost predicate Exact(t: Track) {
    t.cutting.None? && t.pending == |Held(t.buffers)|
  }

  lemma ExactStep(t: Track, c: Config, e: AtomicEvent)
    requires ValidConfig(c) && TrackInv(t, c) && Exact(t)
    ensures Exact(StepAtomic(t, c, e))
  {
    match e
    case AtomicOffer(samples) =>
    case AtomicAdmit =>
      if Admits(t, c) {
        AdmitQueues(t, c);
        hide Held;
      }
    case Recv =>
      CutTakes(t, c);
      CutFrame(t, c);
      hide Held, StepCut;
    case AtomicStopCurrent =>
    case AtomicStop =>
  }

  /** With recv in one step, pending counts exactly what is held. */
  lemma {:induction false} AtomicPendingIsHeld(c: Config, events: seq<AtomicEvent>)
    requires ValidConfig(c)
    ensures Exact(Run(Start(), c, Split(events)))
    decreases |events|
  {
    hide Run, TrackInv, Exact, StepAtomic, Split;
    if events == [] {
      ExactStart(c);
    } else {
      AtomicPendingIsHeld(c, events[..|events| - 1]);
      InvRun(c, Split(events[..|events| - 1]));
      ExactStep(Run(Start(), c, Split(events[..|events| - 1])), c, events[|events| - 1]);
      RunSteps(Start(), c, events);
    }
  }

  lemma ExactStart(c: Config)
    ensures Exact(Run(Start(), c, Split([])))
  {}

  /** With recv in one step the track is a flat queue: a frame is its oldest samples, and they leave it. */
  lemma AtomicRecvIsFifo(c: Config, events: seq<AtomicEvent>)
    requires ValidConfig(c)
    ensures var t := Run(Start(), c, Split(events));
            var after := StepAtomic(t, c, Recv);
            var n := Min(|Held(t.buffers)|, c.frameSamples);
            && after.emitted == t.emitted + [Frame(Held(t.buffers)[..n], t.epoch)]
            && Held(after.buffers) == Held(t.buffers)[n..]
            && after.pending == t.pending - n && after.counters.played == t.counters.played + n
  {
    AtomicPendingIsHeld(c, events);
    InvRun(c, Split(events));
    hide Run, TrackInv, Exact, Split;
    RecvTakesOldest(Run(Start(), c, Split(events)), c);
  }

  lemma RecvTakesOldest(t: Track, c: Config)
    requires TrackInv(t, c) && Exact(t)
    ensures var after := StepAtomic(t, c, Recv);
            var n := Min(|Held(t.buffers)|, c.frameSamples);
            && after.emitted == t.emitted + [Frame(Held(t.buffers)[..n], t.epoch)]
            && Held(after.buffers) == Held(t.buffers)[n..]
            && after.pending == t.pending - n && after.counters.played == t.counters.played + n
  {
    hide StepCut, Held, Sequenced, CreditInv, ProducerInv, CountersInv, EmittedInv;
    CutTakes(t, c);
    CutFrame(t, c);
    var cut := StepCut(t, c);
    SplitsAt(cut.cutting.value.samples, Held(cut.buffers));
  }

  lemma SplitsAt<T>(x: seq<T>, y: seq<T>)
    ensures (x + y)[..|x|] == x && (x + y)[|x|..] == y
  {}

  predicate NoStops(events: seq<AtomicEvent>) {
    forall i | 0 <= i < |events| :: !events[i].AtomicStopCurrent? && !events[i].AtomicStop?
  }

  /** What these events offer: an offer is taken up while no other admission is under way. */
  function OfferedBy(t: Track, c: Config, events: seq<AtomicEvent>): seq<Sample>
    decreases |events|
  {
    if events == [] then [] else
    var before, e := events[..|events| - 1], events[|events| - 1];
    OfferedBy(t, c, before) + if e.AtomicOffer? && Run(t, c, Split(before)).producer.None? then e.samples else []
  }

  function Unpadded(frames: seq<Frame>): seq<Sample> {
    if frames == [] then [] else Unpadded(frames[..|frames| - 1]) + frames[|frames| - 1].samples
  }

  lemma {:induction false} EmittedSince(frames: seq<Frame>, from: nat, epoch: nat)
    requires from <= |frames|
    requires forall i | 0 <= i < from :: frames[i].epoch < epoch
    requires forall i | from <= i < |frames| :: frames[i].epoch == epoch
    ensures EmittedIn(frames, epoch) == Unpadded(frames[from..])
    decreases |frames|
  {
    if from == |frames| {
      NothingEmittedYet(frames, epoch);
    } else {
      EmittedSince(frames[..|frames| - 1], from, epoch);
      assert frames[from..][..|frames[from..]| - 1] == frames[..|frames| - 1][from..];
    }
  }

  lemma StepWithoutStop(t: Track, c: Config, e: AtomicEvent)
    requires NoStops([e])
    ensures var after := StepAtomic(t, c, e);
            && after.epoch == t.epoch && after.ended == t.ended && t.emitted <= after.emitted
            && after.history.offered == t.history.offered + (if e.AtomicOffer? && t.producer.None? then e.samples else [])
            && (t.ended ==> after.history.admitted == t.history.admitted)
  {
    assert NoStops([e]) ==> !e.AtomicStopCurrent? && !e.AtomicStop? by { assert [e][0] == e; }
    hide Fill;
  }

  lemma {:induction false} RunWithoutStops(t: Track, c: Config, events: seq<AtomicEvent>)
    requires ValidConfig(c) && TrackInv(t, c) && NoStops(events)
    ensures var after := Run(t, c, Split(events));
            && TrackInv(after, c)
            && after.epoch == t.epoch && after.ended == t.ended && t.emitted <= after.emitted
            && after.history.offered == t.history.offered + OfferedBy(t, c, events)
            && (t.ended ==> after.history.admitted == t.history.admitted)
    decreases |events|
  {
    hide Run, TrackInv, StepAtomic, Split;
    if events == [] {
      RunNothing(t, c);
    } else {
      var before, e := events[..|events| - 1], events[|events| - 1];
      RunWithoutStops(t, c, before);
      RunSteps(t, c, events);
      StepWithoutStop(Run(t, c, Split(before)), c, e);
      AtomicKeeps(Run(t, c, Split(before)), c, e);
    }
  }

  lemma RunNothing(t: Track, c: Config)
    ensures Run(t, c, Split([])) == t
  {}

  lemma AtomicKeeps(t: Track, c: Config, e: AtomicEvent)
    requires ValidConfig(c) && TrackInv(t, c)
    ensures TrackInv(StepAtomic(t, c, e), c)
  {
    hide TrackInv, StepCut, StepRelease, StepOffer, StepAdmit, StepStopCurrent;
    if e.Recv? {
      CutKeeps(t, c);
      ReleaseKeeps(StepCut(t, c), c);
    } else {
      NextKeeps(t, c, Steps(e)[0]);
    }
  }

  lemma StopStarts(t: Track, c: Config, ended: bool)
    requires ValidConfig(c) && TrackInv(t, c)
    ensures var stopped := Next(t, c, if ended then Stop else StopCurrent);
            && TrackInv(stopped, c) && stopped.epoch == t.epoch + 1
            && stopped.emitted == t.emitted && stopped.history == EpochHistory([], [], [])
  {
    StopKeeps(t, c);
    hide TrackInv;
  }

  /** And nothing offered before a stop, admitted or still blocked, is handed out after it: until the next stop,
      what is handed out is a prefix of what was offered since this one, and nothing at all once ended. */
  lemma AtomicStopDropsEverything(c: Config, before: seq<AtomicEvent>, ended: bool, after: seq<AtomicEvent>)
    requires ValidConfig(c) && NoStops(after)
    ensures var t := Run(Start(), c, Split(before));
            var stopped := Next(t, c, if ended then Stop else StopCurrent);
            var emitted := Run(stopped, c, Split(after)).emitted;
            && t.emitted <= emitted
            && Unpadded(emitted[|t.emitted|..]) <= OfferedBy(stopped, c, after)
            && (stopped.ended ==> Unpadded(emitted[|t.emitted|..]) == [])
  {
    hide Run, Next, TrackInv, Split, OfferedBy, EmittedIn, Unpadded;
    var t := Run(Start(), c, Split(before));
    var stopped := Next(t, c, if ended then Stop else StopCurrent);
    var u := Run(stopped, c, Split(after));
    InvRun(c, Split(before));
    AtomicPendingIsHeld(c, before);
    StopStarts(t, c, ended);
    RunWithoutStops(stopped, c, after);
    forall i | |t.emitted| <= i < |u.emitted| ensures u.emitted[i].epoch > t.epoch {
      OneStaleFrame(t, c, ended, Split(after), i);
    }
    EmittedUpTo(t, c);
    EmittedUpTo(u, c);
    EmittedSince(u.emitted, |t.emitted|, u.epoch);
    assert [] + OfferedBy(stopped, c, after) == OfferedBy(stopped, c, after);
  }

  lemma EndedStep(t: Track, c: Config, e: Event)
    ensures Next(t, c, e).ended <==> t.ended || e == Stop
  {
    hide Fill;
  }

  /** The track has ended exactly when it was stopped for good. */
  lemma {:induction false} EndedExactly(c: Config, events: seq<Event>)
    ensures Run(Start(), c, events).ended <==> Stop in events
    decreases |events|
  {
    hide Next;
    if events != [] {
      var before, e := events[..|events| - 1], events[|events| - 1];
      assert events == before + [e];
      EndedExactly(c, before);
      EndedStep(Run(Start(), c, before), c, e);
    }
  }

  // ---- the counters, and admission to its end ----

  lemma UnpaddedSnoc(frames: seq<Frame>, frame: Frame)
    ensures Unpadded(frames + [frame]) == Unpadded(frames) + frame.samples
  {
    assert (frames + [frame])[..|frames|] == frames;
  }

  lemma OnlyReleasePlays(t: Track, c: Config, e: Event)
    requires !e.Release?
    ensures Next(t, c, e).counters.played == t.counters.played && Next(t, c, e).emitted == t.emitted
  {
    hide Fill;
  }

  lemma PlayedRelease(t: Track)
    ensures var after := StepRelease(t);
            && t.counters.played <= after.counters.played
            && after.counters.played - t.counters.played <= |Unpadded(after.emitted)| - |Unpadded(t.emitted)|
  {
    if t.cutting.Some? {
      UnpaddedSnoc(t.emitted, t.cutting.value);
    }
    hide Unpadded;
  }

  lemma PlayedStep(t: Track, c: Config, e: Event)
    requires t.counters.played <= |Unpadded(t.emitted)|
    ensures var after := Next(t, c, e);
            && after.counters.played <= |Unpadded(after.emitted)|
            && t.counters.played <= after.counters.played
  {
    if e.Release? {
      PlayedRelease(t);
    } else {
      OnlyReleasePlays(t, c, e);
    }
    hide *;
  }

  /** In every run only what was handed out counts as played. */
  lemma {:induction false} PlayedWasEmitted(c: Config, events: seq<Event>)
    ensures Run(Start(), c, events).counters.played <= |Unpadded(Run(Start(), c, events).emitted)|
    decreases |events|
  {
    hide Next, Unpadded;
    if events == [] {
      NothingPlayed();
    } else {
      PlayedWasEmitted(c, events[..|events| - 1]);
      PlayedStep(Run(Start(), c, events[..|events| - 1]), c, events[|events| - 1]);
    }
  }

  lemma NothingPlayed()
    ensures Start().counters.played == 0 && Unpadded(Start().emitted) == []
  {}

  lemma AtomicPlayedStep(t: Track, c: Config, e: AtomicEvent)
    requires ValidConfig(c) && TrackInv(t, c) && Exact(t) && t.counters.played == |Unpadded(t.emitted)|
    ensures StepAtomic(t, c, e).counters.played == |Unpadded(StepAtomic(t, c, e).emitted)|
  {
    hide Unpadded, TrackInv, Exact, Held, StepAtomic;
    if e.Recv? {
      RecvTakesOldest(t, c);
      var n := Min(|Held(t.buffers)|, c.frameSamples);
      UnpaddedSnoc(t.emitted, Frame(Held(t.buffers)[..n], t.epoch));
    } else {
      OnlyRecvPlays(t, c, e);
    }
  }

  lemma OnlyRecvPlays(t: Track, c: Config, e: AtomicEvent)
    requires !e.Recv?
    ensures StepAtomic(t, c, e).counters.played == t.counters.played && StepAtomic(t, c, e).emitted == t.emitted
  {}

  /** With recv in one step the samples counted as played are exactly those handed out, over all epochs. */
  lemma {:induction false} AtomicPlayedIsEmitted(c: Config, events: seq<AtomicEvent>)
    requires ValidConfig(c)
    ensures Run(Start(), c, Split(events)).counters.played == |Unpadded(Run(Start(), c, Split(events)).emitted)|
    decreases |events|
  {
    hide Run, TrackInv, Exact, StepAtomic, Split, Unpadded;
    if events == [] {
      NothingPlayed();
      RunNothing(Start(), c);
    } else {
      var before := events[..|events| - 1];
      AtomicPlayedIsEmitted(c, before);
      AtomicPendingIsHeld(c, before);
      InvRun(c, Split(before));
      AtomicPlayedStep(Run(Start(), c, Split(before)), c, events[|events| - 1]);
      RunSteps(Start(), c, events);
    }
  }

  function Credit(t: Track, c: Config): nat {
    if t.pending < c.maxPending then c.maxPending - t.pending else 0
  }

  /** One pass of an admission that still counts admits all that the credit allows, in order, and is over exactly when
      nothing is left. */
  lemma AdmitsAllItCan(c: Config, events: seq<Event>)
    requires ValidConfig(c)
    requires var t := Run(Start(), c, events); t.producer.Some? && !AdmissionOver(t)
    ensures var t := Run(Start(), c, events);
            var after := Next(t, c, Admit);
            var n := Min(Credit(t, c), Remaining(t.producer));
            && after.pending == t.pending + n && Remaining(after.producer) == Remaining(t.producer) - n
            && Held(after.buffers) == Held(t.buffers) + ToAdmit(t)[..n]
            && (after.producer.None? <==> Remaining(t.producer) == n)
            && after.counters == t.counters
  {
    InvRun(c, events);
    var t := Run(Start(), c, events);
    hide Run, Held, CountersInv, FifoInv, EmittedInv;
    if Admits(t, c) {
      AdmitQueues(t, c);
    }
    hide Sequenced, Flat;
  }

  /** Room for a frame, and the next pass of the admission. */
  lemma RecvThenAdmit(t: Track, c: Config)
    requires ValidConfig(c) && TrackInv(t, c) && Exact(t) && t.producer.Some? && !AdmissionOver(t)
    ensures var after := StepAtomic(StepAtomic(t, c, Recv), c, AtomicAdmit);
            && TrackInv(after, c) && Exact(after) && !AdmissionOver(after) && after.epoch == t.epoch && after.ended == t.ended
            && (after.producer.None? || Remaining(after.producer) < Remaining(t.producer))
            && after.history.offered == t.history.offered
            && t.emitted <= after.emitted
  {
    hide Held, TrackInv, StepAtomic;
    var received := StepAtomic(t, c, Recv);
    AtomicKeeps(t, c, Recv);
    ExactStep(t, c, Recv);
    AtomicKeeps(received, c, AtomicAdmit);
    ExactStep(received, c, AtomicAdmit);
    RecvFrees(t, c);
    ProducerPart(t, c);
    ProducerPart(received, c);
    AdmitGoesOn(received, c);
  }

  lemma ProducerPart(t: Track, c: Config)
    requires TrackInv(t, c)
    ensures ProducerInv(t) && t.pending <= c.maxPending && (t.producer.Some? ==> Remaining(t.producer) > 0)
  {
    hide Sequenced, CountersInv, FifoInv, EmittedInv, Held;
  }

  lemma RecvFrees(t: Track, c: Config)
    requires ValidConfig(c) && TrackInv(t, c) && Exact(t)
    ensures var after := StepAtomic(t, c, Recv);
            && after.pending == t.pending - Min(t.pending, c.frameSamples)
            && after.producer == t.producer && after.epoch == t.epoch && after.ended == t.ended
            && after.history.offered == t.history.offered && t.emitted <= after.emitted
  {
    RecvTakesOldest(t, c);
    hide TrackInv, Held, Fill;
  }

  lemma AdmitGoesOn(t: Track, c: Config)
    requires ProducerInv(t) && t.producer.Some? && !AdmissionOver(t) && t.pending < c.maxPending
    ensures var after := StepAtomic(t, c, AtomicAdmit);
            && (after.producer.None? || Remaining(after.producer) < Remaining(t.producer))
            && !AdmissionOver(after) && after.epoch == t.epoch && after.ended == t.ended
            && after.history.offered == t.history.offered && after.emitted == t.emitted
  {}

  /** An admission is never stuck: with recv in one step, as many frames as it takes and no stop let every offered
      sample in. */
  lemma {:induction false} AdmissionCanComplete(t: Track, c: Config) returns (steps: seq<AtomicEvent>)
    requires ValidConfig(c) && TrackInv(t, c) && Exact(t) && !AdmissionOver(t)
    ensures NoStops(steps) && |steps| <= 2 * Remaining(t.producer)
    ensures var after := Run(t, c, Split(steps));
            && after.producer.None? && after.epoch == t.epoch && after.ended == t.ended
            && after.history.offered == t.history.offered
            && (!t.ended ==> after.history.admitted == after.history.offered)
    decreases t.producer.Some?, Remaining(t.producer)
  {
    hide Run, Split, StepAtomic, TrackInv, Exact, Held;
    if t.producer.None? {
      steps := [];
      RunNothing(t, c);
      if !t.ended {
        AllAdmitted(t, c);
      }
    } else {
      ProducerPart(t, c);
      var next := StepAtomic(StepAtomic(t, c, Recv), c, AtomicAdmit);
      RecvThenAdmit(t, c);
      var rest := AdmissionCanComplete(next, c);
      TwoThenMore(t, c, rest);
      steps := [Recv, AtomicAdmit] + rest;
    }
  }

  lemma AllAdmitted(t: Track, c: Config)
    requires TrackInv(t, c) && t.producer.None? && !t.ended
    ensures t.history.admitted == t.history.offered
  {
    hide Held;
    assert t.history.admitted + [] == t.history.admitted;
  }

  lemma TwoThenMore(t: Track, c: Config, rest: seq<AtomicEvent>)
    ensures Run(t, c, Split([Recv, AtomicAdmit] + rest))
            == Run(StepAtomic(StepAtomic(t, c, Recv), c, AtomicAdmit), c, Split(rest))
  {
    hide Run, Split, StepAtomic;
    SplitAppend(t, c, [Recv, AtomicAdmit], rest);
    RunSteps(t, c, [Recv]);
    RunSteps(t, c, [Recv, AtomicAdmit]);
    assert [Recv][..0] == [] && [Recv, AtomicAdmit][..1] == [Recv];
    RunNothing(t, c);
  }

  lemma {:induction false} SplitAppend(t: Track, c: Config, first: seq<AtomicEvent>, rest: seq<AtomicEvent>)
    ensures Run(t, c, Split(first + rest)) == Run(Run(t, c, Split(first)), c, Split(rest))
    decreases |rest|
  {
    hide Run, Split, StepAtomic;
    if rest == [] {
      assert first + rest == first;
      RunNothing(Run(t, c, Split(first)), c);
    } else {
      assert (first + rest)[..|first + rest| - 1] == first + rest[..|rest| - 1];
      SplitAppend(t, c, first, rest[..|rest| - 1]);
      RunSteps(t, c, first + rest);
      RunSteps(Run(t, c, Split(first)), c, rest);
    }
  }
}

/** The track in the source's form: the queue of chunks, the frame buffer and the credit, updated in place. */
module OutputTrack {
  import opened Wrappers
  import opened AudioTrack

  class QueuedAudioOutputTrack {
    const config: Config
    var queue: seq<Chunk>
    var buffer: seq<Sample>
    var nextSequence: nat
    var lastConsumedSequence: Option<nat>
    var orderViolationCount: nat
    var pendingSamples: nat
    var playoutEpoch: nat
    var ended: bool
    var counters: Counters
    var admission: Option<Admission>
    var cutFrame: Option<Frame>
    ghost var history: EpochHistory
    ghost var emitted: seq<Frame>

    ghost function View(): Track
      reads this
    {
      Track(Buffers(queue, buffer, nextSequence, lastConsumedSequence, orderViolationCount), pendingSamples, playoutEpoch,
            ended, admission, cutFrame, counters, history, emitted)
    }

    constructor (config: Config)
      ensures View() == Start() && this.config == config
    {
      this.config := config;
      queue, buffer, nextSequence, lastConsumedSequence, orderViolationCount := [], [], 0, None, 0;
      pendingSamples, playoutEpoch, ended, counters, admission, cutFrame := 0, 0, false, Counters(0, 0, 0), None, None;
      history, emitted := EpochHistory([], [], []), [];
    }

    /** Moves chunks from the queue into the buffer until it holds a frame. */
    method FillBuffer()
      modifies `queue, `buffer, `lastConsumedSequence, `orderViolationCount
      ensures View().buffers == Fill(old(View()).buffers, config.frameSamples)
    {
      while |buffer| < config.frameSamples && queue != []
        invariant Fill(View().buffers, config.frameSamples) == Fill(old(View()).buffers, config.frameSamples)
        decreases |queue|
      {
        var chunk := queue[0];
        queue := queue[1..];
        if lastConsumedSequence.Some? && chunk.sequence <= lastConsumedSequence.value {
          orderViolationCount := orderViolationCount + 1;
        }
        lastConsumedSequence := Some(chunk.sequence);
        buffer := buffer + chunk.samples;
      }
    }

    /** `recv` up to its await: the frame is cut. The result is padded with silence. */
    method CutNextFrame() returns (samples: seq<Sample>)
      requires cutFrame.None?
      modifies `queue, `buffer, `lastConsumedSequence, `orderViolationCount, `cutFrame, `history
      ensures View() == StepCut(old(View()), config)
      ensures |samples| == config.frameSamples && cutFrame.Some? && cutFrame.value.samples <= samples
      ensures forall i | |cutFrame.value.samples| <= i < |samples| :: samples[i] == 0
    {
      if !ended {
        FillBuffer();
      }
      hide Fill;
      var consumed := if |buffer| <= config.frameSamples then |buffer| else config.frameSamples;
      var cut := buffer[..consumed];
      buffer := buffer[consumed..];
      cutFrame := Some(Frame(cut, playoutEpoch));
      history := history.(cut := history.cut + cut);
      samples := cut + seq(config.frameSamples - consumed, _ => 0);
    }

    /** `recv` after its await: the credit returns and the frame goes out. */
    method ReleasePendingSamples()
      requires cutFrame.Some?
      modifies `pendingSamples, `counters, `emitted, `cutFrame
      ensures View() == StepRelease(old(View()))
    {
      var count := |cutFrame.value.samples|;
      var released := if count <= pendingSamples then count else pendingSamples;
      pendingSamples := pendingSamples - released;
      counters := counters.(played := counters.played + released);
      emitted := emitted + [cutFrame.value];
      cutFrame := None;
    }

    method BeginAdmission(samples: seq<Sample>)
      requires admission.None? && samples != []
      modifies `admission, `counters, `history
      ensures View() == StepOffer(old(View()), samples)
    {
      admission := Some(Admission(samples, 0, playoutEpoch));
      counters := counters.(offered := counters.offered + |samples|);
      history := history.(offered := history.offered + samples);
    }

    /** Queues what the credit allows of the samples left. */
    method AdmitChunk()
      requires Admits(View(), config) && admission.value.offset < |admission.value.samples|
      modifies `queue, `nextSequence, `pendingSamples, `admission, `history
      ensures View() == StepAdmit(old(View()), config)
    {
      var a := admission.value;
      var available := config.maxPending - pendingSamples;
      var left := |a.samples| - a.offset;
      var admitted := if available <= left then available else left;
      var chunk := a.samples[a.offset..a.offset + admitted];
      queue := queue + [Chunk(nextSequence, chunk)];
      nextSequence := nextSequence + 1;
      admission := if a.offset + admitted == |a.samples| then None else Some(a.(offset := a.offset + admitted));
      pendingSamples := pendingSamples + admitted;
      history := history.(admitted := history.admitted + chunk);
    }

    /** One pass of the admission loop; `blocked` when it has to wait for credit. */
    method AdmitSamples() returns (blocked: bool)
      requires ProducerInv(View()) && admission.Some?
      modifies `queue, `nextSequence, `pendingSamples, `counters, `admission, `history
      ensures View() == StepAdmit(old(View()), config)
      ensures blocked == (!AdmissionOver(old(View())) && old(pendingSamples) >= config.maxPending)
    {
      var a := admission.value;
      blocked := false;
      if a.epoch != playoutEpoch || ended {
        counters := counters.(discarded := counters.discarded + (|a.samples| - a.offset));
        admission := None;
      } else if pendingSamples >= config.maxPending {
        blocked := true;
      } else {
        hide StepAdmit;
        AdmitChunk();
      }
    }

    /** Discards everything queued and buffered; blocked admissions find the epoch changed. */
    method StopCurrent() returns (discardedChunks: nat)
      modifies `queue, `buffer, `lastConsumedSequence, `pendingSamples, `playoutEpoch, `counters, `history
      ensures View() == StepStopCurrent(old(View()))
      ensures discardedChunks == |old(queue)| + if old(buffer) != [] then 1 else 0
    {
      playoutEpoch := playoutEpoch + 1;
      discardedChunks := 0;
      while queue != []
        modifies `queue
        invariant discardedChunks + |queue| == |old(queue)|
        decreases |queue|
      {
        queue := queue[1..];
        discardedChunks := discardedChunks + 1;
      }
      if buffer != [] {
        discardedChunks := discardedChunks + 1;
      }
      counters := counters.(discarded := counters.discarded + pendingSamples);
      pendingSamples := 0;
      buffer := [];
      lastConsumedSequence := None;
      history := EpochHistory([], [], []);
    }
  }
}

/** Real-time pacing of `recv`. */
module Pacing {
  import opened Wrappers

  /** What the clock shows before a frame and, if the pacer sleeps, after the sleep. */
  datatype Reading = Reading(before: real, after: real)

  datatype Pacer = Pacer(next: Option<real>)

  function Deadline(p: Pacer, now: real): real {
    if p.next.Some? then p.next.value else now
  }

  /** A sleep lasts at least its argument. */
  predicate Sleeps(p: Pacer, r: Reading) {
    r.before <= r.after && (Deadline(p, r.before) > r.before ==> r.after >= Deadline(p, r.before))
  }

  function SentAt(p: Pacer, r: Reading): real {
    if Deadline(p, r.before) > r.before then r.after else r.before
  }

  function Pace(p: Pacer, duration: real, r: Reading): Pacer {
    var deadline, now := Deadline(p, r.before), SentAt(p, r);
    Pacer(Some(if deadline < now - duration then now + duration else deadline + duration))
  }

  function PaceAll(duration: real, readings: seq<Reading>): Pacer
    decreases |readings|
  {
    if readings == [] then Pacer(None)
    else Pace(PaceAll(duration, readings[..|readings| - 1]), duration, readings[|readings| - 1])
  }

  ghost predicate ValidTrace(duration: real, readings: seq<Reading>) {
    && 0.0 < duration
    && (forall k | 0 <= k < |readings| :: Sleeps(PaceAll(duration, readings[..k]), readings[k]))
  }

  class RealtimePacer {
    const frameDuration: real
    var nextFrameAt: Option<real>

    constructor (duration: real)
      ensures frameDuration == duration && nextFrameAt == None
    {
      frameDuration, nextFrameAt := duration, None;
    }

    /** Returns when the frame goes out; `reading` is what the clock shows. */
    method PaceRealtime(reading: Reading) returns (sentAt: real)
      requires Sleeps(Pacer(nextFrameAt), reading)
      modifies this
      ensures Pacer(nextFrameAt) == Pace(old(Pacer(nextFrameAt)), frameDuration, reading)
      ensures sentAt == SentAt(old(Pacer(nextFrameAt)), reading)
    {
      var now := reading.before;
      var deadline := now;
      if nextFrameAt.Some? {
        deadline := nextFrameAt.value;
      }
      if deadline - now > 0.0 {
        now := reading.after;
      }
      if deadline < now - frameDuration {
        nextFrameAt := Some(now + frameDuration);
      } else {
        nextFrameAt := Some(deadline + frameDuration);
      }
      sentAt := now;
    }
  }

  /** Where frame k falls on an ideal clock. */
  function Ideal(start: real, duration: real, k: nat): real {
    if k == 0 then start else Ideal(start, duration, k - 1) + duration
  }

  lemma {:induction false} IdealIsMultiple(start: real, duration: real, k: nat)
    ensures Ideal(start, duration, k) == start + (k as real) * duration
  {
    if k != 0 {
      IdealIsMultiple(start, duration, k - 1);
      assert (k as real) * duration == ((k - 1) as real) * duration + duration;
    }
  }

  lemma TraceInit(duration: real, readings: seq<Reading>, k: nat)
    requires ValidTrace(duration, readings) && k <= |readings|
    ensures ValidTrace(duration, readings[..k])
    ensures k < |readings| ==> Sleeps(PaceAll(duration, readings[..k]), readings[k])
  {
    hide PaceAll, Sleeps;
    forall j | 0 <= j < k ensures readings[..k][..j] == readings[..j] {}
  }

  lemma {:induction false} DeadlineGrows(duration: real, readings: seq<Reading>)
    requires ValidTrace(duration, readings) && readings != []
    ensures PaceAll(duration, readings).next.Some?
    ensures PaceAll(duration, readings).next.value >= Ideal(readings[0].before, duration, |readings|)
    decreases |readings|
  {
    var n := |readings| - 1;
    var init, r := readings[..n], readings[n];
    TraceInit(duration, readings, n);
    if n != 0 {
      DeadlineGrows(duration, init);
      PaceMovesOn(PaceAll(duration, init), duration, r);
    } else {
      assert PaceAll(duration, init) == Pacer(None);
      PaceMovesOn(Pacer(None), duration, r);
      assert Ideal(r.before, duration, 1) == Ideal(r.before, duration, 0) + duration;
    }
  }

  lemma PaceMovesOn(p: Pacer, duration: real, r: Reading)
    requires 0.0 < duration && Sleeps(p, r)
    ensures Pace(p, duration, r).next.Some?
    ensures Pace(p, duration, r).next.value >= Deadline(p, r.before) + duration
    ensures SentAt(p, r) >= Deadline(p, r.before)
  {}

  /** Frame k is never sent before the start plus k frame durations, for every clock trace. */
  lemma NeverEarly(duration: real, readings: seq<Reading>, k: nat)
    requires ValidTrace(duration, readings) && k < |readings|
    ensures SentAt(PaceAll(duration, readings[..k]), readings[k]) >= readings[0].before + (k as real) * duration
  {
    TraceInit(duration, readings, k);
    IdealIsMultiple(readings[0].before, duration, k);
    PaceMovesOn(PaceAll(duration, readings[..k]), duration, readings[k]);
    if k > 0 {
      DeadlineGrows(duration, readings[..k]);
    } else {
      assert readings[..k] == [];
      assert (0 as real) * duration == 0.0;
    }
  }

  /** No frame goes out later than one duration after its deadline. */
  ghost predicate NeverLate(duration: real, readings: seq<Reading>) {
    forall k | 0 <= k < |readings| ::
      SentAt(PaceAll(duration, readings[..k]), readings[k])
      <= Deadline(PaceAll(duration, readings[..k]), readings[k].before) + duration
  }

  lemma PaceOnTime(p: Pacer, duration: real, r: Reading)
    requires SentAt(p, r) <= Deadline(p, r.before) + duration
    ensures Pace(p, duration, r) == Pacer(Some(Deadline(p, r.before) + duration))
  {}

  lemma {:induction false} DeadlinesAreIdeal(duration: real, readings: seq<Reading>)
    requires NeverLate(duration, readings) && readings != []
    ensures PaceAll(duration, readings) == Pacer(Some(Ideal(readings[0].before, duration, |readings|)))
    decreases |readings|
  {
    hide SentAt, Pace;
    var n := |readings| - 1;
    var init, r := readings[..n], readings[n];
    forall k | 0 <= k < n ensures init[..k] == readings[..k] {}
    assert SentAt(PaceAll(duration, init), r) <= Deadline(PaceAll(duration, init), r.before) + duration;
    PaceOnTime(PaceAll(duration, init), duration, r);
    if n == 0 {
      assert PaceAll(duration, init) == Pacer(None);
      assert Ideal(r.before, duration, 1) == Ideal(r.before, duration, 0) + duration;
    } else {
      DeadlinesAreIdeal(duration, init);
    }
  }

  /** While no frame is later than that, the schedule does not drift: the next deadline is the start plus the number of
      frames so far in durations, however the clock jitters. */
  lemma ScheduleIsKept(duration: real, readings: seq<Reading>)
    requires NeverLate(duration, readings) && readings != []
    ensures PaceAll(duration, readings) == Pacer(Some(readings[0].before + (|readings| as real) * duration))
  {
    hide *;
    var start, n := readings[0].before, |readings|;
    DeadlinesAreIdeal(duration, readings);
    IdealIsMultiple(start, duration, n);
  }

  /** After each frame the next deadline lies between now and one frame duration from now. */
  lemma NextDeadlineIsNear(duration: real, readings: seq<Reading>, k: nat)
    requires ValidTrace(duration, readings) && k < |readings|
    ensures var p, r := PaceAll(duration, readings[..k]), readings[k];
            var now := SentAt(p, r);
            now <= Pace(p, duration, r).next.value <= now + duration
  {
    TraceInit(duration, readings, k);
    PaceMovesOn(PaceAll(duration, readings[..k]), duration, readings[k]);
  }
}
