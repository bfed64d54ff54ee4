/** Every run of an armed pipeline is finite and ends with everything played. */
module DrainingRuns {
  import CB = CircleBuffers
  import opened Playback
  import opened Tokens
  import opened Draining
  import PauseGate

  /** The output buffers a decoder program still has to enqueue. */
  function FramesIn(calls: seq<Callback>): (f: seq<Chunk>)
  {
    if calls == [] then [] else (if calls[0].WriteCb? then [calls[0].pcm] else []) + FramesIn(calls[1..])
  }

  function FramesAhead(t: Thread): seq<Chunk> {
    if t.Decoder? then FramesIn(t.calls) else []
  }

  function ChunksAhead(t: Thread): seq<Chunk> {
    if t.Feeder? then t.pending else []
  }

  function AllFrames(ts: seq<Thread>): (m: multiset<Chunk>)
  {
    if ts == [] then multiset{} else multiset(FramesAhead(ts[0])) + AllFrames(ts[1..])
  }

  function AllChunks(ts: seq<Thread>): (m: multiset<Chunk>)
  {
    if ts == [] then multiset{} else multiset(ChunksAhead(ts[0])) + AllChunks(ts[1..])
  }

  lemma Shuffle(first: multiset<Chunk>, before: multiset<Chunk>, after: multiset<Chunk>, out: multiset<Chunk>,
                in': multiset<Chunk>)
    requires after + out == before + in'
    ensures (first + after) + out == (first + before) + in'
  {
    assert (first + after) + out == first + (after + out);
  }

  lemma {:induction false} FramesUpdate(ts: seq<Thread>, i: nat, t: Thread)
    requires i < |ts|
    ensures AllFrames(ts[i := t]) + multiset(FramesAhead(ts[i])) == AllFrames(ts) + multiset(FramesAhead(t))
    decreases |ts|
  {
    if i > 0 {
      assert ts[i := t][1..] == ts[1..][i - 1 := t];
      FramesUpdate(ts[1..], i - 1, t);
      Shuffle(multiset(FramesAhead(ts[0])), AllFrames(ts[1..]), AllFrames(ts[i := t][1..]),
              multiset(FramesAhead(ts[i])), multiset(FramesAhead(t)));
    } else {
      assert ts[i := t][1..] == ts[1..];
    }
  }

  lemma {:induction false} ChunksUpdate(ts: seq<Thread>, i: nat, t: Thread)
    requires i < |ts|
    ensures AllChunks(ts[i := t]) + multiset(ChunksAhead(ts[i])) == AllChunks(ts) + multiset(ChunksAhead(t))
    decreases |ts|
  {
    if i > 0 {
      assert ts[i := t][1..] == ts[1..][i - 1 := t];
      ChunksUpdate(ts[1..], i - 1, t);
      Shuffle(multiset(ChunksAhead(ts[0])), AllChunks(ts[1..]), AllChunks(ts[i := t][1..]),
              multiset(ChunksAhead(ts[i])), multiset(ChunksAhead(t)));
    } else {
      assert ts[i := t][1..] == ts[1..];
    }
  }

  /** An upper bound on the thread steps still possible. */
  function Measure(s: State): (n: int)
  {
    Sum(Work, s.threads) + ROUND * s.raw.pull
  }

  // ---- what one step does -------------------------------------------------------------------

  predicate Dequeues(s: State, s': State, t: Thread, t': Thread)
  {
    && Weight(ToRead, t') + |s'.flac.taken| - Weight(ToFeed, t') - |s'.flac.written|
       == Weight(ToRead, t) + |s.flac.taken| - Weight(ToFeed, t) - |s.flac.written|
    && Weight(AudioThreads, t') == Weight(AudioThreads, t)
    && Weight(Metadatas, t') - One(s'.raw.ring.None?) == Weight(Metadatas, t) - One(s.raw.ring.None?)
    && (s'.raw.ring.None? ==> s.raw.ring.None? && (AwaitsMetadata(t) ==> AwaitsMetadata(t')))
  }

  predicate Conserves(s: State, s': State, t: Thread, t': Thread)
  {
    && s'.raw.written + FramesAhead(t') == s.raw.written + FramesAhead(t)
    && s'.flac.written + ChunksAhead(t') == s.flac.written + ChunksAhead(t)
  }

  predicate Lowers(s: State, s': State, t: Thread, t': Thread)
  {
    WorkLeft(t') + ROUND * s'.raw.pull < WorkLeft(t) + ROUND * s.raw.pull
  }

  predicate Moves(s: State, s': State, i: nat)
  {
    && i < |s.threads| && s'.cfg == s.cfg && s'.stop == s.stop && |s'.threads| == |s.threads|
    && s'.threads == s.threads[i := s'.threads[i]]
    && s'.threads[i].Feeder? == s.threads[i].Feeder? && s'.threads[i].Decoder? == s.threads[i].Decoder?
    && s'.supplied == s.supplied
    && Dequeues(s, s', s.threads[i], s'.threads[i])
    && Conserves(s, s', s.threads[i], s'.threads[i])
    && Lowers(s, s', s.threads[i], s'.threads[i])
  }

  /** What a ring step does to the records, when it neither fails nor faults. */
  predicate Effect(st: Stage, ph: Phase, job: Job)
    requires Advance(st, ph, job).Some?
  {
    var (st', ph') := Advance(st, ph, job).value;
    && !ph'.Crashed? && st'.ring.Some? == st.ring.Some?
    && (if ph.Reading? then ph'.Got? && |st'.taken| == |st.taken| + 1 else st'.taken == st.taken)
    && (if ph.Writing? then job.Produce? && ph'.Wrote? && st'.written == st.written + [job.chunk]
        else st'.written == st.written)
  }

  lemma EffectWithoutFault(st: Stage, ph: Phase, job: Job)
    requires Advance(st, ph, job).Some? && !Advance(st, ph, job).value.1.Crashed?
    requires ph.Writing? ==> job.Produce? && Advance(st, ph, job).value.0.faults == 0
    ensures Effect(st, ph, job)
  {
  }

  lemma StageEffect(s: State, i: nat, k: Side, job: Job)
    requires Inv(s) && i < |s.threads|
    requires JobFits(StageOf(s, k), DimsOf(s.cfg, k).elem, PhaseOn(s.threads[i], k), job)
    requires Advance(StageOf(s, k), PhaseOn(s.threads[i], k), job).Some?
    ensures Effect(StageOf(s, k), PhaseOn(s.threads[i], k), job)
  {
    var st, ph := StageOf(s, k), PhaseOn(s.threads[i], k);
    NoCrash(s, i, k, job);
    CensusUpdate(s.threads, k, i, s.threads[i]);
    CensusNatural(s.threads, k);
    AdvanceKeepsStage(st, DimsOf(s.cfg, k), CensusOf(s.threads, k), ph, job);
    EffectWithoutFault(st, ph, job);
  }

  lemma FeederMovesBy(s: State, i: nat)
    requires i < |s.threads| && s.threads[i].Feeder? && FeederStep(s, i).Some?
    requires ThreadOk(s.cfg, s.raw.ring.Some?, s.threads[i])
    requires Effect(s.flac, s.threads[i].ph, Produce(First(s.threads[i].pending, []), true))
    ensures Moves(s, FeederStep(s, i).value, i)
  {
    if s.threads[i].ph.Writing? {
      FeederWrites(s, i);
    } else {
      FeederElse(s, i);
    }
  }

  lemma FeederWrites(s: State, i: nat)
    requires i < |s.threads| && s.threads[i].Feeder? && FeederStep(s, i).Some?
    requires ThreadOk(s.cfg, s.raw.ring.Some?, s.threads[i]) && s.threads[i].ph.Writing?
    requires Effect(s.flac, s.threads[i].ph, Produce(First(s.threads[i].pending, []), true))
    ensures Moves(s, FeederStep(s, i).value, i)
  {
    FrontMoves(s.flac.written, s.threads[i].pending);
  }

  lemma FrontMoves(done: seq<Chunk>, ahead: seq<Chunk>)
    requires ahead != []
    ensures done + [ahead[0]] + ahead[1..] == done + ahead
  {
  }

  lemma FeederElse(s: State, i: nat)
    requires i < |s.threads| && s.threads[i].Feeder? && FeederStep(s, i).Some?
    requires ThreadOk(s.cfg, s.raw.ring.Some?, s.threads[i]) && !s.threads[i].ph.Writing?
    requires Effect(s.flac, s.threads[i].ph, Produce(First(s.threads[i].pending, []), true))
    ensures Moves(s, FeederStep(s, i).value, i)
  {
  }

  lemma FeederMoves(s: State, i: nat)
    requires Inv(s) && i < |s.threads| && s.threads[i].Feeder? && FeederStep(s, i).Some?
    ensures Moves(s, FeederStep(s, i).value, i)
  {
    var t := s.threads[i];
    assert ThreadOk(s.cfg, s.raw.ring.Some?, t);
    StageEffect(s, i, Flac, Produce(First(t.pending, []), true));
    FeederMovesBy(s, i);
  }

  lemma AudioMovesBy(s: State, i: nat)
    requires i < |s.threads| && s.threads[i].Audio? && AudioStep(s, i).Some?
    requires s.stop ==> s.threads[i].where.Body?
    requires ThreadOk(s.cfg, s.raw.ring.Some?, s.threads[i])
    requires s.threads[i].where.Body? && !s.threads[i].ph.Got? && !s.threads[i].ph.Playing? ==>
      Effect(s.raw, s.threads[i].ph, Consume)
    ensures Moves(s, AudioStep(s, i).value, i)
  {
  }

  lemma AudioMoves(s: State, i: nat)
    requires Inv(s) && i < |s.threads| && s.threads[i].Audio? && AudioStep(s, i).Some?
    requires s.stop ==> s.threads[i].where.Body?
    ensures Moves(s, AudioStep(s, i).value, i)
  {
    var t := s.threads[i];
    assert ThreadOk(s.cfg, s.raw.ring.Some?, t);
    if t.where.Body? && !t.ph.Got? && !t.ph.Playing? {
      StageEffect(s, i, Raw, Consume);
    }
    AudioMovesBy(s, i);
  }

  lemma ReadCbMovesBy(s: State, i: nat)
    requires i < |s.threads| && s.threads[i].Decoder? && s.threads[i].at.InRead? && DecoderStep(s, i).Some?
    requires ThreadOk(s.cfg, s.raw.ring.Some?, s.threads[i])
    requires !s.threads[i].ph.Got? ==> Effect(s.flac, s.threads[i].ph, Consume)
    ensures Moves(s, DecoderStep(s, i).value, i)
  {
    if s.threads[i].ph.Reading? {
      ReadCbReads(s, i);
    } else {
      ReadCbElse(s, i);
    }
  }

  lemma ReadCbReads(s: State, i: nat)
    requires i < |s.threads| && s.threads[i].Decoder? && s.threads[i].at.InRead? && DecoderStep(s, i).Some?
    requires ThreadOk(s.cfg, s.raw.ring.Some?, s.threads[i])
    requires s.threads[i].ph.Reading? && Effect(s.flac, s.threads[i].ph, Consume)
    ensures Moves(s, DecoderStep(s, i).value, i)
  {
    ReadIs(s, i, DecoderStep(s, i).value);
    ReadMoves(s, i, DecoderStep(s, i).value);
  }

  /** `s'` is `s` after decoder thread `i` has dequeued a chunk for its read callback. */
  predicate HasRead(s: State, i: nat, s': State)
  {
    && i < |s.threads| && s.threads[i].Decoder? && s.threads[i].calls != [] && s.threads[i].calls[0].ReadCb?
    && i < |s'.threads| && s'.threads[i].Decoder? && s'.threads[i].ph.Got?
    && s' == s.(flac := s'.flac, threads := s.threads[i := s'.threads[i]])
    && s'.threads[i].at.InRead? && s'.threads[i].calls == s.threads[i].calls[1..]
    && |s'.flac.taken| == |s.flac.taken| + 1 && s'.flac.written == s.flac.written
  }

  lemma ReadIs(s: State, i: nat, s': State)
    requires i < |s.threads| && s.threads[i].Decoder? && s.threads[i].at.InRead? && DecoderStep(s, i) == Some(s')
    requires ThreadOk(s.cfg, s.raw.ring.Some?, s.threads[i])
    requires s.threads[i].ph.Reading? && Effect(s.flac, s.threads[i].ph, Consume)
    ensures HasRead(s, i, s')
  {
  }

  lemma ReadMoves(s: State, i: nat, s': State)
    requires HasRead(s, i, s') && s.threads[i].at.InRead? && s.threads[i].ph.Reading?
    ensures Moves(s, s', i)
  {
  }

  lemma ReadCbElse(s: State, i: nat)
    requires i < |s.threads| && s.threads[i].Decoder? && s.threads[i].at.InRead? && DecoderStep(s, i).Some?
    requires ThreadOk(s.cfg, s.raw.ring.Some?, s.threads[i]) && !s.threads[i].ph.Reading?
    requires !s.threads[i].ph.Got? ==> Effect(s.flac, s.threads[i].ph, Consume)
    ensures Moves(s, DecoderStep(s, i).value, i)
  {
  }

  lemma ReadCbMoves(s: State, i: nat)
    requires Inv(s) && i < |s.threads| && s.threads[i].Decoder? && s.threads[i].at.InRead? && DecoderStep(s, i).Some?
    ensures Moves(s, DecoderStep(s, i).value, i)
  {
    var t := s.threads[i];
    assert ThreadOk(s.cfg, s.raw.ring.Some?, t);
    if !t.ph.Got? {
      StageEffect(s, i, Flac, Consume);
    }
    ReadCbMovesBy(s, i);
  }

  lemma WriteCbMovesBy(s: State, i: nat)
    requires i < |s.threads| && s.threads[i].Decoder? && s.threads[i].at.InWrite? && DecoderStep(s, i).Some?
    requires ThreadOk(s.cfg, s.raw.ring.Some?, s.threads[i])
    requires Effect(s.raw, s.threads[i].ph, Produce(PcmOf(s.threads[i].calls), false))
    ensures Moves(s, DecoderStep(s, i).value, i)
  {
    if s.threads[i].ph.Writing? {
      WriteCbWrites(s, i);
    } else {
      WriteCbElse(s, i);
    }
  }

  lemma WriteCbWrites(s: State, i: nat)
    requires i < |s.threads| && s.threads[i].Decoder? && s.threads[i].at.InWrite? && DecoderStep(s, i).Some?
    requires ThreadOk(s.cfg, s.raw.ring.Some?, s.threads[i]) && s.threads[i].ph.Writing?
    requires Effect(s.raw, s.threads[i].ph, Produce(PcmOf(s.threads[i].calls), false))
    ensures Moves(s, DecoderStep(s, i).value, i)
  {
  }

  lemma WriteCbElse(s: State, i: nat)
    requires i < |s.threads| && s.threads[i].Decoder? && s.threads[i].at.InWrite? && DecoderStep(s, i).Some?
    requires ThreadOk(s.cfg, s.raw.ring.Some?, s.threads[i]) && !s.threads[i].ph.Writing?
    requires Effect(s.raw, s.threads[i].ph, Produce(PcmOf(s.threads[i].calls), false))
    ensures Moves(s, DecoderStep(s, i).value, i)
  {
  }

  lemma WriteCbMoves(s: State, i: nat)
    requires Inv(s) && i < |s.threads| && s.threads[i].Decoder? && s.threads[i].at.InWrite? && DecoderStep(s, i).Some?
    ensures Moves(s, DecoderStep(s, i).value, i)
  {
    var t := s.threads[i];
    assert ThreadOk(s.cfg, s.raw.ring.Some?, t);
    assert FrameOk(s.cfg, First(t.calls, ReadCb));
    StageEffect(s, i, Raw, Produce(PcmOf(t.calls), false));
    WriteCbMovesBy(s, i);
  }

  lemma DecoderMoves(s: State, i: nat)
    requires Inv(s) && !s.stop && i < |s.threads| && s.threads[i].Decoder? && DecoderStep(s, i).Some?
    ensures Moves(s, DecoderStep(s, i).value, i)
  {
    match s.threads[i].at
    case InRead => ReadCbMoves(s, i);
    case InWrite => WriteCbMoves(s, i);
    case Between =>
  }

  lemma ThreadMoves(s: State, i: nat)
    requires Inv(s) && !s.stop && i < |s.threads| && ThreadStep(s, i).Some?
    ensures Moves(s, ThreadStep(s, i).value, i)
  {
    if s.threads[i].Feeder? {
      FeederMoves(s, i);
    } else if s.threads[i].Decoder? {
      DecoderMoves(s, i);
    } else {
      AudioMoves(s, i);
    }
  }

  // ---- whole runs -----------------------------------------------------------------------------

  lemma {:induction false} WorkNatural(cfg: Config, rawExists: bool, ts: seq<Thread>)
    requires ThreadsOk(cfg, rawExists, ts)
    ensures Sum(Work, ts) >= 0
    decreases |ts|
  {
    if ts != [] {
      assert ThreadOk(cfg, rawExists, ts[0]);
      assert forall i :: 0 <= i < |ts[1..]| ==> ts[1..][i] == ts[i + 1];
      WorkNatural(cfg, rawExists, ts[1..]);
    }
  }

  lemma MeasureNatural(s: State)
    requires Inv(s)
    ensures Measure(s) >= 0
  {
    WorkNatural(s.cfg, s.raw.ring.Some?, s.threads);
  }

  lemma AwaitingKept(s: State, i: nat)
    requires Primed(s) && i < |s.threads| && ThreadStep(s, i).Some? && Moves(s, ThreadStep(s, i).value, i)
    requires ThreadStep(s, i).value.raw.ring.None?
    ensures exists j :: 0 <= j < |ThreadStep(s, i).value.threads| && AwaitsMetadata(ThreadStep(s, i).value.threads[j])
  {
    var s' := ThreadStep(s, i).value;
    var j :| 0 <= j < |s.threads| && AwaitsMetadata(s.threads[j]);
    assert AwaitsMetadata(s'.threads[j]);
  }

  lemma PrimedStep(s: State, i: nat)
    requires Primed(s) && i < |s.threads| && ThreadStep(s, i).Some?
    ensures Primed(ThreadStep(s, i).value)
    ensures Measure(ThreadStep(s, i).value) < Measure(s)
    ensures SpareReads(ThreadStep(s, i).value) == SpareReads(s)
  {
    var s' := ThreadStep(s, i).value;
    ThreadMoves(s, i);
    RunKeepsInv(s, i);
    SumsMove(s, s', i);
    if s'.raw.ring.None? {
      AwaitingKept(s, i);
    }
  }

  lemma SumsMove(s: State, s': State, i: nat)
    requires Moves(s, s', i)
    ensures Measure(s') < Measure(s)
    ensures Sum(AudioThreads, s'.threads) == Sum(AudioThreads, s.threads)
    ensures SpareReads(s') == SpareReads(s)
    ensures Sum(Metadatas, s'.threads) - One(s'.raw.ring.None?) == Sum(Metadatas, s.threads) - One(s.raw.ring.None?)
  {
    SumUpdate(Work, s.threads, i, s'.threads[i]);
    SumUpdate(AudioThreads, s.threads, i, s'.threads[i]);
    SumUpdate(ToRead, s.threads, i, s'.threads[i]);
    SumUpdate(ToFeed, s.threads, i, s'.threads[i]);
    SumUpdate(Metadatas, s.threads, i, s'.threads[i]);
  }

  lemma ArmedStep(s: State, i: nat)
    requires Armed(s) && i < |s.threads| && ThreadStep(s, i).Some?
    ensures Armed(ThreadStep(s, i).value)
    ensures Measure(ThreadStep(s, i).value) < Measure(s)
  {
    PrimedStep(s, i);
    PauseGate.PauseTokenMoves(s, i);
  }

  /** Every buffer is either enqueued or still ahead of some decoder, every chunk enqueued or ahead of some feeder. */
  predicate SameCargo(s: State, s': State)
  {
    && multiset(s'.raw.written) + AllFrames(s'.threads) == multiset(s.raw.written) + AllFrames(s.threads)
    && multiset(s'.flac.written) + AllChunks(s'.threads) == multiset(s.flac.written) + AllChunks(s.threads)
  }

  lemma Exchange(w: seq<Chunk>, w': seq<Chunk>, a: seq<Chunk>, a': seq<Chunk>, all: multiset<Chunk>,
                 all': multiset<Chunk>)
    requires w' + a' == w + a
    requires all' + multiset(a) == all + multiset(a')
    ensures multiset(w') + all' == multiset(w) + all
  {
    forall c: Chunk
      ensures (multiset(w') + all')[c] == (multiset(w) + all)[c]
    {
      assert multiset(w' + a')[c] == multiset(w')[c] + multiset(a')[c];
      assert multiset(w + a)[c] == multiset(w)[c] + multiset(a)[c];
      assert (all' + multiset(a))[c] == (all + multiset(a'))[c];
    }
  }

  lemma CargoStep(s: State, i: nat)
    requires Inv(s) && !s.stop && i < |s.threads| && ThreadStep(s, i).Some?
    ensures SameCargo(s, ThreadStep(s, i).value)
  {
    var s' := ThreadStep(s, i).value;
    var t, t' := s.threads[i], s'.threads[i];
    ThreadMoves(s, i);
    FramesUpdate(s.threads, i, t');
    ChunksUpdate(s.threads, i, t');
    Exchange(s.raw.written, s'.raw.written, FramesAhead(t), FramesAhead(t'),
             AllFrames(s.threads), AllFrames(s'.threads));
    Exchange(s.flac.written, s'.flac.written, ChunksAhead(t), ChunksAhead(t'),
             AllChunks(s.threads), AllChunks(s'.threads));
  }

  predicate ThreadRun(actions: seq<Action>)
  {
    forall k :: 0 <= k < |actions| ==> actions[k].Run?
  }

  /** Each step of a run costs at least one unit of the measure, so runs are no longer than it. */
  lemma {:induction false} RunIsBounded(s: State, actions: seq<Action>)
    requires Armed(s) && ThreadRun(actions) && Exec(s, actions).Some?
    ensures var s' := Exec(s, actions).value;
      Armed(s') && SameCargo(s, s') && 0 <= Measure(s') <= Measure(s) - |actions|
    decreases |actions|
  {
    if actions == [] {
      WorkNatural(s.cfg, s.raw.ring.Some?, s.threads);
    } else {
      ArmedStep(s, actions[0].i);
      CargoStep(s, actions[0].i);
      RunIsBounded(Step(s, actions[0]).value, actions[1..]);
    }
  }

  lemma {:induction false} NothingAhead(ts: seq<Thread>)
    requires forall i :: 0 <= i < |ts| ==> Idle(ts[i])
    ensures AllFrames(ts) == multiset{} && AllChunks(ts) == multiset{}
    decreases |ts|
  {
    if ts != [] {
      assert forall i :: 0 <= i < |ts[1..]| ==> ts[1..][i] == ts[i + 1];
      NothingAhead(ts[1..]);
    }
  }

  /** Draining: for any number of threads, any decoder programs and any interleaving, a run that can go no
      further has played every buffer of every write callback and decoded every chunk fed. */
  lemma EveryMaximalRunDrains(s: State, actions: seq<Action>)
    requires Armed(s) && ThreadRun(actions) && Exec(s, actions).Some? && Stuck(Exec(s, actions).value)
    ensures |actions| <= Measure(s)
    ensures var s' := Exec(s, actions).value;
      && Finished(s')
      && multiset(s'.played) == multiset(s.raw.written) + AllFrames(s.threads)
      && multiset(s'.delivered) == multiset(s.flac.written) + AllChunks(s.threads)
  {
    RunIsBounded(s, actions);
    StuckIsFinished(Exec(s, actions).value);
    NothingAhead(Exec(s, actions).value.threads);
  }

  /** And any run can be continued to such an end. */
  lemma {:induction false} CanBeCompleted(s: State) returns (actions: seq<Action>)
    requires Armed(s)
    ensures ThreadRun(actions) && Exec(s, actions).Some? && Stuck(Exec(s, actions).value)
    decreases Measure(s)
  {
    MeasureNatural(s);
    if Stuck(s) {
      actions := [];
    } else {
      var i :| 0 <= i < |s.threads| && ThreadStep(s, i).Some?;
      var s' := ThreadStep(s, i).value;
      ArmedStep(s, i);
      MeasureNatural(s');
      var rest := CanBeCompleted(s');
      actions := [Run(i)] + rest;
      assert actions[1..] == rest;
    }
  }

  // ---- one song: one thread of each kind ---------------------------------------------------------

  /** The threads of a single PLAY, in the order they are spawned. */
  predicate OneSong(s: State)
  {
    |s.threads| == 3 && s.threads[0].Audio? && s.threads[1].Decoder? && s.threads[2].Feeder?
  }

  /** With one feeder and one decoder both rings see their input in the order it was given. */
  predicate InOrder(s: State, frames: seq<Chunk>)
  {
    && OneSong(s)
    && s.supplied == s.flac.written + s.threads[2].pending
    && frames == s.raw.written + FramesIn(s.threads[1].calls)
  }

  lemma InOrderStep(s: State, i: nat, frames: seq<Chunk>)
    requires Inv(s) && !s.stop && InOrder(s, frames) && i < 3 && ThreadStep(s, i).Some?
    ensures InOrder(ThreadStep(s, i).value, frames)
  {
    var s' := ThreadStep(s, i).value;
    ThreadMoves(s, i);
    if i != 2 {
      assert s'.flac.written + [] == s'.flac.written && s.flac.written + [] == s.flac.written;
    }
    if i != 1 {
      assert s'.raw.written + [] == s'.raw.written && s.raw.written + [] == s.raw.written;
    }
  }

  /** The state after one PLAY whose request loop will feed `chunks`. */
  function SongState(cfg: Config, program: seq<Callback>, chunks: seq<Chunk>): (s: State)
    requires cfg.flacSlots > 0
  {
    Init(cfg).(playing := true, started := true, supplied := chunks,
               threads := [Audio(LoopTop, Away, 0), Decoder(Between, Away, program, 0), Feeder(Away, chunks)])
  }

  function SongActions(program: seq<Callback>, chunks: seq<Chunk>): (a: seq<Action>)
  {
    if chunks == [] then [Do(Play(program))]
    else SongActions(program, chunks[..|chunks| - 1]) + [Supply(2, chunks[|chunks| - 1])]
  }

  /** That state is reached by the one command and the feed calls. */
  lemma {:induction false} SongIsReached(cfg: Config, program: seq<Callback>, chunks: seq<Chunk>)
    requires cfg.flacSlots > 0 && ProgramOk(cfg, program) && forall i :: 0 <= i < |chunks| ==> ChunkOk(cfg, chunks[i])
    ensures Exec(Init(cfg), SongActions(program, chunks)) == Some(SongState(cfg, program, chunks))
    decreases |chunks|
  {
    if chunks == [] {
      ExecSnoc(Init(cfg), [], Do(Play(program)));
      assert [] + [Do(Play(program))] == [Do(Play(program))];
      assert Init(cfg).threads + SongState(cfg, program, chunks).threads == SongState(cfg, program, chunks).threads;
    } else {
      var prefix := chunks[..|chunks| - 1];
      SongIsReached(cfg, program, prefix);
      ExecSnoc(Init(cfg), SongActions(program, prefix), Supply(2, chunks[|chunks| - 1]));
      assert prefix + [chunks[|chunks| - 1]] == chunks;
      assert SongState(cfg, program, prefix).threads[2 := Feeder(Away, chunks)]
          == SongState(cfg, program, chunks).threads;
    }
  }

  lemma SumOfThree(q: Tally, a: Thread, b: Thread, c: Thread)
    ensures Sum(q, [a, b, c]) == Weight(q, a) + Weight(q, b) + Weight(q, c)
  {
    assert [a, b, c][1..] == [b, c] && [b, c][1..] == [c] && [c][1..] == [];
    assert Sum(q, [c]) == Weight(q, c);
    assert Sum(q, [b, c]) == Weight(q, b) + Weight(q, c);
  }

  lemma SongInv(cfg: Config, program: seq<Callback>, chunks: seq<Chunk>)
    requires Fits(cfg) && ProgramOk(cfg, program) && forall i :: 0 <= i < |chunks| ==> ChunkOk(cfg, chunks[i])
    ensures Inv(SongState(cfg, program, chunks))
  {
    var s := SongState(cfg, program, chunks);
    InitInv(cfg);
    SpawnKeepsCensus([], s.threads, Flac);
    SpawnKeepsCensus([], s.threads, Raw);
    assert [] + s.threads == s.threads;
    assert ThreadsOk(cfg, false, s.threads);
    assert SideInv(s.flac, [], DimsOf(cfg, Flac), s.threads, Flac);
  }

  lemma SongSums(program: seq<Callback>, chunks: seq<Chunk>)
    ensures var ts := [Audio(LoopTop, Away, 0), Decoder(Between, Away, program, 0), Feeder(Away, chunks)];
      && Sum(InPlay, ts) == 0 && Sum(AudioThreads, ts) == 1
      && Sum(ToRead, ts) == ReadsIn(program) && Sum(ToFeed, ts) == |chunks|
      && Sum(Metadatas, ts) == MetadatasIn(program)
  {
    var a, b, c := Audio(LoopTop, Away, 0), Decoder(Between, Away, program, 0), Feeder(Away, chunks);
    SumOfThree(InPlay, a, b, c);
    SumOfThree(AudioThreads, a, b, c);
    SumOfThree(ToRead, a, b, c);
    SumOfThree(ToFeed, a, b, c);
    SumOfThree(Metadatas, a, b, c);
  }

  lemma SongIsLive(cfg: Config, program: seq<Callback>, chunks: seq<Chunk>)
    requires Fits(cfg) && cfg.flacTokens > 0 && cfg.rawTokens > 0
    requires ProgramOk(cfg, program) && forall i :: 0 <= i < |chunks| ==> ChunkOk(cfg, chunks[i])
    requires MetadataFirst(program) && MetadatasIn(program) == 1
    ensures Live(SongState(cfg, program, chunks))
    ensures SpareReads(SongState(cfg, program, chunks)) == ReadsIn(program) - |chunks|
  {
    SongInv(cfg, program, chunks);
    SongSums(program, chunks);
    assert AwaitsMetadata(SongState(cfg, program, chunks).threads[1]);
  }

  lemma SongIsArmed(cfg: Config, program: seq<Callback>, chunks: seq<Chunk>)
    requires Fits(cfg) && cfg.flacTokens > 0 && cfg.rawTokens > 0
    requires ProgramOk(cfg, program) && forall i :: 0 <= i < |chunks| ==> ChunkOk(cfg, chunks[i])
    requires MetadataFirst(program) && MetadatasIn(program) == 1 && ReadsIn(program) == |chunks|
    ensures Armed(SongState(cfg, program, chunks)) && InOrder(SongState(cfg, program, chunks), FramesIn(program))
  {
    SongIsLive(cfg, program, chunks);
  }

  // ---- one song with pauses ------------------------------------------------------------------------

  /** A step of a song under way: of a thread, or of the control thread pausing and resuming. */
  predicate OfSong(a: Action)
  {
    a.Run? || a.Finish? || a == Do(Pause) || a == Do(Resume)
  }

  predicate SongRun(actions: seq<Action>)
  {
    forall k :: 0 <= k < |actions| ==> OfSong(actions[k])
  }

  function ThreadSteps(actions: seq<Action>): (n: nat)
  {
    if actions == [] then 0 else One(actions[0].Run?) + ThreadSteps(actions[1..])
  }

  /** The pause token is where it should be, and will be: the player has been started. */
  predicate PauseOk(s: State)
  {
    PauseGate.Known(s) && PauseGate.Balanced(s) && s.started
  }

  /** With the control thread back and no pause outstanding the gate is open. */
  lemma GateIsOpen(s: State)
    requires Primed(s) && PauseOk(s) && s.control.Ready? && s.playing
    ensures Live(s)
  {
  }

  lemma CommandKeepsPauseOk(s: State, a: Action, s': State)
    requires PauseOk(s) && Step(s, a) == Some(s') && OfSong(a)
    ensures PauseOk(s')
  {
    PauseGate.StepBalance(s, a);
    if a.Run? {
      PauseGate.PauseTokenMoves(s, a.i);
    }
  }

  lemma CommandTouchesFlags(s: State, a: Action, s': State)
    requires Step(s, a) == Some(s') && OfSong(a) && !a.Run?
    ensures s' == s.(pause := s'.pause, playing := s'.playing, control := s'.control)
  {
  }

  /** Pauses and resumes change nothing but flags and the token. */
  lemma CommandKeepsPrimed(s: State, s': State)
    requires Primed(s) && s' == s.(pause := s'.pause, playing := s'.playing, control := s'.control)
    ensures Primed(s') && SpareReads(s') == SpareReads(s) && Measure(s') == Measure(s)
  {
    InvFrame(s, s');
    if s.raw.ring.None? {
      var j :| 0 <= j < |s.threads| && AwaitsMetadata(s.threads[j]);
      assert AwaitsMetadata(s'.threads[j]);
    }
  }

  /** A song at some point of such a run. */
  predicate SongGoesOn(s: State, frames: seq<Chunk>, chunks: seq<Chunk>)
  {
    Primed(s) && PauseOk(s) && InOrder(s, frames) && s.supplied == chunks && SpareReads(s) == 0
  }

  lemma SongStep(s: State, a: Action, s': State, frames: seq<Chunk>, chunks: seq<Chunk>)
    requires SongGoesOn(s, frames, chunks) && Step(s, a) == Some(s') && OfSong(a)
    ensures SongGoesOn(s', frames, chunks) && Measure(s') + One(a.Run?) <= Measure(s)
  {
    CommandKeepsPauseOk(s, a, s');
    if a.Run? {
      PrimedStep(s, a.i);
      InOrderStep(s, a.i, frames);
      ThreadMoves(s, a.i);
    } else {
      CommandTouchesFlags(s, a, s');
      CommandKeepsPrimed(s, s');
    }
  }

  lemma {:induction false} SongKeepsGoing(s: State, actions: seq<Action>, frames: seq<Chunk>, chunks: seq<Chunk>)
    requires SongGoesOn(s, frames, chunks) && SongRun(actions) && Exec(s, actions).Some?
    ensures SongGoesOn(Exec(s, actions).value, frames, chunks)
    ensures Measure(Exec(s, actions).value) + ThreadSteps(actions) <= Measure(s)
    decreases |actions|
  {
    if actions != [] {
      assert OfSong(actions[0]) && SongRun(actions[1..]);
      SongStep(s, actions[0], Step(s, actions[0]).value, frames, chunks);
      SongKeepsGoing(Step(s, actions[0]).value, actions[1..], frames, chunks);
    }
  }

  /** One song, start to end: whatever the scheduler does and however often the song is paused and resumed, the
      threads take a bounded number of steps, and where they can take none and no pause is outstanding the decoder
      has got exactly the chunks fed and the device exactly the decoded buffers, each in order. */
  lemma SongPlaysInOrder(cfg: Config, program: seq<Callback>, chunks: seq<Chunk>, actions: seq<Action>)
    requires Fits(cfg) && cfg.flacTokens > 0 && cfg.rawTokens > 0
    requires ProgramOk(cfg, program) && forall i :: 0 <= i < |chunks| ==> ChunkOk(cfg, chunks[i])
    requires MetadataFirst(program) && MetadatasIn(program) == 1 && ReadsIn(program) == |chunks|
    requires SongRun(actions) && Exec(SongState(cfg, program, chunks), actions).Some?
    ensures ThreadSteps(actions) <= Measure(SongState(cfg, program, chunks))
    ensures var s := Exec(SongState(cfg, program, chunks), actions).value;
      Stuck(s) && s.control.Ready? && s.playing ==> s.delivered == chunks && s.played == FramesIn(program)
  {
    var s0 := SongState(cfg, program, chunks);
    SongIsArmed(cfg, program, chunks);
    SongKeepsGoing(s0, actions, FramesIn(program), chunks);
    var s := Exec(s0, actions).value;
    MeasureNatural(s);
    if Stuck(s) && s.control.Ready? && s.playing {
      GateIsOpen(s);
      StuckIsFinished(s);
      assert Idle(s.threads[1]) && Idle(s.threads[2]);
    }
  }
}
