/** How much of a song is heard before the assert at its end: in the best run all of it, and for every file with
    anything in it there is a run that ends before the decoder has had the last chunk. */
module SongEnds {
  import opened Bytes
  import opened Feeding
  import opened Streaming
  import opened StreamingProofs
  import opened StreamingProgress
  import opened SongRuns
  import PB = Playback
  import Tokens
  import Draining
  import DR = DrainingRuns

  // ---- the best run ----------------------------------------------------------------------------------

  lemma OwnKeepsOrder(s: State, a: Action, s': State, budget: nat, frames: seq<Chunk>)
    requires Alive(s, budget) && Step(s, a) == PB.Some(s') && Own(a) && DR.InOrder(s.pb, frames)
    ensures DR.InOrder(s'.pb, frames)
  {
    OwnStepAdvances(s, a, s', budget);
    if a.Play? {
      RunIs(s, a, s');
      DR.InOrderStep(s.pb, a.a.i, frames);
    } else if a.Fed? {
      FedIs(s, a, s');
    } else {
      SeriesTouchesFeeder(s, a, s');
      SeriesKeepsFrames(s, s', frames);
    }
  }

  lemma SeriesKeepsFrames(s: State, s': State, frames: seq<Chunk>)
    requires (Untouched(s, s') || Supplied(s, s')) && PipelineOk(s'.pb) && DR.InOrder(s.pb, frames)
    ensures DR.InOrder(s'.pb, frames)
  {
  }

  /** A step into the assert leaves playback as it is. */
  lemma AbortingStep(s: State, a: Action, s': State)
    requires Step(s, a) == PB.Some(s') && Own(a) && !s.loop.Aborted? && s'.loop.Aborted?
    ensures OfSeries(a) && s'.pb == s.pb
  {
    if a.Play? {
      RunIs(s, a, s');
      assert false;
    } else if a.Fed? {
      FedIs(s, a, s');
      assert false;
    } else {
      SeriesTouchesFeeder(s, a, s');
    }
  }

  /** If playback has come to rest before the assert, it has nothing left to do. */
  lemma NothingIsLost(s: State, s': State, frames: seq<Chunk>)
    requires Alive(s', PieceCount(s'.file)) && GateOpen(s') && s'.loop.Aborted? && s'.pb == s.pb
    requires Draining.Stuck(s.pb) && DR.InOrder(s.pb, frames)
    ensures s'.pb.delivered == s'.pb.supplied && s'.pb.played == frames
  {
    AllSupplied(s');
    DR.GateIsOpen(s.pb);
    Draining.StuckIsFinished(s.pb);
    assert Draining.Idle(s.pb.threads[1]) && Draining.Idle(s.pb.threads[FEEDER]);
  }

  predicate PlayedOut(s: State, frames: seq<Chunk>)
  {
    s.pb.delivered == s.pb.supplied && s.pb.played == frames
  }

  /** Playback first, the rest of the system when playback is at rest. */
  lemma PlayFirst(s: State, frames: seq<Chunk>) returns (a: Action)
    requires Alive(s, PieceCount(s.file)) && GateOpen(s) && !s.loop.Aborted? && DR.InOrder(s.pb, frames)
    ensures Own(a) && Step(s, a).Some?
    ensures Advances(s, Step(s, a).value, PieceCount(s.file)) && Left(Step(s, a).value) >= 0
    ensures DR.InOrder(Step(s, a).value.pb, frames)
    ensures Step(s, a).value.loop.Aborted? ==> PlayedOut(Step(s, a).value, frames)
  {
    if Draining.Stuck(s.pb) {
      a := SongCanGoOn(s, PieceCount(s.file));
    } else {
      a := LiftSome(s);
    }
    var s' := Step(s, a).value;
    OwnStep(s, a, s', PieceCount(s.file));
    OwnKeepsOrder(s, a, s', PieceCount(s.file), frames);
    if s'.loop.Aborted? {
      AbortingStep(s, a, s');
      NothingIsLost(s, s', frames);
    }
  }

  lemma {:induction false} PlayFrom(s: State, frames: seq<Chunk>) returns (actions: seq<Action>)
    requires Alive(s, PieceCount(s.file)) && GateOpen(s) && !s.loop.Aborted? && DR.InOrder(s.pb, frames)
    ensures Unpaused(actions) && Exec(s, actions).Some? && Exec(s, actions).value.loop.Aborted?
    ensures PlayedOut(Exec(s, actions).value, frames) && SameFlags(s.pb, Exec(s, actions).value.pb)
    decreases Left(s)
  {
    var a := PlayFirst(s, frames);
    var s' := Step(s, a).value;
    if s'.loop.Aborted? {
      actions := JustOne(s, a);
    } else {
      var rest := PlayFrom(s', frames);
      actions := OneMoreBefore(s, a, rest);
    }
  }

  /** If playback is never behind, the daemon goes down only after the last frame: with as many reads as the file
      has pieces there is a run in which the decoder gets the whole file and the device every frame. */
  lemma SomeRunPlaysEverything(cfg: PB.Config, song: uint32, file: Chunk, program: seq<PB.Callback>)
    returns (actions: seq<Action>)
    requires SongSetup(cfg, file, program) && PB.ReadsIn(program) == PieceCount(file)
    ensures Unpaused(actions) && Exec(Init(cfg, song, file, program), actions).Some?
    ensures var s := Exec(Init(cfg, song, file, program), actions).value;
      && s.loop.Aborted? && Ended(s) && GateOpen(s)
      && Concat(s.pb.delivered) == file
      && s.pb.played == DR.FramesIn(program)
  {
    var s0 := Init(cfg, song, file, program);
    InitIsAlive(cfg, song, file, program);
    actions := PlayFrom(s0, DR.FramesIn(program));
    RunInv(cfg, song, file, program, actions);
    SongKept(s0, actions);
    AllSupplied(Exec(s0, actions).value);
    AbortedIsEnded(Exec(s0, actions).value);
  }

  // ---- a run that is cut off ---------------------------------------------------------------------------

  lemma SeriesTakesNothing(s: State, a: Action, s': State)
    requires Step(s, a) == PB.Some(s') && Own(a) && !a.Play?
    ensures s'.pb.flac.taken == s.pb.flac.taken
  {
    if a.Fed? {
      FedIs(s, a, s');
    } else {
      SeriesTouchesFeeder(s, a, s');
    }
  }

  lemma FeederTakesNothing(pb: PB.State, pb': PB.State)
    requires FEEDER < |pb.threads| && pb.threads[FEEDER].Feeder? && PB.ThreadStep(pb, FEEDER) == PB.Some(pb')
    requires Tokens.Inv(pb)
    ensures pb'.flac.taken == pb.flac.taken
  {
    assert Tokens.ThreadOk(pb.cfg, pb.raw.ring.Some?, pb.threads[FEEDER]);
  }

  /** While a chunk is waiting to be written nobody can dequeue the last one. */
  lemma OthersCannotTakeLast(pb: PB.State, i: nat, pb': PB.State)
    requires PipelineOk(pb) && i < |pb.threads| && PB.ThreadStep(pb, i) == PB.Some(pb')
    requires i != FEEDER && pb.threads[FEEDER].pending != []
    ensures |pb'.flac.taken| < |pb.supplied|
  {
    PipelineRun(pb, i);
    DR.ThreadMoves(pb, i);
    assert pb'.threads[FEEDER] == pb.threads[FEEDER];
    assert pb'.flac.taken <= pb'.flac.written;
  }

  /** The feeder can always leave a chunk it has written behind. */
  lemma WrittenChunkIsLeft(s: State) returns (a: Action)
    requires PipelineOk(s.pb) && !s.loop.Aborted?
    requires s.pb.threads[FEEDER].pending == [] && !s.pb.threads[FEEDER].ph.Away?
    ensures a == Play(PB.Run(FEEDER)) && Own(a) && Step(s, a).Some?
  {
    assert Tokens.ThreadOk(s.pb.cfg, s.pb.raw.ring.Some?, s.pb.threads[FEEDER]);
    a := Lift(s, FEEDER);
  }

  /** A step that leaves at least one chunk with the decoder's ring. */
  lemma HoldBack(s: State, budget: nat) returns (a: Action)
    requires Alive(s, budget) && Enough(s, budget) && GateOpen(s) && !s.loop.Aborted?
    requires |s.pb.flac.taken| < PieceCount(s.file)
    ensures Own(a) && Step(s, a).Some?
    ensures |Step(s, a).value.pb.flac.taken| < PieceCount(s.file)
    ensures Advances(s, Step(s, a).value, budget) && Left(Step(s, a).value) >= 0
  {
    a := HoldBackAction(s, budget);
    var s' := Step(s, a).value;
    OwnStep(s, a, s', budget);
    if !a.Play? {
      SeriesTakesNothing(s, a, s');
    } else {
      RunIs(s, a, s');
      PlayHoldsBack(s, a.a.i, s');
    }
  }

  lemma HoldBackAction(s: State, budget: nat) returns (a: Action)
    requires Alive(s, budget) && Enough(s, budget) && GateOpen(s) && !s.loop.Aborted?
    ensures Own(a) && Step(s, a).Some?
    ensures a.Play? ==> a.a.i == FEEDER || s.pb.threads[FEEDER].pending != []
  {
    var feeder := s.pb.threads[FEEDER];
    if s.loop.InFeed? && feeder.pending == [] && !feeder.ph.Away? {
      a := WrittenChunkIsLeft(s);
    } else {
      a := SongCanGoOn(s, budget);
    }
  }

  lemma PlayHoldsBack(s: State, i: nat, s': State)
    requires Inv(s) && i < |s.pb.threads| && PB.ThreadStep(s.pb, i) == PB.Some(s'.pb)
    requires i == FEEDER || s.pb.threads[FEEDER].pending != []
    requires |s.pb.flac.taken| < PieceCount(s.file)
    ensures |s'.pb.flac.taken| < PieceCount(s.file)
  {
    if i == FEEDER {
      FeederTakesNothing(s.pb, s'.pb);
    } else {
      OthersCannotTakeLast(s.pb, i, s'.pb);
      FedIsBounded(s);
    }
  }

  lemma {:induction false} CutOffFrom(s: State, budget: nat) returns (actions: seq<Action>)
    requires Alive(s, budget) && Enough(s, budget) && GateOpen(s) && !s.loop.Aborted?
    requires |s.pb.flac.taken| < PieceCount(s.file)
    ensures Unpaused(actions) && Exec(s, actions).Some? && Exec(s, actions).value.loop.Aborted?
    ensures Alive(Exec(s, actions).value, budget) && |Exec(s, actions).value.pb.flac.taken| < PieceCount(s.file)
    ensures SameFlags(s.pb, Exec(s, actions).value.pb)
    decreases Left(s)
  {
    var a := HoldBack(s, budget);
    var s' := Step(s, a).value;
    if s'.loop.Aborted? {
      actions := JustOne(s, a);
    } else {
      var rest := CutOffFrom(s', budget);
      actions := OneMoreBefore(s, a, rest);
    }
  }

  /** Fewer chunks than the file has pieces are less than the file. */
  lemma FewerChunks(delivered: seq<Chunk>, supplied: seq<Chunk>, file: Chunk)
    requires delivered <= supplied && Pieces(file, supplied) && |delivered| < PieceCount(file)
    ensures |Concat(delivered)| < |file|
  {
    forall k | 0 <= k < |delivered|
      ensures |delivered[k]| <= 4500
    {
      assert delivered[k] == supplied[k] == Piece(file, k);
    }
    ConcatBound(delivered, 4500);
  }

  /** For every file with anything in it, whatever the decoder's program, there is a run in which the assert comes
      before the decoder has had the whole file. */
  lemma SomeRunIsCutOff(cfg: PB.Config, song: uint32, file: Chunk, program: seq<PB.Callback>)
    returns (actions: seq<Action>)
    requires SongSetup(cfg, file, program) && file != []
    ensures Unpaused(actions) && Exec(Init(cfg, song, file, program), actions).Some?
    ensures var s := Exec(Init(cfg, song, file, program), actions).value;
      s.loop.Aborted? && Ended(s) && GateOpen(s) && |Concat(s.pb.delivered)| < |file|
  {
    var s0 := Init(cfg, song, file, program);
    InitIsAlive(cfg, song, file, program);
    actions := CutOffFrom(s0, PB.ReadsIn(program));
    var s := Exec(s0, actions).value;
    AbortedIsEnded(s);
    WhatAbortLeaves(s, PB.ReadsIn(program));
    ExecKeepsPieces(s0, actions);
    SongKept(s0, actions);
    SuppliedInParts(s.pb);
    FewerChunks(s.pb.delivered, s.pb.supplied, file);
  }

  /** That a song which has come to its end has reached the decoder as a whole holds in all runs for the empty file,
      and for no other. */
  lemma SongReachesDecoderExactly(cfg: PB.Config, song: uint32, file: Chunk, program: seq<PB.Callback>)
    requires SongSetup(cfg, file, program)
    ensures (forall actions :: ComesToEnd(cfg, song, file, program, actions) ==>
               Concat(Exec(Init(cfg, song, file, program), actions).value.pb.delivered) == file)
      <==> file == []
  {
    if file == [] {
      forall actions | ComesToEnd(cfg, song, file, program, actions)
        ensures Concat(Exec(Init(cfg, song, file, program), actions).value.pb.delivered) == file
      {
        EveryRunEndsInAbort(cfg, song, file, program, actions);
      }
    } else {
      var actions := SomeRunIsCutOff(cfg, song, file, program);
      assert ComesToEnd(cfg, song, file, program, actions);
    }
  }
}
