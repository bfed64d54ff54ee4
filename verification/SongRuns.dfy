/** One song from start to end through server, channel, daemon and playback.  Every run has an end, and with no pause
    outstanding and reads enough the end is the assert on the empty series.  How much of the song has been played by
    then is up to the scheduler: all of it in one run, not even the whole file decoded in another. */
module SongRuns {
  import opened Bytes
  import opened Messages
  import opened Feeding
  import opened Streaming
  import opened StreamingProofs
  import opened StreamingProgress
  import PB = Playback
  import CB = CircleBuffers
  import Tokens
  import Draining
  import DR = DrainingRuns
  import PauseGate

  /** The feed calls a file takes. */
  function PieceCount(file: Chunk): (n: nat)
  {
    (|file| + 4499) / 4500
  }

  /** A player for a song: metadata once and before the first frame. */
  predicate PlayerSetup(cfg: PB.Config, program: seq<PB.Callback>)
  {
    && Setup(cfg, program) && cfg.flacTokens > 0 && cfg.rawTokens > 0
    && Draining.MetadataFirst(program) && PB.MetadatasIn(program) == 1
  }

  /** And with reads enough: the last chunks need not leave the flac ring. */
  predicate SongSetup(cfg: PB.Config, file: Chunk, program: seq<PB.Callback>)
  {
    PlayerSetup(cfg, program) && PieceCount(file) <= PB.ReadsIn(program) + cfg.flacTokens
  }

  function Reads(n: nat): (calls: seq<PB.Callback>)
    ensures PB.ReadsIn(calls) == n && PB.MetadatasIn(calls) == 0
    ensures forall k :: 0 <= k < |calls| ==> calls[k].ReadCb?
  {
    if n == 0 then [] else [PB.ReadCb] + Reads(n - 1)
  }

  /** Under the shipped constants every file has such a player, with as many reads as the file has pieces. */
  lemma EveryFileHasAPlayer(rawElem: nat, file: Chunk) returns (program: seq<PB.Callback>)
    ensures SongSetup(PB.Defaults(rawElem), file, program) && PB.ReadsIn(program) == PieceCount(file)
  {
    program := [PB.MetadataCb] + Reads(PieceCount(file));
    assert program[1..] == Reads(PieceCount(file));
    DefaultsAreSetUp(rawElem, program);
  }

  /** Steps of server, daemon and playback threads; no command, and no datagram of another song. */
  predicate Own(a: Action) {
    !a.Stray? && (a.Play? ==> a.a.Run?)
  }

  predicate Unpaused(actions: seq<Action>)
  {
    forall k :: 0 <= k < |actions| ==> Own(actions[k]) || actions[k].Stray?
  }

  /** The control thread pausing and resuming. */
  predicate OfControl(a: Action) {
    a.Play? && !a.a.Run? && DR.OfSong(a.a)
  }

  /** A song under way, among datagrams of other songs and with pauses and resumes. */
  predicate SongRun(actions: seq<Action>)
  {
    forall k :: 0 <= k < |actions| ==> Own(actions[k]) || actions[k].Stray? || OfControl(actions[k])
  }

  function OwnSteps(actions: seq<Action>): (n: nat)
  {
    if actions == [] then 0 else PB.One(Own(actions[0])) + OwnSteps(actions[1..])
  }

  /** No pause is outstanding. */
  predicate GateOpen(s: State) {
    s.pb.control.Ready? && s.pb.playing
  }

  ghost predicate Ended(s: State)
  {
    forall a :: Own(a) ==> Step(s, a).None?
  }

  /** What holds throughout such a run: outside the feed call the feeder rests, and `budget` is what the decoder
      reads in all. */
  predicate Running(pb: PB.State, inFeed: bool, budget: nat)
  {
    && Draining.Primed(pb) && DR.PauseOk(pb)
    && Draining.SpareReads(pb) + |pb.supplied| == budget
    && FEEDER < |pb.threads| && (!inFeed ==> pb.threads[FEEDER] == PB.Feeder(PB.Away, []))
  }

  predicate Alive(s: State, budget: nat)
  {
    Inv(s) && Running(s.pb, s.loop.InFeed?, budget)
  }

  predicate Enough(s: State, budget: nat)
  {
    PieceCount(s.file) <= budget + s.pb.cfg.flacTokens
  }

  /** The steps that a song can still take. */
  function Left(s: State): (n: int)
  {
    Rank(s) + DR.Measure(s.pb) + 100 * (PieceCount(s.file) - |s.pb.supplied|) + 81 * PB.One(s.loop.InFeed?)
  }

  lemma FedIsBounded(s: State)
    requires Front(s)
    ensures |s.pb.supplied| <= PieceCount(s.file)
  {
  }

  lemma LeftNatural(s: State)
    requires Inv(s)
    ensures Left(s) >= 0
  {
    RankNatural(s);
    DR.MeasureNatural(s.pb);
    FedIsBounded(s);
  }

  // ---- one step ------------------------------------------------------------------------------------

  predicate Untouched(s: State, s': State) {
    s'.pb == s.pb && (s'.loop.InFeed? <==> s.loop.InFeed?)
  }

  predicate Supplied(s: State, s': State) {
    s.loop.Checking? && s'.loop.InFeed? && PB.SupplyStep(s.pb, FEEDER, s.loop.acc) == PB.Some(s'.pb)
  }

  predicate SameFlags(pb: PB.State, pb': PB.State) {
    pb'.control == pb.control && pb'.playing == pb.playing && pb'.cfg == pb.cfg
  }

  /** A series step leaves playback alone, except for the one that enters the feed call. */
  lemma SeriesTouchesFeeder(s: State, a: Action, s': State)
    requires Step(s, a) == PB.Some(s') && OfSeries(a)
    ensures Untouched(s, s') || Supplied(s, s')
    ensures s'.file == s.file
  {
    StepKeepsSong(s, a, s');
    if OfServer(a) {
      ServerTouchesNothing(s, a, s');
    } else if !a.Receive? && !OfMain(a) {
      LoopTouchesFeeder(s, a, s');
    }
  }

  lemma ServerTouchesNothing(s: State, a: Action, s': State)
    requires ServerStep(s, a) == PB.Some(s')
    ensures s'.pb == s.pb && s'.loop == s.loop
  {
  }

  lemma LoopTouchesFeeder(s: State, a: Action, s': State)
    requires LoopStep(s, a) == PB.Some(s') && !a.Fed?
    ensures Untouched(s, s') || Supplied(s, s')
  {
  }

  lemma SupplyKeepsPrimed(pb: PB.State, chunk: Chunk, pb': PB.State)
    requires Draining.Primed(pb) && PB.SupplyStep(pb, FEEDER, chunk) == PB.Some(pb')
    ensures Draining.Primed(pb') && SameFlags(pb, pb')
    ensures DR.PauseOk(pb) ==> DR.PauseOk(pb')
    ensures Draining.SpareReads(pb') + |pb'.supplied| == Draining.SpareReads(pb) + |pb.supplied|
    ensures |pb'.supplied| == |pb.supplied| + 1 && DR.Measure(pb') == DR.Measure(pb) + 5
  {
    Tokens.SupplyKeepsInv(pb, FEEDER, chunk);
    SupplySums(pb, chunk, pb');
    if pb.raw.ring.None? {
      var j :| 0 <= j < |pb.threads| && Draining.AwaitsMetadata(pb.threads[j]);
      assert Draining.AwaitsMetadata(pb'.threads[j]);
    }
  }

  lemma SupplySums(pb: PB.State, chunk: Chunk, pb': PB.State)
    requires PB.SupplyStep(pb, FEEDER, chunk) == PB.Some(pb')
    ensures PB.Sum(PB.InPlay, pb'.threads) == PB.Sum(PB.InPlay, pb.threads)
    ensures PB.Sum(PB.AudioThreads, pb'.threads) == PB.Sum(PB.AudioThreads, pb.threads)
    ensures PB.Sum(PB.Metadatas, pb'.threads) == PB.Sum(PB.Metadatas, pb.threads)
    ensures PB.Sum(PB.ToRead, pb'.threads) == PB.Sum(PB.ToRead, pb.threads)
    ensures PB.Sum(PB.ToFeed, pb'.threads) == PB.Sum(PB.ToFeed, pb.threads) + 1
    ensures PB.Sum(PB.Work, pb'.threads) == PB.Sum(PB.Work, pb.threads) + 5
  {
    var t := pb'.threads[FEEDER];
    assert pb'.threads == pb.threads[FEEDER := t];
    PB.SumUpdate(PB.InPlay, pb.threads, FEEDER, t);
    PB.SumUpdate(PB.AudioThreads, pb.threads, FEEDER, t);
    PB.SumUpdate(PB.Metadatas, pb.threads, FEEDER, t);
    PB.SumUpdate(PB.ToRead, pb.threads, FEEDER, t);
    PB.SumUpdate(PB.ToFeed, pb.threads, FEEDER, t);
    PB.SumUpdate(PB.Work, pb.threads, FEEDER, t);
  }

  /** One own step: the song is still alive and has less left. */
  predicate Advances(s: State, s': State, budget: nat)
  {
    Alive(s', budget) && Left(s') < Left(s) && s'.file == s.file && SameFlags(s.pb, s'.pb)
  }

  lemma SeriesAdvances(s: State, a: Action, s': State, budget: nat)
    requires Alive(s, budget) && Step(s, a) == PB.Some(s') && OfSeries(a)
    ensures Advances(s, s', budget)
  {
    StepKeepsInv(s, a, s');
    StepLowersRank(s, a, s');
    SeriesTouchesFeeder(s, a, s');
    SeriesLeavesLess(s, s', budget);
  }

  lemma SeriesLeavesLess(s: State, s': State, budget: nat)
    requires Running(s.pb, s.loop.InFeed?, budget) && (Untouched(s, s') || Supplied(s, s'))
    requires Rank(s') < Rank(s) && s'.file == s.file
    ensures Running(s'.pb, s'.loop.InFeed?, budget) && Left(s') < Left(s) && SameFlags(s.pb, s'.pb)
  {
    if Supplied(s, s') {
      SupplyKeepsPrimed(s.pb, s.loop.acc, s'.pb);
    }
  }

  lemma FedIs(s: State, a: Action, s': State)
    requires Step(s, a) == PB.Some(s') && a.Fed?
    ensures s.loop.InFeed? && s' == s.(loop := Request)
    ensures FEEDER < |s.pb.threads| && s.pb.threads[FEEDER] == PB.Feeder(PB.Away, [])
  {
  }

  lemma FedAdvances(s: State, a: Action, s': State, budget: nat)
    requires Alive(s, budget) && Step(s, a) == PB.Some(s') && a.Fed?
    ensures Advances(s, s', budget)
  {
    StepKeepsInv(s, a, s');
    FedIs(s, a, s');
  }

  lemma RunIs(s: State, a: Action, s': State)
    requires Step(s, a) == PB.Some(s') && a.Play? && a.a.Run?
    ensures !s.loop.Aborted? && a.a.i < |s.pb.threads| && PB.ThreadStep(s.pb, a.a.i).Some?
    ensures s' == s.(pb := PB.ThreadStep(s.pb, a.a.i).value)
  {
  }

  /** A feeder at rest stays so. */
  lemma RestingFeeder(pb: PB.State, i: nat, pb': PB.State)
    requires i < |pb.threads| && PB.ThreadStep(pb, i) == PB.Some(pb') && DR.Moves(pb, pb', i)
    requires FEEDER < |pb.threads| && pb.threads[FEEDER] == PB.Feeder(PB.Away, [])
    ensures pb'.threads[FEEDER] == pb.threads[FEEDER]
  {
    assert i != FEEDER;
  }

  lemma RunAdvances(s: State, a: Action, s': State, budget: nat)
    requires Alive(s, budget) && Step(s, a) == PB.Some(s') && a.Play? && a.a.Run?
    ensures Advances(s, s', budget)
  {
    StepKeepsInv(s, a, s');
    RunIs(s, a, s');
    RunLeavesLess(s, a.a.i, s', budget);
  }

  lemma RunLeavesLess(s: State, i: nat, s': State, budget: nat)
    requires Running(s.pb, s.loop.InFeed?, budget) && i < |s.pb.threads| && PB.ThreadStep(s.pb, i) == PB.Some(s'.pb)
    requires s' == s.(pb := s'.pb)
    ensures Running(s'.pb, s'.loop.InFeed?, budget) && Left(s') < Left(s) && SameFlags(s.pb, s'.pb)
  {
    ThreadKeepsRunning(s.pb, i, s'.pb, s.loop.InFeed?, budget);
  }

  lemma ThreadKeepsRunning(pb: PB.State, i: nat, pb': PB.State, inFeed: bool, budget: nat)
    requires Running(pb, inFeed, budget) && i < |pb.threads| && PB.ThreadStep(pb, i) == PB.Some(pb')
    ensures Running(pb', inFeed, budget) && DR.Measure(pb') < DR.Measure(pb) && |pb'.supplied| == |pb.supplied|
    ensures SameFlags(pb, pb')
  {
    DR.PrimedStep(pb, i);
    DR.ThreadMoves(pb, i);
    PauseGate.PauseTokenMoves(pb, i);
    if !inFeed {
      RestingFeeder(pb, i, pb');
    }
  }

  lemma OwnStepAdvances(s: State, a: Action, s': State, budget: nat)
    requires Alive(s, budget) && Step(s, a) == PB.Some(s') && Own(a)
    ensures Advances(s, s', budget)
  {
    if a.Play? {
      RunAdvances(s, a, s', budget);
    } else if a.Fed? {
      FedAdvances(s, a, s', budget);
    } else {
      SeriesAdvances(s, a, s', budget);
    }
  }

  /** The same with the bound below that recursion needs. */
  lemma OwnStep(s: State, a: Action, s': State, budget: nat)
    requires Alive(s, budget) && Step(s, a) == PB.Some(s') && Own(a)
    ensures Advances(s, s', budget) && Left(s') >= 0
  {
    OwnStepAdvances(s, a, s', budget);
    LeftNatural(s');
  }

  lemma StrayKeepsAlive(s: State, a: Action, s': State, budget: nat)
    requires Alive(s, budget) && Step(s, a) == PB.Some(s') && a.Stray?
    ensures Alive(s', budget) && Left(s') == Left(s) + 5 && s'.file == s.file && s'.pb == s.pb
  {
    StepKeepsInv(s, a, s');
    StrayIs(s, a, s');
  }

  // ---- no deadlock ------------------------------------------------------------------------------------

  /** The feed call returns: as long as it does not, some playback thread can move. */
  lemma FeedCallReturns(s: State, budget: nat)
    requires Alive(s, budget) && Enough(s, budget) && GateOpen(s) && Draining.Stuck(s.pb)
    ensures s.pb.threads[FEEDER] == PB.Feeder(PB.Away, [])
  {
    DR.GateIsOpen(s.pb);
    FedIsBounded(s);
    Draining.StuckFeedsAreDone(s.pb);
    Draining.StuckGate(s.pb);
    Draining.StuckCensus(s.pb, PB.Flac);
    PB.SumCovers(PB.ToFeed, s.pb.threads, FEEDER);
    assert PB.PhaseOn(s.pb.threads[FEEDER], PB.Flac).Away?;
  }

  /** A playback thread that can move, as a step of the whole. */
  lemma Lift(s: State, i: nat) returns (a: Action)
    requires !s.loop.Aborted? && i < |s.pb.threads| && PB.ThreadStep(s.pb, i).Some?
    ensures a == Play(PB.Run(i)) && Own(a) && Step(s, a) == PB.Some(s.(pb := PB.ThreadStep(s.pb, i).value))
  {
    a := Play(PB.Run(i));
  }

  lemma LiftSome(s: State) returns (a: Action)
    requires !s.loop.Aborted? && !Draining.Stuck(s.pb)
    ensures a.Play? && Own(a) && Step(s, a).Some?
  {
    var i :| 0 <= i < |s.pb.threads| && PB.ThreadStep(s.pb, i).Some?;
    a := Lift(s, i);
  }

  lemma Return(s: State) returns (a: Action)
    requires s.loop.InFeed? && FEEDER < |s.pb.threads| && s.pb.threads[FEEDER] == PB.Feeder(PB.Away, [])
    ensures a.Fed? && Own(a) && Step(s, a).Some?
  {
    a := Fed;
  }

  /** Until the assert has failed somebody can go on. */
  lemma SongCanGoOn(s: State, budget: nat) returns (a: Action)
    requires Alive(s, budget) && Enough(s, budget) && GateOpen(s) && !s.loop.Aborted?
    ensures Own(a) && Step(s, a).Some?
    ensures a.Play? ==> s.loop.InFeed? && s.pb.threads[FEEDER] != PB.Feeder(PB.Away, [])
  {
    if !s.loop.InFeed? {
      a := SomebodyCanMove(s);
    } else if s.pb.threads[FEEDER] == PB.Feeder(PB.Away, []) {
      a := Return(s);
    } else {
      if Draining.Stuck(s.pb) {
        FeedCallReturns(s, budget);
        assert false;
      }
      a := LiftSome(s);
    }
  }

  // ---- whole runs ---------------------------------------------------------------------------------------

  lemma ControlIs(s: State, a: Action, s': State)
    requires Step(s, a) == PB.Some(s') && OfControl(a)
    ensures PB.Step(s.pb, a.a) == PB.Some(s'.pb) && s' == s.(pb := s'.pb)
  {
  }

  lemma ControlKeepsAlive(s: State, a: Action, s': State, budget: nat)
    requires Alive(s, budget) && Step(s, a) == PB.Some(s') && OfControl(a)
    ensures Alive(s', budget) && Left(s') == Left(s) && s'.file == s.file && s'.pb.cfg == s.pb.cfg
  {
    StepKeepsInv(s, a, s');
    ControlIs(s, a, s');
    ControlKeepsRunning(s.pb, a.a, s'.pb, s.loop.InFeed?, budget);
    SameLeft(s, s');
  }

  lemma ControlKeepsRunning(pb: PB.State, a: PB.Action, pb': PB.State, inFeed: bool, budget: nat)
    requires Running(pb, inFeed, budget) && PB.Step(pb, a) == PB.Some(pb') && DR.OfSong(a) && !a.Run?
    ensures Running(pb', inFeed, budget) && DR.Measure(pb') == DR.Measure(pb)
    ensures pb'.supplied == pb.supplied && pb'.cfg == pb.cfg
  {
    DR.CommandTouchesFlags(pb, a, pb');
    DR.CommandKeepsPrimed(pb, pb');
    DR.CommandKeepsPauseOk(pb, a, pb');
  }

  lemma SameLeft(s: State, s': State)
    requires s' == s.(pb := s'.pb) && DR.Measure(s'.pb) == DR.Measure(s.pb) && s'.pb.supplied == s.pb.supplied
    ensures Left(s') == Left(s)
  {
  }

  /** A part of such a run with `own` steps of its own and `strays` datagrams of other songs. */
  predicate Passes(s: State, s': State, own: nat, strays: nat, budget: nat)
  {
    && Alive(s', budget) && Left(s') + own <= Left(s) + 5 * strays
    && s'.file == s.file && s'.pb.cfg == s.pb.cfg
  }

  lemma StepPasses(s: State, a: Action, s': State, budget: nat)
    requires Alive(s, budget) && Step(s, a) == PB.Some(s') && (Own(a) || a.Stray? || OfControl(a))
    ensures Passes(s, s', PB.One(Own(a)), PB.One(a.Stray?), budget)
  {
    if a.Stray? {
      StrayKeepsAlive(s, a, s', budget);
    } else if Own(a) {
      OwnStepAdvances(s, a, s', budget);
    } else {
      ControlKeepsAlive(s, a, s', budget);
    }
  }

  lemma {:induction false} RunsAreBounded(s: State, actions: seq<Action>, budget: nat)
    requires Alive(s, budget) && SongRun(actions) && Exec(s, actions).Some?
    ensures Passes(s, Exec(s, actions).value, OwnSteps(actions), Strays(actions), budget)
    decreases |actions|
  {
    if actions != [] {
      var s' := Step(s, actions[0]).value;
      assert (Own(actions[0]) || actions[0].Stray? || OfControl(actions[0])) && SongRun(actions[1..]);
      StepPasses(s, actions[0], s', budget);
      RunsAreBounded(s', actions[1..], budget);
      StepsAdd(s, s', Exec(s', actions[1..]).value, actions, budget);
    } else {
      StaysPut(s, budget);
    }
  }

  lemma StaysPut(s: State, budget: nat)
    requires Alive(s, budget)
    ensures Passes(s, s, 0, 0, budget)
  {
  }

  lemma StepsAdd(s: State, s': State, s'': State, actions: seq<Action>, budget: nat)
    requires actions != [] && Passes(s, s', PB.One(Own(actions[0])), PB.One(actions[0].Stray?), budget)
    requires Passes(s', s'', OwnSteps(actions[1..]), Strays(actions[1..]), budget)
    ensures Passes(s, s'', OwnSteps(actions), Strays(actions), budget)
  {
  }

  lemma InitIsAlive(cfg: PB.Config, song: uint32, file: Chunk, program: seq<PB.Callback>)
    requires PlayerSetup(cfg, program)
    ensures Alive(Init(cfg, song, file, program), PB.ReadsIn(program)) && GateOpen(Init(cfg, song, file, program))
    ensures Enough(Init(cfg, song, file, program), PB.ReadsIn(program)) <==> SongSetup(cfg, file, program)
  {
    InitInv(cfg, song, file, program);
    SongIsRunning(cfg, program);
  }

  lemma SongIsRunning(cfg: PB.Config, program: seq<PB.Callback>)
    requires PlayerSetup(cfg, program)
    ensures Running(DR.SongState(cfg, program, []), false, PB.ReadsIn(program))
  {
    DR.SongIsLive(cfg, program, []);
  }

  lemma {:induction false} HandingIsTook(k: PB.Side, ts: seq<PB.Thread>)
    ensures PB.Sum(PB.Handing(k), ts) <= PB.Sum(PB.Took(k), ts)
    decreases |ts|
  {
    if ts != [] {
      HandingIsTook(k, ts[1..]);
    }
  }

  /** Chunks fed and not delivered are covered by push tokens that are out. */
  lemma UndeliveredAreTokens(pb: PB.State)
    requires Tokens.Inv(pb)
    ensures |pb.flac.written| <= |pb.delivered| + pb.cfg.flacTokens
  {
    Tokens.CensusNatural(pb.threads, PB.Flac);
    HandingIsTook(PB.Flac, pb.threads);
  }

  /** At the assert the whole file has been fed, and what has not reached the decoder fits the flac ring. */
  lemma WhatAbortLeaves(s: State, budget: nat)
    requires Alive(s, budget) && s.loop.Aborted?
    ensures Concat(s.pb.supplied) == s.file && |s.pb.supplied| == PieceCount(s.file)
    ensures s.pb.delivered <= s.pb.supplied && |s.pb.supplied| <= |s.pb.delivered| + s.pb.cfg.flacTokens
  {
    AllSupplied(s);
    UndeliveredAreTokens(s.pb);
    assert s.pb.flac.written + [] == s.pb.flac.written;
    SuppliedInParts(s.pb);
  }

  /** The assert takes reads for all chunks but those that the ring can hold. */
  lemma AbortTakesReads(s: State, budget: nat)
    requires Alive(s, budget) && s.loop.Aborted?
    ensures Enough(s, budget)
  {
    AllSupplied(s);
    assert s.pb.flac.written + [] == s.pb.flac.written;
    FeederIsEmpty(s.pb);
    PB.SumNatural(PB.ToRead, s.pb.threads);
    Tokens.CensusNatural(s.pb.threads, PB.Flac);
  }

  lemma FeederIsEmpty(pb: PB.State)
    requires DR.OneSong(pb) && pb.threads[FEEDER].pending == []
    ensures PB.Sum(PB.ToFeed, pb.threads) == 0
  {
    assert pb.threads == [pb.threads[0], pb.threads[1], pb.threads[FEEDER]];
    DR.SumOfThree(PB.ToFeed, pb.threads[0], pb.threads[1], pb.threads[FEEDER]);
  }

  /** Every run has an end, and with reads enough it is the assert.  In any interleaving of server, channel, daemon
      and playback, with any pauses and resumes, the steps of a song are bounded; and where nobody can go on and no
      pause is outstanding the assert on the empty series has failed: the file has been fed completely, the decoder
      has had a prefix of it, and at most as many chunks as the flac ring holds have not reached the decoder. */
  lemma EveryRunEndsInAbort(cfg: PB.Config, song: uint32, file: Chunk, program: seq<PB.Callback>, actions: seq<Action>)
    requires SongSetup(cfg, file, program) && SongRun(actions)
    requires Exec(Init(cfg, song, file, program), actions).Some?
    ensures OwnSteps(actions) <= Left(Init(cfg, song, file, program)) + 5 * Strays(actions)
    ensures var s := Exec(Init(cfg, song, file, program), actions).value;
      Ended(s) && GateOpen(s) ==>
        && s.loop.Aborted?
        && Concat(s.pb.supplied) == file && |s.pb.supplied| == PieceCount(file)
        && s.pb.delivered <= s.pb.supplied && PieceCount(file) <= |s.pb.delivered| + cfg.flacTokens
  {
    var s0 := Init(cfg, song, file, program);
    InitIsAlive(cfg, song, file, program);
    RunsAreBounded(s0, actions, PB.ReadsIn(program));
    var s := Exec(s0, actions).value;
    LeftNatural(s);
    if Ended(s) && GateOpen(s) {
      if !s.loop.Aborted? {
        var a := SongCanGoOn(s, PB.ReadsIn(program));
        assert false;
      }
      WhatAbortLeaves(s, PB.ReadsIn(program));
    }
  }

  lemma AbortedIsEnded(s: State)
    requires Front(s) && s.loop.Aborted?
    ensures Ended(s)
  {
    assert Unsent(s.requests, s.handlers) == 0 && s.requests == [] && s.handlers == [];
  }

  lemma JustOne(s: State, a: Action) returns (actions: seq<Action>)
    requires Own(a) && Step(s, a).Some?
    ensures Unpaused(actions) && Exec(s, actions) == Step(s, a)
  {
    actions := [a];
    assert actions[1..] == [];
    assert Exec(Step(s, a).value, actions[1..]) == Step(s, a);
  }

  lemma OneMoreBefore(s: State, a: Action, rest: seq<Action>) returns (actions: seq<Action>)
    requires Own(a) && Step(s, a).Some? && Unpaused(rest)
    ensures Unpaused(actions) && Exec(s, actions) == Exec(Step(s, a).value, rest)
  {
    ExecCons(s, a, rest);
    actions := [a] + rest;
  }

  lemma NotEnded(s: State) returns (a: Action)
    requires !Ended(s)
    ensures Own(a) && Step(s, a).Some?
  {
    a :| Own(a) && Step(s, a).Some?;
  }

  lemma Nothing(s: State) returns (actions: seq<Action>)
    ensures Unpaused(actions) && Exec(s, actions) == PB.Some(s)
  {
    actions := [];
  }

  /** Every song can be brought to its end, from wherever it stands. */
  lemma {:induction false} SongCanBeCompleted(s: State, budget: nat) returns (actions: seq<Action>)
    requires Alive(s, budget)
    ensures Unpaused(actions) && Exec(s, actions).Some? && Ended(Exec(s, actions).value)
    ensures SameFlags(s.pb, Exec(s, actions).value.pb)
    decreases Left(s)
  {
    if Ended(s) {
      actions := Nothing(s);
    } else {
      var a := NotEnded(s);
      var s' := Step(s, a).value;
      OwnStep(s, a, s', budget);
      var rest := SongCanBeCompleted(s', budget);
      actions := OneMoreBefore(s, a, rest);
    }
  }

  /** A run of the song that nobody can continue, with no pause outstanding. */
  ghost predicate ComesToEnd(cfg: PB.Config, song: uint32, file: Chunk, program: seq<PB.Callback>, actions: seq<Action>)
    requires cfg.flacSlots > 0
  {
    && SongRun(actions)
    && Exec(Init(cfg, song, file, program), actions).Some?
    && Ended(Exec(Init(cfg, song, file, program), actions).value)
    && GateOpen(Exec(Init(cfg, song, file, program), actions).value)
  }

  /** For every file there is such a run. */
  lemma SomeRunEnds(cfg: PB.Config, song: uint32, file: Chunk, program: seq<PB.Callback>) returns (actions: seq<Action>)
    requires PlayerSetup(cfg, program)
    ensures Unpaused(actions) && ComesToEnd(cfg, song, file, program, actions)
  {
    InitIsAlive(cfg, song, file, program);
    actions := SongCanBeCompleted(Init(cfg, song, file, program), PB.ReadsIn(program));
  }

  /** No song with reads enough ends without the assert: for every file there is a run, and it takes the daemon
      down. */
  lemma SomeRunAborts(cfg: PB.Config, song: uint32, file: Chunk, program: seq<PB.Callback>)
    returns (actions: seq<Action>)
    requires SongSetup(cfg, file, program)
    ensures Unpaused(actions) && ComesToEnd(cfg, song, file, program, actions)
    ensures Exec(Init(cfg, song, file, program), actions).value.loop.Aborted?
  {
    actions := SomeRunEnds(cfg, song, file, program);
    EveryRunEndsInAbort(cfg, song, file, program, actions);
  }

  /** With too few reads the end is a feed call that never returns. */
  lemma FeedCallHangs(cfg: PB.Config, song: uint32, file: Chunk, program: seq<PB.Callback>, actions: seq<Action>)
    requires PlayerSetup(cfg, program) && !SongSetup(cfg, file, program)
    requires ComesToEnd(cfg, song, file, program, actions)
    ensures Exec(Init(cfg, song, file, program), actions).value.loop.InFeed?
  {
    var s0 := Init(cfg, song, file, program);
    InitIsAlive(cfg, song, file, program);
    RunsAreBounded(s0, actions, PB.ReadsIn(program));
    var s := Exec(s0, actions).value;
    if s.loop.Aborted? {
      AbortTakesReads(s, PB.ReadsIn(program));
      assert false;
    }
    EndsInFeed(s);
  }

  lemma EndsInFeed(s: State)
    requires Inv(s) && Ended(s) && s.pb.control.Ready? && !s.loop.Aborted?
    ensures s.loop.InFeed?
  {
    if !s.loop.InFeed? {
      var a := SomebodyCanMove(s);
      assert false;
    }
  }

  /** All runs of a song that come to an end do so in the assert if and only if the decoder reads all pieces of the
      file but at most as many as the flac ring holds. */
  lemma SongAbortsExactly(cfg: PB.Config, song: uint32, file: Chunk, program: seq<PB.Callback>)
    requires PlayerSetup(cfg, program)
    ensures (forall actions :: ComesToEnd(cfg, song, file, program, actions) ==>
               Exec(Init(cfg, song, file, program), actions).value.loop.Aborted?)
      <==> PieceCount(file) <= PB.ReadsIn(program) + cfg.flacTokens
  {
    if SongSetup(cfg, file, program) {
      forall actions | ComesToEnd(cfg, song, file, program, actions)
        ensures Exec(Init(cfg, song, file, program), actions).value.loop.Aborted?
      {
        EveryRunEndsInAbort(cfg, song, file, program, actions);
      }
    } else {
      var actions := SomeRunEnds(cfg, song, file, program);
      FeedCallHangs(cfg, song, file, program, actions);
    }
  }
}
