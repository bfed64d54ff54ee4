/** playback_stop for one song: exactly when its two joins return.  What a thread still needs is a property of the
    state in which the flag is set, whatever the scheduler does afterwards. */
module StopJoins {
  import opened Playback
  import opened Tokens
  import opened Draining
  import opened DrainingRuns
  import PauseGate
  import opened StopBound

  /** The metadata callback is still to come, once and before the first frame, or has been. */
  predicate MetadataOk(calls: seq<Callback>, rawExists: bool)
  {
    MetadatasIn(calls) == One(!rawExists) && (!rawExists ==> MetadataFirst(calls))
  }

  /** One song, with whatever has been played, paused and fed so far. */
  predicate UnderWay(s: State)
  {
    && Inv(s) && OneSong(s)
    && s.cfg.flacTokens > 0 && s.cfg.rawTokens > 0
    && MetadataOk(s.threads[1].calls, s.raw.ring.Some?)
    && (s.control.Joining? ==> s.stop)
  }

  predicate Stopped(s: State)
  {
    UnderWay(s) && Stopping(s)
  }

  predicate AudioJoins(s: State)
    requires OneSong(s)
  {
    s.threads[0].where.Exited?
  }

  predicate DecoderJoins(s: State)
    requires OneSong(s)
  {
    s.threads[1].at.Between? && s.threads[1].calls == []
  }

  /** The first join: the audio thread is out of its loop body or past its play; or the pause gate is open, and
      it has a frame, or one is in the ring, or the decoder is about to put one there. */
  predicate AudioGuard(s: State)
    requires OneSong(s)
  {
    var t := s.threads[0];
    || !t.where.Body?
    || t.ph.Playing? || t.ph.Used? || t.ph.PostPush?
    || (s.pause > 0 && (!t.ph.Away? || s.raw.pull > 0 || s.threads[1].at.InWrite?))
  }

  /** The second join: a decoder waiting for data needs a chunk in the ring or a feeder with one, a decoder waiting
      for room needs a free slot or an audio thread that will free one. */
  predicate DecoderGuard(s: State)
    requires OneSong(s)
  {
    var t, feeder := s.threads[1], s.threads[2];
    match t.at
    case Between => true
    case InRead => !t.ph.Away? || s.flac.pull > 0 || !feeder.ph.Away? || feeder.pending != []
    case InWrite => !t.ph.Away? || s.raw.push > 0 || s.threads[0].where.Body?
  }

  // ---- no step changes what the joins depend on -------------------------------------------------

  predicate GuardsKept(s: State, s': State)
    requires OneSong(s)
  {
    && OneSong(s') && s'.stop == s.stop && s'.control == s.control && s'.cfg == s.cfg
    && AudioGuard(s') == AudioGuard(s) && DecoderGuard(s') == DecoderGuard(s)
  }

  lemma AudioKeepsGuards(s: State)
    requires OneSong(s) && s.stop && AudioStep(s, 0).Some? && ThreadOk(s.cfg, s.raw.ring.Some?, s.threads[0])
    ensures GuardsKept(s, AudioStep(s, 0).value)
  {
  }

  lemma DecoderKeepsGuards(s: State)
    requires OneSong(s) && s.stop && DecoderStep(s, 1).Some? && ThreadOk(s.cfg, s.raw.ring.Some?, s.threads[1])
    ensures GuardsKept(s, DecoderStep(s, 1).value)
  {
  }

  lemma FeederKeepsGuards(s: State)
    requires OneSong(s) && s.stop && FeederStep(s, 2).Some? && ThreadOk(s.cfg, s.raw.ring.Some?, s.threads[2])
    ensures GuardsKept(s, FeederStep(s, 2).value)
  {
  }

  /** Callbacks that are made or skipped leave the metadata where it was. */
  lemma DecoderKeepsMetadata(s: State)
    requires OneSong(s) && DecoderStep(s, 1).Some? && ThreadOk(s.cfg, s.raw.ring.Some?, s.threads[1])
    requires MetadataOk(s.threads[1].calls, s.raw.ring.Some?)
    ensures var s' := DecoderStep(s, 1).value;
      OneSong(s') && MetadataOk(s'.threads[1].calls, s'.raw.ring.Some?)
  {
    if s.threads[1].at.InWrite? {
      AdvanceKeepsRing(s.raw, s.threads[1].ph, Produce(PcmOf(s.threads[1].calls), false));
    }
  }

  lemma OthersKeepMetadata(s: State, i: nat)
    requires OneSong(s) && i < 3 && i != 1 && ThreadStep(s, i).Some?
    ensures var s' := ThreadStep(s, i).value;
      OneSong(s') && s'.threads[1] == s.threads[1] && s'.raw.ring.Some? == s.raw.ring.Some?
  {
  }

  lemma RunKeepsUnderWay(s: State, i: nat)
    requires UnderWay(s) && i < 3 && ThreadStep(s, i).Some?
    ensures UnderWay(ThreadStep(s, i).value)
  {
    assert ThreadOk(s.cfg, s.raw.ring.Some?, s.threads[i]);
    RunKeepsInv(s, i);
    PauseGate.PauseTokenMoves(s, i);
    ConfigKept(s, i);
    if i == 1 {
      DecoderKeepsMetadata(s);
    } else {
      OthersKeepMetadata(s, i);
    }
  }

  lemma ConfigKept(s: State, i: nat)
    requires i < |s.threads| && ThreadStep(s, i).Some?
    ensures ThreadStep(s, i).value.cfg == s.cfg
  {
  }

  lemma StepKeepsGuards(s: State, i: nat)
    requires Stopped(s) && i < 3 && ThreadStep(s, i).Some?
    ensures Stopped(ThreadStep(s, i).value) && GuardsKept(s, ThreadStep(s, i).value)
  {
    assert ThreadOk(s.cfg, s.raw.ring.Some?, s.threads[i]);
    RunKeepsUnderWay(s, i);
    if i == 0 {
      AudioKeepsGuards(s);
    } else if i == 1 {
      DecoderKeepsGuards(s);
    } else {
      FeederKeepsGuards(s);
    }
  }

  // ---- where nobody can move ---------------------------------------------------------------------

  /** The tokens of one ring, thread by thread. */
  predicate Spread(st: Stage, tokens: nat, a: Census, b: Census, c: Census)
  {
    && st.mutex + a.locked + b.locked + c.locked == 1
    && st.push + st.pull + a.holdsPush + b.holdsPush + c.holdsPush + a.unposted + b.unposted + c.unposted
       + a.holdsPull + b.holdsPull + c.holdsPull + a.took + b.took + c.took == tokens
  }

  lemma SharesOfThree(x: Thread, y: Thread, z: Thread, k: Side)
    ensures var a, b, c := Share(PhaseOn(x, k)), Share(PhaseOn(y, k)), Share(PhaseOn(z, k));
      && Sum(HoldsPush(k), [x, y, z]) == a.holdsPush + b.holdsPush + c.holdsPush
      && Sum(Unposted(k), [x, y, z]) == a.unposted + b.unposted + c.unposted
      && Sum(HoldsPull(k), [x, y, z]) == a.holdsPull + b.holdsPull + c.holdsPull
      && Sum(Took(k), [x, y, z]) == a.took + b.took + c.took
      && Sum(Locked(k), [x, y, z]) == a.locked + b.locked + c.locked
  {
    SumOfThree(HoldsPush(k), x, y, z);
    SumOfThree(Unposted(k), x, y, z);
    SumOfThree(HoldsPull(k), x, y, z);
    SumOfThree(Took(k), x, y, z);
    SumOfThree(Locked(k), x, y, z);
    WeightIsShare(x, k);
    WeightIsShare(y, k);
    WeightIsShare(z, k);
  }

  lemma WeightIsShare(t: Thread, k: Side)
    ensures var a := Share(PhaseOn(t, k));
      && Weight(HoldsPush(k), t) == a.holdsPush && Weight(Unposted(k), t) == a.unposted
      && Weight(HoldsPull(k), t) == a.holdsPull && Weight(Took(k), t) == a.took && Weight(Locked(k), t) == a.locked
  {
  }

  lemma CensusOfThree(st: Stage, d: Dims, x: Thread, y: Thread, z: Thread, k: Side)
    requires StageInv(st, d, CensusOf([x, y, z], k))
    ensures Spread(st, d.tokens, Share(PhaseOn(x, k)), Share(PhaseOn(y, k)), Share(PhaseOn(z, k)))
  {
    SharesOfThree(x, y, z, k);
  }

  lemma TokensOfThree(s: State, k: Side)
    requires Inv(s) && OneSong(s)
    ensures Spread(StageOf(s, k), DimsOf(s.cfg, k).tokens,
                   Share(PhaseOn(s.threads[0], k)), Share(PhaseOn(s.threads[1], k)), Share(PhaseOn(s.threads[2], k)))
  {
    assert s.threads == [s.threads[0], s.threads[1], s.threads[2]];
    InvBySides(s, k);
    CensusOfThree(StageOf(s, k), DimsOf(s.cfg, k), s.threads[0], s.threads[1], s.threads[2], k);
  }

  lemma StuckFirstJoin(s: State)
    requires Stopped(s) && ThreadStep(s, 0).None? && ThreadStep(s, 1).None?
    ensures AudioGuard(s) <==> AudioJoins(s)
  {
    TokensOfThree(s, Raw);
    assert ThreadOk(s.cfg, s.raw.ring.Some?, s.threads[0]) && ThreadOk(s.cfg, s.raw.ring.Some?, s.threads[1]);
  }

  lemma StuckReader(s: State)
    requires Stopped(s) && ThreadStep(s, 1).None? && ThreadStep(s, 2).None? && s.threads[1].at.InRead?
    ensures !DecoderGuard(s)
  {
    TokensOfThree(s, Flac);
    assert ThreadOk(s.cfg, s.raw.ring.Some?, s.threads[1]) && ThreadOk(s.cfg, s.raw.ring.Some?, s.threads[2]);
  }

  lemma StuckWriter(s: State)
    requires Stopped(s) && AudioJoins(s) && ThreadStep(s, 1).None? && s.threads[1].at.InWrite?
    ensures !DecoderGuard(s)
  {
    TokensOfThree(s, Raw);
    assert ThreadOk(s.cfg, s.raw.ring.Some?, s.threads[1]);
  }

  lemma StuckSecondJoin(s: State)
    requires Stopped(s) && AudioJoins(s) && ThreadStep(s, 1).None? && ThreadStep(s, 2).None?
    ensures DecoderGuard(s) <==> DecoderJoins(s)
  {
    match s.threads[1].at
    case InRead => StuckReader(s);
    case InWrite => StuckWriter(s);
    case Between =>
  }

  // ---- whole runs ----------------------------------------------------------------------------------

  lemma StopLowersWork(s: State, i: nat)
    requires Stopped(s) && i < 3 && ThreadStep(s, i).Some?
    ensures Measure(ThreadStep(s, i).value) < Measure(s)
  {
    var s' := ThreadStep(s, i).value;
    PauseGate.PauseTokenMoves(s, i);
    SumUpdate(Work, s.threads, i, s'.threads[i]);
    ThreadLowersWork(s, i);
  }

  lemma ThreadLowersWork(s: State, i: nat)
    requires Stopped(s) && i < 3 && ThreadStep(s, i).Some?
    ensures |ThreadStep(s, i).value.threads| == 3
    ensures Lowers(s, ThreadStep(s, i).value, s.threads[i], ThreadStep(s, i).value.threads[i])
  {
    if i == 0 {
      if s.threads[i].where.Body? {
        AudioMoves(s, i);
      }
    } else if i == 2 {
      FeederMoves(s, i);
    } else if s.threads[i].at.InRead? {
      ReadCbMoves(s, i);
    } else if s.threads[i].at.InWrite? {
      WriteCbMoves(s, i);
    }
  }

  /** Runs behind a stop are finite, and no step of them changes either guard. */
  lemma {:induction false} GuardsAreKept(s: State, actions: seq<Action>)
    requires Stopped(s) && ThreadRun(actions) && Exec(s, actions).Some?
    ensures Stopped(Exec(s, actions).value) && GuardsKept(s, Exec(s, actions).value)
    ensures Measure(Exec(s, actions).value) + |actions| <= Measure(s)
    decreases |actions|
  {
    if actions != [] {
      assert actions[0].Run?;
      StepKeepsGuards(s, actions[0].i);
      StopLowersWork(s, actions[0].i);
      GuardsAreKept(Step(s, actions[0]).value, actions[1..]);
    }
  }

  /** playback_stop returns exactly under the two guards: under them every interleaving comes, after a bounded
      number of steps, to an end at which both threads have finished, and without them none does. */
  lemma StopReturnsExactly(s: State, actions: seq<Action>)
    requires Stopped(s) && ThreadRun(actions) && Exec(s, actions).Some? && Stuck(Exec(s, actions).value)
    ensures |actions| <= Measure(s)
    ensures var s' := Exec(s, actions).value;
      && OneSong(s')
      && (AudioJoins(s') <==> AudioGuard(s))
      && (AudioJoins(s') && DecoderJoins(s') <==> AudioGuard(s) && DecoderGuard(s))
  {
    GuardsAreKept(s, actions);
    var s' := Exec(s, actions).value;
    MeasureNatural(s');
    StuckFirstJoin(s');
    if AudioJoins(s') {
      StuckSecondJoin(s');
    }
  }

  /** Without a guard its join does not return at any point of any run. */
  lemma NoJoinWithoutGuard(s: State, actions: seq<Action>)
    requires Stopped(s) && ThreadRun(actions) && Exec(s, actions).Some?
    ensures OneSong(Exec(s, actions).value)
    ensures !AudioGuard(s) ==> !AudioJoins(Exec(s, actions).value)
    ensures !DecoderGuard(s) ==> !DecoderJoins(Exec(s, actions).value)
  {
    GuardsAreKept(s, actions);
  }

  /** There is such an end for every stop. */
  lemma {:induction false} StopCanBeCompleted(s: State) returns (actions: seq<Action>)
    requires Stopped(s)
    ensures ThreadRun(actions) && Exec(s, actions).Some? && Stuck(Exec(s, actions).value)
    decreases Measure(s)
  {
    MeasureNatural(s);
    if Stuck(s) {
      actions := [];
    } else {
      var i :| 0 <= i < |s.threads| && ThreadStep(s, i).Some?;
      StepKeepsGuards(s, i);
      StopLowersWork(s, i);
      MeasureNatural(ThreadStep(s, i).value);
      var rest := StopCanBeCompleted(ThreadStep(s, i).value);
      actions := [Run(i)] + rest;
      assert actions[1..] == rest;
    }
  }

  // ---- every stop of a song is such a stop -----------------------------------------------------------

  predicate NoPlay(actions: seq<Action>)
  {
    forall k :: 0 <= k < |actions| ==> !(actions[k].Do? && actions[k].c.Play?)
  }

  lemma OtherStepsKeepSong(s: State, a: Action, s': State)
    requires OneSong(s) && Step(s, a) == Some(s') && !a.Run? && !(a.Do? && a.c.Play?)
    ensures OneSong(s') && s'.threads[1] == s.threads[1] && s'.raw == s.raw && s'.cfg == s.cfg
    ensures s'.control.Joining? ==> s'.stop || (s.control.Joining? && !s.stop)
  {
  }

  lemma OtherStepsKeepUnderWay(s: State, a: Action, s': State)
    requires UnderWay(s) && Step(s, a) == Some(s') && !a.Run? && !(a.Do? && a.c.Play?)
    ensures UnderWay(s')
  {
    StepKeepsInv(s, a);
    OtherStepsKeepSong(s, a, s');
  }

  lemma {:induction false} SongStaysUnderWay(s: State, actions: seq<Action>)
    requires UnderWay(s) && NoPlay(actions) && Exec(s, actions).Some?
    ensures UnderWay(Exec(s, actions).value)
    decreases |actions|
  {
    if actions != [] {
      assert !(actions[0].Do? && actions[0].c.Play?) && NoPlay(actions[1..]);
      if actions[0].Run? {
        RunKeepsUnderWay(s, actions[0].i);
      } else {
        OtherStepsKeepUnderWay(s, actions[0], Step(s, actions[0]).value);
      }
      SongStaysUnderWay(Step(s, actions[0]).value, actions[1..]);
    }
  }

  lemma StopKeepsGuards(s: State)
    requires UnderWay(s) && CommandStep(s, Stop).Some?
    ensures var s' := CommandStep(s, Stop).value;
      Stopped(s') && AudioGuard(s') == AudioGuard(s) && DecoderGuard(s') == DecoderGuard(s)
  {
    OtherStepsKeepUnderWay(s, Do(Stop), CommandStep(s, Stop).value);
  }

  /** For one song, at whatever point of whatever run, with whatever pauses before, STOP is given: the guards of
      that state decide whether playback_stop returns. */
  lemma StopOfASong(cfg: Config, program: seq<Callback>, before: seq<Action>, after: seq<Action>)
    requires Fits(cfg) && cfg.flacTokens > 0 && cfg.rawTokens > 0
    requires ProgramOk(cfg, program) && MetadataFirst(program) && MetadatasIn(program) == 1
    requires NoPlay(before) && Exec(SongState(cfg, program, []), before).Some?
    requires var s := Exec(SongState(cfg, program, []), before).value;
      CommandStep(s, Stop).Some? && ThreadRun(after)
      && Exec(CommandStep(s, Stop).value, after).Some? && Stuck(Exec(CommandStep(s, Stop).value, after).value)
    ensures var s := Exec(SongState(cfg, program, []), before).value;
      var s' := Exec(CommandStep(s, Stop).value, after).value;
      && OneSong(s) && OneSong(s')
      && (AudioJoins(s') <==> AudioGuard(s))
      && (AudioJoins(s') && DecoderJoins(s') <==> AudioGuard(s) && DecoderGuard(s))
  {
    var s0 := SongState(cfg, program, []);
    SongInv(cfg, program, []);
    SongStaysUnderWay(s0, before);
    var s := Exec(s0, before).value;
    StopKeepsGuards(s);
    StopReturnsExactly(CommandStep(s, Stop).value, after);
  }
}
