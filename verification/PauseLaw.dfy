/** When exactly a pause holds, and when exactly a player is muted: both are decided by the number of PLAYs given
    while the player was not marked as playing.  Where the token count leaves the gate open there is a run that goes
    through it. */
module PauseLaw {
  import CB = CircleBuffers
  import opened Playback
  import opened Tokens
  import opened PauseGate
  import Draining
  import DR = DrainingRuns

  predicate OnlyWrites(calls: seq<Callback>)
  {
    forall k :: 0 <= k < |calls| ==> calls[k].WriteCb?
  }

  /** Audio thread `a` and decoder thread `d` are at work. */
  predicate AtWork(s: State, a: nat, d: nat)
  {
    && Inv(s) && !s.stop && s.pause > 0 && s.raw.ring.Some? && s.cfg.rawTokens > 0
    && a < |s.threads| && s.threads[a].Audio? && !s.threads[a].where.Exited?
    && d < |s.threads| && s.threads[d].Decoder? && OnlyWrites(s.threads[d].calls)
  }

  /** Moreover of the frames written or to be written by `d` not all have been played. */
  predicate Underway(s: State, a: nat, d: nat)
  {
    && AtWork(s, a, d)
    && |s.raw.written| + |DR.FramesIn(s.threads[d].calls)| > |s.played|
  }

  // ---- one step --------------------------------------------------------------------------------------

  /** Without a play beginning or going on, a thread step leaves the record of plays alone. */
  lemma NothingPlayed(s: State, i: nat)
    requires i < |s.threads| && ThreadStep(s, i).Some?
    requires Sum(InPlay, s.threads) == 0 == Sum(InPlay, ThreadStep(s, i).value.threads)
    ensures ThreadStep(s, i).value.played == s.played && ThreadStep(s, i).value.pause == s.pause
  {
    PauseTokenMoves(s, i);
    SumCovers(InPlay, ThreadStep(s, i).value.threads, i);
  }

  predicate Grown(st: Stage, st': Stage) {
    |st'.written| >= |st.written| && (st.ring.Some? ==> st'.ring.Some?)
  }

  lemma AdvanceGrows(st: Stage, ph: Phase, job: Job)
    requires Advance(st, ph, job).Some?
    ensures Grown(st, Advance(st, ph, job).value.0)
  {
  }

  lemma RawOnlyGrows(s: State, i: nat)
    requires i < |s.threads| && ThreadStep(s, i).Some?
    ensures Grown(s.raw, ThreadStep(s, i).value.raw) && ThreadStep(s, i).value.cfg == s.cfg
  {
    match s.threads[i]
    case Feeder(_, _) =>
    case Decoder(_, _, _, _) => DecoderGrows(s, i);
    case Audio(_, _, _) => AudioGrows(s, i);
  }

  lemma DecoderGrows(s: State, i: nat)
    requires i < |s.threads| && s.threads[i].Decoder? && DecoderStep(s, i).Some?
    ensures Grown(s.raw, DecoderStep(s, i).value.raw) && DecoderStep(s, i).value.cfg == s.cfg
  {
    if s.threads[i].at.InWrite? {
      AdvanceGrows(s.raw, s.threads[i].ph, Produce(PcmOf(s.threads[i].calls), false));
    }
  }

  lemma AudioGrows(s: State, i: nat)
    requires i < |s.threads| && s.threads[i].Audio? && AudioStep(s, i).Some?
    ensures Grown(s.raw, AudioStep(s, i).value.raw) && AudioStep(s, i).value.cfg == s.cfg
  {
    var t := s.threads[i];
    if t.where.Body? && !t.ph.Got? && !t.ph.Playing? {
      AdvanceGrows(s.raw, t.ph, Consume);
    }
  }

  lemma AudioStaysIn(s: State, i: nat)
    requires i < |s.threads| && s.threads[i].Audio? && !s.threads[i].where.Exited? && !s.stop
    requires ThreadStep(s, i).Some?
    ensures i < |ThreadStep(s, i).value.threads|
    ensures var t := ThreadStep(s, i).value.threads[i]; t.Audio? && !t.where.Exited?
  {
  }

  lemma WriterStaysOne(s: State, i: nat)
    requires i < |s.threads| && s.threads[i].Decoder? && OnlyWrites(s.threads[i].calls) && ThreadStep(s, i).Some?
    ensures i < |ThreadStep(s, i).value.threads|
    ensures var t := ThreadStep(s, i).value.threads[i]; t.Decoder? && OnlyWrites(t.calls)
  {
  }

  lemma FramesKept(s: State, i: nat, d: nat)
    requires Inv(s) && !s.stop && i < |s.threads| && ThreadStep(s, i).Some? && d < |s.threads| && s.threads[d].Decoder?
    ensures var s' := ThreadStep(s, i).value;
      && |s'.threads| == |s.threads| && s'.threads[d].Decoder?
      && |s'.raw.written| + |DR.FramesIn(s'.threads[d].calls)| >= |s.raw.written| + |DR.FramesIn(s.threads[d].calls)|
  {
    var s' := ThreadStep(s, i).value;
    DR.ThreadMoves(s, i);
    RawOnlyGrows(s, i);
    if i == d {
      assert |s'.raw.written + DR.FramesAhead(s'.threads[d])| == |s.raw.written + DR.FramesAhead(s.threads[d])|;
    }
  }

  lemma UnderwayStep(s: State, a: nat, d: nat, i: nat)
    requires Underway(s, a, d) && i < |s.threads| && ThreadStep(s, i).Some?
    requires Sum(InPlay, s.threads) == 0 == Sum(InPlay, ThreadStep(s, i).value.threads)
    ensures Underway(ThreadStep(s, i).value, a, d)
    ensures DR.Measure(ThreadStep(s, i).value) < DR.Measure(s)
  {
    var s' := ThreadStep(s, i).value;
    RunKeepsInv(s, i);
    DR.ThreadMoves(s, i);
    DR.SumsMove(s, s', i);
    NothingPlayed(s, i);
    RawOnlyGrows(s, i);
    FramesKept(s, i, d);
    if i == a {
      AudioStaysIn(s, i);
    }
    if i == d {
      WriterStaysOne(s, i);
    }
  }

  // ---- no deadlock in front of an open gate ------------------------------------------------------------

  lemma AudioCanMove(s: State, i: nat)
    requires i < |s.threads| && s.threads[i].Audio? && !s.threads[i].where.Exited?
    requires PhaseOn(s.threads[i], Raw).Away? && s.raw.pull > 0
    ensures ThreadStep(s, i).Some?
  {
  }

  lemma WriterCanMove(s: State, i: nat)
    requires Inv(s) && i < |s.threads| && s.threads[i].Decoder? && OnlyWrites(s.threads[i].calls)
    requires s.threads[i].calls != [] && PhaseOn(s.threads[i], Raw).Away? && PhaseOn(s.threads[i], Flac).Away?
    requires s.raw.ring.Some? && s.raw.push > 0
    ensures ThreadStep(s, i).Some?
  {
    assert ThreadOk(s.cfg, s.raw.ring.Some?, s.threads[i]);
  }

  /** Where nobody can move every frame of the ring has been played, and the writer is done. */
  lemma StuckHasPlayed(s: State, a: nat, d: nat)
    requires AtWork(s, a, d) && Draining.Stuck(s)
    ensures |s.played| == |s.raw.written| && s.threads[d].calls == []
  {
    Draining.StuckCensus(s, Raw);
    Draining.StuckCensus(s, Flac);
    assert PhaseOn(s.threads[a], Raw).Away? && PhaseOn(s.threads[d], Raw).Away? && PhaseOn(s.threads[d], Flac).Away?;
    if s.raw.pull > 0 {
      AudioCanMove(s, a);
      assert false;
    }
    if s.threads[d].calls != [] {
      WriterCanMove(s, d);
      assert false;
    }
    CensusNatural(s.threads, Raw);
    Draining.StuckUnlocks(s, Raw);
    assert |s.played| == |s.raw.taken| == |s.raw.written|;
  }

  lemma SomebodyMoves(s: State) returns (i: nat)
    requires !Draining.Stuck(s)
    ensures i < |s.threads| && ThreadStep(s, i).Some?
  {
    i :| 0 <= i < |s.threads| && ThreadStep(s, i).Some?;
  }

  lemma Prepend(s: State, a: Action, rest: seq<Action>) returns (actions: seq<Action>)
    requires Step(s, a).Some? && a != Do(Resume) && NoResume(rest)
    ensures NoResume(actions) && Exec(s, actions) == Exec(Step(s, a).value, rest)
  {
    actions := [a] + rest;
    assert actions[1..] == rest;
  }

  predicate Sounding(s: State) {
    Sum(InPlay, s.threads) > 0
  }

  lemma {:induction false} PlayComes(s: State, a: nat, d: nat) returns (actions: seq<Action>)
    requires Underway(s, a, d)
    ensures NoResume(actions) && Exec(s, actions).Some? && Sounding(Exec(s, actions).value)
    decreases DR.Measure(s)
  {
    SumNatural(InPlay, s.threads);
    if Sounding(s) {
      return [];
    }
    if Draining.Stuck(s) {
      StuckHasPlayed(s, a, d);
      assert false;
    }
    var i := SomebodyMoves(s);
    var s' := ThreadStep(s, i).value;
    SumNatural(InPlay, s'.threads);
    var rest := [];
    if !Sounding(s') {
      UnderwayStep(s, a, d, i);
      DR.MeasureNatural(s');
      rest := PlayComes(s', a, d);
    }
    actions := Prepend(s, Run(i), rest);
  }

  // ---- from any state whose gate is open -----------------------------------------------------------------

  /** A player whose control thread is free. */
  predicate Free(s: State)
  {
    && Inv(s) && s.control.Ready? && s.cfg.rawTokens > 0 && s.cfg.rawElem > 0
  }

  lemma PlayIs(s: State, program: seq<Callback>)
    requires Free(s) && ProgramOk(s.cfg, program)
    ensures var n, s' := |s.threads|, Step(s, Do(Play(program)));
      && s'.Some? && Inv(s'.value) && |s'.value.threads| == n + 3
      && s'.value.threads[n] == Audio(LoopTop, Away, 0) && s'.value.threads[n + 1] == Decoder(Between, Away, program, 0)
      && !s'.value.stop && s'.value.pause == s.pause && s'.value.raw == s.raw && s'.value.played == s.played
      && s'.value.cfg == s.cfg
  {
    StepKeepsInv(s, Do(Play(program)));
  }

  lemma NotAhead(s: State)
    requires Inv(s)
    ensures |s.played| <= |s.raw.written|
  {
    CensusNatural(s.threads, Raw);
    if s.raw.ring.Some? {
      assert |s.raw.taken| <= |s.raw.written|;
    }
  }

  lemma OneFrame(frame: Callback)
    requires frame == WriteCb([0])
    ensures OnlyWrites([frame]) && |DR.FramesIn([frame])| == 1
  {
    assert [frame][1..] == [];
    assert DR.FramesIn([frame]) == [[0]] + DR.FramesIn([]);
  }

  lemma StartWithRing(s: State) returns (actions: seq<Action>)
    requires Free(s) && s.pause > 0 && s.raw.ring.Some?
    ensures NoResume(actions) && Exec(s, actions).Some? && Sounding(Exec(s, actions).value)
  {
    var frame := WriteCb([0]);
    OneFrame(frame);
    NotAhead(s);
    PlayIs(s, [frame]);
    var s' := Step(s, Do(Play([frame]))).value;
    var rest := PlayComes(s', |s.threads|, |s.threads| + 1);
    actions := Prepend(s, Do(Play([frame])), rest);
  }

  lemma MetadataFirstStep(s: State, d: nat, frame: Callback)
    requires Inv(s) && d < |s.threads| && s.raw.ring.None?
    requires s.threads[d] == Decoder(Between, Away, [MetadataCb, frame], 0)
    ensures var s' := Step(s, Run(d));
      && s'.Some? && Inv(s'.value) && s'.value.raw.ring.Some? && s'.value.cfg == s.cfg && !s'.value.raw.ring.None?
      && s'.value.threads == s.threads[d := Decoder(Between, Away, [frame], 0)]
      && s'.value.stop == s.stop && s'.value.pause == s.pause && s'.value.played == s.played
      && s'.value.raw.written == s.raw.written
  {
    assert [MetadataCb, frame][1..] == [frame];
    RunKeepsInv(s, d);
  }

  lemma StartWithoutRing(s: State) returns (actions: seq<Action>)
    requires Free(s) && s.pause > 0 && s.raw.ring.None?
    ensures NoResume(actions) && Exec(s, actions).Some? && Sounding(Exec(s, actions).value)
  {
    var frame := WriteCb([0]);
    OneFrame(frame);
    NotAhead(s);
    var n := |s.threads|;
    PlayIs(s, [MetadataCb, frame]);
    var s1 := Step(s, Do(Play([MetadataCb, frame]))).value;
    MetadataFirstStep(s1, n + 1, frame);
    var s2 := Step(s1, Run(n + 1)).value;
    var rest := PlayComes(s2, n, n + 1);
    rest := Prepend(s1, Run(n + 1), rest);
    actions := Prepend(s, Do(Play([MetadataCb, frame])), rest);
  }

  /** With a token in the semaphore a play can begin, whatever state the threads are in and without a resume. */
  lemma OpenGateLetsThrough(s: State) returns (actions: seq<Action>)
    requires Free(s) && !Silent(s)
    ensures NoResume(actions) && Exec(s, actions).Some? && Sounding(Exec(s, actions).value)
  {
    SumNatural(InPlay, s.threads);
    if Sounding(s) {
      actions := [];
    } else if s.raw.ring.Some? {
      actions := StartWithRing(s);
    } else {
      actions := StartWithoutRing(s);
    }
  }

  // ---- the two laws -----------------------------------------------------------------------------------------

  predicate Playable(cfg: Config)
  {
    Fits(cfg) && cfg.rawTokens > 0 && cfg.rawElem > 0
  }

  /** Nothing is being played, and nothing will be until a resume. */
  ghost predicate HeldUntilResume(s: State)
  {
    forall after :: NoResume(after) && Exec(s, after).Some? ==>
      !Sounding(Exec(s, after).value) && Exec(s, after).value.played == s.played
  }

  /** Nothing is being played, and nothing will be whatever commands follow. */
  ghost predicate Mute(s: State)
  {
    forall after :: Exec(s, after).Some? ==>
      !Sounding(Exec(s, after).value) && Exec(s, after).value.played == s.played
  }

  /** Pause safety, exactly: when a pause has returned, nothing is played until a resume if and only if one PLAY has
      been given while the player was not marked as playing. */
  lemma PauseHoldsExactly(cfg: Config, before: seq<Action>)
    requires Playable(cfg) && Exec(Init(cfg), before).Some?
    requires var s := Exec(Init(cfg), before).value; s.control.Ready? && !s.playing
    ensures HeldUntilResume(Exec(Init(cfg), before).value) <==> Starts(Init(cfg), before) == 1
  {
    var s := Exec(Init(cfg), before).value;
    ShutExactly(cfg, before);
    TokensAccountForEverySlot(cfg, before);
    ConfigStays(Init(cfg), before);
    if Starts(Init(cfg), before) == 1 {
      forall after | NoResume(after) && Exec(s, after).Some?
        ensures !Sounding(Exec(s, after).value) && Exec(s, after).value.played == s.played
      {
        PauseIsSafe(cfg, before, after);
      }
    } else {
      var after := OpenGateLetsThrough(s);
    }
  }

  /** Muting, exactly: a player marked as playing will never play anything, whatever commands follow short of a STOP
      that returns, if and only if two such PLAYs have been given. */
  lemma MuteExactly(cfg: Config, before: seq<Action>)
    requires Playable(cfg) && Exec(Init(cfg), before).Some?
    requires var s := Exec(Init(cfg), before).value; s.control.Ready? && s.playing
    ensures Mute(Exec(Init(cfg), before).value) <==> Starts(Init(cfg), before) == 2
  {
    var s := Exec(Init(cfg), before).value;
    ShutExactly(cfg, before);
    TokensAccountForEverySlot(cfg, before);
    ConfigStays(Init(cfg), before);
    if Starts(Init(cfg), before) == 2 {
      forall after | Exec(s, after).Some?
        ensures !Sounding(Exec(s, after).value) && Exec(s, after).value.played == s.played
      {
        TwoStartsMuteForever(cfg, before, after);
      }
    } else {
      var after := OpenGateLetsThrough(s);
    }
  }

  lemma StepKeepsConfig(s: State, a: Action)
    requires Step(s, a).Some?
    ensures Step(s, a).value.cfg == s.cfg
  {
    if a.Run? {
      RawOnlyGrows(s, a.i);
    }
  }

  lemma {:induction false} ConfigStays(s: State, actions: seq<Action>)
    requires Exec(s, actions).Some?
    ensures Exec(s, actions).value.cfg == s.cfg
    decreases |actions|
  {
    if actions != [] {
      StepKeepsConfig(s, actions[0]);
      ConfigStays(Step(s, actions[0]).value, actions[1..]);
    }
  }
}
