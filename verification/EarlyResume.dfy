/** RESUME before the first PLAY, the other way to break the pause: a run in which a play begins although the
    last command was a pause and that pause has returned. */
module EarlyResume {
  import CB = CircleBuffers
  import opened Playback
  import opened LostFrames
  import PauseGate

  /** A paused player with a frame to play, its audio thread at the top of the loop, and a token too many. */
  predicate OpenGate(s: State)
  {
    && PauseGate.Paused(s) && s.control.Ready? && !s.stop && s.pause == 1 && s.played == []
    && |s.threads| > 0 && s.threads[0] == Audio(LoopTop, Away, 0)
    && s.raw.pull == 1 && s.raw.mutex == 1
    && s.raw.ring.Some? && CB.Valid(s.raw.ring.value) && |CB.Contents(s.raw.ring.value)| == 1
  }

  /** The audio thread alone: to its wait, to the ring, to the slot. */
  lemma ReachesSlot(s: State) returns (actions: seq<Action>)
    requires OpenGate(s)
    ensures PauseGate.NoResume(actions) && Exec(s, actions).Some?
    ensures var s' := Exec(s, actions).value;
      && |s'.threads| > 0 && s'.threads[0].Audio? && s'.threads[0].where.Body? && s'.threads[0].ph.Got?
      && s'.pause == 1 && s'.played == []
  {
    CB.ReadRefines(s.raw.ring.value);
    actions := OneMore(s, [], Run(0));
    assert Exec(s, actions) == Some(s.(threads := s.threads[0 := Audio(Body, Away, 0)]));
    actions := OneMore(s, actions, Run(0));
    actions := OneMore(s, actions, Run(0));
    var s3 := Exec(s, actions).value;
    assert s3.threads[0] == Audio(Body, Reading, 0) && s3.raw.ring == s.raw.ring && s3.pause == 1 && s3.played == [];
    actions := OneMore(s, actions, Run(0));
  }

  /** And through the gate. */
  lemma PlaysAnyway(s: State) returns (actions: seq<Action>)
    requires OpenGate(s)
    ensures PauseGate.NoResume(actions) && Exec(s, actions).Some?
    ensures Sum(InPlay, Exec(s, actions).value.threads) > 0 && |Exec(s, actions).value.played| == 1
  {
    actions := ReachesSlot(s);
    actions := OneMore(s, actions, Run(0));
    var s' := Exec(s, actions).value;
    assert s'.threads[0].ph.Playing?;
    SumCovers(InPlay, s'.threads, 0);
  }

  /** Resume, play one frame's worth of decoding, pause. */
  lemma ReachOpenGate(cfg: Config) returns (actions: seq<Action>)
    requires cfg.flacSlots > 0 && cfg.rawElem > 0 && 0 < cfg.rawTokens < cfg.rawSlots
    ensures Exec(Init(cfg), actions).Some? && OpenGate(Exec(Init(cfg), actions).value)
  {
    var program := [MetadataCb] + Frames(1);
    FramesAreOk(cfg, 1);
    assert ProgramOk(cfg, program);
    actions := OneMore(Init(cfg), [], Do(Resume));
    actions := OneMore(Init(cfg), actions, Finish);
    actions := OneMore(Init(cfg), actions, Do(Play(program)));
    var s := Exec(Init(cfg), actions).value;
    assert s.threads == [Audio(LoopTop, Away, 0), Decoder(Between, Away, program, 0), Feeder(Away, [])];
    assert program[1..] == Frames(1);
    actions := OneMore(Init(cfg), actions, Run(1));
    s := Exec(Init(cfg), actions).value;
    assert Filling(s, 0, 1);
    var decode := FillOne(s, 0, 1);
    ExecAppend(Init(cfg), actions, decode);
    actions := actions + decode;
    actions := OneMore(Init(cfg), actions, Do(Pause));
    actions := OneMore(Init(cfg), actions, Finish);
  }

  /** Pause safety fails for this run: the pause has returned, no resume follows, and a play begins. */
  lemma PauseIsNotSafeAfterEarlyResume(cfg: Config) returns (before: seq<Action>, after: seq<Action>)
    requires cfg.flacSlots > 0 && cfg.rawElem > 0 && 0 < cfg.rawTokens < cfg.rawSlots
    ensures Exec(Init(cfg), before).Some? && PauseGate.NoResume(after)
    ensures var s := Exec(Init(cfg), before).value;
      && PauseGate.Paused(s) && s.control.Ready? && s.played == []
      && Exec(s, after).Some?
      && Sum(InPlay, Exec(s, after).value.threads) > 0 && |Exec(s, after).value.played| == 1
  {
    before := ReachOpenGate(cfg);
    after := PlaysAnyway(Exec(Init(cfg), before).value);
  }
}
