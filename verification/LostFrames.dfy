/** The push semaphore of the raw ring is initialised from the capacity constant of the other ring.  The
    unchecked ring write in the write callback is safe exactly when that count leaves the one-slot gap free. */
module LostFrames {
  import CB = CircleBuffers
  import opened Playback
  import Tokens

  /** `n` frames of one byte each. */
  function Frames(n: nat): (calls: seq<Callback>)
  {
    if n == 0 then [] else [WriteCb([0])] + Frames(n - 1)
  }

  /** Decoder thread 1 has enqueued `k` frames and has `n` to go, nobody has played anything. */
  predicate Filling(s: State, k: nat, n: nat)
  {
    && |s.threads| == 3 && s.threads[1].Decoder?
    && s.threads[1].at.Between? && s.threads[1].ph.Away? && s.threads[1].calls == Frames(n)
    && !s.stop && s.cfg.rawElem > 0 && k <= s.cfg.rawTokens
    && s.raw.push == s.cfg.rawTokens - k && s.raw.pull == k && s.raw.mutex == 1 && s.raw.faults == 0
    && s.raw.ring.Some? && CB.Valid(s.raw.ring.value)
    && |s.raw.ring.value.slots| == s.cfg.rawSlots && s.raw.ring.value.elemSize == s.cfg.rawElem
    && |CB.Contents(s.raw.ring.value)| == k
  }

  /** What a decoder thread leaves alone. */
  predicate SameElsewhere(s: State, s': State)
  {
    && |s.threads| == |s'.threads| == 3 && s'.threads[0] == s.threads[0]
    && s'.cfg == s.cfg && s'.pause == s.pause && s'.playing == s.playing && s'.started == s.started
    && s'.control == s.control && s'.played == s.played
  }

  /** From the start of a write callback to its ring operation. */
  lemma ReachWrite(s: State, k: nat, n: nat) returns (actions: seq<Action>)
    requires Filling(s, k, n) && n > 0 && k < s.cfg.rawTokens
    ensures Exec(s, actions) == Some(s.(
      raw := s.raw.(push := s.raw.push - 1, mutex := 0),
      threads := s.threads[1 := Decoder(InWrite, Writing, Frames(n), s.threads[1].ringOps)]))
  {
    var ops := s.threads[1].ringOps;
    var s1 := s.(threads := s.threads[1 := Decoder(InWrite, Away, Frames(n), ops)]);
    var s2 := s1.(raw := s.raw.(push := s.raw.push - 1),
                  threads := s.threads[1 := Decoder(InWrite, HasPush, Frames(n), ops)]);
    var s3 := s2.(raw := s.raw.(push := s.raw.push - 1, mutex := 0),
                  threads := s.threads[1 := Decoder(InWrite, Writing, Frames(n), ops)]);
    var reached := OneMore(s, [], Run(1));
    assert Exec(s, reached) == Some(s1);
    assert s1.threads[1 := Decoder(InWrite, HasPush, Frames(n), ops)] == s2.threads;
    assert Step(s1, Run(1)) == Some(s2);
    reached := OneMore(s, reached, Run(1));
    assert s2.threads[1 := Decoder(InWrite, Writing, Frames(n), ops)] == s3.threads;
    assert Step(s2, Run(1)) == Some(s3);
    actions := OneMore(s, reached, Run(1));
  }

  /** A write callback that finds room. */
  lemma FillOne(s: State, k: nat, n: nat) returns (actions: seq<Action>)
    requires Filling(s, k, n) && n > 0 && k < s.cfg.rawTokens && k < s.cfg.rawSlots - 1
    ensures Exec(s, actions).Some? && Filling(Exec(s, actions).value, k + 1, n - 1)
    ensures SameElsewhere(s, Exec(s, actions).value)
  {
    actions := ReachWrite(s, k, n);
    WriteOne(s, Exec(s, actions).value, k, n);
    actions := OneMore(s, actions, Run(1));
    ReturnFromWrite(s, Exec(s, actions).value, k + 1, n - 1);
    actions := OneMore(s, actions, Run(1));
    actions := OneMore(s, actions, Run(1));
  }

  /** The ring operation of a write callback that finds room. */
  lemma WriteOne(s: State, s3: State, k: nat, n: nat)
    requires Filling(s, k, n) && n > 0 && k < s.cfg.rawTokens && k < s.cfg.rawSlots - 1
    requires s3 == s.(raw := s.raw.(push := s.raw.push - 1, mutex := 0),
                      threads := s.threads[1 := Decoder(InWrite, Writing, Frames(n), s.threads[1].ringOps)])
    ensures Step(s3, Run(1)).Some? && Enqueued(s, Step(s3, Run(1)).value, k + 1, n - 1)
  {
    CB.WriteRefines(s.raw.ring.value, [0]);
    assert PcmOf(Frames(n)) == [0] && Rest(Frames(n)) == Frames(n - 1);
  }

  /** Behind the ring operation: `k` frames are in the ring, mutex and pull token not yet given back. */
  predicate Enqueued(s: State, s4: State, k: nat, n: nat)
  {
    && SameElsewhere(s, s4) && s4.threads[1].Decoder?
    && s4.threads[1].at.InWrite? && s4.threads[1].ph.Wrote? && s4.threads[1].calls == Frames(n)
    && !s4.stop && k <= s4.cfg.rawTokens
    && s4.raw.push == s.cfg.rawTokens - k && s4.raw.pull == k - 1 && s4.raw.mutex == 0 && s4.raw.faults == 0
    && s4.raw.ring.Some? && CB.Valid(s4.raw.ring.value)
    && |s4.raw.ring.value.slots| == s.cfg.rawSlots && s4.raw.ring.value.elemSize == s.cfg.rawElem
    && |CB.Contents(s4.raw.ring.value)| == k
  }

  lemma ReturnFromWrite(s: State, s4: State, k: nat, n: nat)
    requires Enqueued(s, s4, k, n) && s.cfg.rawElem > 0 && k > 0
    ensures Step(s4, Run(1)).Some? && Step(Step(s4, Run(1)).value, Run(1)).Some?
    ensures Filling(Step(Step(s4, Run(1)).value, Run(1)).value, k, n)
    ensures SameElsewhere(s, Step(Step(s4, Run(1)).value, Run(1)).value)
  {
    var s5 := Step(s4, Run(1)).value;
    assert s5.threads[1].ph.PostPull?;
  }

  /** A write callback that finds the ring full although it got a token: the frame is dropped silently. */
  lemma LoseOne(s: State, n: nat) returns (actions: seq<Action>)
    requires s.cfg.rawSlots > 0 && s.cfg.rawSlots <= s.cfg.rawTokens
    requires Filling(s, s.cfg.rawSlots - 1, n) && n > 0
    ensures Exec(s, actions).Some?
    ensures var s' := Exec(s, actions).value;
      && s'.raw.faults == 1 && s'.raw.written == s.raw.written
      && |s'.threads| == 3 && s'.threads[1].Decoder? && s'.threads[1].ph.Wrote?
  {
    actions := ReachWrite(s, s.cfg.rawSlots - 1, n);
    CB.WriteRefines(s.raw.ring.value, [0]);
    assert PcmOf(Frames(n)) == [0];
    actions := OneMore(s, actions, Run(1));
  }

  lemma {:induction false} FillUp(s: State, k: nat) returns (actions: seq<Action>)
    requires s.cfg.rawSlots > 0 && s.cfg.rawSlots <= s.cfg.rawTokens && k < s.cfg.rawSlots
    requires Filling(s, k, s.cfg.rawSlots - k)
    ensures Exec(s, actions).Some? && Exec(s, actions).value.raw.faults == 1
    decreases s.cfg.rawSlots - k
  {
    if k == s.cfg.rawSlots - 1 {
      actions := LoseOne(s, 1);
    } else {
      var first := FillOne(s, k, s.cfg.rawSlots - k);
      var rest := FillUp(Exec(s, first).value, k + 1);
      ExecAppend(s, first, rest);
      actions := first + rest;
    }
  }

  /** The run that loses a frame: one song whose decoder is ahead of the audio thread by a full ring. */
  lemma LosingRun(cfg: Config) returns (actions: seq<Action>)
    requires cfg.flacSlots > 0 && cfg.rawElem > 0 && 0 < cfg.rawSlots <= cfg.rawTokens
    ensures Exec(Init(cfg), actions).Some? && Exec(Init(cfg), actions).value.raw.faults == 1
  {
    var program := [MetadataCb] + Frames(cfg.rawSlots);
    FramesAreOk(cfg, cfg.rawSlots);
    assert ProgramOk(cfg, program);
    ExecSnoc(Init(cfg), [], Do(Play(program)));
    var s1 := Step(Init(cfg), Do(Play(program))).value;
    assert s1.threads == [Audio(LoopTop, Away, 0), Decoder(Between, Away, program, 0), Feeder(Away, [])];
    assert program[1..] == Frames(cfg.rawSlots);
    ExecSnoc(Init(cfg), [Do(Play(program))], Run(1));
    var start := [Do(Play(program)), Run(1)];
    assert [] + [Do(Play(program))] == [Do(Play(program))] && [Do(Play(program))] + [Run(1)] == start;
    var s2 := Exec(Init(cfg), start).value;
    var rest := FillUp(s2, 0);
    ExecAppend(Init(cfg), start, rest);
    actions := start + rest;
  }

  lemma {:induction false} FramesAreOk(cfg: Config, n: nat)
    requires cfg.rawElem > 0
    ensures ProgramOk(cfg, Frames(n))
  {
    if n > 0 {
      FramesAreOk(cfg, n - 1);
    }
  }

  /** The raw ring is safe in all runs exactly when its push tokens are fewer than its slots. */
  lemma RawStageIsSafeExactly(cfg: Config)
    requires cfg.flacTokens < cfg.flacSlots && cfg.rawElem > 0 && cfg.rawSlots > 0
    ensures (forall actions :: Exec(Init(cfg), actions).Some? ==> Exec(Init(cfg), actions).value.raw.faults == 0)
      <==> cfg.rawTokens < cfg.rawSlots
  {
    if cfg.rawTokens < cfg.rawSlots {
      forall actions | Exec(Init(cfg), actions).Some?
        ensures Exec(Init(cfg), actions).value.raw.faults == 0
      {
        Tokens.NoRingOperationFails(cfg, actions);
      }
    } else {
      var actions := LosingRun(cfg);
    }
  }

  /** The shipped constants are on the safe side, by one. */
  lemma DefaultsAreSafe(rawElem: nat)
    requires rawElem > 0
    ensures forall actions :: Exec(Init(Defaults(rawElem)), actions).Some? ==>
      Exec(Init(Defaults(rawElem)), actions).value.raw.faults == 0
    ensures Defaults(rawElem).rawTokens == Defaults(rawElem).rawSlots - 1
  {
    RawStageIsSafeExactly(Defaults(rawElem));
  }
}
