/** The pause semaphore over whole runs of the playback machine: what pause and resume guarantee, for
    which command histories, and what goes wrong for all others. */
module PauseGate {
  import opened Playback

  predicate Paused(s: State)
  {
    s.started && !s.playing
  }

  /** The pause tokens the control thread keeps: one from the end of a pause to the end of the resume. */
  function Held(s: State): (n: nat)
  {
    match s.control
    case PauseWait => 0
    case ResumePost => 1
    case Ready => One(Paused(s))
    case Joining => One(Paused(s))
  }

  predicate Balanced(s: State)
  {
    s.pause + Sum(InPlay, s.threads) + Held(s) == 1
  }

  /** The command order under which the semaphore is used as intended. */
  predicate Orderly(s: State, a: Action)
  {
    a.Do? && s.control.Ready? ==>
      && (a.c.Resume? ==> s.started || s.playing)
      && (a.c.Play? ==> !Paused(s))
  }

  predicate Disciplined(s: State, actions: seq<Action>)
    requires Exec(s, actions).Some?
    decreases |actions|
  {
    actions == [] || (Orderly(s, actions[0]) && Disciplined(Step(s, actions[0]).value, actions[1..]))
  }

  predicate BalancedThroughout(s: State, actions: seq<Action>)
    requires Exec(s, actions).Some?
    decreases |actions|
  {
    Balanced(s) && (actions == [] || BalancedThroughout(Step(s, actions[0]).value, actions[1..]))
  }

  lemma RingStepsDoNotPlay(st: Stage, ph: Phase, job: Job)
    requires Advance(st, ph, job).Some?
    ensures !ph.Playing? && !Advance(st, ph, job).value.1.Playing?
  {
  }

  predicate GateKept(s: State, s': State, i: nat)
    requires i < |s.threads|
  {
    && |s'.threads| == |s.threads| && s'.threads == s.threads[i := s'.threads[i]]
    && s'.pause + Weight(InPlay, s'.threads[i]) == s.pause + Weight(InPlay, s.threads[i])
    && s'.control == s.control && s'.playing == s.playing && s'.started == s.started && s'.stop == s.stop
  }

  lemma FeederKeepsGate(s: State, i: nat)
    requires i < |s.threads| && s.threads[i].Feeder? && FeederStep(s, i).Some?
    ensures GateKept(s, FeederStep(s, i).value, i)
  {
  }

  lemma DecoderKeepsGate(s: State, i: nat)
    requires i < |s.threads| && s.threads[i].Decoder? && DecoderStep(s, i).Some?
    ensures GateKept(s, DecoderStep(s, i).value, i)
  {
    var t := s.threads[i];
    if t.at.InWrite? {
      RingStepsDoNotPlay(s.raw, t.ph, Produce(PcmOf(t.calls), false));
    }
  }

  lemma AudioKeepsGate(s: State, i: nat)
    requires i < |s.threads| && s.threads[i].Audio? && AudioStep(s, i).Some?
    ensures GateKept(s, AudioStep(s, i).value, i)
  {
    var t := s.threads[i];
    if t.where.Body? && !t.ph.Got? && !t.ph.Playing? {
      RingStepsDoNotPlay(s.raw, t.ph, Consume);
    }
  }

  /** A thread step moves the pause token between the semaphore and ao_play, and touches no flag. */
  lemma PauseTokenMoves(s: State, i: nat)
    requires i < |s.threads| && ThreadStep(s, i).Some?
    ensures GateKept(s, ThreadStep(s, i).value, i)
    ensures var s' := ThreadStep(s, i).value; s'.pause + Sum(InPlay, s'.threads) == s.pause + Sum(InPlay, s.threads)
  {
    if s.threads[i].Feeder? {
      FeederKeepsGate(s, i);
    } else if s.threads[i].Decoder? {
      DecoderKeepsGate(s, i);
    } else {
      AudioKeepsGate(s, i);
    }
    SumUpdate(InPlay, s.threads, i, ThreadStep(s, i).value.threads[i]);
  }

  /** The control thread has seen a start whenever it waits or plays, unless an early resume got in. */
  predicate Known(s: State)
  {
    && (s.playing || s.control.PauseWait? ==> s.started)
    && (s.control.PauseWait? ==> !s.playing)
    && (s.control.ResumePost? ==> s.playing)
  }

  lemma StepBalance(s: State, a: Action)
    requires Step(s, a).Some? && Known(s) && Balanced(s)
    ensures Balanced(Step(s, a).value) <==> Orderly(s, a)
    ensures Orderly(s, a) ==> Known(Step(s, a).value)
  {
    match a
    case Run(i) => PauseTokenMoves(s, i);
    case Finish =>
    case Supply(i, chunk) => SumUpdate(InPlay, s.threads, i, Step(s, a).value.threads[i]);
    case Do(c) =>
      if c.Play? {
        SpawnedAreSilent(s, c.program);
      }
  }

  lemma SpawnedAreSilent(s: State, program: seq<Callback>)
    ensures var more := [Audio(LoopTop, Away, 0), Decoder(Between, Away, program, 0), Feeder(Away, [])];
      Sum(InPlay, s.threads + more) == Sum(InPlay, s.threads)
  {
    var more := [Audio(LoopTop, Away, 0), Decoder(Between, Away, program, 0), Feeder(Away, [])];
    SumAppend(InPlay, s.threads, more);
    assert more[1..] == [Decoder(Between, Away, program, 0), Feeder(Away, [])] && more[1..][1..] == [Feeder(Away, [])];
    assert Sum(InPlay, more[1..][1..]) == 0;
    assert Sum(InPlay, more[1..]) == 0;
  }

  lemma {:induction false} BalanceFrom(s: State, actions: seq<Action>)
    requires Exec(s, actions).Some? && Known(s) && Balanced(s)
    ensures BalancedThroughout(s, actions) <==> Disciplined(s, actions)
    decreases |actions|
  {
    if actions != [] {
      StepBalance(s, actions[0]);
      if Orderly(s, actions[0]) {
        BalanceFrom(Step(s, actions[0]).value, actions[1..]);
      }
    }
  }

  /** pause + threads inside ao_play + tokens kept by a pause is 1 in every state of a run exactly when
      the run has no resume before the first play and no play during a pause. */
  lemma PauseBalanceExactly(cfg: Config, actions: seq<Action>)
    requires cfg.flacSlots > 0 && Exec(Init(cfg), actions).Some?
    ensures BalancedThroughout(Init(cfg), actions) <==> Disciplined(Init(cfg), actions)
  {
    BalanceFrom(Init(cfg), actions);
  }

  lemma {:induction false} BalancedAtEnd(s: State, actions: seq<Action>)
    requires Exec(s, actions).Some? && BalancedThroughout(s, actions)
    ensures Balanced(Exec(s, actions).value)
    decreases |actions|
  {
    if actions != [] {
      BalancedAtEnd(Step(s, actions[0]).value, actions[1..]);
    }
  }

  // ---- the law of the token, for any commands ------------------------------------------------------

  /** The tokens that the next resume gives back: one unless the player is marked as playing. */
  function Kept(s: State): (n: nat)
  {
    match s.control
    case PauseWait => 0
    case ResumePost => 1
    case Ready => One(!s.playing)
    case Joining => One(!s.playing)
  }

  function Stock(s: State): (n: int)
  {
    s.pause + Sum(InPlay, s.threads) + Kept(s)
  }

  predicate FlagsFit(s: State)
  {
    && (s.control.PauseWait? ==> !s.playing)
    && (s.control.ResumePost? ==> s.playing)
  }

  predicate IsStart(s: State, a: Action)
  {
    a.Do? && a.c.Play? && !s.playing
  }

  /** The PLAYs given while the player is not marked as playing. */
  function Starts(s: State, actions: seq<Action>): (n: nat)
    requires Exec(s, actions).Some?
    decreases |actions|
  {
    if actions == [] then 0 else One(IsStart(s, actions[0])) + Starts(Step(s, actions[0]).value, actions[1..])
  }

  /** Such a PLAY loses a token; nothing else does, and nothing makes one. */
  lemma StepStock(s: State, a: Action)
    requires Step(s, a).Some? && FlagsFit(s)
    ensures FlagsFit(Step(s, a).value)
    ensures Stock(Step(s, a).value) == Stock(s) - One(IsStart(s, a))
  {
    match a
    case Run(i) => PauseTokenMoves(s, i);
    case Finish =>
    case Supply(i, chunk) => SumUpdate(InPlay, s.threads, i, Step(s, a).value.threads[i]);
    case Do(c) =>
      if c.Play? {
        SpawnedAreSilent(s, c.program);
      }
  }

  lemma {:induction false} StockFrom(s: State, actions: seq<Action>)
    requires Exec(s, actions).Some? && FlagsFit(s)
    ensures FlagsFit(Exec(s, actions).value)
    ensures Stock(Exec(s, actions).value) + Starts(s, actions) == Stock(s)
    decreases |actions|
  {
    if actions != [] {
      StepStock(s, actions[0]);
      StockFrom(Step(s, actions[0]).value, actions[1..]);
    }
  }

  /** Two tokens are there at the start, one of them for the first PLAY. */
  lemma StockExactly(cfg: Config, actions: seq<Action>)
    requires cfg.flacSlots > 0 && Exec(Init(cfg), actions).Some?
    ensures FlagsFit(Exec(Init(cfg), actions).value)
    ensures Stock(Exec(Init(cfg), actions).value) + Starts(Init(cfg), actions) == 2
  {
    StockFrom(Init(cfg), actions);
  }

  predicate Silent(s: State)
  {
    s.pause == 0 && Sum(InPlay, s.threads) == 0
  }

  /** For every history, when the control thread is back: a paused player is shut exactly if one PLAY has been
      given while it was not marked as playing, a playing one exactly if two have. */
  lemma ShutExactly(cfg: Config, actions: seq<Action>)
    requires cfg.flacSlots > 0 && Exec(Init(cfg), actions).Some?
    requires var s := Exec(Init(cfg), actions).value; s.control.Ready? || s.control.Joining?
    ensures var s := Exec(Init(cfg), actions).value;
      && (!s.playing ==> (Silent(s) <==> Starts(Init(cfg), actions) == 1))
      && (s.playing ==> (Silent(s) <==> Starts(Init(cfg), actions) == 2))
  {
    StockExactly(cfg, actions);
    SumNatural(InPlay, Exec(Init(cfg), actions).value.threads);
  }

  /** The intended order of commands has one such PLAY before each pause. */
  lemma DisciplinedStartsOnce(cfg: Config, actions: seq<Action>)
    requires cfg.flacSlots > 0 && Exec(Init(cfg), actions).Some? && Disciplined(Init(cfg), actions)
    requires var s := Exec(Init(cfg), actions).value; Paused(s) && s.control.Ready?
    ensures Starts(Init(cfg), actions) == 1
  {
    PauseBalanceExactly(cfg, actions);
    BalancedAtEnd(Init(cfg), actions);
    StockExactly(cfg, actions);
  }

  predicate NoResume(actions: seq<Action>)
  {
    forall i :: 0 <= i < |actions| ==> actions[i] != Do(Resume)
  }

  /** With no pause token left and nobody playing, a thread step cannot start a play. */
  lemma SilentStep(s: State, i: nat)
    requires Silent(s) && i < |s.threads| && ThreadStep(s, i).Some?
    ensures Silent(ThreadStep(s, i).value) && ThreadStep(s, i).value.played == s.played
  {
    PauseTokenMoves(s, i);
    SumNatural(InPlay, ThreadStep(s, i).value.threads);
  }

  /** No token is left, and none is owed: a PLAY may set the flag, but gives no token back. */
  predicate Quiet(s: State)
  {
    Silent(s) && !s.control.ResumePost?
  }

  lemma {:induction false} QuietUntilResume(s: State, actions: seq<Action>)
    requires Quiet(s) && Exec(s, actions).Some? && NoResume(actions)
    ensures Quiet(Exec(s, actions).value) && Exec(s, actions).value.played == s.played
    decreases |actions|
  {
    if actions != [] {
      var s' := Step(s, actions[0]).value;
      assert actions[0] != Do(Resume) && NoResume(actions[1..]);
      match actions[0] {
        case Run(i) => SilentStep(s, i); PauseTokenMoves(s, i);
        case Supply(i, chunk) => SumUpdate(InPlay, s.threads, i, s'.threads[i]);
        case Do(c) =>
          if c.Play? {
            SpawnedAreSilent(s, c.program);
          }
        case Finish =>
      }
      QuietUntilResume(s', actions[1..]);
    }
  }

  /** Pause safety: once a pause has returned behind one such PLAY, no ao_play is under way and none begins, in any
      interleaving and for any other commands, until a resume. */
  lemma PauseIsSafe(cfg: Config, before: seq<Action>, after: seq<Action>)
    requires cfg.flacSlots > 0 && Exec(Init(cfg), before).Some? && Starts(Init(cfg), before) == 1
    requires var s := Exec(Init(cfg), before).value; !s.playing && s.control.Ready? && Exec(s, after).Some?
    requires NoResume(after)
    ensures var s := Exec(Init(cfg), before).value;
      && Sum(InPlay, s.threads) == 0
      && Sum(InPlay, Exec(s, after).value.threads) == 0
      && Exec(s, after).value.played == s.played
  {
    ShutExactly(cfg, before);
    QuietUntilResume(Exec(Init(cfg), before).value, after);
  }

  /** A repeated pause or resume changes nothing at all. */
  lemma RepeatsChangeNothing(s: State)
    requires s.control.Ready?
    ensures !s.playing ==> CommandStep(s, Pause) == Some(s)
    ensures s.playing ==> CommandStep(s, Resume) == Some(s)
    ensures s.playing && s.pause > 0 ==>
      var paused := FinishStep(CommandStep(s, Pause).value);
      && paused.Some? && paused.value == s.(playing := false, pause := s.pause - 1)
      && FinishStep(CommandStep(paused.value, Resume).value) == Some(s)
  {
  }

  // ---- a disorderly command ---------------------------------------------------------

  predicate Muted(s: State)
  {
    Silent(s) && (s.control.Joining? || (s.control.Ready? && s.playing) || (s.control.PauseWait? && !s.playing))
  }

  lemma {:induction false} MutedForever(s: State, actions: seq<Action>)
    requires Muted(s) && Exec(s, actions).Some?
    ensures Muted(Exec(s, actions).value) && Exec(s, actions).value.played == s.played
    decreases |actions|
  {
    if actions != [] {
      var s' := Step(s, actions[0]).value;
      match actions[0] {
        case Run(i) => SilentStep(s, i); PauseTokenMoves(s, i);
        case Supply(i, chunk) => SumUpdate(InPlay, s.threads, i, s'.threads[i]);
        case Do(c) =>
          if c.Play? {
            SpawnedAreSilent(s, c.program);
          }
        case Finish =>
      }
      MutedForever(s', actions[1..]);
    }
  }

  /** Behind two such PLAYs nothing is played again, whatever commands follow, short of a STOP that returns and so
      lets playback_reset set the semaphore up anew. */
  lemma TwoStartsMuteForever(cfg: Config, before: seq<Action>, after: seq<Action>)
    requires cfg.flacSlots > 0 && Exec(Init(cfg), before).Some? && Starts(Init(cfg), before) == 2
    requires Exec(Exec(Init(cfg), before).value, after).Some?
    ensures var s := Exec(Init(cfg), before).value;
      && Sum(InPlay, Exec(s, after).value.threads) == 0
      && Exec(s, after).value.played == s.played
  {
    StockExactly(cfg, before);
    var s := Exec(Init(cfg), before).value;
    SumNatural(InPlay, s.threads);
    MutedForever(s, after);
  }

  /** So PLAY during a pause that is shut: the token is never given back. */
  lemma PlayWhilePausedMutesForever(cfg: Config, before: seq<Action>, program: seq<Callback>, after: seq<Action>)
    requires cfg.flacSlots > 0 && Exec(Init(cfg), before).Some? && Starts(Init(cfg), before) == 1
    requires var s := Exec(Init(cfg), before).value; !s.playing && Step(s, Do(Play(program))).Some?
    requires Exec(Step(Exec(Init(cfg), before).value, Do(Play(program))).value, after).Some?
    ensures var s := Exec(Init(cfg), before).value;
      Exec(Step(s, Do(Play(program))).value, after).value.played == s.played
  {
    var s := Exec(Init(cfg), before).value;
    StockExactly(cfg, before);
    StepStock(s, Do(Play(program)));
    var s' := Step(s, Do(Play(program))).value;
    SumNatural(InPlay, s'.threads);
    MutedForever(s', after);
  }
}
