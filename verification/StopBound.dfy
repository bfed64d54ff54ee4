/** How much work threads can still do once the stop flag is set and the control thread joins them. */
module StopBound {
  import opened Playback

  predicate Stopping(s: State)
  {
    s.stop && s.control.Joining?
  }

  /** The plays an audio thread has left: one if it passed its last look at the flag and has not played yet. */
  function PlaysLeft(t: Thread): (n: nat)
  {
    if t.Audio? && t.where.Body? && (t.ph.Away? || t.ph.HasPull? || t.ph.Reading? || t.ph.Got?) then 1 else 0
  }

  /** The ring operations a decoder thread has left: one if it is inside a callback before its own. */
  function RingOpsLeft(t: Thread): (n: nat)
  {
    if t.Decoder? && !t.at.Between?
       && (t.ph.Away? || t.ph.HasPush? || t.ph.Writing? || t.ph.HasPull? || t.ph.Reading?) then 1 else 0
  }

  /** One thread, before and after: it is of the same kind and has only spent what it had left. */
  predicate Spent(t: Thread, t': Thread)
  {
    && (t.Audio? ==> t'.Audio? && t.plays <= t'.plays && t'.plays + PlaysLeft(t') <= t.plays + PlaysLeft(t))
    && (t.Decoder? ==>
          t'.Decoder? && t.ringOps <= t'.ringOps && t'.ringOps + RingOpsLeft(t') <= t.ringOps + RingOpsLeft(t))
    && (t.Feeder? ==> t'.Feeder?)
  }

  lemma DecoderSpends(s: State, i: nat)
    requires Stopping(s) && i < |s.threads| && s.threads[i].Decoder? && DecoderStep(s, i).Some?
    ensures var s' := DecoderStep(s, i).value;
      Stopping(s') && |s'.threads| == |s.threads| && Spent(s.threads[i], s'.threads[i])
  {
  }

  lemma AudioSpends(s: State, i: nat)
    requires Stopping(s) && i < |s.threads| && s.threads[i].Audio? && AudioStep(s, i).Some?
    ensures var s' := AudioStep(s, i).value;
      Stopping(s') && |s'.threads| == |s.threads| && Spent(s.threads[i], s'.threads[i])
  {
  }

  lemma StepSpends(s: State, a: Action)
    requires Stopping(s) && Step(s, a).Some?
    ensures var s' := Step(s, a).value;
      && Stopping(s') && |s'.threads| == |s.threads|
      && forall i :: 0 <= i < |s.threads| ==> Spent(s.threads[i], s'.threads[i])
  {
    if a.Run? {
      var s' := Step(s, a).value;
      if s.threads[a.i].Decoder? {
        DecoderSpends(s, a.i);
      } else if s.threads[a.i].Audio? {
        AudioSpends(s, a.i);
      }
      assert s'.threads == s.threads[a.i := s'.threads[a.i]];
    }
  }

  /** After stop, in any interleaving, each audio thread begins at most one more play, each decoder thread
      makes at most one more dequeue or enqueue, and no thread is added. */
  lemma {:induction false} StopBoundsWork(s: State, actions: seq<Action>)
    requires Stopping(s) && Exec(s, actions).Some?
    ensures var s' := Exec(s, actions).value;
      && Stopping(s') && |s'.threads| == |s.threads|
      && (forall i :: 0 <= i < |s.threads| ==> Spent(s.threads[i], s'.threads[i]))
      && (forall i :: 0 <= i < |s.threads| && s.threads[i].Audio? ==> s'.threads[i].plays <= s.threads[i].plays + 1)
      && (forall i :: 0 <= i < |s.threads| && s.threads[i].Decoder? ==>
            s'.threads[i].ringOps <= s.threads[i].ringOps + 1)
    decreases |actions|
  {
    if actions != [] {
      StepSpends(s, actions[0]);
      StopBoundsWork(Step(s, actions[0]).value, actions[1..]);
    }
  }

  predicate AudioPhase(ph: Phase) {
    !ph.HasPush? && !ph.Writing? && !ph.Wrote? && !ph.PostPull?
  }

  /** An audio thread waiting for a frame nobody is about to write, whatever the number of threads.  For one song
      StopJoins tells all states in which a join does not return. */
  predicate Stranded(s: State, i: nat)
  {
    && Stopping(s)
    && s.raw.pull == 0
    && (forall j :: 0 <= j < |s.threads| && s.threads[j].Decoder? ==> !s.threads[j].at.InWrite?)
    && (forall j :: 0 <= j < |s.threads| && s.threads[j].Audio? ==> AudioPhase(s.threads[j].ph))
    && i < |s.threads| && s.threads[i].Audio? && s.threads[i].where.Body? && s.threads[i].ph.Away?
  }

  /** A consumer never adds a pull token. */
  lemma ConsumersNeverPost(st: Stage, ph: Phase)
    requires Advance(st, ph, Consume).Some? && AudioPhase(ph)
    ensures Advance(st, ph, Consume).value.0.pull <= st.pull && AudioPhase(Advance(st, ph, Consume).value.1)
  {
  }

  lemma StrandedAudio(s: State, i: nat, j: nat)
    requires Stranded(s, i) && j < |s.threads| && s.threads[j].Audio? && AudioStep(s, j).Some?
    ensures AudioStep(s, j).value.raw.pull == 0 && AudioPhase(AudioStep(s, j).value.threads[j].ph)
    ensures i != j
  {
    if s.threads[j].where.Body? && !s.threads[j].ph.Got? && !s.threads[j].ph.Playing? {
      ConsumersNeverPost(s.raw, s.threads[j].ph);
    }
  }

  lemma StrandedStep(s: State, i: nat, a: Action)
    requires Stranded(s, i) && Step(s, a).Some?
    ensures Stranded(Step(s, a).value, i)
  {
    if a.Run? {
      var s' := Step(s, a).value;
      StepSpends(s, a);
      if s.threads[a.i].Audio? {
        StrandedAudio(s, i, a.i);
      }
      assert s'.threads == s.threads[a.i := s'.threads[a.i]];
    }
  }

  /** playback_stop joins the audio thread after setting the flag.  If that thread waits on an empty ring and
      no frame is being written, no continuation wakes it, so the join does not return. */
  lemma {:induction false} StopDoesNotWakeAudio(s: State, i: nat, actions: seq<Action>)
    requires Stranded(s, i) && Exec(s, actions).Some?
    ensures Stranded(Exec(s, actions).value, i)
    decreases |actions|
  {
    if actions != [] {
      StrandedStep(s, i, actions[0]);
      StopDoesNotWakeAudio(Step(s, actions[0]).value, i, actions[1..]);
    }
  }

  /** Such a state is reached from any start: the audio thread has entered its loop when stop is given. */
  lemma StopCanStrand(cfg: Config) returns (actions: seq<Action>)
    requires cfg.flacSlots > 0
    ensures Exec(Init(cfg), actions).Some? && Stranded(Exec(Init(cfg), actions).value, 0)
  {
    actions := OneMore(Init(cfg), [], Do(Play([])));
    actions := OneMore(Init(cfg), actions, Run(0));
    actions := OneMore(Init(cfg), actions, Do(Stop));
  }
}
