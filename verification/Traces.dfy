/** The calls of playback.c one by one: what a thread that runs by itself does to semaphores and rings, in which order,
    and where it waits.  The step machine is used here only through its steps. */
module Traces {
  import CB = CircleBuffers
  import opened Playback

  /** Values of the three semaphores of a ring. */
  predicate Sems(st: Stage, push: int, mutex: int, pull: int)
  {
    st.push == push && st.mutex == mutex && st.pull == pull
  }

  /** `s'` is `s` but for one ring and thread `i`. */
  predicate OnlyFlac(s: State, s': State, i: nat)
  {
    i < |s.threads| == |s'.threads| && s' == s.(flac := s'.flac, threads := s.threads[i := s'.threads[i]])
  }

  predicate OnlyRaw(s: State, s': State, i: nat)
  {
    i < |s.threads| == |s'.threads| && s' == s.(raw := s'.raw, threads := s.threads[i := s'.threads[i]])
  }

  predicate Holds(st: Stage, queue: seq<Chunk>)
  {
    st.ring.Some? && CB.Valid(st.ring.value) && CB.Contents(st.ring.value) == queue
  }

  /** Room for one more chunk of this size. */
  predicate Room(st: Stage, queue: seq<Chunk>, c: Chunk)
  {
    Holds(st, queue) && 0 < |c| <= st.ring.value.elemSize && |queue| < |st.ring.value.slots| - 1
  }

  /** playback_init with the shipped constants: ten push tokens at each ring, no data, the pause gate open; the flac
      ring takes chunks of up to 8192 bytes and ten of them, and there is no raw ring yet. */
  lemma FreshPlayer(rawElem: nat, c: Chunk)
    ensures var s := Init(Defaults(rawElem));
      && Sems(s.flac, 10, 1, 0) && Sems(s.raw, 10, 1, 0) && s.pause == 1 && !s.playing && s.threads == []
      && (Room(s.flac, [], c) <==> 0 < |c| <= 8192) && |s.flac.ring.value.slots| == 11
      && s.raw.ring.None? && s.cfg.rawSlots == 11 && s.cfg.rawElem == rawElem
  {
    assert CB.Contents(NewRing(11, 8192)) == [];
  }

  /** playback_feed_data up to the mutex: push is taken first, then the mutex. */
  lemma FeedEnters(s: State, i: nat, pending: seq<Chunk>) returns (s1: State, s2: State)
    requires i < |s.threads| && s.threads[i] == Feeder(Away, pending) && pending != []
    requires s.flac.push > 0 && s.flac.mutex > 0
    ensures Step(s, Run(i)) == Some(s1) && Step(s1, Run(i)) == Some(s2)
    ensures s1 == s.(flac := s.flac.(push := s.flac.push - 1), threads := s.threads[i := s1.threads[i]])
    ensures s2 == s.(flac := s1.flac.(mutex := s.flac.mutex - 1), threads := s.threads[i := Feeder(Writing, pending)])
  {
    s1 := Step(s, Run(i)).value;
    s2 := Step(s1, Run(i)).value;
  }

  /** playback_feed_data from the mutex on: the chunk goes in, the mutex is given back, then pull. */
  lemma FeedLeaves(s: State, i: nat, c: Chunk, rest: seq<Chunk>, queue: seq<Chunk>)
    returns (s1: State, s2: State, s3: State)
    requires i < |s.threads| && s.threads[i] == Feeder(Writing, [c] + rest) && Room(s.flac, queue, c)
    ensures Step(s, Run(i)) == Some(s1) && Step(s1, Run(i)) == Some(s2) && Step(s2, Run(i)) == Some(s3)
    ensures OnlyFlac(s, s1, i) && OnlyFlac(s, s2, i) && OnlyFlac(s, s3, i)
    ensures var p, m, q := s.flac.push, s.flac.mutex, s.flac.pull;
      Sems(s1.flac, p, m, q) && Sems(s2.flac, p, m + 1, q) && Sems(s3.flac, p, m + 1, q + 1)
    ensures Holds(s1.flac, queue + [c]) && Holds(s3.flac, queue + [c])
    ensures s3.threads[i] == Feeder(Away, rest) && s3.flac.faults == s.flac.faults
  {
    CB.WriteRefines(s.flac.ring.value, c);
    assert ([c] + rest)[1..] == rest;
    s1 := Step(s, Run(i)).value;
    s2 := Step(s1, Run(i)).value;
    s3 := Step(s2, Run(i)).value;
  }

  /** The read callback up to the mutex: pull is taken first, then the mutex. */
  lemma ReadEnters(s: State, i: nat, calls: seq<Callback>, ops: nat) returns (s1: State, s2: State, s3: State)
    requires i < |s.threads| && s.threads[i] == Decoder(Between, Away, calls, ops) && calls != [] && calls[0].ReadCb?
    requires !s.stop && s.flac.pull > 0 && s.flac.mutex > 0
    ensures Step(s, Run(i)) == Some(s1) && Step(s1, Run(i)) == Some(s2) && Step(s2, Run(i)) == Some(s3)
    ensures s1 == s.(threads := s.threads[i := Decoder(InRead, Away, calls, ops)])
    ensures s2 == s.(flac := s.flac.(pull := s.flac.pull - 1), threads := s.threads[i := s2.threads[i]])
    ensures s3 == s.(flac := s2.flac.(mutex := s.flac.mutex - 1),
                     threads := s.threads[i := Decoder(InRead, Reading, calls, ops)])
  {
    s1 := Step(s, Run(i)).value;
    s2 := Step(s1, Run(i)).value;
    s3 := Step(s2, Run(i)).value;
  }

  /** The ring read of the callback: the front leaves the queue, and the thread holds a pointer to its bytes. */
  lemma ReadTakes(s: State, i: nat, rest: seq<Callback>, ops: nat, front: Chunk, queue: seq<Chunk>)
    returns (s1: State, slot: nat)
    requires i < |s.threads| && s.threads[i] == Decoder(InRead, Reading, [ReadCb] + rest, ops)
    requires Holds(s.flac, [front] + queue)
    ensures Step(s, Run(i)) == Some(s1) && OnlyFlac(s, s1, i) && SlotBytes(s1.flac, slot) == front
    ensures s1.threads[i] == Decoder(InRead, Got(slot), rest, ops + 1)
    ensures Sems(s1.flac, s.flac.push, s.flac.mutex, s.flac.pull) && s1.flac.faults == s.flac.faults
    ensures Holds(s1.flac, queue)
  {
    CB.ReadRefines(s.flac.ring.value);
    assert ([ReadCb] + rest)[1..] == rest;
    s1 := Step(s, Run(i)).value;
    slot := s.flac.ring.value.tail;
    FrontIs(front, queue, SlotBytes(s.flac, slot), CB.Contents(s1.flac.ring.value));
  }

  lemma FrontIs(front: Chunk, queue: seq<Chunk>, front': Chunk, queue': seq<Chunk>)
    requires [front] + queue == [front'] + queue'
    ensures front == front' && queue == queue'
  {
    assert ([front] + queue)[0] == front;
    assert ([front] + queue)[1..] == queue && ([front'] + queue')[1..] == queue';
  }

  /** The read callback behind its ring read: the bytes are copied while the mutex is held, then mutex, then push. */
  lemma ReadLeaves(s: State, i: nat, calls: seq<Callback>, ops: nat, slot: nat)
    returns (s1: State, s2: State, s3: State)
    requires i < |s.threads| && s.threads[i] == Decoder(InRead, Got(slot), calls, ops)
    ensures Step(s, Run(i)) == Some(s1) && Step(s1, Run(i)) == Some(s2) && Step(s2, Run(i)) == Some(s3)
    ensures s1 == s.(delivered := s.delivered + [SlotBytes(s.flac, slot)],
                     threads := s.threads[i := s1.threads[i]])
    ensures s2 == s1.(flac := s.flac.(mutex := s.flac.mutex + 1), threads := s.threads[i := s2.threads[i]])
    ensures s3 == s1.(flac := s2.flac.(push := s.flac.push + 1),
                      threads := s.threads[i := Decoder(Between, Away, calls, ops)])
  {
    s1 := Step(s, Run(i)).value;
    s2 := Step(s1, Run(i)).value;
    s3 := Step(s2, Run(i)).value;
  }

  /** The write callback behind the conversion, up to the mutex: push is taken first, then the mutex. */
  lemma WriteEnters(s: State, i: nat, calls: seq<Callback>, ops: nat) returns (s1: State, s2: State, s3: State)
    requires i < |s.threads| && s.threads[i] == Decoder(Between, Away, calls, ops) && calls != [] && calls[0].WriteCb?
    requires !s.stop && s.raw.ring.Some? && s.raw.push > 0 && s.raw.mutex > 0
    ensures Step(s, Run(i)) == Some(s1) && Step(s1, Run(i)) == Some(s2) && Step(s2, Run(i)) == Some(s3)
    ensures s1 == s.(threads := s.threads[i := Decoder(InWrite, Away, calls, ops)])
    ensures s2 == s.(raw := s.raw.(push := s.raw.push - 1), threads := s.threads[i := s2.threads[i]])
    ensures s3 == s.(raw := s2.raw.(mutex := s.raw.mutex - 1),
                     threads := s.threads[i := Decoder(InWrite, Writing, calls, ops)])
  {
    s1 := Step(s, Run(i)).value;
    s2 := Step(s1, Run(i)).value;
    s3 := Step(s2, Run(i)).value;
  }

  /** The write callback from the mutex on: the frame goes in, the mutex is given back, then pull. */
  lemma WriteLeaves(s: State, i: nat, pcm: Chunk, rest: seq<Callback>, ops: nat, queue: seq<Chunk>)
    returns (s1: State, s2: State, s3: State)
    requires i < |s.threads| && s.threads[i] == Decoder(InWrite, Writing, [WriteCb(pcm)] + rest, ops)
    requires Room(s.raw, queue, pcm)
    ensures Step(s, Run(i)) == Some(s1) && Step(s1, Run(i)) == Some(s2) && Step(s2, Run(i)) == Some(s3)
    ensures OnlyRaw(s, s1, i) && OnlyRaw(s, s2, i) && OnlyRaw(s, s3, i)
    ensures var p, m, q := s.raw.push, s.raw.mutex, s.raw.pull;
      Sems(s1.raw, p, m, q) && Sems(s2.raw, p, m + 1, q) && Sems(s3.raw, p, m + 1, q + 1)
    ensures Holds(s1.raw, queue + [pcm]) && Holds(s3.raw, queue + [pcm])
    ensures s3.threads[i] == Decoder(Between, Away, rest, ops + 1) && s3.raw.faults == s.raw.faults
  {
    CB.WriteRefines(s.raw.ring.value, pcm);
    assert ([WriteCb(pcm)] + rest)[1..] == rest;
    s1 := Step(s, Run(i)).value;
    s2 := Step(s1, Run(i)).value;
    s3 := Step(s2, Run(i)).value;
  }

  /** The audio loop up to the mutex: the stop flag is looked at, pull is taken, then the mutex. */
  lemma AudioEnters(s: State, i: nat, plays: nat) returns (s1: State, s2: State, s3: State)
    requires i < |s.threads| && s.threads[i] == Audio(LoopTop, Away, plays)
    requires !s.stop && s.raw.pull > 0 && s.raw.mutex > 0
    ensures Step(s, Run(i)) == Some(s1) && Step(s1, Run(i)) == Some(s2) && Step(s2, Run(i)) == Some(s3)
    ensures s1 == s.(threads := s.threads[i := Audio(Body, Away, plays)])
    ensures s2 == s.(raw := s.raw.(pull := s.raw.pull - 1), threads := s.threads[i := s2.threads[i]])
    ensures s3 == s.(raw := s2.raw.(mutex := s.raw.mutex - 1),
                     threads := s.threads[i := Audio(Body, Reading, plays)])
  {
    s1 := Step(s, Run(i)).value;
    s2 := Step(s1, Run(i)).value;
    s3 := Step(s2, Run(i)).value;
  }

  /** The ring read of the audio loop. */
  lemma AudioTakes(s: State, i: nat, plays: nat, front: Chunk, queue: seq<Chunk>) returns (s1: State, slot: nat)
    requires i < |s.threads| && s.threads[i] == Audio(Body, Reading, plays) && Holds(s.raw, [front] + queue)
    ensures Step(s, Run(i)) == Some(s1) && OnlyRaw(s, s1, i) && SlotBytes(s1.raw, slot) == front
    ensures s1.threads[i] == Audio(Body, Got(slot), plays)
    ensures Sems(s1.raw, s.raw.push, s.raw.mutex, s.raw.pull) && s1.raw.faults == s.raw.faults
    ensures Holds(s1.raw, queue)
  {
    CB.ReadRefines(s.raw.ring.value);
    s1 := Step(s, Run(i)).value;
    slot := s.raw.ring.value.tail;
    FrontIs(front, queue, SlotBytes(s.raw, slot), CB.Contents(s1.raw.ring.value));
  }

  /** The play: while the mutex of the ring is held the pause semaphore is taken, the frame the pointer shows is
      played, and the semaphore is given back. */
  lemma AudioPlays(s: State, i: nat, plays: nat, slot: nat) returns (s1: State, s2: State)
    requires i < |s.threads| && s.threads[i] == Audio(Body, Got(slot), plays) && s.pause > 0
    ensures Step(s, Run(i)) == Some(s1) && Step(s1, Run(i)) == Some(s2)
    ensures s1 == s.(pause := s.pause - 1, played := s.played + [SlotBytes(s.raw, slot)],
                     threads := s.threads[i := s1.threads[i]])
    ensures s2 == s.(played := s1.played, threads := s.threads[i := Audio(Body, Used, plays + 1)])
  {
    s1 := Step(s, Run(i)).value;
    s2 := Step(s1, Run(i)).value;
  }

  /** The end of the audio loop: mutex, then push, then its top again. */
  lemma AudioLeaves(s: State, i: nat, plays: nat) returns (s1: State, s2: State)
    requires i < |s.threads| && s.threads[i] == Audio(Body, Used, plays)
    ensures Step(s, Run(i)) == Some(s1) && Step(s1, Run(i)) == Some(s2)
    ensures s1 == s.(raw := s.raw.(mutex := s.raw.mutex + 1), threads := s.threads[i := s1.threads[i]])
    ensures s2 == s.(raw := s1.raw.(push := s.raw.push + 1), threads := s.threads[i := Audio(LoopTop, Away, plays)])
  {
    s1 := Step(s, Run(i)).value;
    s2 := Step(s1, Run(i)).value;
  }

  /** Behind a stop the audio thread leaves at the top of its loop, and a callback returns at once. */
  lemma StopIsSeen(s: State, i: nat)
    requires s.stop && i < |s.threads|
    ensures s.threads[i].Audio? && s.threads[i].where.LoopTop? ==>
      Step(s, Run(i)) == Some(s.(threads := s.threads[i := Audio(Exited, Away, s.threads[i].plays)]))
    ensures s.threads[i].Decoder? && s.threads[i].at.Between? && s.threads[i].calls != []
            && (s.threads[i].calls[0].ReadCb? || (s.threads[i].calls[0].WriteCb? && s.raw.ring.Some?)) ==>
      Step(s, Run(i)) == Some(s.(threads := s.threads[i := s.threads[i].(calls := s.threads[i].calls[1..])]))
  {
  }

  /** The waits: at 0 a semaphore lets nobody through. */
  lemma WaitsBlock(s: State, i: nat)
    requires i < |s.threads|
    ensures s.flac.push == 0 && s.threads[i].Feeder? && s.threads[i].ph.Away? ==> Step(s, Run(i)).None?
    ensures s.flac.mutex == 0 && s.threads[i].Feeder? && s.threads[i].ph.HasPush? ==> Step(s, Run(i)).None?
    ensures var t := s.threads[i];
      t.Decoder? && t.at.InRead? && ((t.ph.Away? && s.flac.pull == 0) || (t.ph.HasPull? && s.flac.mutex == 0)) ==>
        Step(s, Run(i)).None?
    ensures var t := s.threads[i];
      t.Decoder? && t.at.InWrite? && ((t.ph.Away? && s.raw.push == 0) || (t.ph.HasPush? && s.raw.mutex == 0)) ==>
        Step(s, Run(i)).None?
    ensures var t := s.threads[i];
      t.Audio? && t.where.Body? && ((t.ph.Away? && s.raw.pull == 0) || (t.ph.HasPull? && s.raw.mutex == 0)) ==>
        Step(s, Run(i)).None?
    ensures s.pause == 0 && s.threads[i].Audio? && s.threads[i].where.Body? && s.threads[i].ph.Got? ==>
      Step(s, Run(i)).None?
  {
  }

  predicate Full(st: Stage, c: Chunk)
  {
    && st.ring.Some? && CB.Valid(st.ring.value) && 0 < |c| <= st.ring.value.elemSize
    && |CB.Contents(st.ring.value)| == |st.ring.value.slots| - 1
  }

  /** A refused write of the feed call is a failed assert. */
  lemma FeedOnFullRing(s: State, i: nat, c: Chunk, rest: seq<Chunk>)
    requires i < |s.threads| && s.threads[i] == Feeder(Writing, [c] + rest) && Full(s.flac, c)
    ensures Step(s, Run(i)) == Some(s.(flac := s.flac.(faults := s.flac.faults + 1),
                                       threads := s.threads[i := Feeder(Crashed, [c] + rest)]))
  {
    CB.WriteRefines(s.flac.ring.value, c);
  }

  /** A refused write of the write callback goes unnoticed: the frame is dropped and the thread goes on. */
  lemma WriteOnFullRing(s: State, i: nat, pcm: Chunk, rest: seq<Callback>, ops: nat)
    requires i < |s.threads| && s.threads[i] == Decoder(InWrite, Writing, [WriteCb(pcm)] + rest, ops)
    requires Full(s.raw, pcm)
    ensures Step(s, Run(i)) == Some(s.(raw := s.raw.(faults := s.raw.faults + 1),
                                       threads := s.threads[i := Decoder(InWrite, Wrote, rest, ops + 1)]))
  {
    CB.WriteRefines(s.raw.ring.value, pcm);
    assert ([WriteCb(pcm)] + rest)[1..] == rest;
  }

  /** An empty chunk is a failed assert at both rings, and so, in the model, is one that its slot cannot hold. */
  lemma FeedOfBadChunk(s: State, i: nat, c: Chunk, rest: seq<Chunk>)
    requires i < |s.threads| && s.threads[i] == Feeder(Writing, [c] + rest)
    requires c == [] || (s.flac.ring.Some? && |c| > s.flac.ring.value.elemSize)
    ensures Step(s, Run(i)) == Some(s.(flac := s.flac.(faults := s.flac.faults + 1),
                                       threads := s.threads[i := Feeder(Crashed, [c] + rest)]))
  {
  }

  lemma WriteOfBadFrame(s: State, i: nat, pcm: Chunk, rest: seq<Callback>, ops: nat)
    requires i < |s.threads| && s.threads[i] == Decoder(InWrite, Writing, [WriteCb(pcm)] + rest, ops)
    requires pcm == [] || (s.raw.ring.Some? && |pcm| > s.raw.ring.value.elemSize)
    ensures var crashed := Decoder(InWrite, Crashed, [WriteCb(pcm)] + rest, ops);
      Step(s, Run(i)) == Some(s.(raw := s.raw.(faults := s.raw.faults + 1), threads := s.threads[i := crashed]))
  {
  }

  /** A read from an empty ring, or from none, is a fault and the end of the thread. */
  lemma ReadOnEmptyRing(s: State, i: nat, calls: seq<Callback>, ops: nat)
    requires i < |s.threads| && s.threads[i] == Decoder(InRead, Reading, calls, ops)
    requires s.flac.ring.None? || Holds(s.flac, [])
    ensures Step(s, Run(i)) == Some(s.(flac := s.flac.(faults := s.flac.faults + 1),
                                       threads := s.threads[i := Decoder(InRead, Crashed, calls, ops)]))
  {
    if s.flac.ring.Some? {
      CB.ReadRefines(s.flac.ring.value);
    }
  }

  lemma AudioOnEmptyRing(s: State, i: nat, plays: nat)
    requires i < |s.threads| && s.threads[i] == Audio(Body, Reading, plays)
    requires s.raw.ring.None? || Holds(s.raw, [])
    ensures Step(s, Run(i)) == Some(s.(raw := s.raw.(faults := s.raw.faults + 1),
                                       threads := s.threads[i := Audio(Body, Crashed, plays)]))
  {
    if s.raw.ring.Some? {
      CB.ReadRefines(s.raw.ring.value);
    }
  }

  /** The metadata callback makes the raw ring, empty and of the configured size, once; before that no frame comes. */
  lemma MetadataMakesTheRing(s: State, i: nat, rest: seq<Callback>, ops: nat) returns (ring: Ring)
    requires i < |s.threads| && s.cfg.rawSlots > 0
    ensures CB.Valid(ring) && CB.Contents(ring) == [] && |ring.slots| == s.cfg.rawSlots
    ensures ring.elemSize == s.cfg.rawElem
    ensures s.raw.ring.None? && s.threads[i] == Decoder(Between, Away, [MetadataCb] + rest, ops) ==>
      Step(s, Run(i)) == Some(s.(raw := s.raw.(ring := Some(ring)),
                                 threads := s.threads[i := Decoder(Between, Away, rest, ops)]))
    ensures s.raw.ring.Some? && s.threads[i] == Decoder(Between, Away, [MetadataCb] + rest, ops) ==>
      Step(s, Run(i)).None?
    ensures forall pcm: Chunk ::
      s.raw.ring.None? && s.threads[i] == Decoder(Between, Away, [WriteCb(pcm)] + rest, ops) ==> Step(s, Run(i)).None?
  {
    ring := NewRing(s.cfg.rawSlots, s.cfg.rawElem);
    assert ([MetadataCb] + rest)[1..] == rest;
  }

  /** The commands, when the control thread is free. */
  lemma CommandsAreTaken(s: State, program: seq<Callback>)
    requires s.control.Ready?
    ensures Step(s, Do(Stop)) == Some(s.(stop := true, control := Joining))
    ensures Step(s, Do(Pause)) == Some(if s.playing then s.(playing := false, control := PauseWait) else s)
    ensures Step(s, Do(Resume)) == Some(if s.playing then s else s.(playing := true, control := ResumePost))
    ensures ProgramOk(s.cfg, program) ==>
      var spawned := [Audio(LoopTop, Away, 0), Decoder(Between, Away, program, 0), Feeder(Away, [])];
      Step(s, Do(Play(program)))
        == Some(s.(playing := true, stop := false, started := true, threads := s.threads + spawned))
  {
  }
}
