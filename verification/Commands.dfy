/** What the streaming machine does with commands, with datagrams of other songs and with any request: the answers it
    gives, field by field. */
module Commands {
  import opened Bytes
  import opened Messages
  import opened Feeding
  import opened Streaming
  import opened StreamingProofs
  import opened StreamingProgress
  import opened SongRuns
  import PB = Playback
  import DR = DrainingRuns

  /** The main thread of the daemon waits in poll. */
  predicate Polling(s: State) {
    s.main.Idle? && s.pb.control.Ready? && !s.loop.Aborted?
  }

  /** Pause and resume are taken whenever the main thread polls: the flag changes at once and the semaphore operation
      is owed, and a repeated one changes nothing. */
  lemma CommandsAreTaken(s: State)
    requires Polling(s)
    ensures s.pb.playing ==>
      Step(s, Play(PB.Do(PB.Pause))) == PB.Some(s.(pb := s.pb.(playing := false, control := PB.PauseWait)))
    ensures !s.pb.playing ==>
      Step(s, Play(PB.Do(PB.Resume))) == PB.Some(s.(pb := s.pb.(playing := true, control := PB.ResumePost)))
    ensures !s.pb.playing ==> Step(s, Play(PB.Do(PB.Pause))) == PB.Some(s)
    ensures s.pb.playing ==> Step(s, Play(PB.Do(PB.Resume))) == PB.Some(s)
  {
  }

  /** What is owed is done as soon as the semaphore lets it; until then the main thread takes neither command nor
      datagram. */
  lemma CommandsAreFinished(s: State, a: Action)
    requires !s.loop.Aborted?
    ensures s.pb.control.PauseWait? && s.pb.pause == 0 ==> Step(s, Play(PB.Finish)).None?
    ensures s.pb.control.PauseWait? && s.pb.pause > 0 ==>
      Step(s, Play(PB.Finish)) == PB.Some(s.(pb := s.pb.(pause := s.pb.pause - 1, control := PB.Ready)))
    ensures s.pb.control.ResumePost? ==>
      Step(s, Play(PB.Finish)) == PB.Some(s.(pb := s.pb.(pause := s.pb.pause + 1, control := PB.Ready)))
    ensures !s.pb.control.Ready? && (a.Receive? || (a.Play? && a.a.Do?)) ==> Step(s, a).None?
    ensures !s.main.Idle? && (a.Receive? || (a.Play? && a.a.Do?)) ==> Step(s, a).None?
  {
  }

  /** Any data message of another song that a datagram can hold gets into the channel, behind all others. */
  lemma StrayArrives(s: State, songId: uint32, data: Chunk, number: uint32)
    requires songId != s.song && 15 + |data| <= 508
    ensures Step(s, Stray(songId, data, number)) == PB.Some(s.(wire := s.wire + [Packet(songId, data, number)]))
  {
  }

  /** The thirteen bytes of a request: type 2, size 13, ten segments, 450 bytes each, the song. */
  lemma RequestOnTheWire(song: uint32)
    ensures RequestBytes(song) == [2, 0, 13, 0, 0, 0, 10, 1, 194, song / 0x100_0000,
                                   song / 0x1_0000 % 0x100, song / 0x100 % 0x100, song % 0x100]
  {
    HeaderBytes(Header(FEED_ME, HEADER_SIZE + FEED_ME_SIZE, SEGMENTS));
    FeedMeBytes(FeedMe(SEGMENT_SIZE, song));
  }

  /** Whatever request the server receives, the thread it starts has the data size and song of the message, and of
      the sequence number the lowest byte as its segment count; anything but a request starts none. */
  lemma AnyRequest(h: Header, m: FeedMe, rest: seq<byte>)
    ensures HandlerFor(EncodeHeader(h) + EncodeFeedMe(m) + rest)
         == if h.kind == 2 then PB.Some(Handler(m.songId, m.dataSize, h.number % 0x100, 0, false)) else PB.None
  {
    var b := EncodeHeader(h) + EncodeFeedMe(m) + rest;
    assert b == EncodeHeader(h) + (EncodeFeedMe(m) + rest);
    HeaderRoundTrip(h, EncodeFeedMe(m) + rest);
    FeedMeRoundTrip(m, rest);
    assert b[HEADER_SIZE..] == EncodeFeedMe(m) + rest;
  }

  // ---- a run with a pause in it -------------------------------------------------------------------------

  lemma OneMore(s: State, actions: seq<Action>, a: Action) returns (more: seq<Action>)
    requires Exec(s, actions).Some? && SongRun(actions) && (Own(a) || a.Stray? || OfControl(a))
    ensures SongRun(more) && Exec(s, more) == Step(Exec(s, actions).value, a)
  {
    more := actions + [a];
    ExecSnoc(s, actions, a);
  }

  lemma {:induction false} ExecSnoc(s: State, actions: seq<Action>, a: Action)
    requires Exec(s, actions).Some?
    ensures Exec(s, actions + [a]) == Step(Exec(s, actions).value, a)
    decreases |actions|
  {
    if actions == [] {
      assert actions + [a] == [a] && [a][1..] == [];
      if Step(s, a).Some? {
        assert Exec(Step(s, a).value, [a][1..]) == Step(s, a);
      }
    } else {
      assert (actions + [a])[1..] == actions[1..] + [a];
      ExecSnoc(Step(s, actions[0]).value, actions[1..], a);
    }
  }

  /** The song is paused, the pause returns and a stray datagram comes in. */
  lemma PauseAtStart(cfg: PB.Config, song: uint32, file: Chunk, program: seq<PB.Callback>, stray: Packet)
    returns (actions: seq<Action>)
    requires PlayerSetup(cfg, program) && stray.songId != song && 15 + |stray.data| <= 508
    ensures SongRun(actions)
    ensures var s0 := Init(cfg, song, file, program);
      Exec(s0, actions) == PB.Some(s0.(wire := [stray], pb := s0.pb.(playing := false, pause := 0)))
  {
    var s0 := Init(cfg, song, file, program);
    var pause, finish := PB.Do(PB.Pause), PB.Finish;
    actions := [];
    CommandsAreTaken(s0);
    actions := OneMore(s0, actions, Play(pause));
    var s1 := Exec(s0, actions).value;
    CommandsAreFinished(s1, Play(finish));
    actions := OneMore(s0, actions, Play(finish));
    var s2 := Exec(s0, actions).value;
    StrayArrives(s2, stray.songId, stray.data, stray.number);
    actions := OneMore(s0, actions, Stray(stray.songId, stray.data, stray.number));
    assert [] + [stray] == [stray];
  }

  /** And resumed. */
  lemma ResumeFrom(s: State) returns (actions: seq<Action>)
    requires Polling(s) && !s.pb.playing
    ensures SongRun(actions)
    ensures Exec(s, actions) == PB.Some(s.(pb := s.pb.(playing := true, pause := s.pb.pause + 1)))
  {
    var resume, finish := PB.Do(PB.Resume), PB.Finish;
    CommandsAreTaken(s);
    actions := [];
    actions := OneMore(s, actions, Play(resume));
    CommandsAreFinished(Exec(s, actions).value, Play(finish));
    actions := OneMore(s, actions, Play(finish));
  }

  lemma {:induction false} Append(s: State, first: seq<Action>, second: seq<Action>) returns (all: seq<Action>)
    requires SongRun(first) && SongRun(second) && Exec(s, first).Some?
    ensures SongRun(all) && Exec(s, all) == Exec(Exec(s, first).value, second)
    decreases |first|
  {
    if first == [] {
      all := second;
    } else {
      var a := first[0];
      assert (Own(a) || a.Stray? || OfControl(a)) && SongRun(first[1..]);
      var rest := Append(Step(s, a).value, first[1..], second);
      ExecCons(s, a, rest);
      all := [a] + rest;
    }
  }

  /** Pauses do happen: for every file there is a run that pauses, receives a datagram of another song, resumes and
      ends in the assert. */
  lemma SomePausedRunAborts(cfg: PB.Config, song: uint32, file: Chunk, program: seq<PB.Callback>, stray: Packet)
    returns (before: seq<Action>, after: seq<Action>)
    requires SongSetup(cfg, file, program) && stray.songId != song && 15 + |stray.data| <= 508
    ensures SongRun(before) && SongRun(after)
    ensures var s0 := Init(cfg, song, file, program);
      && Exec(s0, before).Some?
      && var s := Exec(s0, before).value;
      && !s.pb.playing && s.pb.control.Ready? && s.pb.pause == 0 && s.wire == [stray]
      && Exec(s, after).Some? && Exec(s, after).value.loop.Aborted? && Ended(Exec(s, after).value)
  {
    var s0, budget := Init(cfg, song, file, program), PB.ReadsIn(program);
    before := PauseAtStart(cfg, song, file, program, stray);
    var s := Exec(s0, before).value;
    var resumed := ResumeFrom(s);
    var s1 := Exec(s, resumed).value;
    InitIsAlive(cfg, song, file, program);
    RunsAreBounded(s0, before, budget);
    RunsAreBounded(s, resumed, budget);
    var rest := SongCanBeCompleted(s1, budget);
    after := Append(s, resumed, rest);
    RunsAreBounded(s1, rest, budget);
    EndIsAbort(Exec(s1, rest).value, budget);
  }

  lemma EndIsAbort(s: State, budget: nat)
    requires Alive(s, budget) && Enough(s, budget) && Ended(s) && GateOpen(s)
    ensures s.loop.Aborted?
  {
    if !s.loop.Aborted? {
      var a := SongCanGoOn(s, budget);
      assert false;
    }
  }
}
