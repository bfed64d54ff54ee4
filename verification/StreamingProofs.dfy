/** What every state of the streaming machine satisfies: the phases of the series protocol, the exact sizes, and
    the account of every byte of the song between the file and the decoder. */
module StreamingProofs {
  import opened Bytes
  import opened Messages
  import opened Feeding
  import opened Streaming
  import PB = Playback
  import CB = CircleBuffers
  import Tokens
  import DR = DrainingRuns
  import PauseGate

  // ---- the channel ------------------------------------------------------------------------------

  /** A datagram within the size limit, with a payload of its song no longer than asked for. */
  predicate PacketOk(p: Packet, song: uint32)
  {
    && HEADER_SIZE + 8 + |p.data| <= DGRAM_MAX
    && (p.songId == song ==> |p.data| <= SEGMENT_SIZE)
  }

  predicate WireOk(wire: seq<Packet>, song: uint32)
  {
    forall i :: 0 <= i < |wire| ==> PacketOk(wire[i], song)
  }

  lemma {:induction false} OnWireSnoc(wire: seq<Packet>, p: Packet, song: uint32)
    ensures OnWire(wire + [p], song) == OnWire(wire, song) + (if p.songId == song then [p.data] else [])
    decreases |wire|
  {
    if wire == [] {
      assert wire + [p] == [p] && [p][1..] == [];
      assert OnWire([p][1..], song) == [];
    } else {
      assert (wire + [p])[1..] == wire[1..] + [p];
      OnWireSnoc(wire[1..], p, song);
    }
  }

  /** The server finds in the bytes of a request the ten segments of 450 bytes that were asked for. */
  lemma RequestArrives(song: uint32)
    ensures HandlerFor(RequestBytes(song)) == PB.Some(Handler(song, SEGMENT_SIZE, SEGMENTS, 0, false))
  {
    var h := Header(FEED_ME, HEADER_SIZE + FEED_ME_SIZE, SEGMENTS);
    var m := FeedMe(SEGMENT_SIZE, song);
    HeaderRoundTrip(h, EncodeFeedMe(m));
    FeedMeRoundTrip(m, []);
    assert RequestBytes(song)[HEADER_SIZE..] == EncodeFeedMe(m) + [];
  }

  // ---- the invariant ------------------------------------------------------------------------------

  predicate HandlerOk(t: Handler, song: uint32, current: int)
  {
    && t.songId == song && t.size == SEGMENT_SIZE && t.count == SEGMENTS && t.next < SEGMENTS
    && (t.ready ==> current == song)
    && (t.next > 0 ==> t.ready)
  }

  /** One request at a time: in the channel or at one server thread. */
  predicate ServerOk(song: uint32, current: int, handlers: seq<Handler>, requests: seq<uint32>)
  {
    && |requests| + |handlers| <= 1
    && (requests != [] ==> requests[0] == song)
    && (handlers != [] ==> HandlerOk(handlers[0], song, current))
    && (current == song || current == -1)
  }

  predicate HoldsCounter(main: Main) {
    main.Locked? || main.Counted? || main.Posted?
  }

  /** The phases.  From a request to its merge the ten messages are unsent, in the channel, being stored or counted;
      from the merge to the next request nothing of the song is under way anywhere. */
  predicate PhaseOk(loop: Loop, main: Main, unsent: int, onWire: nat, counter: nat, counterMutex: nat, mergeSem: nat)
  {
    && unsent >= 0
    && counterMutex + PB.One(HoldsCounter(main)) + PB.One(loop.Resetting? || loop.Unlocking?) == 1
    && if loop.Await? then
         && unsent + onWire + Filled(counter, main) == SEGMENTS
         && mergeSem == PB.One(counter == SEGMENTS && (main.Idle? || main.Posted?))
       else
         && unsent == 0 && onWire == 0 && mergeSem == 0
         && (loop.Merging? ==> loop.i <= SEGMENTS)
         && if loop.Merging? || loop.WantReset? then counter == SEGMENTS && (main.Idle? || main.Posted?)
            else main.Idle? && counter == if loop.Resetting? then SEGMENTS else 0
  }

  /** Segments of the current series that have been read from the file. */
  function SegmentsRead(loop: Loop, unsent: int): (n: int)
  {
    match loop
    case Request => 0
    case InFeed => 0
    case Await => SEGMENTS - unsent
    case _ => SEGMENTS
  }

  /** The file position and the bytes fed so far are exact functions of the number of series. */
  predicate SizesOk(read: nat, length: nat, supplied: seq<Chunk>, segments: int, aborted: bool)
  {
    && read == Min(4500 * |supplied| + 450 * segments, length)
    && |Concat(supplied)| == Min(4500 * |supplied|, length)
    && (supplied != [] ==> 4500 * (|supplied| - 1) < length)
    && (aborted ==> length <= 4500 * |supplied|)
  }

  /** Every byte read is fed, in the daemon or in the channel, in file order. */
  predicate FlowOk(file: Chunk, read: nat, supplied: seq<Chunk>, inDaemon: Chunk, onWire: seq<Chunk>)
  {
    && read <= |file|
    && file[..read] == Concat(supplied) + inDaemon + Concat(onWire)
  }

  predicate PipelineOk(pb: PB.State)
  {
    && Tokens.Inv(pb)
    && !pb.stop
    && DR.OneSong(pb)
    && pb.supplied == pb.flac.written + pb.threads[FEEDER].pending
    && SERIES_SIZE <= pb.cfg.flacElem
  }

  /** Everything outside the pipeline. */
  predicate Front(s: State)
  {
    var unsent, onWire := Unsent(s.requests, s.handlers), OnWire(s.wire, s.song);
    && ServerOk(s.song, s.current, s.handlers, s.requests)
    && s.pos <= |s.file|
    && WireOk(s.wire, s.song)
    && |s.buffer| == SEGMENTS && s.overruns == 0
    && PhaseOk(s.loop, s.main, unsent, |onWire|, s.counter, s.counterMutex, s.mergeSem)
    && SizesOk(ReadSoFar(s), |s.file|, s.pb.supplied, SegmentsRead(s.loop, unsent), s.loop.Aborted?)
    && FlowOk(s.file, ReadSoFar(s), s.pb.supplied, DaemonBytes(s), onWire)
  }

  predicate Inv(s: State)
  {
    Front(s) && PipelineOk(s.pb)
  }

  // ---- the server's steps ---------------------------------------------------------------------------

  /** A request becomes a thread with ten segments to send. */
  lemma AcceptIs(s: State, s': State)
    requires ServerOk(s.song, s.current, s.handlers, s.requests) && AcceptStep(s) == PB.Some(s')
    ensures s' == s.(requests := [], handlers := s'.handlers)
    ensures ServerOk(s.song, s.current, s'.handlers, [])
    ensures Unsent([], s'.handlers) == Unsent(s.requests, s.handlers)
  {
    RequestArrives(s.song);
    assert s.requests[0] == s.song && s.handlers == [];
  }

  /** A step after which nothing has moved that any account sees. */
  lemma FrontFrame(s: State, s': State)
    requires Front(s) && s'.song == s.song && s'.file == s.file && s'.pb.supplied == s.pb.supplied
    requires ServerOk(s'.song, s'.current, s'.handlers, s'.requests) && s'.pos <= |s.file| && s'.wire == s.wire
    requires |s'.buffer| == SEGMENTS && s'.overruns == 0
    requires PhaseOk(s'.loop, s'.main, Unsent(s'.requests, s'.handlers), |OnWire(s.wire, s.song)|,
                     s'.counter, s'.counterMutex, s'.mergeSem)
    requires ReadSoFar(s') == ReadSoFar(s) && DaemonBytes(s') == DaemonBytes(s)
    requires SegmentsRead(s'.loop, Unsent(s'.requests, s'.handlers))
          == SegmentsRead(s.loop, Unsent(s.requests, s.handlers))
    requires s'.loop.Aborted? ==> s.loop.Aborted?
    ensures Front(s')
  {
  }

  lemma AcceptKeeps(s: State, s': State)
    requires Front(s) && AcceptStep(s) == PB.Some(s')
    ensures Front(s') && s'.pb == s.pb
  {
    AcceptIs(s, s');
    FrontFrame(s, s');
  }

  lemma OpenKeeps(s: State, h: nat, s': State)
    requires Front(s) && OpenStep(s, h) == PB.Some(s')
    ensures Front(s') && s'.pb == s.pb
  {
    assert h == 0;
    FrontFrame(s, s');
  }

  /** The sizes after one more segment. */
  lemma SizesGrow(read: nat, length: nat, supplied: seq<Chunk>, segments: int)
    requires SizesOk(read, length, supplied, segments, false) && 0 <= segments && read <= length
    ensures SizesOk(read + Min(SEGMENT_SIZE, length - read), length, supplied, segments + 1, false)
  {
  }

  lemma SendKeepsServer(s: State, h: nat, s': State)
    requires ServerOk(s.song, s.current, s.handlers, s.requests) && SendStep(s, h) == PB.Some(s')
    ensures h == 0 && s.handlers != [] && s.requests == s'.requests == []
    ensures Unsent(s'.requests, s'.handlers) == Unsent(s.requests, s.handlers) - 1 >= 0
    ensures ServerOk(s'.song, s'.current, s'.handlers, s'.requests)
  {
    assert h == 0 && |s.handlers| == 1;
    assert s.handlers[..0] + s.handlers[1..] == [];
  }

  lemma SendingIsAwaited(s: State)
    requires Front(s) && Unsent(s.requests, s.handlers) > 0
    ensures s.loop.Await?
  {
  }

  lemma FlowGrows(file: Chunk, pos: nat, size: nat, a: Chunk, b: Chunk, c: Chunk)
    requires pos <= |file| && file[..pos] == a + b + c
    ensures file[..pos + |Fread(file, pos, size)|] == a + b + (c + Fread(file, pos, size))
  {
    var data := Fread(file, pos, size);
    assert file[..pos + |data|] == file[..pos] + data;
    assert a + b + c + data == a + b + (c + data);
  }

  lemma SendKeepsFlow(s: State, p: Packet)
    requires Front(s) && s.loop.Await? && s.current == s.song == p.songId
    requires p.data == Fread(s.file, s.pos, SEGMENT_SIZE)
    ensures FlowOk(s.file, s.pos + |p.data|, s.pb.supplied, DaemonBytes(s), OnWire(s.wire + [p], s.song))
    ensures WireOk(s.wire + [p], s.song)
    ensures |OnWire(s.wire + [p], s.song)| == |OnWire(s.wire, s.song)| + 1
  {
    OnWireSnoc(s.wire, p, s.song);
    ConcatSnoc(OnWire(s.wire, s.song), p.data);
    FlowGrows(s.file, s.pos, SEGMENT_SIZE, Concat(s.pb.supplied), DaemonBytes(s), Concat(OnWire(s.wire, s.song)));
  }

  lemma SentIs(s: State, h: nat, s': State)
    requires SendStep(s, h) == PB.Some(s') && s.handlers[h].size == SEGMENT_SIZE && s.handlers[h].next < SEGMENTS
    ensures s.current == s.song && s.pos <= |s.file|
    ensures var p := Packet(s.song, Fread(s.file, s.pos, SEGMENT_SIZE), s.handlers[h].next);
      s' == s.(pos := s.pos + |p.data|, wire := s.wire + [p], handlers := s'.handlers)
  {
  }

  lemma SentKeeps(s: State, p: Packet, s': State)
    requires Front(s) && s.loop.Await? && s.current == s.song == p.songId
    requires p.data == Fread(s.file, s.pos, SEGMENT_SIZE)
    requires s' == s.(pos := s.pos + |p.data|, wire := s.wire + [p], handlers := s'.handlers)
    requires ServerOk(s.song, s.current, s'.handlers, s.requests)
    requires Unsent(s.requests, s'.handlers) == Unsent(s.requests, s.handlers) - 1 >= 0
    ensures Front(s')
  {
    SendKeepsFlow(s, p);
    SizesGrow(s.pos, |s.file|, s.pb.supplied, SegmentsRead(s.loop, Unsent(s.requests, s.handlers)));
  }

  lemma SendKeeps(s: State, h: nat, s': State)
    requires Front(s) && SendStep(s, h) == PB.Some(s')
    ensures Front(s') && s'.pb == s.pb
  {
    SendKeepsServer(s, h, s');
    SendingIsAwaited(s);
    SentIs(s, h, s');
    SentKeeps(s, Packet(s.song, Fread(s.file, s.pos, SEGMENT_SIZE), s.handlers[h].next), s');
  }

  /** The channel matters only through the payloads of the song. */
  lemma WireFrame(s: State, wire': seq<Packet>)
    requires Front(s) && WireOk(wire', s.song) && OnWire(wire', s.song) == OnWire(s.wire, s.song)
    ensures Front(s.(wire := wire'))
  {
  }

  lemma StrayKeeps(s: State, p: Packet, s': State)
    requires Front(s) && p.songId != s.song && HEADER_SIZE + 8 + |p.data| <= DGRAM_MAX
    requires s' == s.(wire := s.wire + [p])
    ensures Front(s') && s'.pb == s.pb
  {
    OnWireSnoc(s.wire, p, s.song);
    WireFrame(s, s.wire + [p]);
  }

  // ---- the main thread's steps -------------------------------------------------------------------------

  lemma StoreKeepsFlow(buffer: seq<Chunk>, n: nat, data: Chunk, rest: seq<Chunk>)
    requires n < |buffer|
    ensures Concat(buffer[..n]) + Concat([data] + rest) == Concat(buffer[n := data][..n + 1]) + Concat(rest)
  {
    assert buffer[n := data][..n + 1] == buffer[..n] + [data];
    ConcatSnoc(buffer[..n], data);
    assert ([data] + rest)[1..] == rest;
  }

  /** A payload of the song arrives only while the request thread waits, and has a free place. */
  lemma PayloadHasPlace(s: State)
    requires Front(s) && s.main.Idle? && OnWire(s.wire, s.song) != []
    ensures s.loop.Await? && s.counter < SEGMENTS && s.mergeSem == 0
  {
  }

  lemma StoreKeepsPhase(s: State, n: nat)
    requires Front(s) && s.main.Idle? && s.loop.Await? && s.counter < SEGMENTS && s.mergeSem == 0
    requires |OnWire(s.wire, s.song)| == 1 + n
    ensures PhaseOk(s.loop, Stored, Unsent(s.requests, s.handlers), n, s.counter, s.counterMutex, s.mergeSem)
  {
  }

  lemma StoreKeepsBytes(s: State, data: Chunk, rest: seq<Chunk>)
    requires Front(s) && s.main.Idle? && s.loop.Await? && s.counter < SEGMENTS
    requires OnWire(s.wire, s.song) == [data] + rest
    ensures FlowOk(s.file, ReadSoFar(s), s.pb.supplied, Concat(s.buffer[s.counter := data][..s.counter + 1]), rest)
  {
    StoreKeepsFlow(s.buffer, s.counter, data, rest);
    JoinSame(Concat(s.pb.supplied), DaemonBytes(s), Concat(OnWire(s.wire, s.song)),
             Concat(s.buffer[s.counter := data][..s.counter + 1]), Concat(rest));
  }

  lemma StoreKeeps(s: State, data: Chunk, wire': seq<Packet>)
    requires Front(s) && s.main.Idle? && WireOk(wire', s.song)
    requires OnWire(s.wire, s.song) == [data] + OnWire(wire', s.song)
    ensures s.loop.Await? && s.counter < SEGMENTS
    ensures Front(s.(wire := wire', buffer := s.buffer[s.counter := data], main := Stored))
  {
    PayloadHasPlace(s);
    StoreKeepsPhase(s, |OnWire(wire', s.song)|);
    StoreKeepsBytes(s, data, OnWire(wire', s.song));
  }

  lemma JoinSame(a: Chunk, b: Chunk, c: Chunk, b': Chunk, c': Chunk)
    requires b + c == b' + c'
    ensures a + b + c == a + b' + c'
  {
    assert a + b + c == a + (b + c);
    assert a + b' + c' == a + (b' + c');
  }

  lemma ReceiveKeeps(s: State, stale: seq<byte>, s': State)
    requires Front(s) && ReceiveStep(s, stale) == PB.Some(s')
    ensures Front(s') && s'.pb == s.pb
  {
    assert PacketOk(s.wire[0], s.song);
    DatagramBody(s.wire[0].songId, s.wire[0].data, s.wire[0].number, stale);
    if s.wire[0].songId == s.song {
      StoreKeeps(s, s.wire[0].data, s.wire[1..]);
    } else {
      WireFrame(s, s.wire[1..]);
    }
  }

  lemma MainKeepsPhase(s: State, a: Action, s': State, unsent: int, onWire: nat)
    requires PhaseOk(s.loop, s.main, unsent, onWire, s.counter, s.counterMutex, s.mergeSem)
    requires MainStep(s, a) == PB.Some(s')
    ensures s' == s.(counter := s'.counter, counterMutex := s'.counterMutex, mergeSem := s'.mergeSem, main := s'.main)
    ensures PhaseOk(s.loop, s'.main, unsent, onWire, s'.counter, s'.counterMutex, s'.mergeSem)
    ensures s.loop.Await? ==> Filled(s'.counter, s'.main) == Filled(s.counter, s.main)
  {
  }

  lemma MainKeeps(s: State, a: Action, s': State)
    requires Front(s) && MainStep(s, a) == PB.Some(s')
    ensures Front(s') && s'.pb == s.pb
  {
    MainKeepsPhase(s, a, s', Unsent(s.requests, s.handlers), |OnWire(s.wire, s.song)|);
    FrontFrame(s, s');
  }

  // ---- the request thread's steps -----------------------------------------------------------------------

  lemma RequestKeeps(s: State, a: Action, s': State)
    requires Front(s) && s.loop.Request? && LoopStep(s, a) == PB.Some(s')
    ensures Front(s') && s'.pb == s.pb
  {
    assert s.requests == [] && s.handlers == [];
    assert s.requests + [s.song] == [s.song];
    assert s.buffer[..0] == [] && Concat(s.buffer[..0]) == [];
    FrontFrame(s, s');
  }

  /** The counter is ten when the merge semaphore has been posted, so its assert holds. */
  lemma WaitMergeCounts(s: State, a: Action)
    requires Front(s) && s.loop.Await? && LoopStep(s, a).Some?
    ensures s.counter == SEGMENTS == Filled(s.counter, s.main) && s.mergeSem == 1
    ensures Unsent(s.requests, s.handlers) == 0 && OnWire(s.wire, s.song) == []
    ensures s.main.Idle? || s.main.Posted?
  {
  }

  lemma MergeStart(buffer: seq<Chunk>, filled: nat, acc: Chunk)
    requires filled == |buffer| && acc == []
    ensures InDaemon(Await, buffer, filled) == InDaemon(Merging(0, acc), buffer, filled)
  {
    assert buffer[..filled] == buffer && buffer[0..] == buffer;
    assert acc + Concat(buffer) == Concat(buffer);
  }

  lemma MergeBegins(s: State, s': State)
    requires Front(s) && s.loop.Await? && s.mergeSem == 1
    requires s.counter == SEGMENTS == Filled(s.counter, s.main) && (s.main.Idle? || s.main.Posted?)
    requires Unsent(s.requests, s.handlers) == 0 && OnWire(s.wire, s.song) == []
    requires s'.loop.Merging? && s'.loop.i == 0 && s'.loop.acc == [] && s' == s.(mergeSem := 0, loop := s'.loop)
    ensures Front(s')
  {
    MergeStart(s.buffer, SEGMENTS, s'.loop.acc);
    FrontFrame(s, s');
  }

  lemma WaitMergeIs(s: State, a: Action, s': State)
    requires s.loop.Await? && s.counter > 0 && LoopStep(s, a) == PB.Some(s')
    ensures s.mergeSem > 0 && s'.loop.Merging? && s'.loop.i == 0 && s'.loop.acc == []
    ensures s' == s.(mergeSem := s.mergeSem - 1, loop := s'.loop)
  {
  }

  lemma WaitMergeKeeps(s: State, a: Action, s': State)
    requires Front(s) && s.loop.Await? && LoopStep(s, a) == PB.Some(s')
    ensures Front(s') && s'.pb == s.pb
  {
    WaitMergeCounts(s, a);
    WaitMergeIs(s, a, s');
    MergeBegins(s, s');
  }

  lemma MergeMovesOne(buffer: seq<Chunk>, i: nat, acc: Chunk, filled: nat)
    requires i <= |buffer|
    ensures i < |buffer| ==>
      InDaemon(Merging(i, acc), buffer, filled) == InDaemon(Merging(i + 1, acc + buffer[i]), buffer, filled)
    ensures i == |buffer| ==> InDaemon(Merging(i, acc), buffer, filled) == acc
  {
    if i < |buffer| {
      assert buffer[i..][1..] == buffer[i + 1..];
      assert acc + (buffer[i] + Concat(buffer[i + 1..])) == (acc + buffer[i]) + Concat(buffer[i + 1..]);
    } else {
      assert buffer[i..] == [] && acc + [] == acc;
    }
  }

  lemma MergeKeeps(s: State, a: Action, s': State)
    requires Front(s) && s.loop.Merging? && LoopStep(s, a) == PB.Some(s')
    ensures Front(s') && s'.pb == s.pb
  {
    var i, acc := s.loop.i, s.loop.acc;
    assert s.counter == SEGMENTS && i <= SEGMENTS;
    MergeMovesOne(s.buffer, i, acc, Filled(s.counter, s.main));
    if i < SEGMENTS {
      assert s' == s.(loop := Merging(i + 1, acc + s.buffer[i]));
      FrontFrame(s, s');
    } else {
      assert s' == s.(loop := WantReset(acc));
      FrontFrame(s, s');
    }
  }

  /** The size of a merge: what the file has left, up to ten full segments. */
  lemma MergedSize(s: State)
    requires Front(s) && s.loop.Checking?
    ensures |s.loop.acc| == Min(4500 * (|s.pb.supplied| + 1), |s.file|) - Min(4500 * |s.pb.supplied|, |s.file|)
    ensures s.loop.acc == [] <==> |s.file| <= 4500 * |s.pb.supplied|
    ensures |s.loop.acc| <= SERIES_SIZE
  {
    assert |s.file[..ReadSoFar(s)]| == ReadSoFar(s);
  }

  lemma SupplyKeepsPipeline(pb: PB.State, acc: Chunk)
    requires PipelineOk(pb) && 0 < |acc| <= SERIES_SIZE
    ensures PB.SupplyStep(pb, FEEDER, acc).Some?
    ensures PipelineOk(PB.SupplyStep(pb, FEEDER, acc).value)
    ensures PB.SupplyStep(pb, FEEDER, acc).value.supplied == pb.supplied + [acc]
  {
    Tokens.SupplyKeepsInv(pb, FEEDER, acc);
    var done, ahead := pb.flac.written, pb.threads[FEEDER].pending;
    assert done + (ahead + [acc]) == done + ahead + [acc];
  }

  lemma CheckKeeps(s: State, a: Action, s': State)
    requires Inv(s) && s.loop.Checking? && LoopStep(s, a) == PB.Some(s')
    ensures Inv(s')
  {
    MergedSize(s);
    if s.loop.acc != [] {
      SupplyKeepsPipeline(s.pb, s.loop.acc);
      SupplyKeepsFront(s, s');
    } else {
      AbortKeeps(s, s');
    }
  }

  lemma AbortKeeps(s: State, s': State)
    requires Front(s) && s.loop.Checking? && s' == s.(loop := Aborted)
    requires s.loop.acc == [] && |s.file| <= 4500 * |s.pb.supplied|
    ensures Front(s')
  {
  }

  lemma SupplyKeepsFront(s: State, s': State)
    requires Front(s) && s.loop.Checking?
    requires s.loop.acc != []
    requires s' == s.(pb := s'.pb, loop := InFeed) && s'.pb.supplied == s.pb.supplied + [s.loop.acc]
    requires |s.loop.acc| == Min(4500 * (|s.pb.supplied| + 1), |s.file|) - Min(4500 * |s.pb.supplied|, |s.file|)
    ensures Front(s')
  {
    assert OnWire(s.wire, s.song) == [] && Concat(OnWire(s.wire, s.song)) == [];
    SupplyKeepsFlow(s.file, ReadSoFar(s), s.pb.supplied, s.loop.acc, OnWire(s.wire, s.song));
  }

  lemma SupplyKeepsFlow(file: Chunk, read: nat, supplied: seq<Chunk>, acc: Chunk, onWire: seq<Chunk>)
    requires FlowOk(file, read, supplied, acc, onWire)
    ensures FlowOk(file, read, supplied + [acc], [], onWire)
    ensures |Concat(supplied + [acc])| == |Concat(supplied)| + |acc|
  {
    ConcatSnoc(supplied, acc);
    assert Concat(supplied) + acc + Concat(onWire) == (Concat(supplied) + acc) + [] + Concat(onWire);
  }

  /** Taking the counter mutex, clearing the counter, giving the mutex back, and returning from the feed call. */
  lemma ResetKeeps(s: State, a: Action, s': State)
    requires Front(s) && LoopStep(s, a) == PB.Some(s')
    requires s.loop.WantReset? || s.loop.Resetting? || s.loop.Unlocking? || s.loop.InFeed?
    ensures Front(s') && s'.pb == s.pb
  {
    ResetKeepsPhase(s, a, s');
    FrontFrame(s, s');
  }

  lemma ResetKeepsPhase(s: State, a: Action, s': State)
    requires Front(s) && LoopStep(s, a) == PB.Some(s')
    requires s.loop.WantReset? || s.loop.Resetting? || s.loop.Unlocking? || s.loop.InFeed?
    ensures s' == s.(counter := s'.counter, counterMutex := s'.counterMutex, loop := s'.loop)
    ensures PhaseOk(s'.loop, s'.main, Unsent(s.requests, s.handlers), |OnWire(s.wire, s.song)|,
                    s'.counter, s'.counterMutex, s'.mergeSem)
    ensures !s'.loop.Aborted?
    ensures DaemonBytes(s') == DaemonBytes(s)
  {
  }

  lemma QuietLoopKeeps(s: State, a: Action, s': State)
    requires Front(s) && LoopStep(s, a) == PB.Some(s') && !s.loop.Checking?
    ensures Front(s') && s'.pb == s.pb
  {
    match s.loop
    case Request => RequestKeeps(s, a, s');
    case Await => WaitMergeKeeps(s, a, s');
    case Merging(_, _) => MergeKeeps(s, a, s');
    case WantReset(_) => ResetKeeps(s, a, s');
    case Resetting(_) => ResetKeeps(s, a, s');
    case Unlocking(_) => ResetKeeps(s, a, s');
    case InFeed => ResetKeeps(s, a, s');
    case _ =>
  }

  lemma LoopKeeps(s: State, a: Action, s': State)
    requires Inv(s) && LoopStep(s, a) == PB.Some(s')
    ensures Inv(s')
  {
    if s.loop.Checking? {
      CheckKeeps(s, a, s');
    } else {
      QuietLoopKeeps(s, a, s');
    }
  }

  // ---- the pipeline's steps --------------------------------------------------------------------------------

  lemma PipelineRun(pb: PB.State, i: nat)
    requires PipelineOk(pb) && i < |pb.threads| && PB.ThreadStep(pb, i).Some?
    ensures PipelineOk(PB.ThreadStep(pb, i).value) && PB.ThreadStep(pb, i).value.supplied == pb.supplied
  {
    var pb' := PB.ThreadStep(pb, i).value;
    DR.ThreadMoves(pb, i);
    Tokens.RunKeepsInv(pb, i);
    if i != FEEDER {
      assert pb'.flac.written + [] == pb'.flac.written && pb.flac.written + [] == pb.flac.written;
    }
  }

  lemma PipelineControl(pb: PB.State, a: PB.Action)
    requires PipelineOk(pb) && PB.Step(pb, a).Some?
    requires a.Finish? || (a.Do? && (a.c.Pause? || a.c.Resume?))
    ensures PipelineOk(PB.Step(pb, a).value) && PB.Step(pb, a).value.supplied == pb.supplied
  {
    Tokens.StepKeepsInv(pb, a);
  }

  lemma PlayKeeps(s: State, a: PB.Action, s': State)
    requires Inv(s) && PlayStep(s, a) == PB.Some(s')
    ensures Inv(s')
  {
    if a.Run? {
      PipelineRun(s.pb, a.i);
    } else {
      PipelineControl(s.pb, a);
    }
    PipelineFrame(s, s');
  }

  lemma PipelineFrame(s: State, s': State)
    requires Front(s) && s' == s.(pb := s'.pb) && s'.pb.supplied == s.pb.supplied
    ensures Front(s')
  {
  }

  // ---- whole runs ----------------------------------------------------------------------------------------------

  lemma ServerStepKeeps(s: State, a: Action, s': State)
    requires Front(s) && ServerStep(s, a) == PB.Some(s')
    ensures Front(s') && s'.pb == s.pb
  {
    if a.Accept? {
      AcceptKeeps(s, s');
    } else if a.Open? {
      OpenKeeps(s, a.h, s');
    } else if a.Send? {
      SendKeeps(s, a.h, s');
    } else {
      StrayIs(s, a, s');
      StrayKeeps(s, Packet(a.songId, a.data, a.number), s');
    }
  }

  lemma StrayIs(s: State, a: Action, s': State)
    requires ServerStep(s, a) == PB.Some(s') && !a.Accept? && !a.Open? && !a.Send?
    ensures a.Stray? && a.songId != s.song && HEADER_SIZE + 8 + |a.data| <= DGRAM_MAX
    ensures s' == s.(wire := s.wire + [Packet(a.songId, a.data, a.number)])
  {
  }

  lemma StepKeepsInv(s: State, a: Action, s': State)
    requires Inv(s) && Step(s, a) == PB.Some(s')
    ensures Inv(s')
  {
    if OfServer(a) {
      ServerStepKeeps(s, a, s');
    } else if a.Receive? {
      ReceiveKeeps(s, a.stale, s');
    } else if a.Play? {
      PlayKeeps(s, a.a, s');
    } else if OfMain(a) {
      MainKeeps(s, a, s');
    } else {
      LoopKeeps(s, a, s');
    }
  }

  lemma {:induction false} ExecKeepsInv(s: State, actions: seq<Action>)
    requires Inv(s) && Exec(s, actions).Some?
    ensures Inv(Exec(s, actions).value)
    decreases |actions|
  {
    if actions != [] {
      StepKeepsInv(s, actions[0], Step(s, actions[0]).value);
      ExecKeepsInv(Step(s, actions[0]).value, actions[1..]);
    }
  }

  lemma ExecCons(s: State, a: Action, rest: seq<Action>)
    requires Step(s, a).Some?
    ensures Exec(s, [a] + rest) == Exec(Step(s, a).value, rest)
  {
    assert ([a] + rest)[1..] == rest;
  }

  predicate Setup(cfg: PB.Config, program: seq<PB.Callback>)
  {
    Tokens.Fits(cfg) && SERIES_SIZE <= cfg.flacElem && PB.ProgramOk(cfg, program)
  }

  /** The shipped constants are such a setup, for every decoder program whose frames fit the raw slot. */
  lemma DefaultsAreSetUp(rawElem: nat, program: seq<PB.Callback>)
    ensures Setup(PB.Defaults(rawElem), program) <==> PB.ProgramOk(PB.Defaults(rawElem), program)
  {
  }

  lemma InitInv(cfg: PB.Config, song: uint32, file: Chunk, program: seq<PB.Callback>)
    requires Setup(cfg, program)
    ensures Inv(Init(cfg, song, file, program))
  {
    DR.SongInv(cfg, program, []);
    var s := Init(cfg, song, file, program);
    assert s.pb.flac.written + s.pb.threads[FEEDER].pending == [];
    assert s.file[..0] == [];
  }

  lemma RunInv(cfg: PB.Config, song: uint32, file: Chunk, program: seq<PB.Callback>, actions: seq<Action>)
    requires Setup(cfg, program) && Exec(Init(cfg, song, file, program), actions).Some?
    ensures Inv(Exec(Init(cfg, song, file, program), actions).value)
  {
    InitInv(cfg, song, file, program);
    ExecKeepsInv(Init(cfg, song, file, program), actions);
  }

  lemma StepKeepsSong(s: State, a: Action, s': State)
    requires Step(s, a) == PB.Some(s')
    ensures s'.song == s.song && s'.file == s.file
  {
  }

  lemma {:induction false} SongKept(s: State, actions: seq<Action>)
    requires Exec(s, actions).Some?
    ensures Exec(s, actions).value.song == s.song && Exec(s, actions).value.file == s.file
    decreases |actions|
  {
    if actions != [] {
      StepKeepsSong(s, actions[0], Step(s, actions[0]).value);
      SongKept(Step(s, actions[0]).value, actions[1..]);
    }
  }

  /** What the file has been turned into: bytes with the decoder, a chunk being handed over, the flac ring, the
      feed call, the daemon and the channel, in this order and with nothing missing, doubled or mixed up. */
  predicate Accounted(s: State)
  {
    && s.pb.flac.ring.Some? && CB.Valid(s.pb.flac.ring.value) && FEEDER < |s.pb.threads| && s.pb.threads[FEEDER].Feeder?
    && ReadSoFar(s) <= |s.file|
    && s.pb.delivered <= s.pb.flac.taken && |s.pb.flac.taken| <= |s.pb.delivered| + 1
    && s.file[..ReadSoFar(s)] ==
         Concat(s.pb.delivered) + Concat(s.pb.flac.taken[|s.pb.delivered|..])
         + Concat(CB.Contents(s.pb.flac.ring.value))
         + Concat(s.pb.threads[FEEDER].pending) + DaemonBytes(s) + Concat(OnWire(s.wire, s.song))
  }

  lemma FourParts(a: seq<Chunk>, b: seq<Chunk>, c: seq<Chunk>, d: seq<Chunk>)
    ensures Concat(a + b + c + d) == Concat(a) + Concat(b) + Concat(c) + Concat(d)
  {
    ConcatAppend(a + b + c, d);
    ConcatAppend(a + b, c);
    ConcatAppend(a, b);
  }

  lemma SuppliedInParts(pb: PB.State)
    requires PipelineOk(pb)
    ensures CB.Valid(pb.flac.ring.value) && pb.delivered <= pb.flac.taken && |pb.flac.taken| <= |pb.delivered| + 1
    ensures Concat(pb.supplied) == Concat(pb.delivered) + Concat(pb.flac.taken[|pb.delivered|..])
              + Concat(CB.Contents(pb.flac.ring.value)) + Concat(pb.threads[FEEDER].pending)
  {
    Tokens.CensusNatural(pb.threads, PB.Flac);
    var rest := pb.flac.taken[|pb.delivered|..];
    assert pb.flac.taken == pb.delivered + rest;
    FourParts(pb.delivered, rest, CB.Contents(pb.flac.ring.value), pb.threads[FEEDER].pending);
  }

  /** End to end, in every state of every run: each byte read from the file is exactly once somewhere on its way. */
  lemma EveryByteIsAccountedFor(cfg: PB.Config, song: uint32, file: Chunk, program: seq<PB.Callback>,
                                actions: seq<Action>)
    requires Setup(cfg, program) && Exec(Init(cfg, song, file, program), actions).Some?
    ensures Exec(Init(cfg, song, file, program), actions).value.file == file
    ensures Accounted(Exec(Init(cfg, song, file, program), actions).value)
  {
    RunInv(cfg, song, file, program, actions);
    SongKept(Init(cfg, song, file, program), actions);
    SuppliedInParts(Exec(Init(cfg, song, file, program), actions).value.pb);
  }

  lemma FirstOfSix(file: Chunk, read: nat, a: Chunk, b: Chunk, c: Chunk, d: Chunk, e: Chunk, f: Chunk)
    requires read <= |file| && file[..read] == a + b + c + d + e + f
    ensures a <= file
  {
    assert a + b + c + d + e + f == a + (b + c + d + e + f);
  }

  /** Stream integrity: what the decoder has been given is a prefix of the song file. */
  lemma DecoderSeesPrefixOfFile(cfg: PB.Config, song: uint32, file: Chunk, program: seq<PB.Callback>,
                                actions: seq<Action>)
    requires Setup(cfg, program) && Exec(Init(cfg, song, file, program), actions).Some?
    ensures Concat(Exec(Init(cfg, song, file, program), actions).value.pb.delivered) <= file
  {
    EveryByteIsAccountedFor(cfg, song, file, program, actions);
    var s := Exec(Init(cfg, song, file, program), actions).value;
    FirstOfSix(s.file, ReadSoFar(s), Concat(s.pb.delivered), Concat(s.pb.flac.taken[|s.pb.delivered|..]),
               Concat(CB.Contents(s.pb.flac.ring.value)), Concat(s.pb.threads[FEEDER].pending), DaemonBytes(s),
               Concat(OnWire(s.wire, s.song)));
  }

  /** The series protocol: never a store outside the buffer; while the request thread waits, unsent, travelling,
      being stored and counted messages make ten; while it merges nothing is stored or counted and nothing travels;
      the merge semaphore is 0 or 1; and a merge that starts finds the counter at ten. */
  lemma SeriesProtocol(cfg: PB.Config, song: uint32, file: Chunk, program: seq<PB.Callback>, actions: seq<Action>)
    requires Setup(cfg, program) && Exec(Init(cfg, song, file, program), actions).Some?
    ensures var s := Exec(Init(cfg, song, file, program), actions).value;
      && s.overruns == 0
      && s.mergeSem <= 1
      && s.counter <= SEGMENTS
      && (s.loop.Await? ==>
            Unsent(s.requests, s.handlers) + |OnWire(s.wire, song)| + Filled(s.counter, s.main) == SEGMENTS)
      && (s.main.Stored? || s.main.Locked? || s.main.Counted? ==> s.loop.Await?)
      && (s.loop.Merging? || s.loop.WantReset? ==>
            s.counter == SEGMENTS && OnWire(s.wire, song) == [] && Unsent(s.requests, s.handlers) == 0)
      && (s.loop.Resetting? || s.loop.Unlocking? ==> !HoldsCounter(s.main))
      && |s.requests| + |s.handlers| <= 1
  {
    RunInv(cfg, song, file, program, actions);
    SongKept(Init(cfg, song, file, program), actions);
  }

  /** Every datagram fits the receive buffer, the song's own ones with at most 450 bytes of payload, and a merged
      series fits the merge buffer and a slot of the flac ring. */
  lemma SizeChain(cfg: PB.Config, song: uint32, file: Chunk, program: seq<PB.Callback>, actions: seq<Action>, i: nat)
    requires Setup(cfg, program) && Exec(Init(cfg, song, file, program), actions).Some?
    ensures var s := Exec(Init(cfg, song, file, program), actions).value;
      && (i < |s.wire| ==> |PacketBytes(s.wire[i])| <= DGRAM_MAX)
      && (i < |s.wire| && s.wire[i].songId == song ==> |PacketBytes(s.wire[i])| <= HEADER_SIZE + 8 + SEGMENT_SIZE)
      && (s.loop.Checking? ==> |s.loop.acc| <= SERIES_SIZE <= MERGE_BUFFER && |s.loop.acc| <= s.pb.cfg.flacElem)
  {
    RunInv(cfg, song, file, program, actions);
    SongKept(Init(cfg, song, file, program), actions);
    var s := Exec(Init(cfg, song, file, program), actions).value;
    if i < |s.wire| {
      assert PacketOk(s.wire[i], song);
    }
    if s.loop.Checking? {
      MergedSize(s);
    }
  }

  /** Series k of a file of L bytes merges exactly what is left of it, up to 4500 bytes: min(4500, L - 4500 k), and
      nothing once the file is exhausted. */
  lemma SeriesSizeExactly(cfg: PB.Config, song: uint32, file: Chunk, program: seq<PB.Callback>, actions: seq<Action>)
    requires Setup(cfg, program) && Exec(Init(cfg, song, file, program), actions).Some?
    requires Exec(Init(cfg, song, file, program), actions).value.loop.Checking?
    ensures var s := Exec(Init(cfg, song, file, program), actions).value;
      var left := |file| - 4500 * |s.pb.supplied|;
      |s.loop.acc| == if left <= 0 then 0 else if left <= 4500 then left else 4500
  {
    RunInv(cfg, song, file, program, actions);
    SongKept(Init(cfg, song, file, program), actions);
    MergedSize(Exec(Init(cfg, song, file, program), actions).value);
  }

  /** The assert that a series is not empty fails exactly at the end of the file, so no song ends without it: the
      check that takes the daemon down is the one after the last byte has been fed, and the feed calls before it
      were ceil(L / 4500) in number. */
  lemma AbortExactlyAtEndOfFile(cfg: PB.Config, song: uint32, file: Chunk, program: seq<PB.Callback>,
                                actions: seq<Action>)
    requires Setup(cfg, program) && Exec(Init(cfg, song, file, program), actions).Some?
    ensures var s := Exec(Init(cfg, song, file, program), actions).value;
      && (s.loop.Aborted? ==> Concat(s.pb.supplied) == file && |s.pb.supplied| == (|file| + 4499) / 4500)
      && (s.loop.Checking? ==> LoopStep(s, Check).Some?)
      && (s.loop.Checking? ==> (LoopStep(s, Check).value.loop.Aborted? <==> |file| <= 4500 * |s.pb.supplied|))
  {
    RunInv(cfg, song, file, program, actions);
    SongKept(Init(cfg, song, file, program), actions);
    var s := Exec(Init(cfg, song, file, program), actions).value;
    if s.loop.Checking? {
      MergedSize(s);
      if s.loop.acc != [] {
        SupplyKeepsPipeline(s.pb, s.loop.acc);
      }
    }
    if s.loop.Aborted? {
      AllSupplied(s);
    }
  }

  lemma AllSupplied(s: State)
    requires Inv(s) && s.loop.Aborted?
    ensures Concat(s.pb.supplied) == s.file && |s.pb.supplied| == (|s.file| + 4499) / 4500
  {
    var fed := Concat(s.pb.supplied);
    assert OnWire(s.wire, s.song) == [];
    assert s.file[..ReadSoFar(s)] == fed + [] + [];
    assert ReadSoFar(s) == |s.file| && s.file[..|s.file|] == s.file;
  }
}
