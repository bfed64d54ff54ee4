/** The whole path of one song: server, datagram channel, player daemon and playback pipeline as one machine
    of atomic steps.  The channel loses, duplicates and reorders nothing and no wait times out; datagrams of
    other songs may turn up in it at any time.  One PLAY has been given and STOP has not. */
module Streaming {
  import opened Bytes
  import opened Messages
  import opened Feeding
  import PB = Playback
  import DR = DrainingRuns

  type Chunk = seq<byte>

  /** A server thread answering a request: segment `next` of `count` is to be read and sent. */
  datatype Handler = Handler(songId: uint32, size: nat, count: nat, next: nat, ready: bool)

  /** The main thread of the daemon inside player_daemon_handle_data_message. */
  datatype Main = Idle | Stored | Locked | Counted | Posted

  /** The request thread of the daemon. */
  datatype Loop =
    | Request | Await
    | Merging(i: nat, acc: Chunk) | WantReset(acc: Chunk) | Resetting(acc: Chunk) | Unlocking(acc: Chunk)
    | Checking(acc: Chunk) | InFeed
    | Aborted

  /** A datagram in the channel; what travels are its bytes. */
  datatype Packet = Packet(songId: uint32, data: Chunk, number: uint32)

  function PacketBytes(p: Packet): (b: seq<byte>)
  {
    Datagram(p.songId, p.data, p.number)
  }

  /** A request in the channel is the thirteen bytes the request thread sends every time for its song: the
      segment count travels in the header. */
  function RequestBytes(song: uint32): (b: seq<byte>)
  {
    EncodeHeader(Header(FEED_ME, HEADER_SIZE + FEED_ME_SIZE, SEGMENTS)) + EncodeFeedMe(FeedMe(SEGMENT_SIZE, song))
  }

  datatype State = State(
    song: uint32, file: Chunk,
    current: int, pos: nat, handlers: seq<Handler>,         // server: open song, file position, handler threads
    requests: seq<uint32>, wire: seq<Packet>,               // the channel, both ways
    buffer: seq<Chunk>, counter: nat, counterMutex: nat, mergeSem: nat,
    main: Main, loop: Loop,
    overruns: nat,                                          // stores outside the series buffer
    pb: PB.State)

  /** The feeder thread of the pipeline is the request thread. */
  const FEEDER: nat := 2

  function Init(cfg: PB.Config, song: uint32, file: Chunk, program: seq<PB.Callback>): (s: State)
    requires cfg.flacSlots > 0
  {
    State(song, file, -1, 0, [], [], [], seq(SEGMENTS, _ => []), 0, 1, 0, Idle, Request, 0,
          DR.SongState(cfg, program, []))
  }

  datatype Action =
    | Accept | Open(h: nat) | Send(h: nat)                                         // server
    | Stray(songId: uint32, data: Chunk, number: uint32)                           // channel
    | Receive(stale: seq<byte>) | WaitCounter | Count | PostMerge | PostCounter    // daemon, main thread
    | SendRequest | WaitMerge | MergeOne | WaitReset | Reset | PostReset | Check | Fed   // daemon, request thread
    | Play(a: PB.Action)                                                           // playback threads and control

  // ---- server ---------------------------------------------------------------------------------

  /** What the server makes of a request.  Only the lowest byte of header.seq reaches segments_n. */
  function HandlerFor(request: seq<byte>): (h: PB.Maybe<Handler>)
  {
    if |request| < HEADER_SIZE + FEED_ME_SIZE || ParseHeader(request).kind != FEED_ME then PB.None
    else
      var m := ParseFeedMe(request[HEADER_SIZE..]);
      PB.Some(Handler(m.songId, m.dataSize, ParseHeader(request).number % 0x100, 0, false))
  }

  function AcceptStep(s: State): (r: PB.Maybe<State>)
  {
    if s.requests == [] then PB.None
    else
      var h := HandlerFor(RequestBytes(s.requests[0]));
      if h.None? then PB.Some(s.(requests := s.requests[1..]))
      else PB.Some(s.(requests := s.requests[1..], handlers := s.handlers + [h.value]))
  }

  function OpenStep(s: State, h: nat): (r: PB.Maybe<State>)
  {
    if h >= |s.handlers| || s.handlers[h].ready then PB.None
    else
      var t := s.handlers[h].(ready := true);
      if s.current == t.songId then PB.Some(s.(handlers := s.handlers[h := t]))
      else PB.Some(s.(current := t.songId, pos := 0, handlers := s.handlers[h := t]))
  }

  /** One round of the segment loop; the thread ends with the last one. */
  function SendStep(s: State, h: nat): (r: PB.Maybe<State>)
  {
    if h >= |s.handlers| || !s.handlers[h].ready || s.handlers[h].next >= s.handlers[h].count
       || s.current != s.song || s.pos > |s.file| then PB.None
    else
      var t := s.handlers[h];
      var data := Fread(s.file, s.pos, t.size);
      PB.Some(s.(pos := s.pos + |data|,
                 wire := s.wire + [Packet(s.song, data, t.next % 0x1_0000_0000)],
                 handlers := if t.next + 1 == t.count then s.handlers[..h] + s.handlers[h + 1..]
                             else s.handlers[h := t.(next := t.next + 1)]))
  }

  // ---- daemon, main thread ----------------------------------------------------------------------

  /** The payload is stored at the counter without the mutex; a datagram of another song is dropped.
      `stale` is what earlier datagrams left in the receive buffer. */
  function ReceiveStep(s: State, stale: seq<byte>): (r: PB.Maybe<State>)
  {
    if s.wire == [] || !s.main.Idle? || !s.pb.control.Ready? then PB.None
    else
      var body := BodyOf(PacketBytes(s.wire[0]) + stale);
      if body.OutOfBounds? then PB.None
      else if body.value.id != s.song then PB.Some(s.(wire := s.wire[1..]))
      else if s.counter < |s.buffer| then
        PB.Some(s.(wire := s.wire[1..], buffer := s.buffer[s.counter := body.value.name], main := Stored))
      else PB.Some(s.(wire := s.wire[1..], overruns := s.overruns + 1, main := Stored))
  }

  function MainStep(s: State, a: Action): (r: PB.Maybe<State>)
  {
    match s.main
    case Idle => PB.None
    case Stored =>
      if a.WaitCounter? && s.counterMutex > 0 then PB.Some(s.(counterMutex := s.counterMutex - 1, main := Locked))
      else PB.None
    case Locked => if a.Count? then PB.Some(s.(counter := s.counter + 1, main := Counted)) else PB.None
    case Counted =>
      if a.PostMerge? then
        PB.Some(s.(mergeSem := if s.counter == SEGMENTS then s.mergeSem + 1 else s.mergeSem, main := Posted))
      else PB.None
    case Posted => if a.PostCounter? then PB.Some(s.(counterMutex := s.counterMutex + 1, main := Idle)) else PB.None
  }

  // ---- daemon, request thread ---------------------------------------------------------------------

  function LoopStep(s: State, a: Action): (r: PB.Maybe<State>)
  {
    match s.loop
    case Request => if a.SendRequest? then PB.Some(s.(requests := s.requests + [s.song], loop := Await)) else PB.None
    case Await =>
      if a.WaitMerge? && s.mergeSem > 0 then
        PB.Some(s.(mergeSem := s.mergeSem - 1, loop := if s.counter == 0 then Aborted else Merging(0, [])))
      else PB.None
    case Merging(i, acc) =>
      if !a.MergeOne? then PB.None
      else if i < s.counter && i < |s.buffer| then PB.Some(s.(loop := Merging(i + 1, acc + s.buffer[i])))
      else PB.Some(s.(loop := WantReset(acc)))
    case WantReset(acc) =>
      if a.WaitReset? && s.counterMutex > 0 then
        PB.Some(s.(counterMutex := s.counterMutex - 1, loop := Resetting(acc)))
      else PB.None
    case Resetting(acc) => if a.Reset? then PB.Some(s.(counter := 0, loop := Unlocking(acc))) else PB.None
    case Unlocking(acc) =>
      if a.PostReset? then PB.Some(s.(counterMutex := s.counterMutex + 1, loop := Checking(acc))) else PB.None
    case Checking(acc) =>
      if !a.Check? then PB.None
      else if acc == [] then PB.Some(s.(loop := Aborted))
      else
        var fed := PB.SupplyStep(s.pb, FEEDER, acc);
        if fed.None? then PB.None else PB.Some(s.(pb := fed.value, loop := InFeed))
    case InFeed =>
      if a.Fed? && FEEDER < |s.pb.threads| && s.pb.threads[FEEDER] == PB.Feeder(PB.Away, []) then
        PB.Some(s.(loop := Request))
      else PB.None
    case Aborted => PB.None
  }

  /** Playback threads move freely; pause and resume are handled by the main thread between datagrams. */
  function PlayStep(s: State, a: PB.Action): (r: PB.Maybe<State>)
  {
    var allowed := match a
      case Run(_) => true
      case Finish => true
      case Do(c) => s.main.Idle? && (c.Pause? || c.Resume?)
      case Supply(_, _) => false;
    var next := if allowed then PB.Step(s.pb, a) else PB.None;
    if next.None? then PB.None else PB.Some(s.(pb := next.value))
  }

  function ServerStep(s: State, a: Action): (r: PB.Maybe<State>)
  {
    match a
    case Accept => AcceptStep(s)
    case Open(h) => OpenStep(s, h)
    case Send(h) => SendStep(s, h)
    case Stray(id, data, number) =>
      if id == s.song || HEADER_SIZE + 8 + |data| > DGRAM_MAX then PB.None
      else PB.Some(s.(wire := s.wire + [Packet(id, data, number)]))
    case _ => PB.None
  }

  predicate OfServer(a: Action) {
    a.Accept? || a.Open? || a.Send? || a.Stray?
  }

  predicate OfMain(a: Action) {
    a.WaitCounter? || a.Count? || a.PostMerge? || a.PostCounter?
  }

  /** A failed assert takes the daemon down; the server goes on. */
  function Step(s: State, a: Action): (r: PB.Maybe<State>)
  {
    if OfServer(a) then ServerStep(s, a)
    else if s.loop.Aborted? then PB.None
    else if a.Receive? then ReceiveStep(s, a.stale)
    else if a.Play? then PlayStep(s, a.a)
    else if OfMain(a) then MainStep(s, a)
    else LoopStep(s, a)
  }

  function Exec(s: State, actions: seq<Action>): (r: PB.Maybe<State>)
    decreases |actions|
  {
    if actions == [] then PB.Some(s)
    else
      var next := Step(s, actions[0]);
      if next.None? then PB.None else Exec(next.value, actions[1..])
  }

  // ---- where the bytes are ------------------------------------------------------------------------

  /** The payloads of the song's own datagrams in the channel, oldest first. */
  function OnWire(wire: seq<Packet>, song: uint32): (ps: seq<Chunk>)
  {
    if wire == [] then []
    else (if wire[0].songId == song then [wire[0].data] else []) + OnWire(wire[1..], song)
  }

  /** What the server has read of the song so far. */
  function ReadSoFar(s: State): (n: nat)
  {
    if s.current == s.song then s.pos else 0
  }

  /** Datagrams of the current request that are not yet sent. */
  function Unsent(requests: seq<uint32>, handlers: seq<Handler>): (n: int)
  {
    10 * |requests| + (if handlers == [] then 0 else handlers[0].count - handlers[0].next)
  }

  /** How much of the series buffer is filled: a stored payload counts before the counter does. */
  function Filled(counter: nat, main: Main): (n: nat)
  {
    counter + PB.One(main.Stored? || main.Locked?)
  }

  /** The bytes of the current series in the daemon: series buffer while gathering, then merge buffer. */
  function InDaemon(loop: Loop, buffer: seq<Chunk>, filled: nat): (b: Chunk)
  {
    match loop
    case Await => if filled <= |buffer| then Concat(buffer[..filled]) else []
    case Merging(i, acc) => if i <= |buffer| then acc + Concat(buffer[i..]) else acc
    case WantReset(acc) => acc
    case Resetting(acc) => acc
    case Unlocking(acc) => acc
    case Checking(acc) => acc
    case _ => []
  }

  function DaemonBytes(s: State): Chunk {
    InDaemon(s.loop, s.buffer, Filled(s.counter, s.main))
  }
}
