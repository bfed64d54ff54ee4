/** Model of playback.c as a machine of atomic steps: every sem_wait, sem_post, ring operation, copy
    and flag access is one step of one thread, and steps of all threads interleave freely. */
module Playback {
  import CB = CircleBuffers

  type Chunk = CB.Chunk
  type Ring = CB.Ring

  datatype Maybe<+T> = None | Some(value: T)

  function First<T(0)>(s: seq<T>, default: T): T {
    if s == [] then default else s[0]
  }

  function Rest<T>(s: seq<T>): seq<T> {
    if s == [] then s else s[1..]
  }

  /** Initial push counts, slot counts and slot sizes of the two stages. */
  datatype Config = Config(flacTokens: nat, flacSlots: nat, flacElem: nat,
                           rawTokens: nat, rawSlots: nat, rawElem: nat)

  /** The values of config.h; the raw slot size comes with the stream. */
  function Defaults(rawElem: nat): (c: Config)
  {
    Config(10, 10 + 1, 8192, 10, 10 + 1, rawElem)
  }

  /** One ring with its semaphores.  `written` and `taken` record every chunk that entered and left,
      `faults` counts failed asserts, lost chunks and accesses through NULL. */
  datatype Stage = Stage(push: nat, pull: nat, mutex: nat, ring: Maybe<Ring>,
                         written: seq<Chunk>, taken: seq<Chunk>, faults: nat)

  /** Where a thread stands in the five-step pattern that both ends of both rings follow. */
  datatype Phase =
    | Away
    | HasPush | Writing | Wrote | PostPull                                             // producer
    | HasPull | Reading | Got(slot: nat) | Playing(slot: nat) | Used | PostPush        // consumer
    | Crashed

  /** `checked` says whether the caller asserts that the write succeeded. */
  datatype Job = Produce(chunk: Chunk, checked: bool) | Consume

  function Faulty(st: Stage, ph: Phase): (r: Maybe<(Stage, Phase)>)
  {
    Some((st.(faults := st.faults + 1), ph))
  }

  /** The next step of a thread at phase `ph`, None while its semaphore is 0. */
  function Advance(st: Stage, ph: Phase, job: Job): (r: Maybe<(Stage, Phase)>)
  {
    match ph
    case Away =>
      if job.Produce? then
        if st.push == 0 then None else Some((st.(push := st.push - 1), HasPush))
      else
        if st.pull == 0 then None else Some((st.(pull := st.pull - 1), HasPull))
    case HasPush => if st.mutex == 0 then None else Some((st.(mutex := st.mutex - 1), Writing))
    case Writing =>
      if job.Consume? || job.chunk == [] || st.ring.None? then Faulty(st, Crashed)
      else if !CB.Valid(st.ring.value) || |job.chunk| > st.ring.value.elemSize then Faulty(st, Crashed)
      else
        var (ring, entry) := CB.Write(st.ring.value, job.chunk);
        if entry.Null? then Faulty(st, if job.checked then Crashed else Wrote)
        else Some((st.(ring := Some(ring), written := st.written + [job.chunk]), Wrote))
    case Wrote => Some((st.(mutex := st.mutex + 1), PostPull))
    case PostPull => Some((st.(pull := st.pull + 1), Away))
    case HasPull => if st.mutex == 0 then None else Some((st.(mutex := st.mutex - 1), Reading))
    case Reading =>
      if st.ring.None? || !CB.Valid(st.ring.value) then Faulty(st, Crashed)
      else
        var (ring, entry) := CB.Read(st.ring.value);
        if entry.Null? then Faulty(st, Crashed)
        else Some((st.(ring := Some(ring), taken := st.taken + [SlotBytes(st, entry.index)]), Got(entry.index)))
    case Used => Some((st.(mutex := st.mutex + 1), PostPush))
    case PostPush => Some((st.(push := st.push + 1), Away))
    case Got(_) => None
    case Playing(_) => None
    case Crashed => None
  }

  /** What a dereference of a slot pointer sees now. */
  function SlotBytes(st: Stage, slot: nat): (c: Chunk)
  {
    if st.ring.Some? && slot < |st.ring.value.slots| then CB.Payload(st.ring.value.slots[slot]) else []
  }

  // ---- threads ----------------------------------------------------------------------

  /** The callbacks libFLAC makes, in an order of its own. */
  datatype Callback = ReadCb | WriteCb(pcm: Chunk) | MetadataCb

  datatype DecoderAt = Between | InRead | InWrite
  datatype AudioAt = LoopTop | Body | Exited

  /** `pending` are the arguments of the feed calls still to make, `calls` the callbacks still to come.
      `ringOps` and `plays` count what the thread has done. */
  datatype Thread =
    | Feeder(ph: Phase, pending: seq<Chunk>)
    | Decoder(at: DecoderAt, ph: Phase, calls: seq<Callback>, ringOps: nat)
    | Audio(where: AudioAt, ph: Phase, plays: nat)

  datatype Control = Ready | PauseWait | ResumePost | Joining

  datatype State = State(cfg: Config, flac: Stage, raw: Stage, pause: nat, playing: bool, stop: bool,
                         started: bool, control: Control, threads: seq<Thread>,
                         supplied: seq<Chunk>, delivered: seq<Chunk>, played: seq<Chunk>)

  /** playback_init: the raw ring does not exist until the stream's metadata arrives. */
  function Init(cfg: Config): (s: State)
    requires cfg.flacSlots > 0
  {
    State(cfg,
          Stage(cfg.flacTokens, 0, 1, Some(NewRing(cfg.flacSlots, cfg.flacElem)), [], [], 0),
          Stage(cfg.rawTokens, 0, 1, None, [], [], 0),
          1, false, false, false, Ready, [], [], [], [])
  }

  function NewRing(slots: nat, elem: nat): (r: Ring)
    requires slots > 0
  {
    CB.New(slots, elem, CB.BlankSlots(slots, elem))
  }

  /** playback_feed_data. */
  function FeederStep(s: State, i: nat): (r: Maybe<State>)
    requires i < |s.threads| && s.threads[i].Feeder?
  {
    var t := s.threads[i];
    if t.ph.Away? && t.pending == [] then None
    else
      var next := Advance(s.flac, t.ph, Produce(First(t.pending, []), true));
      if next.None? then None
      else
        var (flac, ph) := next.value;
        var pending := if t.ph.Writing? && ph.Wrote? then Rest(t.pending) else t.pending;
        Some(s.(flac := flac, threads := s.threads[i := Feeder(ph, pending)]))
  }

  function PcmOf(calls: seq<Callback>): (c: Chunk)
  {
    if calls != [] && calls[0].WriteCb? then calls[0].pcm else []
  }

  /** The three callbacks.  A frame is announced only after the metadata, and metadata comes once. */
  function DecoderStep(s: State, i: nat): (r: Maybe<State>)
    requires i < |s.threads| && s.threads[i].Decoder?
  {
    var t := s.threads[i];
    match t.at
    case Between =>
      if t.calls == [] then None
      else if t.calls[0].MetadataCb? then
        if s.raw.ring.Some? || s.cfg.rawSlots == 0 then None
        else Some(s.(raw := s.raw.(ring := Some(NewRing(s.cfg.rawSlots, s.cfg.rawElem))),
                     threads := s.threads[i := t.(calls := t.calls[1..])]))
      else if t.calls[0].WriteCb? && s.raw.ring.None? then None
      else if s.stop then Some(s.(threads := s.threads[i := t.(calls := t.calls[1..])]))
      else
        var at := if t.calls[0].ReadCb? then InRead else InWrite;
        Some(s.(threads := s.threads[i := Decoder(at, Away, t.calls, t.ringOps)]))
    case InRead =>
      if t.ph.Got? then
        Some(s.(delivered := s.delivered + [SlotBytes(s.flac, t.ph.slot)],
                threads := s.threads[i := Decoder(InRead, Used, t.calls, t.ringOps)]))
      else
        var next := Advance(s.flac, t.ph, Consume);
        if next.None? then None
        else
          var (flac, ph) := next.value;
          Some(s.(flac := flac, threads := s.threads[i := AfterCallback(t, ph, t.ph.Reading? && ph.Got?)]))
    case InWrite =>
      var next := Advance(s.raw, t.ph, Produce(PcmOf(t.calls), false));
      if next.None? then None
      else
        var (raw, ph) := next.value;
        Some(s.(raw := raw, threads := s.threads[i := AfterCallback(t, ph, t.ph.Writing? && ph.Wrote?)]))
  }

  /** A callback that has done its ring operation is struck off; back at Away it has returned. */
  function AfterCallback(t: Thread, ph: Phase, acted: bool): (t': Thread)
    requires t.Decoder?
  {
    Decoder(if ph.Away? then Between else t.at, ph,
            if acted then Rest(t.calls) else t.calls, if acted then t.ringOps + 1 else t.ringOps)
  }

  /** playback_audio_thread_fn. */
  function AudioStep(s: State, i: nat): (r: Maybe<State>)
    requires i < |s.threads| && s.threads[i].Audio?
  {
    var t := s.threads[i];
    match t.where
    case LoopTop => Some(s.(threads := s.threads[i := Audio(if s.stop then Exited else Body, Away, t.plays)]))
    case Exited => None
    case Body =>
      if t.ph.Got? then
        if s.pause == 0 then None
        else Some(s.(pause := s.pause - 1, played := s.played + [SlotBytes(s.raw, t.ph.slot)],
                     threads := s.threads[i := Audio(Body, Playing(t.ph.slot), t.plays + 1)]))
      else if t.ph.Playing? then
        Some(s.(pause := s.pause + 1, threads := s.threads[i := Audio(Body, Used, t.plays)]))
      else
        var next := Advance(s.raw, t.ph, Consume);
        if next.None? then None
        else
          var (raw, ph) := next.value;
          Some(s.(raw := raw, threads := s.threads[i := Audio(if ph.Away? then LoopTop else Body, ph, t.plays)]))
  }

  function ThreadStep(s: State, i: nat): (r: Maybe<State>)
    requires i < |s.threads|
  {
    match s.threads[i]
    case Feeder(_, _) => FeederStep(s, i)
    case Decoder(_, _, _, _) => DecoderStep(s, i)
    case Audio(_, _, _) => AudioStep(s, i)
  }

  // ---- the control thread -------------------------------------------------------------

  datatype Command = Play(program: seq<Callback>) | Pause | Resume | Stop

  predicate FrameOk(cfg: Config, c: Callback)
  {
    c.WriteCb? ==> 0 < |c.pcm| <= cfg.rawElem
  }

  predicate ProgramOk(cfg: Config, calls: seq<Callback>)
  {
    forall k :: 0 <= k < |calls| ==> FrameOk(cfg, calls[k])
  }

  /** Play spawns one thread of each kind whether or not earlier ones still run.
      Stop leaves the control thread in its joins. */
  function CommandStep(s: State, c: Command): (r: Maybe<State>)
  {
    if !s.control.Ready? then None
    else
      match c
      case Play(program) =>
        if !ProgramOk(s.cfg, program) then None
        else Some(s.(playing := true, stop := false, started := true,
                     threads := s.threads
                       + [Audio(LoopTop, Away, 0), Decoder(Between, Away, program, 0), Feeder(Away, [])]))
      case Pause => Some(if !s.playing then s else s.(playing := false, control := PauseWait))
      case Resume => Some(if s.playing then s else s.(playing := true, control := ResumePost))
      case Stop => Some(s.(stop := true, control := Joining))
  }

  /** The semaphore operation a pause or resume still owes. */
  function FinishStep(s: State): (r: Maybe<State>)
  {
    match s.control
    case PauseWait => if s.pause == 0 then None else Some(s.(pause := s.pause - 1, control := Ready))
    case ResumePost => Some(s.(pause := s.pause + 1, control := Ready))
    case Ready => None
    case Joining => None
  }

  /** The request loop hands its feeder another merged chunk. */
  function SupplyStep(s: State, i: nat, chunk: Chunk): (r: Maybe<State>)
  {
    if i < |s.threads| && s.threads[i].Feeder? && 0 < |chunk| <= s.cfg.flacElem then
      Some(s.(supplied := s.supplied + [chunk],
              threads := s.threads[i := s.threads[i].(pending := s.threads[i].pending + [chunk])]))
    else None
  }

  datatype Action = Run(i: nat) | Do(c: Command) | Finish | Supply(feeder: nat, chunk: Chunk)

  function Step(s: State, a: Action): (r: Maybe<State>)
  {
    match a
    case Run(i) => if i < |s.threads| then ThreadStep(s, i) else None
    case Do(c) => CommandStep(s, c)
    case Finish => FinishStep(s)
    case Supply(i, chunk) => SupplyStep(s, i, chunk)
  }

  /** A whole run: the state after the actions, None if one of them was not possible. */
  function Exec(s: State, actions: seq<Action>): (r: Maybe<State>)
    decreases |actions|
  {
    if actions == [] then Some(s)
    else
      match Step(s, actions[0])
      case None => None
      case Some(s') => Exec(s', actions[1..])
  }

  lemma {:induction false} ExecAppend(s: State, first: seq<Action>, second: seq<Action>)
    requires Exec(s, first).Some?
    ensures Exec(s, first + second) == Exec(Exec(s, first).value, second)
    decreases |first|
  {
    if first == [] {
      assert first + second == second;
    } else {
      assert (first + second)[1..] == first[1..] + second;
      ExecAppend(Step(s, first[0]).value, first[1..], second);
    }
  }

  lemma ExecSnoc(s: State, actions: seq<Action>, a: Action)
    requires Exec(s, actions).Some?
    ensures Exec(s, actions + [a]) == Step(Exec(s, actions).value, a)
  {
    ExecAppend(s, actions, [a]);
    var s' := Exec(s, actions).value;
    if Step(s', a).Some? {
      assert Exec(Step(s', a).value, [a][1..]) == Step(s', a);
    }
  }

  lemma OneMore(s: State, actions: seq<Action>, a: Action) returns (more: seq<Action>)
    requires Exec(s, actions).Some?
    ensures more == actions + [a] && Exec(s, more) == Step(Exec(s, actions).value, a)
  {
    ExecSnoc(s, actions, a);
    more := actions + [a];
  }

  // ---- counting threads ------------------------------------------------------------------

  datatype Side = Flac | Raw

  function StageOf(s: State, side: Side): Stage {
    if side.Flac? then s.flac else s.raw
  }

  /** Where a thread stands at one of the two rings. */
  function PhaseOn(t: Thread, side: Side): (ph: Phase)
  {
    match t
    case Feeder(ph, _) => if side.Flac? then ph else Away
    case Decoder(at, ph, _, _) => if (at.InRead? && side.Flac?) || (at.InWrite? && side.Raw?) then ph else Away
    case Audio(where, ph, _) => if where.Body? && side.Raw? then ph else Away
  }

  datatype Tally =
    | HoldsPush(side: Side)   // took a push token, has not written
    | Unposted(side: Side)    // has written, has not posted pull
    | HoldsPull(side: Side)   // took a pull token, has not read
    | Took(side: Side)        // has read, has not posted push
    | Locked(side: Side)      // inside the ring's mutex
    | Handing(side: Side)     // holds a slot it has not copied or played yet
    | InPlay                  // inside ao_play, holding the pause semaphore
    | ToFeed                  // chunks not yet written to the flac ring
    | ToRead                  // read callbacks not yet past their ring read
    | Metadatas               // metadata callbacks still to come
    | AudioThreads
    | Work                    // an upper bound on the steps a thread can still make by itself

  function One(b: bool): (n: nat) {
    if b then 1 else 0
  }

  function Weight(q: Tally, t: Thread): (w: int)
  {
    match q
    case HoldsPush(k) => One(PhaseOn(t, k).HasPush? || PhaseOn(t, k).Writing?)
    case Unposted(k) => One(PhaseOn(t, k).Wrote? || PhaseOn(t, k).PostPull?)
    case HoldsPull(k) => One(PhaseOn(t, k).HasPull? || PhaseOn(t, k).Reading?)
    case Took(k) => One(PhaseOn(t, k).Got? || PhaseOn(t, k).Playing? || PhaseOn(t, k).Used? || PhaseOn(t, k).PostPush?)
    case Locked(k) => One(InMutex(PhaseOn(t, k)))
    case Handing(k) => One(PhaseOn(t, k).Got?)
    case InPlay => One(PhaseOn(t, Raw).Playing?)
    case ToFeed => if t.Feeder? then |t.pending| else 0
    case ToRead => if t.Decoder? then ReadsIn(t.calls) else 0
    case Metadatas => if t.Decoder? then MetadatasIn(t.calls) else 0
    case AudioThreads => One(t.Audio? && !t.where.Exited?)
    case Work => WorkLeft(t)
  }

  predicate InMutex(ph: Phase) {
    ph.Writing? || ph.Wrote? || ph.Reading? || ph.Got? || ph.Playing? || ph.Used?
  }

  function ReadsIn(calls: seq<Callback>): (n: nat)
  {
    if calls == [] then 0 else One(calls[0].ReadCb?) + ReadsIn(calls[1..])
  }

  function MetadatasIn(calls: seq<Callback>): (n: nat)
  {
    if calls == [] then 0 else One(calls[0].MetadataCb?) + MetadatasIn(calls[1..])
  }

  function CallWork(c: Callback): (n: nat)
  {
    match c case ReadCb => 8 case WriteCb(_) => 20 case MetadataCb => 1
  }

  function CallsWork(calls: seq<Callback>): (n: nat)
  {
    if calls == [] then 0 else CallWork(calls[0]) + CallsWork(calls[1..])
  }

  /** The weight a pull token of the raw ring carries: one round of the audio loop. */
  const ROUND := 10

  function WorkLeft(t: Thread): (w: int)
  {
    match t
    case Feeder(ph, pending) => 5 * |pending| + (match ph
      case HasPush => -1 case Writing => -2 case Wrote => 2 case PostPull => 1 case _ => 0)
    case Decoder(Between, _, calls, _) => CallsWork(calls)
    case Decoder(InRead, ph, calls, _) => CallsWork(calls) + (match ph
      case Away => -1 case HasPull => -2 case Reading => -3
      case Got(_) => 4 case Used => 3 case PostPush => 2 case _ => 0)
    case Decoder(InWrite, ph, calls, _) => CallsWork(calls) + (match ph
      case Away => -1 case HasPush => -2 case Writing => -3 case Wrote => 12 case PostPull => 11 case _ => 0)
    case Audio(LoopTop, _, _) => 1
    case Audio(Exited, _, _) => 0
    case Audio(Body, ph, _) => (match ph
      case Away => 0 case HasPull => 9 case Reading => 8 case Got(_) => 7 case Playing(_) => 6 case Used => 5
      case PostPush => 4 case _ => 0)
  }

  function Sum(q: Tally, ts: seq<Thread>): (n: int)
  {
    if ts == [] then 0 else Weight(q, ts[0]) + Sum(q, ts[1..])
  }

  lemma {:induction false} SumAppend(q: Tally, first: seq<Thread>, second: seq<Thread>)
    ensures Sum(q, first + second) == Sum(q, first) + Sum(q, second)
    decreases |first|
  {
    if first == [] {
      assert first + second == second;
    } else {
      assert (first + second)[1..] == first[1..] + second;
      SumAppend(q, first[1..], second);
    }
  }

  lemma {:induction false} SumUpdate(q: Tally, ts: seq<Thread>, i: nat, t: Thread)
    requires i < |ts|
    ensures Sum(q, ts[i := t]) == Sum(q, ts) - Weight(q, ts[i]) + Weight(q, t)
    decreases |ts|
  {
    if i > 0 {
      assert ts[i := t][1..] == ts[1..][i - 1 := t];
      SumUpdate(q, ts[1..], i - 1, t);
    } else {
      assert ts[i := t][1..] == ts[1..];
    }
  }

  predicate Counts(q: Tally) {
    !q.Work?
  }

  lemma {:induction false} SumCovers(q: Tally, ts: seq<Thread>, i: nat)
    requires Counts(q) && i < |ts|
    ensures 0 <= Weight(q, ts[i]) <= Sum(q, ts)
    decreases |ts|
  {
    SumNatural(q, ts[1..]);
    if i > 0 {
      SumCovers(q, ts[1..], i - 1);
    }
  }

  lemma {:induction false} SumNatural(q: Tally, ts: seq<Thread>)
    requires Counts(q)
    ensures Sum(q, ts) >= 0
    decreases |ts|
  {
    if ts != [] {
      SumNatural(q, ts[1..]);
    }
  }

  lemma {:induction false} SumCoversPair(q: Tally, ts: seq<Thread>, i: nat, j: nat)
    requires Counts(q) && i < |ts| && j < |ts| && i != j
    ensures Weight(q, ts[i]) + Weight(q, ts[j]) <= Sum(q, ts)
    decreases |ts|
  {
    if i == 0 {
      SumCovers(q, ts[1..], j - 1);
    } else if j == 0 {
      SumCovers(q, ts[1..], i - 1);
    } else {
      SumCoversPair(q, ts[1..], i - 1, j - 1);
    }
  }

  /** A positive tally has a thread behind it. */
  lemma {:induction false} SumWitness(q: Tally, ts: seq<Thread>) returns (i: nat)
    requires Counts(q) && Sum(q, ts) > 0
    ensures i < |ts| && Weight(q, ts[i]) > 0
    decreases |ts|
  {
    if Weight(q, ts[0]) > 0 {
      i := 0;
    } else {
      var j := SumWitness(q, ts[1..]);
      i := j + 1;
    }
  }
}
