/** The token invariant: for any capacities, any number of threads and any interleaving, push and pull
    tokens account for every slot of both rings, so no ring operation ever fails. */
module Tokens {
  import CB = CircleBuffers
  import opened Playback

  /** Enough slots for the tokens: the one-slot gap costs one. */
  predicate Fits(cfg: Config)
  {
    && cfg.flacTokens < cfg.flacSlots
    && cfg.rawTokens < cfg.rawSlots
  }

  datatype Dims = Dims(tokens: nat, slots: nat, elem: nat)

  function DimsOf(cfg: Config, k: Side): Dims {
    if k.Flac? then Dims(cfg.flacTokens, cfg.flacSlots, cfg.flacElem)
    else Dims(cfg.rawTokens, cfg.rawSlots, cfg.rawElem)
  }

  function Other(k: Side): Side {
    if k.Flac? then Raw else Flac
  }

  /** How many threads stand in each part of the pattern at one ring. */
  datatype Census = Census(holdsPush: int, unposted: int, holdsPull: int, took: int, locked: int, handing: int)

  function CensusOf(ts: seq<Thread>, k: Side): Census {
    Census(Sum(HoldsPush(k), ts), Sum(Unposted(k), ts), Sum(HoldsPull(k), ts), Sum(Took(k), ts),
           Sum(Locked(k), ts), Sum(Handing(k), ts))
  }

  function Share(ph: Phase): Census {
    Census(One(ph.HasPush? || ph.Writing?), One(ph.Wrote? || ph.PostPull?), One(ph.HasPull? || ph.Reading?),
           One(ph.Got? || ph.Playing? || ph.Used? || ph.PostPush?), One(InMutex(ph)), One(ph.Got?))
  }

  function Moved(c: Census, from: Phase, to: Phase): Census {
    var a, b := Share(from), Share(to);
    Census(c.holdsPush - a.holdsPush + b.holdsPush, c.unposted - a.unposted + b.unposted,
           c.holdsPull - a.holdsPull + b.holdsPull, c.took - a.took + b.took, c.locked - a.locked + b.locked,
           c.handing - a.handing + b.handing)
  }

  predicate Includes(c: Census, ph: Phase)
  {
    var a := Share(ph);
    && a.holdsPush <= c.holdsPush && a.unposted <= c.unposted && a.holdsPull <= c.holdsPull
    && a.took <= c.took && a.locked <= c.locked && a.handing <= c.handing
  }

  lemma CensusUpdate(ts: seq<Thread>, k: Side, i: nat, t: Thread)
    requires i < |ts|
    ensures CensusOf(ts[i := t], k) == Moved(CensusOf(ts, k), PhaseOn(ts[i], k), PhaseOn(t, k))
    ensures Includes(CensusOf(ts, k), PhaseOn(ts[i], k))
  {
    CensusMoves(ts, k, i, t);
    CensusCovers(ts, k, i);
  }

  lemma CensusMoves(ts: seq<Thread>, k: Side, i: nat, t: Thread)
    requires i < |ts|
    ensures CensusOf(ts[i := t], k) == Moved(CensusOf(ts, k), PhaseOn(ts[i], k), PhaseOn(t, k))
  {
    SumUpdate(HoldsPush(k), ts, i, t);
    SumUpdate(Unposted(k), ts, i, t);
    SumUpdate(HoldsPull(k), ts, i, t);
    SumUpdate(Took(k), ts, i, t);
    SumUpdate(Locked(k), ts, i, t);
    SumUpdate(Handing(k), ts, i, t);
  }

  lemma CensusCovers(ts: seq<Thread>, k: Side, i: nat)
    requires i < |ts|
    ensures Includes(CensusOf(ts, k), PhaseOn(ts[i], k))
  {
    SumCovers(HoldsPush(k), ts, i);
    SumCovers(Unposted(k), ts, i);
    SumCovers(HoldsPull(k), ts, i);
    SumCovers(Took(k), ts, i);
    SumCovers(Locked(k), ts, i);
    SumCovers(Handing(k), ts, i);
  }

  lemma CensusNatural(ts: seq<Thread>, k: Side)
    ensures Includes(CensusOf(ts, k), Away)
    ensures Sum(Handing(k), ts) <= Sum(Locked(k), ts)
  {
    SumNatural(HoldsPush(k), ts);
    SumNatural(Unposted(k), ts);
    SumNatural(HoldsPull(k), ts);
    SumNatural(Took(k), ts);
    SumNatural(Locked(k), ts);
    SumNatural(Handing(k), ts);
    HandingIsLocked(k, ts);
  }

  lemma {:induction false} HandingIsLocked(k: Side, ts: seq<Thread>)
    ensures Sum(Handing(k), ts) <= Sum(Locked(k), ts)
    decreases |ts|
  {
    if ts != [] {
      HandingIsLocked(k, ts[1..]);
    }
  }

  // ---- the invariant ---------------------------------------------------------------------

  /** The ring holds `n` chunks, and what was written is what was taken followed by them. */
  predicate RingInv(ring: Maybe<Ring>, written: seq<Chunk>, taken: seq<Chunk>, d: Dims, n: int)
  {
    match ring
    case None => n == 0 && written == taken == []
    case Some(r) =>
      && CB.Valid(r)
      && |r.slots| == d.slots
      && r.elemSize == d.elem
      && |CB.Contents(r)| == n
      && written == taken + CB.Contents(r)
  }

  predicate StageInv(st: Stage, d: Dims, c: Census)
  {
    && st.faults == 0
    && st.push + st.pull + c.holdsPush + c.unposted + c.holdsPull + c.took == d.tokens
    && st.mutex + c.locked == 1
    && (st.ring.None? ==> st.push == d.tokens)
    && RingInv(st.ring, st.written, st.taken, d, st.pull + c.unposted + c.holdsPull)
  }

  predicate ChunkOk(cfg: Config, c: Chunk) {
    0 < |c| <= cfg.flacElem
  }

  predicate ProducerPhase(ph: Phase) {
    ph.Away? || ph.HasPush? || ph.Writing? || ph.Wrote? || ph.PostPull?
  }

  predicate ConsumerPhase(ph: Phase) {
    ph.Away? || ph.HasPull? || ph.Reading? || ph.Got? || ph.Used? || ph.PostPush?
  }

  predicate BeforeRingOp(ph: Phase) {
    ph.Away? || ph.HasPush? || ph.Writing? || ph.HasPull? || ph.Reading?
  }

  predicate ThreadOk(cfg: Config, rawExists: bool, t: Thread)
  {
    match t
    case Feeder(ph, pending) =>
      && ProducerPhase(ph)
      && (ph.HasPush? || ph.Writing? ==> pending != [])
      && (forall i :: 0 <= i < |pending| ==> ChunkOk(cfg, pending[i]))
    case Decoder(at, ph, calls, _) =>
      && ProgramOk(cfg, calls)
      && (at.Between? ==> ph.Away?)
      && (at.InRead? ==> ConsumerPhase(ph) && (BeforeRingOp(ph) ==> calls != [] && calls[0].ReadCb?))
      && (at.InWrite? ==> rawExists && ProducerPhase(ph) && (BeforeRingOp(ph) ==> calls != [] && calls[0].WriteCb?))
    case Audio(where, ph, _) =>
      && (!where.Body? ==> ph.Away?)
      && (ConsumerPhase(ph) || ph.Playing?)
  }

  predicate ThreadsOk(cfg: Config, rawExists: bool, ts: seq<Thread>)
  {
    forall i :: 0 <= i < |ts| ==> ThreadOk(cfg, rawExists, ts[i])
  }

  /** A thread holding a slot pointer sees the chunk that was dequeued last. */
  predicate HandoutOk(st: Stage, ph: Phase)
  {
    ph.Got? || ph.Playing? ==> st.taken != [] && SlotBytes(st, ph.slot) == st.taken[|st.taken| - 1]
  }

  predicate HandoutsOk(st: Stage, k: Side, ts: seq<Thread>)
  {
    forall i :: 0 <= i < |ts| ==> HandoutOk(st, PhaseOn(ts[i], k))
  }

  function RelayedBy(s: State, k: Side): seq<Chunk> {
    if k.Flac? then s.delivered else s.played
  }

  /** What was handed on is what was dequeued, except for the one slot being handed on now. */
  predicate Relay(relayed: seq<Chunk>, taken: seq<Chunk>, handing: int)
  {
    relayed <= taken && |relayed| + handing == |taken|
  }

  predicate Inv(s: State)
  {
    && Fits(s.cfg)
    && s.flac.ring.Some?
    && ThreadsOk(s.cfg, s.raw.ring.Some?, s.threads)
    && SideInv(s.flac, s.delivered, DimsOf(s.cfg, Flac), s.threads, Flac)
    && SideInv(s.raw, s.played, DimsOf(s.cfg, Raw), s.threads, Raw)
  }

  predicate SideInv(st: Stage, relayed: seq<Chunk>, d: Dims, ts: seq<Thread>, k: Side)
  {
    && StageInv(st, d, CensusOf(ts, k))
    && HandoutsOk(st, k, ts)
    && Relay(relayed, st.taken, Sum(Handing(k), ts))
  }

  // ---- one ring operation ------------------------------------------------------------------

  predicate JobFits(st: Stage, elem: nat, ph: Phase, job: Job)
  {
    && (job.Produce? ==> ProducerPhase(ph) && st.ring.Some?)
    && (job.Consume? ==> ConsumerPhase(ph))
    && (ph.Writing? ==> job.Produce? && 0 < |job.chunk| <= elem)
  }

  lemma WriteKeepsStage(st: Stage, d: Dims, c: Census, job: Job)
    requires StageInv(st, d, c) && d.tokens < d.slots
    requires Includes(c, Writing) && Includes(c, Away) && JobFits(st, d.elem, Writing, job)
    requires job.Produce?
    ensures Advance(st, Writing, job).Some?
    ensures var (st', ph') := Advance(st, Writing, job).value;
      ph'.Wrote? && st'.written == st.written + [job.chunk] && StageInv(st', d, Moved(c, Writing, Wrote))
  {
    CB.WriteRefines(st.ring.value, job.chunk);
    assert st.pull + c.unposted + c.holdsPull < d.slots - 1;
  }

  lemma ReadKeepsStage(st: Stage, d: Dims, c: Census)
    requires StageInv(st, d, c) && Includes(c, Reading) && Includes(c, Away)
    ensures Advance(st, Reading, Consume).Some?
    ensures var (st', ph') := Advance(st, Reading, Consume).value;
      && ph'.Got? && StageInv(st', d, Moved(c, Reading, ph'))
      && HandoutOk(st', ph')
      && st.taken < st'.taken && |st'.taken| == |st.taken| + 1 && st'.written == st.written
  {
    assert st.ring.Some?;
    CB.ReadRefines(st.ring.value);
  }

  lemma TokenStepKeepsStage(st: Stage, d: Dims, c: Census, ph: Phase, job: Job)
    requires StageInv(st, d, c) && JobFits(st, d.elem, ph, job) && Advance(st, ph, job).Some?
    requires Includes(c, ph) && Includes(c, Away) && !ph.Writing? && !ph.Reading?
    ensures var (st', ph') := Advance(st, ph, job).value;
      StageInv(st', d, Moved(c, ph, ph')) && !ph'.Crashed?
  {
    assert Advance(st, ph, job).value.0.ring == st.ring;
  }

  /** One step at a ring keeps its invariant and never faults, whoever takes it. */
  lemma AdvanceKeepsStage(st: Stage, d: Dims, c: Census, ph: Phase, job: Job)
    requires StageInv(st, d, c) && d.tokens < d.slots
    requires Includes(c, ph) && Includes(c, Away) && JobFits(st, d.elem, ph, job)
    requires Advance(st, ph, job).Some?
    ensures var (st', ph') := Advance(st, ph, job).value;
      && StageInv(st', d, Moved(c, ph, ph')) && !ph'.Crashed?
      && (ph.Writing? ==> ph'.Wrote?) && (ph.Reading? ==> ph'.Got?)
  {
    if ph.Writing? {
      WriteKeepsStage(st, d, c, job);
    } else if ph.Reading? {
      ReadKeepsStage(st, d, c);
    } else {
      TokenStepKeepsStage(st, d, c, ph, job);
    }
  }

  /** While one thread works on the ring nobody else holds a slot of it. */
  lemma MutexExcludes(st: Stage, d: Dims, ts: seq<Thread>, k: Side, i: nat, j: nat)
    requires StageInv(st, d, CensusOf(ts, k))
    requires i < |ts| && j < |ts| && i != j && InMutex(PhaseOn(ts[i], k))
    ensures !InMutex(PhaseOn(ts[j], k))
  {
    SumCoversPair(Locked(k), ts, i, j);
  }

  lemma AdvanceAffectsHandouts(st: Stage, ph: Phase, job: Job, other: Phase)
    requires Advance(st, ph, job).Some? && HandoutOk(st, other)
    requires ph.Writing? || ph.Reading? ==> !InMutex(other)
    ensures HandoutOk(Advance(st, ph, job).value.0, other)
  {
  }

  /** Slot pointers stay good: the ring only changes under the mutex. */
  lemma AdvanceKeepsHandouts(st: Stage, d: Dims, ts: seq<Thread>, k: Side, i: nat, t: Thread, job: Job)
    requires StageInv(st, d, CensusOf(ts, k)) && d.tokens < d.slots
    requires i < |ts| && JobFits(st, d.elem, PhaseOn(ts[i], k), job)
    requires Advance(st, PhaseOn(ts[i], k), job).Some?
    requires Advance(st, PhaseOn(ts[i], k), job).value.1 == PhaseOn(t, k)
    requires HandoutsOk(st, k, ts)
    ensures HandoutsOk(Advance(st, PhaseOn(ts[i], k), job).value.0, k, ts[i := t])
  {
    var ph := PhaseOn(ts[i], k);
    var st' := Advance(st, ph, job).value.0;
    var ts' := ts[i := t];
    forall j | 0 <= j < |ts'|
      ensures HandoutOk(st', PhaseOn(ts'[j], k))
    {
      assert HandoutOk(st, PhaseOn(ts[j], k));
      if j == i {
        CensusUpdate(ts, k, i, t);
        CensusNatural(ts, k);
        MoverKeepsHandout(st, d, CensusOf(ts, k), ph, job);
      } else {
        if InMutex(ph) {
          MutexExcludes(st, d, ts, k, i, j);
        }
        AdvanceAffectsHandouts(st, ph, job, PhaseOn(ts[j], k));
      }
    }
  }

  lemma MoverKeepsHandout(st: Stage, d: Dims, c: Census, ph: Phase, job: Job)
    requires StageInv(st, d, c) && Includes(c, ph) && Includes(c, Away) && JobFits(st, d.elem, ph, job)
    requires Advance(st, ph, job).Some?
    ensures HandoutOk(Advance(st, ph, job).value.0, Advance(st, ph, job).value.1)
  {
    if ph.Reading? {
      ReadKeepsStage(st, d, c);
    }
  }

  // ---- the whole state ---------------------------------------------------------------------

  /** `s'` is `s` after thread `i` became `t` and only the ring on side `k` was worked on. */
  predicate OneThread(s: State, s': State, i: nat, t: Thread, k: Side)
  {
    && i < |s.threads|
    && s'.threads == s.threads[i := t]
    && s'.cfg == s.cfg
    && StageOf(s', Other(k)) == StageOf(s, Other(k))
    && RelayedBy(s', Other(k)) == RelayedBy(s, Other(k))
    && PhaseOn(t, Other(k)) == PhaseOn(s.threads[i], Other(k))
    && ThreadOk(s.cfg, s.raw.ring.Some?, t)
  }

  lemma OtherSideKept(st: Stage, relayed: seq<Chunk>, d: Dims, ts: seq<Thread>, k: Side, i: nat, t: Thread)
    requires SideInv(st, relayed, d, ts, k) && i < |ts| && PhaseOn(t, k) == PhaseOn(ts[i], k)
    ensures SideInv(st, relayed, d, ts[i := t], k)
  {
    CensusUpdate(ts, k, i, t);
    assert Moved(CensusOf(ts, k), PhaseOn(t, k), PhaseOn(t, k)) == CensusOf(ts, k);
    assert forall j :: 0 <= j < |ts| && j != i ==> ts[i := t][j] == ts[j];
  }

  lemma AdvanceKeepsRing(st: Stage, ph: Phase, job: Job)
    requires Advance(st, ph, job).Some?
    ensures Advance(st, ph, job).value.0.ring.Some? == st.ring.Some?
  {
  }

  lemma OnlyReadsHand(st: Stage, ph: Phase, job: Job)
    requires Advance(st, ph, job).Some? && !ph.Reading?
    ensures Advance(st, ph, job).value.0.taken == st.taken
    ensures !ph.Got? && !Advance(st, ph, job).value.1.Got?
  {
  }

  lemma AdvanceKeepsRelay(st: Stage, relayed: seq<Chunk>, d: Dims, ts: seq<Thread>, k: Side, i: nat, t: Thread,
                          job: Job)
    requires SideInv(st, relayed, d, ts, k) && d.tokens < d.slots && i < |ts|
    requires JobFits(st, d.elem, PhaseOn(ts[i], k), job)
    requires Advance(st, PhaseOn(ts[i], k), job).Some?
    requires Advance(st, PhaseOn(ts[i], k), job).value.1 == PhaseOn(t, k)
    ensures Relay(relayed, Advance(st, PhaseOn(ts[i], k), job).value.0.taken, Sum(Handing(k), ts[i := t]))
  {
    CensusUpdate(ts, k, i, t);
    CensusNatural(ts, k);
    if PhaseOn(ts[i], k).Reading? {
      ReadKeepsStage(st, d, CensusOf(ts, k));
    } else {
      OnlyReadsHand(st, PhaseOn(ts[i], k), job);
    }
  }

  /** A ring step of one thread, seen from its ring. */
  lemma AdvanceKeepsSide(st: Stage, relayed: seq<Chunk>, d: Dims, ts: seq<Thread>, k: Side, i: nat, t: Thread, job: Job)
    requires SideInv(st, relayed, d, ts, k) && d.tokens < d.slots && i < |ts|
    requires JobFits(st, d.elem, PhaseOn(ts[i], k), job)
    requires Advance(st, PhaseOn(ts[i], k), job).Some?
    requires Advance(st, PhaseOn(ts[i], k), job).value.1 == PhaseOn(t, k)
    ensures SideInv(Advance(st, PhaseOn(ts[i], k), job).value.0, relayed, d, ts[i := t], k)
  {
    CensusUpdate(ts, k, i, t);
    CensusNatural(ts, k);
    AdvanceKeepsStage(st, d, CensusOf(ts, k), PhaseOn(ts[i], k), job);
    AdvanceKeepsHandouts(st, d, ts, k, i, t, job);
    AdvanceKeepsRelay(st, relayed, d, ts, k, i, t, job);
  }

  /** The phase changes that no ring operation causes: handing a chunk on, and the end of a play. */
  predicate OffRing(st: Stage, from: Phase, to: Phase, relayed: seq<Chunk>, relayed': seq<Chunk>)
  {
    || (from == to && relayed' == relayed)
    || (from.Playing? && to.Used? && relayed' == relayed)
    || (from.Got? && (to.Used? || to == Playing(from.slot)) && relayed' == relayed + [SlotBytes(st, from.slot)])
  }

  lemma OffRingKeepsSide(st: Stage, relayed: seq<Chunk>, relayed': seq<Chunk>, d: Dims, ts: seq<Thread>, k: Side,
                         i: nat, t: Thread)
    requires SideInv(st, relayed, d, ts, k) && i < |ts|
    requires OffRing(st, PhaseOn(ts[i], k), PhaseOn(t, k), relayed, relayed')
    ensures SideInv(st, relayed', d, ts[i := t], k)
  {
    CensusUpdate(ts, k, i, t);
    CensusNatural(ts, k);
    assert HandoutOk(st, PhaseOn(ts[i], k));
    if relayed' != relayed {
      assert |st.taken| == |relayed| + 1;
      assert st.taken == relayed + [st.taken[|st.taken| - 1]];
    }
    assert forall j :: 0 <= j < |ts| && j != i ==> ts[i := t][j] == ts[j];
  }

  lemma InvBySides(s: State, k: Side)
    ensures Inv(s) <==>
      && Fits(s.cfg) && s.flac.ring.Some? && ThreadsOk(s.cfg, s.raw.ring.Some?, s.threads)
      && SideInv(StageOf(s, k), RelayedBy(s, k), DimsOf(s.cfg, k), s.threads, k)
      && SideInv(StageOf(s, Other(k)), RelayedBy(s, Other(k)), DimsOf(s.cfg, Other(k)), s.threads, Other(k))
  {
  }

  lemma MoveKeepsInv(s: State, s': State, i: nat, t: Thread, k: Side, job: Job)
    requires Inv(s) && OneThread(s, s', i, t, k)
    requires RelayedBy(s', k) == RelayedBy(s, k)
    requires JobFits(StageOf(s, k), DimsOf(s.cfg, k).elem, PhaseOn(s.threads[i], k), job)
    requires Advance(StageOf(s, k), PhaseOn(s.threads[i], k), job) == Some((StageOf(s', k), PhaseOn(t, k)))
    ensures Inv(s')
  {
    InvBySides(s, k);
    AdvanceKeepsSide(StageOf(s, k), RelayedBy(s, k), DimsOf(s.cfg, k), s.threads, k, i, t, job);
    OtherSideKept(StageOf(s, Other(k)), RelayedBy(s, Other(k)), DimsOf(s.cfg, Other(k)), s.threads, Other(k), i, t);
    AdvanceKeepsRing(StageOf(s, k), PhaseOn(s.threads[i], k), job);
    InvBySides(s', k);
  }

  lemma RelayKeepsInv(s: State, s': State, i: nat, t: Thread, k: Side)
    requires Inv(s) && OneThread(s, s', i, t, k)
    requires StageOf(s', k) == StageOf(s, k)
    requires OffRing(StageOf(s, k), PhaseOn(s.threads[i], k), PhaseOn(t, k), RelayedBy(s, k), RelayedBy(s', k))
    ensures Inv(s')
  {
    InvBySides(s, k);
    OffRingKeepsSide(StageOf(s, k), RelayedBy(s, k), RelayedBy(s', k), DimsOf(s.cfg, k), s.threads, k, i, t);
    OtherSideKept(StageOf(s, Other(k)), RelayedBy(s, Other(k)), DimsOf(s.cfg, Other(k)), s.threads, Other(k), i, t);
    InvBySides(s', k);
  }

  lemma NoCrash(s: State, i: nat, k: Side, job: Job)
    requires Inv(s) && i < |s.threads|
    requires JobFits(StageOf(s, k), DimsOf(s.cfg, k).elem, PhaseOn(s.threads[i], k), job)
    requires Advance(StageOf(s, k), PhaseOn(s.threads[i], k), job).Some?
    ensures var ph, ph' := PhaseOn(s.threads[i], k), Advance(StageOf(s, k), PhaseOn(s.threads[i], k), job).value.1;
      !ph'.Crashed? && (ph.Writing? ==> ph'.Wrote?) && (ph.Reading? ==> ph'.Got?)
  {
    CensusUpdate(s.threads, k, i, s.threads[i]);
    CensusNatural(s.threads, k);
    AdvanceKeepsStage(StageOf(s, k), DimsOf(s.cfg, k), CensusOf(s.threads, k), PhaseOn(s.threads[i], k), job);
  }

  lemma FeederKeepsInv(s: State, i: nat)
    requires Inv(s) && i < |s.threads| && s.threads[i].Feeder? && FeederStep(s, i).Some?
    ensures Inv(FeederStep(s, i).value)
  {
    var t := s.threads[i];
    var s' := FeederStep(s, i).value;
    assert ThreadOk(s.cfg, s.raw.ring.Some?, t);
    NoCrash(s, i, Flac, Produce(First(t.pending, []), true));
    MoveKeepsInv(s, s', i, s'.threads[i], Flac, Produce(First(t.pending, []), true));
  }

  lemma AudioKeepsInv(s: State, i: nat)
    requires Inv(s) && i < |s.threads| && s.threads[i].Audio? && AudioStep(s, i).Some?
    ensures Inv(AudioStep(s, i).value)
  {
    var t := s.threads[i];
    var s' := AudioStep(s, i).value;
    assert ThreadOk(s.cfg, s.raw.ring.Some?, t);
    if t.where.Body? && !t.ph.Got? && !t.ph.Playing? {
      NoCrash(s, i, Raw, Consume);
      MoveKeepsInv(s, s', i, s'.threads[i], Raw, Consume);
    } else {
      RelayKeepsInv(s, s', i, s'.threads[i], Raw);
    }
  }

  lemma CallbackTypeOkBy(s: State, i: nat)
    requires i < |s.threads| && s.threads[i].Decoder? && DecoderStep(s, i).Some?
    requires ThreadOk(s.cfg, s.raw.ring.Some?, s.threads[i])
    requires var t := s.threads[i];
      && (t.at.InRead? && !t.ph.Got? ==> NoFailure(t.ph, Advance(s.flac, t.ph, Consume)))
      && (t.at.InWrite? ==> NoFailure(t.ph, Advance(s.raw, t.ph, Produce(PcmOf(t.calls), false))))
    ensures ThreadOk(s.cfg, s.raw.ring.Some?, DecoderStep(s, i).value.threads[i])
  {
  }

  predicate NoFailure(ph: Phase, next: Maybe<(Stage, Phase)>)
  {
    next.Some? && !next.value.1.Crashed? && (ph.Writing? ==> next.value.1.Wrote?) && (ph.Reading? ==> next.value.1.Got?)
  }

  lemma CallbackTypeOk(s: State, i: nat)
    requires Inv(s) && i < |s.threads| && s.threads[i].Decoder? && DecoderStep(s, i).Some?
    ensures ThreadOk(s.cfg, s.raw.ring.Some?, DecoderStep(s, i).value.threads[i])
  {
    var t := s.threads[i];
    assert ThreadOk(s.cfg, s.raw.ring.Some?, t);
    if t.at.InWrite? {
      assert FrameOk(s.cfg, First(t.calls, ReadCb));
      NoCrash(s, i, Raw, Produce(PcmOf(t.calls), false));
    } else if t.at.InRead? && !t.ph.Got? {
      NoCrash(s, i, Flac, Consume);
    }
    CallbackTypeOkBy(s, i);
  }

  /** Building the raw ring: nobody has touched it, and it starts out empty. */
  lemma NewRingKeepsSide(st: Stage, relayed: seq<Chunk>, d: Dims, ts: seq<Thread>)
    requires SideInv(st, relayed, d, ts, Raw) && st.ring.None? && d.slots > 0
    ensures SideInv(st.(ring := Some(NewRing(d.slots, d.elem))), relayed, d, ts, Raw)
  {
    var st' := st.(ring := Some(NewRing(d.slots, d.elem)));
    CensusNatural(ts, Raw);
    assert CB.Contents(st'.ring.value) == [];
    forall j | 0 <= j < |ts|
      ensures HandoutOk(st', PhaseOn(ts[j], Raw))
    {
      assert HandoutOk(st, PhaseOn(ts[j], Raw));
    }
  }

  lemma MetadataKeepsInv(s: State, i: nat)
    requires Inv(s) && i < |s.threads| && s.threads[i].Decoder? && DecoderStep(s, i).Some?
    requires s.threads[i].at.Between? && s.threads[i].calls[0].MetadataCb?
    ensures Inv(DecoderStep(s, i).value)
  {
    var s' := DecoderStep(s, i).value;
    var t' := s'.threads[i];
    OtherSideKept(s.flac, s.delivered, DimsOf(s.cfg, Flac), s.threads, Flac, i, t');
    OtherSideKept(s.raw, s.played, DimsOf(s.cfg, Raw), s.threads, Raw, i, t');
    NewRingKeepsSide(s.raw, s.played, DimsOf(s.cfg, Raw), s'.threads);
    MetadataTypes(s, i);
  }

  lemma MetadataTypes(s: State, i: nat)
    requires ThreadsOk(s.cfg, false, s.threads) && i < |s.threads|
    requires s.threads[i].Decoder? && s.threads[i].at.Between? && s.threads[i].calls != []
    ensures ThreadsOk(s.cfg, true, s.threads[i := s.threads[i].(calls := s.threads[i].calls[1..])])
  {
    var ts' := s.threads[i := s.threads[i].(calls := s.threads[i].calls[1..])];
    forall j | 0 <= j < |ts'|
      ensures ThreadOk(s.cfg, true, ts'[j])
    {
      assert ThreadOk(s.cfg, false, s.threads[j]);
    }
  }

  lemma ReadCbKeepsInv(s: State, i: nat)
    requires Inv(s) && i < |s.threads| && s.threads[i].Decoder? && DecoderStep(s, i).Some?
    requires s.threads[i].at.InRead?
    ensures Inv(DecoderStep(s, i).value)
  {
    var s' := DecoderStep(s, i).value;
    CallbackTypeOk(s, i);
    if s.threads[i].ph.Got? {
      RelayKeepsInv(s, s', i, s'.threads[i], Flac);
    } else {
      assert ThreadOk(s.cfg, s.raw.ring.Some?, s.threads[i]);
      MoveKeepsInv(s, s', i, s'.threads[i], Flac, Consume);
    }
  }

  lemma WriteCbKeepsInv(s: State, i: nat)
    requires Inv(s) && i < |s.threads| && s.threads[i].Decoder? && DecoderStep(s, i).Some?
    requires s.threads[i].at.InWrite?
    ensures Inv(DecoderStep(s, i).value)
  {
    var t := s.threads[i];
    var s' := DecoderStep(s, i).value;
    var job := Produce(PcmOf(t.calls), false);
    CallbackTypeOk(s, i);
    assert ThreadOk(s.cfg, s.raw.ring.Some?, t);
    assert FrameOk(s.cfg, First(t.calls, ReadCb));
    AdvanceKeepsRing(s.raw, t.ph, job);
    MoveKeepsInv(s, s', i, s'.threads[i], Raw, job);
  }

  lemma DecoderKeepsInv(s: State, i: nat)
    requires Inv(s) && i < |s.threads| && s.threads[i].Decoder? && DecoderStep(s, i).Some?
    ensures Inv(DecoderStep(s, i).value)
  {
    match s.threads[i].at
    case InRead => ReadCbKeepsInv(s, i);
    case InWrite => WriteCbKeepsInv(s, i);
    case Between =>
      if s.threads[i].calls[0].MetadataCb? {
        MetadataKeepsInv(s, i);
      } else {
        var s' := DecoderStep(s, i).value;
        CallbackTypeOk(s, i);
        RelayKeepsInv(s, s', i, s'.threads[i], Flac);
      }
  }

  // ---- control, and whole runs --------------------------------------------------------------

  lemma SpawnKeepsCensus(ts: seq<Thread>, more: seq<Thread>, k: Side)
    requires forall i :: 0 <= i < |more| ==> PhaseOn(more[i], k).Away?
    ensures CensusOf(ts + more, k) == CensusOf(ts, k)
  {
    AwayCountsNothing(HoldsPush(k), more, k);
    AwayCountsNothing(Unposted(k), more, k);
    AwayCountsNothing(HoldsPull(k), more, k);
    AwayCountsNothing(Took(k), more, k);
    AwayCountsNothing(Locked(k), more, k);
    AwayCountsNothing(Handing(k), more, k);
    SumAppend(HoldsPush(k), ts, more);
    SumAppend(Unposted(k), ts, more);
    SumAppend(HoldsPull(k), ts, more);
    SumAppend(Took(k), ts, more);
    SumAppend(Locked(k), ts, more);
    SumAppend(Handing(k), ts, more);
  }

  lemma {:induction false} AwayCountsNothing(q: Tally, ts: seq<Thread>, k: Side)
    requires q in {HoldsPush(k), Unposted(k), HoldsPull(k), Took(k), Locked(k), Handing(k)}
    requires forall i :: 0 <= i < |ts| ==> PhaseOn(ts[i], k).Away?
    ensures Sum(q, ts) == 0
    decreases |ts|
  {
    if ts != [] {
      AwayCountsNothing(q, ts[1..], k);
    }
  }

  lemma CommandKeepsInv(s: State, c: Command)
    requires Inv(s) && CommandStep(s, c).Some?
    ensures Inv(CommandStep(s, c).value)
  {
    if c.Play? {
      var more := [Audio(LoopTop, Away, 0), Decoder(Between, Away, c.program, 0), Feeder(Away, [])];
      SpawnKeepsCensus(s.threads, more, Flac);
      SpawnKeepsCensus(s.threads, more, Raw);
      var s' := CommandStep(s, c).value;
      assert s'.threads == s.threads + more;
      forall i | 0 <= i < |s'.threads|
        ensures ThreadOk(s.cfg, s.raw.ring.Some?, s'.threads[i])
        ensures HandoutOk(s.flac, PhaseOn(s'.threads[i], Flac)) && HandoutOk(s.raw, PhaseOn(s'.threads[i], Raw))
      {
        if i < |s.threads| {
          assert s'.threads[i] == s.threads[i];
        }
      }
    } else {
      InvFrame(s, CommandStep(s, c).value);
    }
  }

  lemma SupplyKeepsInv(s: State, i: nat, chunk: Chunk)
    requires Inv(s) && SupplyStep(s, i, chunk).Some?
    ensures Inv(SupplyStep(s, i, chunk).value)
  {
    var s' := SupplyStep(s, i, chunk).value;
    assert ThreadOk(s.cfg, s.raw.ring.Some?, s.threads[i]);
    RelayKeepsInv(s, s', i, s'.threads[i], Flac);
  }

  lemma FinishKeepsInv(s: State)
    requires Inv(s) && FinishStep(s).Some?
    ensures Inv(FinishStep(s).value)
  {
    InvFrame(s, FinishStep(s).value);
  }

  lemma InvFrame(s: State, s': State)
    requires Inv(s)
    requires s'.cfg == s.cfg && s'.flac == s.flac && s'.raw == s.raw && s'.threads == s.threads
    requires s'.delivered == s.delivered && s'.played == s.played
    ensures Inv(s')
  {
  }

  lemma RunKeepsInv(s: State, i: nat)
    requires Inv(s) && i < |s.threads| && ThreadStep(s, i).Some?
    ensures Inv(ThreadStep(s, i).value)
  {
    if s.threads[i].Feeder? {
      FeederKeepsInv(s, i);
    } else if s.threads[i].Decoder? {
      DecoderKeepsInv(s, i);
    } else {
      AudioKeepsInv(s, i);
    }
  }

  lemma StepKeepsInv(s: State, a: Action)
    requires Inv(s) && Step(s, a).Some?
    ensures Inv(Step(s, a).value)
  {
    if a.Run? {
      RunKeepsInv(s, a.i);
    } else if a.Do? {
      CommandKeepsInv(s, a.c);
    } else if a.Finish? {
      FinishKeepsInv(s);
    } else {
      SupplyKeepsInv(s, a.feeder, a.chunk);
    }
  }

  lemma InitInv(cfg: Config)
    requires Fits(cfg)
    ensures Inv(Init(cfg))
  {
    var r := NewRing(cfg.flacSlots, cfg.flacElem);
    assert CB.Valid(r) && CB.Contents(r) == [];
  }

  lemma {:induction false} ExecKeepsInv(s: State, actions: seq<Action>)
    requires Inv(s) && Exec(s, actions).Some?
    ensures Inv(Exec(s, actions).value)
    decreases |actions|
  {
    if actions != [] {
      StepKeepsInv(s, actions[0]);
      ExecKeepsInv(Step(s, actions[0]).value, actions[1..]);
    }
  }

  /** Every state of every run, of any number of PLAY commands and threads, keeps the invariant. */
  lemma TokensAccountForEverySlot(cfg: Config, actions: seq<Action>)
    requires Fits(cfg) && Exec(Init(cfg), actions).Some?
    ensures Inv(Exec(Init(cfg), actions).value)
  {
    InitInv(cfg);
    ExecKeepsInv(Init(cfg), actions);
  }

  /** No assert of feed or read fails, the unchecked write never loses a frame, the audio thread never
      follows NULL, and both rings are first-in first-out across all threads. */
  lemma NoRingOperationFails(cfg: Config, actions: seq<Action>)
    requires Fits(cfg) && Exec(Init(cfg), actions).Some?
    ensures var s := Exec(Init(cfg), actions).value;
      && s.flac.faults == 0 && s.raw.faults == 0
      && (forall i :: 0 <= i < |s.threads| ==> !s.threads[i].ph.Crashed?)
      && s.delivered <= s.flac.taken <= s.flac.written
      && s.played <= s.raw.taken <= s.raw.written
  {
    TokensAccountForEverySlot(cfg, actions);
    var s := Exec(Init(cfg), actions).value;
    forall i | 0 <= i < |s.threads|
      ensures !s.threads[i].ph.Crashed?
    {
      assert ThreadOk(s.cfg, s.raw.ring.Some?, s.threads[i]);
    }
  }

  /** Until the metadata callback has built the raw ring, no thread is past its first wait on it. */
  lemma NobodyTouchesRawBeforeMetadata(cfg: Config, actions: seq<Action>, i: nat)
    requires Fits(cfg) && Exec(Init(cfg), actions).Some?
    requires Exec(Init(cfg), actions).value.raw.ring.None? && i < |Exec(Init(cfg), actions).value.threads|
    ensures PhaseOn(Exec(Init(cfg), actions).value.threads[i], Raw).Away?
    ensures Exec(Init(cfg), actions).value.played == []
  {
    TokensAccountForEverySlot(cfg, actions);
    var s := Exec(Init(cfg), actions).value;
    CensusUpdate(s.threads, Raw, i, s.threads[i]);
    CensusNatural(s.threads, Raw);
    assert ThreadOk(s.cfg, s.raw.ring.Some?, s.threads[i]);
  }
}
