/** Deadlock freedom and termination of the two-stage pipeline: while nothing stops or pauses it, some thread
    can always move until everything fed has been decoded and everything decoded has been played. */
module Draining {
  import CB = CircleBuffers
  import opened Playback
  import opened Tokens

  /** The first callback that is not a read announces the metadata. */
  predicate MetadataFirst(calls: seq<Callback>)
  {
    calls != [] && (calls[0].MetadataCb? || (calls[0].ReadCb? && MetadataFirst(calls[1..])))
  }

  predicate AwaitsMetadata(t: Thread)
  {
    t.Decoder? && MetadataFirst(t.calls)
  }

  /** The reads still to come beyond those that the chunks fed so far take. */
  function SpareReads(s: State): (n: int)
  {
    Sum(ToRead, s.threads) + |s.flac.taken| - Sum(ToFeed, s.threads) - |s.flac.written|
  }

  predicate ReadsMatchFeeds(s: State)
  {
    SpareReads(s) == 0
  }

  /** A pipeline set up to run: no stop, at least one audio thread, and one metadata callback before the first
      frame. */
  predicate Primed(s: State)
  {
    && Inv(s)
    && s.cfg.flacTokens > 0 && s.cfg.rawTokens > 0
    && !s.stop
    && Sum(AudioThreads, s.threads) > 0
    && Sum(Metadatas, s.threads) == One(s.raw.ring.None?)
    && (s.raw.ring.None? ==> exists i :: 0 <= i < |s.threads| && AwaitsMetadata(s.threads[i]))
  }

  /** The same with no pause outstanding. */
  predicate Live(s: State)
  {
    Primed(s) && s.pause + Sum(InPlay, s.threads) == 1
  }

  /** And with decoder programs that read as often as chunks are fed. */
  predicate Armed(s: State)
  {
    Live(s) && ReadsMatchFeeds(s)
  }

  predicate Stuck(s: State)
  {
    forall i :: 0 <= i < |s.threads| ==> ThreadStep(s, i).None?
  }

  /** Everything fed was handed to the decoder, everything decoded was played, both rings are empty, and
      the audio threads wait for more. */
  predicate Finished(s: State)
  {
    && s.flac.ring.Some? && s.raw.ring.Some?
    && CB.Valid(s.flac.ring.value) && CB.Contents(s.flac.ring.value) == []
    && CB.Valid(s.raw.ring.value) && CB.Contents(s.raw.ring.value) == []
    && s.delivered == s.flac.written
    && s.played == s.raw.written
    && forall i :: 0 <= i < |s.threads| ==> Idle(s.threads[i])
  }

  predicate Idle(t: Thread)
  {
    match t
    case Feeder(ph, pending) => ph.Away? && pending == []
    case Decoder(at, _, calls, _) => at.Between? && calls == []
    case Audio(where, ph, _) => ph.Away?
  }

  // ---- progress ---------------------------------------------------------------------------

  lemma PlayingCanMove(s: State, i: nat)
    requires Inv(s) && i < |s.threads| && PhaseOn(s.threads[i], Raw).Playing?
    ensures ThreadStep(s, i).Some?
  {
    assert ThreadOk(s.cfg, s.raw.ring.Some?, s.threads[i]);
  }

  lemma LockedCanMove(s: State, i: nat, k: Side)
    requires Inv(s) && i < |s.threads| && InMutex(PhaseOn(s.threads[i], k)) && s.pause > 0
    ensures ThreadStep(s, i).Some?
  {
    assert ThreadOk(s.cfg, s.raw.ring.Some?, s.threads[i]);
  }

  lemma MidwayCanMove(s: State, i: nat, k: Side)
    requires Inv(s) && i < |s.threads| && !PhaseOn(s.threads[i], k).Away? && StageOf(s, k).mutex > 0 && s.pause > 0
    ensures ThreadStep(s, i).Some?
  {
    assert ThreadOk(s.cfg, s.raw.ring.Some?, s.threads[i]);
  }

  lemma StuckGate(s: State)
    requires Live(s) && Stuck(s)
    ensures s.pause == 1
  {
    SumNatural(InPlay, s.threads);
    if Sum(InPlay, s.threads) != 0 {
      var i := SumWitness(InPlay, s.threads);
      PlayingCanMove(s, i);
      assert false;
    }
  }

  /** Nobody in a stuck pipeline is inside the mutex of a ring: whoever holds it can go on, the audio thread
      included, because the pause semaphore it takes inside is free or in use by a thread that can go on. */
  lemma StuckUnlocks(s: State, k: Side)
    requires Inv(s) && s.pause > 0 && Stuck(s)
    ensures Sum(Locked(k), s.threads) == 0 && StageOf(s, k).mutex == 1
  {
    SumNatural(Locked(k), s.threads);
    if Sum(Locked(k), s.threads) != 0 {
      var i := SumWitness(Locked(k), s.threads);
      LockedCanMove(s, i, k);
      assert false;
    }
  }

  /** So nobody stands anywhere between its first wait and its last post. */
  lemma StuckIsAway(s: State, k: Side, q: Tally)
    requires Inv(s) && s.pause > 0 && Stuck(s)
    requires q == HoldsPush(k) || q == Unposted(k) || q == HoldsPull(k) || q == Took(k)
    ensures Sum(q, s.threads) == 0
  {
    StuckUnlocks(s, k);
    SumNatural(q, s.threads);
    if Sum(q, s.threads) != 0 {
      var i := SumWitness(q, s.threads);
      MidwayCanMove(s, i, k);
      assert false;
    }
  }

  lemma StuckCensus(s: State, k: Side)
    requires Inv(s) && s.pause > 0 && Stuck(s)
    ensures StageOf(s, k).push + StageOf(s, k).pull == DimsOf(s.cfg, k).tokens
    ensures |StageOf(s, k).written| == |StageOf(s, k).taken| + StageOf(s, k).pull
    ensures forall i :: 0 <= i < |s.threads| ==> PhaseOn(s.threads[i], k).Away?
  {
    StuckUnlocks(s, k);
    StuckIsAway(s, k, HoldsPush(k));
    StuckIsAway(s, k, Unposted(k));
    StuckIsAway(s, k, HoldsPull(k));
    StuckIsAway(s, k, Took(k));
    forall i | 0 <= i < |s.threads|
      ensures PhaseOn(s.threads[i], k).Away?
    {
      SumCovers(HoldsPush(k), s.threads, i);
      SumCovers(Unposted(k), s.threads, i);
      SumCovers(HoldsPull(k), s.threads, i);
      SumCovers(Took(k), s.threads, i);
      assert ThreadOk(s.cfg, s.raw.ring.Some?, s.threads[i]);
    }
  }

  /** The audio thread would take any frame, and any decoder could hand one over. */
  lemma StuckRaw(s: State)
    requires Live(s) && Stuck(s)
    ensures s.raw.pull == 0 && s.raw.push > 0
    ensures forall i :: 0 <= i < |s.threads| && s.threads[i].Decoder? ==> !s.threads[i].at.InWrite?
  {
    StuckGate(s);
    StuckCensus(s, Raw);
    var a := SumWitness(AudioThreads, s.threads);
    assert ThreadStep(s, a).None? && PhaseOn(s.threads[a], Raw).Away?;
    forall i | 0 <= i < |s.threads| && s.threads[i].Decoder?
      ensures !s.threads[i].at.InWrite?
    {
      assert ThreadStep(s, i).None? && PhaseOn(s.threads[i], Raw).Away?;
    }
  }

  /** A decoder that cannot move is done, waits for data, or waits for somebody else's metadata. */
  lemma StuckDecoder(s: State, i: nat)
    requires Live(s) && Stuck(s) && i < |s.threads| && s.threads[i].Decoder?
    ensures var t := s.threads[i];
      || (t.at.Between? && t.calls == [])
      || (t.at.InRead? && s.flac.pull == 0 && t.calls != [] && t.calls[0].ReadCb?)
      || (t.at.Between? && t.calls != [] && t.calls[0].WriteCb? && s.raw.ring.None?)
  {
    StuckGate(s);
    StuckRaw(s);
    StuckCensus(s, Flac);
    var t := s.threads[i];
    assert ThreadStep(s, i).None? && PhaseOn(t, Flac).Away? && ThreadOk(s.cfg, s.raw.ring.Some?, t);
    if t.at.Between? && t.calls != [] && t.calls[0].MetadataCb? && s.raw.ring.Some? {
      SumCovers(Metadatas, s.threads, i);
      assert false;
    }
  }

  lemma FeederCanMove(s: State, i: nat)
    requires i < |s.threads| && s.threads[i].Feeder? && s.threads[i].pending != []
    requires PhaseOn(s.threads[i], Flac).Away? && s.flac.push > 0
    ensures ThreadStep(s, i).Some?
  {
  }

  lemma StuckFeedersAreDone(s: State)
    requires Live(s) && Stuck(s) && s.flac.pull == 0
    ensures Sum(ToFeed, s.threads) == 0
  {
    StuckGate(s);
    StuckCensus(s, Flac);
    SumNatural(ToFeed, s.threads);
    if Sum(ToFeed, s.threads) != 0 {
      var i := SumWitness(ToFeed, s.threads);
      FeederCanMove(s, i);
      assert false;
    }
  }

  /** With reads to come for all chunks but those the ring has room for, every feed call returns, whatever is fed
      later. */
  lemma StuckFeedsAreDone(s: State)
    requires Live(s) && Stuck(s) && SpareReads(s) + s.cfg.flacTokens >= 0
    ensures Sum(ToFeed, s.threads) == 0
  {
    StuckGate(s);
    StuckCensus(s, Flac);
    SumNatural(ToFeed, s.threads);
    SumNatural(ToRead, s.threads);
    if s.flac.pull == 0 {
      StuckFeedersAreDone(s);
    } else if Sum(ToRead, s.threads) > 0 {
      StuckReadersAreDone(s);
    } else if Sum(ToFeed, s.threads) > 0 {
      var i := SumWitness(ToFeed, s.threads);
      FeederCanMove(s, i);
      assert false;
    }
  }

  lemma StuckReadersAreDone(s: State)
    requires Live(s) && Stuck(s) && s.flac.pull > 0
    ensures Sum(ToRead, s.threads) == 0
  {
    SumNatural(ToRead, s.threads);
    if Sum(ToRead, s.threads) > 0 {
      var i := SumWitness(ToRead, s.threads);
      StuckDecoder(s, i);
      var j :| 0 <= j < |s.threads| && AwaitsMetadata(s.threads[j]);
      StuckDecoder(s, j);
      assert false;
    }
  }

  /** Data and readers cannot both be left over. */
  lemma StuckReadsAreDone(s: State)
    requires Armed(s) && Stuck(s)
    ensures s.flac.pull == 0 && Sum(ToFeed, s.threads) == 0 && Sum(ToRead, s.threads) == 0
    ensures s.raw.ring.Some?
  {
    StuckGate(s);
    StuckCensus(s, Flac);
    if s.raw.ring.None? {
      var j :| 0 <= j < |s.threads| && AwaitsMetadata(s.threads[j]);
      StuckDecoder(s, j);
      SumCovers(ToRead, s.threads, j);
      StuckFeedersAreDone(s);
      assert false;
    }
    if s.flac.pull == 0 {
      StuckFeedersAreDone(s);
    } else {
      SumNatural(ToFeed, s.threads);
      var i := SumWitness(ToRead, s.threads);
      StuckDecoder(s, i);
      assert false;
    }
  }

  /** A pipeline that cannot move has finished. */
  lemma StuckIsFinished(s: State)
    requires Armed(s) && Stuck(s)
    ensures Finished(s)
  {
    StuckGate(s);
    StuckRaw(s);
    StuckReadsAreDone(s);
    StuckCensus(s, Flac);
    StuckCensus(s, Raw);
    StuckUnlocks(s, Flac);
    StuckUnlocks(s, Raw);
    CensusNatural(s.threads, Flac);
    CensusNatural(s.threads, Raw);
    forall i | 0 <= i < |s.threads|
      ensures Idle(s.threads[i])
    {
      var t := s.threads[i];
      assert PhaseOn(t, Flac).Away? && PhaseOn(t, Raw).Away? && ThreadOk(s.cfg, s.raw.ring.Some?, t);
      SumCovers(ToFeed, s.threads, i);
      SumCovers(ToRead, s.threads, i);
      if t.Decoder? {
        StuckDecoder(s, i);
      }
    }
    assert s.delivered == s.flac.taken && s.played == s.raw.taken;
  }
}
