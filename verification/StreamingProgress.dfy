/** The series protocol does not stall: from any state of a run the series under way ends, after a bounded number
    of steps, with the next piece of the file in the feed call, or with the assert at the end of the file. */
module StreamingProgress {
  import opened Bytes
  import opened Messages
  import opened Feeding
  import opened Streaming
  import opened StreamingProofs
  import PB = Playback

  /** The steps of server and daemon that carry a series, up to but not including the return from the feed call. */
  predicate OfSeries(a: Action) {
    !a.Play? && !a.Stray? && !a.Fed?
  }

  predicate SeriesRun(actions: seq<Action>)
  {
    forall k :: 0 <= k < |actions| ==> OfSeries(actions[k])
  }

  /** The request thread is inside the feed call, or an assert has failed. */
  predicate Over(s: State) {
    s.loop.InFeed? || s.loop.Aborted?
  }

  // ---- a bound on the steps left ----------------------------------------------------------------

  function MainRank(main: Main): (n: nat)
  {
    match main case Idle => 0 case Stored => 4 case Locked => 3 case Counted => 2 case Posted => 1
  }

  function LoopRank(loop: Loop): (n: int)
  {
    match loop
    case Request => 80
    case Await => 17
    case Merging(i, _) => 15 - i
    case WantReset(_) => 4
    case Resetting(_) => 3
    case Unlocking(_) => 2
    case Checking(_) => 1
    case InFeed => 0
    case Aborted => 0
  }

  function ServerRank(requests: seq<uint32>, handlers: seq<Handler>): (n: int)
  {
    6 * Unsent(requests, handlers) + 2 * |requests| + PB.One(handlers != [] && !handlers[0].ready)
  }

  function Rank(s: State): (n: int)
  {
    LoopRank(s.loop) + ServerRank(s.requests, s.handlers) + 5 * |s.wire| + MainRank(s.main)
  }

  lemma RankNatural(s: State)
    requires Front(s)
    ensures Rank(s) >= 0
  {
  }

  lemma AcceptRank(s: State, s': State)
    requires ServerOk(s.song, s.current, s.handlers, s.requests) && AcceptStep(s) == PB.Some(s')
    ensures Rank(s') < Rank(s) && s'.pb == s.pb && s'.loop == s.loop
  {
    AcceptIs(s, s');
    assert |s.requests| == 1 && s.handlers == [];
  }

  lemma OpenRank(s: State, h: nat, s': State)
    requires ServerOk(s.song, s.current, s.handlers, s.requests) && OpenStep(s, h) == PB.Some(s')
    ensures Rank(s') < Rank(s) && s'.pb == s.pb && s'.loop == s.loop
  {
    assert h == 0;
  }

  lemma SendRank(s: State, h: nat, s': State)
    requires ServerOk(s.song, s.current, s.handlers, s.requests) && SendStep(s, h) == PB.Some(s')
    ensures Rank(s') < Rank(s) && s'.pb == s.pb && s'.loop == s.loop
  {
    SendKeepsServer(s, h, s');
    assert s.handlers[0].ready && (s'.handlers != [] ==> s'.handlers[0].ready);
  }

  lemma ServerRankDrops(s: State, a: Action, s': State)
    requires ServerOk(s.song, s.current, s.handlers, s.requests) && ServerStep(s, a) == PB.Some(s') && !a.Stray?
    ensures Rank(s') < Rank(s) && s'.pb == s.pb && s'.loop == s.loop
  {
    if a.Accept? {
      AcceptRank(s, s');
    } else if a.Open? {
      OpenRank(s, a.h, s');
    } else {
      SendRank(s, a.h, s');
    }
  }

  lemma MainRankDrops(s: State, a: Action, s': State)
    requires MainStep(s, a) == PB.Some(s')
    ensures Rank(s') < Rank(s) && s'.pb == s.pb && s'.loop == s.loop
  {
  }

  lemma ReceiveRank(s: State, stale: seq<byte>, s': State)
    requires ReceiveStep(s, stale) == PB.Some(s')
    ensures Rank(s') < Rank(s) && s'.pb == s.pb && s'.loop == s.loop
  {
  }

  lemma LoopRankDrops(s: State, a: Action, s': State)
    requires s.loop.Merging? ==> s.loop.i <= SEGMENTS == |s.buffer|
    requires LoopStep(s, a) == PB.Some(s') && !a.Fed?
    ensures Rank(s') < Rank(s)
    ensures |s'.pb.supplied| - PB.One(s'.loop.InFeed?) == |s.pb.supplied| - PB.One(s.loop.InFeed?)
  {
  }

  /** Every step of a series lowers the rank, and feeds at most once. */
  lemma StepLowersRank(s: State, a: Action, s': State)
    requires Inv(s) && Step(s, a) == PB.Some(s') && OfSeries(a)
    ensures Rank(s') < Rank(s)
    ensures |s'.pb.supplied| - PB.One(s'.loop.InFeed?) == |s.pb.supplied| - PB.One(s.loop.InFeed?)
  {
    if OfServer(a) {
      ServerRankDrops(s, a, s');
    } else if a.Receive? {
      ReceiveRank(s, a.stale, s');
    } else if OfMain(a) {
      MainRankDrops(s, a, s');
    } else {
      LoopRankDrops(s, a, s');
    }
  }

  // ---- no deadlock --------------------------------------------------------------------------------

  lemma MainCanMove(s: State) returns (a: Action)
    requires Front(s) && !s.loop.Aborted? && !s.main.Idle?
    requires s.main.Stored? ==> s.counterMutex > 0
    ensures OfSeries(a) && Step(s, a).Some?
  {
    a := match s.main case Stored => WaitCounter case Locked => Count case Counted => PostMerge case _ => PostCounter;
  }

  lemma ServerCanMove(s: State) returns (a: Action)
    requires ServerOk(s.song, s.current, s.handlers, s.requests) && s.pos <= |s.file|
    requires s.requests != [] || s.handlers != []
    ensures OfSeries(a) && Step(s, a).Some?
  {
    var h := 0;
    if s.requests != [] {
      a := Accept;
    } else if s.handlers[h].ready {
      a := Send(h);
    } else {
      a := Open(h);
    }
  }

  lemma ReceiveCanMove(s: State) returns (a: Action)
    requires !s.loop.Aborted? && s.wire != [] && s.main.Idle? && s.pb.control.Ready? && PacketOk(s.wire[0], s.song)
    ensures OfSeries(a) && Step(s, a).Some?
  {
    DatagramBody(s.wire[0].songId, s.wire[0].data, s.wire[0].number, []);
    a := Receive([]);
  }

  lemma MutexIsFree(s: State)
    requires Front(s) && (s.main.Idle? || s.main.Stored?) && !s.loop.Resetting? && !s.loop.Unlocking?
    ensures s.counterMutex == 1
  {
  }

  /** With nothing unsent, under way or being stored, the ten messages are counted and the merge is due. */
  lemma MergeIsDue(s: State)
    requires Front(s) && s.loop.Await? && s.main.Idle? && s.wire == [] && s.requests == [] && s.handlers == []
    ensures s.mergeSem == 1
  {
    assert OnWire(s.wire, s.song) == [];
  }

  lemma CheckCanMove(s: State, a: Action)
    requires Inv(s) && s.loop.Checking? && a == Check
    ensures LoopStep(s, a).Some?
  {
    MergedSize(s);
    if s.loop.acc != [] {
      SupplyKeepsPipeline(s.pb, s.loop.acc);
    }
  }

  lemma LoopCanMove(s: State) returns (a: Action)
    requires !Over(s) && !s.loop.Checking?
    requires s.loop.Await? ==> s.mergeSem > 0
    requires s.loop.WantReset? ==> s.counterMutex > 0
    ensures OfSeries(a) && Step(s, a).Some?
  {
    a := match s.loop
      case Request => SendRequest case Await => WaitMerge case Merging(_, _) => MergeOne
      case WantReset(_) => WaitReset case Resetting(_) => Reset case _ => PostReset;
  }

  /** Until the series is over some thread of server or daemon can go on. */
  lemma SomebodyCanMove(s: State) returns (a: Action)
    requires Inv(s) && !Over(s) && s.pb.control.Ready?
    ensures OfSeries(a) && Step(s, a).Some?
  {
    if s.loop.Await? {
      if s.requests != [] || s.handlers != [] {
        a := ServerCanMove(s);
      } else if !s.main.Idle? {
        if s.main.Stored? {
          MutexIsFree(s);
        }
        a := MainCanMove(s);
      } else if s.wire != [] {
        assert PacketOk(s.wire[0], s.song);
        a := ReceiveCanMove(s);
      } else {
        MergeIsDue(s);
        a := LoopCanMove(s);
      }
    } else if s.loop.WantReset? {
      if s.main.Posted? {
        a := MainCanMove(s);
      } else {
        MutexIsFree(s);
        a := LoopCanMove(s);
      }
    } else if s.loop.Checking? {
      a := Check;
      CheckCanMove(s, a);
    } else {
      a := LoopCanMove(s);
    }
  }

  // ---- what is fed ----------------------------------------------------------------------------------

  /** The piece of the file that series `k` carries. */
  function Piece(file: Chunk, k: nat): (p: Chunk)
  {
    file[Min(4500 * k, |file|)..Min(4500 * k + 4500, |file|)]
  }

  predicate Pieces(file: Chunk, supplied: seq<Chunk>)
  {
    forall k :: 0 <= k < |supplied| ==> supplied[k] == Piece(file, k)
  }

  lemma MiddlePart(file: Chunk, read: nat, a: Chunk, b: Chunk, c: Chunk)
    requires read <= |file| && file[..read] == a + b + c && c == []
    ensures |a| <= read && b == file[|a|..read]
  {
    assert a + b + c == a + b;
    assert (a + b)[|a|..] == b;
  }

  /** A merged series is the next piece of the file. */
  lemma MergedIsPiece(s: State)
    requires Front(s) && s.loop.Checking?
    ensures s.loop.acc == Piece(s.file, |s.pb.supplied|)
  {
    assert Concat(OnWire(s.wire, s.song)) == [];
    MiddlePart(s.file, ReadSoFar(s), Concat(s.pb.supplied), s.loop.acc, Concat(OnWire(s.wire, s.song)));
  }

  lemma CheckKeepsPieces(s: State, a: Action, s': State)
    requires Inv(s) && s.loop.Checking? && LoopStep(s, a) == PB.Some(s') && Pieces(s.file, s.pb.supplied)
    ensures Pieces(s.file, s'.pb.supplied)
  {
    MergedIsPiece(s);
    CheckFeeds(s, a, s');
    PiecesSnoc(s.file, s.pb.supplied, s.loop.acc);
  }

  lemma PiecesSnoc(file: Chunk, supplied: seq<Chunk>, last: Chunk)
    requires Pieces(file, supplied) && last == Piece(file, |supplied|)
    ensures Pieces(file, supplied + [last])
  {
  }

  lemma CheckFeeds(s: State, a: Action, s': State)
    requires s.loop.Checking? && LoopStep(s, a) == PB.Some(s')
    ensures s'.pb.supplied == s.pb.supplied || s'.pb.supplied == s.pb.supplied + [s.loop.acc]
  {
  }

  lemma QuietLoopKeepsSupplied(s: State, a: Action, s': State)
    requires !s.loop.Checking? && LoopStep(s, a) == PB.Some(s')
    ensures s'.pb.supplied == s.pb.supplied
  {
  }

  lemma LoopKeepsPieces(s: State, a: Action, s': State)
    requires Inv(s) && LoopStep(s, a) == PB.Some(s') && Pieces(s.file, s.pb.supplied)
    ensures Pieces(s.file, s'.pb.supplied)
  {
    if s.loop.Checking? {
      CheckKeepsPieces(s, a, s');
    } else {
      QuietLoopKeepsSupplied(s, a, s');
    }
  }

  lemma PlayKeepsSupplied(s: State, a: PB.Action, s': State)
    requires Inv(s) && PlayStep(s, a) == PB.Some(s')
    ensures s'.pb.supplied == s.pb.supplied
  {
    if a.Run? {
      PipelineRun(s.pb, a.i);
    } else {
      PipelineControl(s.pb, a);
    }
  }

  lemma StepKeepsPieces(s: State, a: Action, s': State)
    requires Inv(s) && Step(s, a) == PB.Some(s') && Pieces(s.file, s.pb.supplied)
    ensures Pieces(s.file, s'.pb.supplied)
  {
    if OfServer(a) {
      ServerStepKeeps(s, a, s');
    } else if a.Receive? {
      ReceiveKeeps(s, a.stale, s');
    } else if a.Play? {
      PlayKeepsSupplied(s, a.a, s');
    } else if OfMain(a) {
      MainKeeps(s, a, s');
    } else {
      LoopKeepsPieces(s, a, s');
    }
  }

  lemma {:induction false} ExecKeepsPieces(s: State, actions: seq<Action>)
    requires Inv(s) && Exec(s, actions).Some? && Pieces(s.file, s.pb.supplied)
    ensures Pieces(s.file, Exec(s, actions).value.pb.supplied)
    decreases |actions|
  {
    if actions != [] {
      var s' := Step(s, actions[0]).value;
      StepKeepsInv(s, actions[0], s');
      StepKeepsPieces(s, actions[0], s');
      StepKeepsSong(s, actions[0], s');
      ExecKeepsPieces(s', actions[1..]);
    }
  }

  /** Feed call k gets the bytes from 4500 k up to 4500 (k + 1) of the file, or up to its end. */
  lemma EveryFeedIsAPiece(cfg: PB.Config, song: uint32, file: Chunk, program: seq<PB.Callback>, actions: seq<Action>,
                          k: nat)
    requires Setup(cfg, program) && Exec(Init(cfg, song, file, program), actions).Some?
    requires k < |Exec(Init(cfg, song, file, program), actions).value.pb.supplied|
    ensures Exec(Init(cfg, song, file, program), actions).value.pb.supplied[k] == Piece(file, k) != []
  {
    InitInv(cfg, song, file, program);
    ExecKeepsPieces(Init(cfg, song, file, program), actions);
    RunInv(cfg, song, file, program, actions);
    SongKept(Init(cfg, song, file, program), actions);
  }

  // ---- whole series -----------------------------------------------------------------------------------

  /** The steps of a run that carry the series, and the datagrams of other songs that turn up during it. */
  function SeriesSteps(actions: seq<Action>): (n: nat)
  {
    if actions == [] then 0 else PB.One(OfSeries(actions[0])) + SeriesSteps(actions[1..])
  }

  function Strays(actions: seq<Action>): (n: nat)
  {
    if actions == [] then 0 else PB.One(actions[0].Stray?) + Strays(actions[1..])
  }

  predicate NoReturn(actions: seq<Action>)
  {
    forall k :: 0 <= k < |actions| ==> !actions[k].Fed?
  }

  /** Rank and feed calls of two states with `steps` series steps and `strays` stray datagrams between them. */
  predicate Apart(s: State, s': State, steps: nat, strays: nat)
  {
    && Rank(s') + steps <= Rank(s) + 5 * strays
    && |s'.pb.supplied| - PB.One(s'.loop.InFeed?) == |s.pb.supplied| - PB.One(s.loop.InFeed?)
  }

  lemma StrayIsApart(s: State, a: Action, s': State)
    requires a.Stray? && ServerStep(s, a) == PB.Some(s')
    ensures Apart(s, s', 0, 1)
  {
  }

  lemma PlayIsApart(s: State, a: PB.Action, s': State)
    requires Inv(s) && PlayStep(s, a) == PB.Some(s')
    ensures Apart(s, s', 0, 0)
  {
    PlayKeepsSupplied(s, a, s');
  }

  lemma StepIsApart(s: State, a: Action, s': State)
    requires Inv(s) && Step(s, a) == PB.Some(s') && !a.Fed?
    ensures Apart(s, s', PB.One(OfSeries(a)), PB.One(a.Stray?))
  {
    if a.Stray? {
      StrayIsApart(s, a, s');
    } else if a.Play? {
      PlayIsApart(s, a.a, s');
    } else {
      StepLowersRank(s, a, s');
    }
  }

  /** Whatever playback and other songs do in between, a series has only so many steps, and feeds once. */
  lemma {:induction false} SeriesStepsAreBounded(s: State, actions: seq<Action>)
    requires Inv(s) && NoReturn(actions) && Exec(s, actions).Some?
    ensures Apart(s, Exec(s, actions).value, SeriesSteps(actions), Strays(actions))
    decreases |actions|
  {
    if actions != [] {
      var s' := Step(s, actions[0]).value;
      StepKeepsInv(s, actions[0], s');
      assert !actions[0].Fed? && NoReturn(actions[1..]);
      StepIsApart(s, actions[0], s');
      SeriesStepsAreBounded(s', actions[1..]);
    }
  }

  /** No step of server or daemon that carries a series is possible. */
  ghost predicate Resting(s: State)
  {
    forall a :: OfSeries(a) ==> Step(s, a).None?
  }

  lemma NotResting(s: State) returns (a: Action)
    requires !Resting(s)
    ensures OfSeries(a) && Step(s, a).Some?
  {
    a :| OfSeries(a) && Step(s, a).Some?;
  }

  lemma SeriesStep(s: State, a: Action, s': State)
    requires Inv(s) && Step(s, a) == PB.Some(s') && OfSeries(a)
    ensures Inv(s') && 0 <= Rank(s') < Rank(s)
  {
    StepKeepsInv(s, a, s');
    StepLowersRank(s, a, s');
    RankNatural(s');
  }

  /** A series can always be brought to its end, by itself. */
  lemma {:induction false} SeriesCanBeCompleted(s: State) returns (series: seq<Action>)
    requires Inv(s)
    ensures SeriesRun(series) && Exec(s, series).Some? && Resting(Exec(s, series).value)
    decreases Rank(s)
  {
    if Resting(s) {
      series := [];
    } else {
      var a := NotResting(s);
      var s' := Step(s, a).value;
      SeriesStep(s, a, s');
      var rest := SeriesCanBeCompleted(s');
      series := OneBefore(s, a, rest);
    }
  }

  lemma OneBefore(s: State, a: Action, rest: seq<Action>) returns (series: seq<Action>)
    requires OfSeries(a) && Step(s, a).Some? && SeriesRun(rest)
    ensures SeriesRun(series) && Exec(s, series) == Exec(Step(s, a).value, rest)
  {
    ExecCons(s, a, rest);
    series := [a] + rest;
  }

  /** A request is always answered in full.  From any state of a run in which the k-th request is about to be
      sent, the steps of server and daemon are bounded in every interleaving with playback, pauses and other songs;
      and where they can go no further and no pause holds up the main thread, piece k of the file has been fed,
      exactly if there is one, and otherwise the assert on the empty series has failed. */
  lemma EverySeriesCompletes(cfg: PB.Config, song: uint32, file: Chunk, program: seq<PB.Callback>,
                             before: seq<Action>, series: seq<Action>)
    requires Setup(cfg, program) && Exec(Init(cfg, song, file, program), before).Some?
    requires var s := Exec(Init(cfg, song, file, program), before).value;
      s.loop.Request? && NoReturn(series) && Exec(s, series).Some?
    ensures var s := Exec(Init(cfg, song, file, program), before).value;
      var s', k := Exec(s, series).value, |s.pb.supplied|;
      && SeriesSteps(series) <= Rank(s) + 5 * Strays(series)
      && Rank(s) == 80 + 5 * |s.wire| + MainRank(s.main)
      && (Resting(s') && s'.pb.control.Ready? ==>
           && (s'.loop.InFeed? <==> 4500 * k < |file|)
           && (s'.loop.Aborted? <==> |file| <= 4500 * k)
           && (s'.loop.InFeed? ==> |s'.pb.supplied| == k + 1))
  {
    RunInv(cfg, song, file, program, before);
    SongKept(Init(cfg, song, file, program), before);
    var s := Exec(Init(cfg, song, file, program), before).value;
    SeriesStepsAreBounded(s, series);
    SongKept(s, series);
    ExecKeepsInv(s, series);
    var s' := Exec(s, series).value;
    RankNatural(s');
    if !Over(s') && Resting(s') && s'.pb.control.Ready? {
      var a := SomebodyCanMove(s');
      assert false;
    }
  }
}
