/** The two loops of the streaming machine are those of the methods in Feeding: taken step by step, they send and
    merge what ContentServer.HandleFeedMe and MergeSeries do. */
module StreamingLoops {
  import opened Bytes
  import opened Messages
  import opened Feeding
  import opened Streaming
  import opened StreamingProofs
  import PB = Playback

  function Repeat(a: Action, n: nat): (actions: seq<Action>)
  {
    if n == 0 then [] else [a] + Repeat(a, n - 1)
  }

  /** Packets with these payloads, numbered from `first`. */
  function Packets(song: uint32, payloads: seq<Chunk>, first: nat): (ps: seq<Packet>)
    ensures |ps| == |payloads|
    ensures forall i :: 0 <= i < |ps| ==> ps[i] == Packet(song, payloads[i], (first + i) % 0x1_0000_0000)
    decreases |payloads|
  {
    if payloads == [] then []
    else [Packet(song, payloads[0], first % 0x1_0000_0000)] + Packets(song, payloads[1..], first + 1)
  }

  /** Thread `h` is the only one and about to send segment `next` of the open song. */
  predicate Sending(s: State, t: Handler)
  {
    && s.handlers == [t] && t.ready && t.next < t.count
    && s.current == s.song && s.pos <= |s.file|
  }

  lemma SendOne(s: State, t: Handler, a: Action)
    requires Sending(s, t) && a.Send? && a.h == 0
    ensures var data := Fread(s.file, s.pos, t.size);
      Step(s, a) == PB.Some(s.(
        pos := s.pos + |data|,
        wire := s.wire + [Packet(s.song, data, t.next % 0x1_0000_0000)],
        handlers := if t.next + 1 == t.count then [] else [t.(next := t.next + 1)]))
  {
    assert [t][..0] + [t][1..] == [] && [t][0 := t.(next := t.next + 1)] == [t.(next := t.next + 1)];
  }

  /** Position and channel after `n` segments, numbered from `first`. */
  function AfterSends(s: State, size: nat, first: nat, n: nat): (s': State)
    requires s.pos <= |s.file|
  {
    s.(pos := PositionAfter(s.file, s.pos, size, n),
       wire := s.wire + Packets(s.song, Segments(s.file, s.pos, size, n), first))
  }

  lemma OneSendLess(s: State, size: nat, first: nat, n: nat)
    requires s.pos <= |s.file| && n > 0
    ensures var data := Fread(s.file, s.pos, size);
      AfterSends(s, size, first, n)
      == AfterSends(s.(pos := s.pos + |data|, wire := s.wire + [Packet(s.song, data, first % 0x1_0000_0000)]),
                    size, first + 1, n - 1)
  {
    var data := Fread(s.file, s.pos, size);
    assert Segments(s.file, s.pos, size, n) == [data] + Segments(s.file, s.pos + |data|, size, n - 1);
    SplitWire(s.wire, s.song, data, Segments(s.file, s.pos + |data|, size, n - 1), first);
  }

  lemma SplitWire(wire: seq<Packet>, song: uint32, data: Chunk, rest: seq<Chunk>, first: nat)
    ensures wire + Packets(song, [data] + rest, first)
         == wire + [Packet(song, data, first % 0x1_0000_0000)] + Packets(song, rest, first + 1)
  {
    assert ([data] + rest)[1..] == rest;
  }

  /** One send brings the thread to the next segment, or to its end, and leaves one less to go. */
  lemma SendNext(s: State, t: Handler, s': State)
    requires Sending(s, t)
    requires var data := Fread(s.file, s.pos, t.size);
      s' == s.(pos := s.pos + |data|,
               wire := s.wire + [Packet(s.song, data, t.next % 0x1_0000_0000)],
               handlers := if t.next + 1 == t.count then [] else [t.(next := t.next + 1)])
    ensures s'.pos <= |s'.file|
    ensures AfterSends(s, t.size, t.next, t.count - t.next).(handlers := [])
         == AfterSends(s', t.size, t.next + 1, t.count - t.next - 1).(handlers := [])
    ensures if t.next + 1 == t.count then s'.handlers == [] else Sending(s', t.(next := t.next + 1))
  {
    OneSendLess(s, t.size, t.next, t.count - t.next);
  }

  lemma {:induction false} SendAll(s: State, t: Handler, a: Action)
    requires Sending(s, t) && a.Send? && a.h == 0
    ensures Exec(s, Repeat(a, t.count - t.next))
         == PB.Some(AfterSends(s, t.size, t.next, t.count - t.next).(handlers := []))
    decreases t.count - t.next
  {
    var n := t.count - t.next;
    SendOne(s, t, a);
    var s' := Step(s, a).value;
    SendNext(s, t, s');
    ExecCons(s, a, Repeat(a, n - 1));
    if n == 1 {
      NoSendLeft(s', t.size, t.next + 1);
    } else {
      SendAll(s', t.(next := t.next + 1), a);
    }
  }

  lemma NoSendLeft(s: State, size: nat, first: nat)
    requires s.pos <= |s.file|
    ensures AfterSends(s, size, first, 0) == s
  {
    assert Segments(s.file, s.pos, size, 0) == [];
    assert s.wire + [] == s.wire;
  }

  /** The bytes of packets numbered from 0 are the datagrams of a request. */
  lemma PacketsArePacked(song: uint32, payloads: seq<Chunk>)
    requires |payloads| < 0x1_0000_0000
    ensures var sent := Packets(song, payloads, 0);
      seq(|sent|, i requires 0 <= i < |sent| => PacketBytes(sent[i])) == Packed(song, payloads)
  {
    var sent := Packets(song, payloads, 0);
    forall i | 0 <= i < |sent|
      ensures PacketBytes(sent[i]) == Packed(song, payloads)[i]
    {
      assert (0 + i) % 0x1_0000_0000 == i;
    }
  }

  /** The sends of one request put exactly the datagrams into the channel that HandleFeedMe sends, and leave the
      file where it leaves it. */
  lemma SendsAreHandleFeedMe(s: State, t: Handler, a: Action) returns (sent: seq<Packet>)
    requires Sending(s, t) && t.next == 0 && t.count < 0x100 && a.Send? && a.h == 0
    ensures Exec(s, Repeat(a, t.count)) == PB.Some(s.(
      pos := PositionAfter(s.file, s.pos, t.size, t.count), wire := s.wire + sent, handlers := []))
    ensures seq(|sent|, i requires 0 <= i < |sent| => PacketBytes(sent[i]))
         == Packed(s.song, Segments(s.file, s.pos, t.size, t.count))
  {
    SendAll(s, t, a);
    sent := Packets(s.song, Segments(s.file, s.pos, t.size, t.count), t.next);
    PacketsArePacked(s.song, Segments(s.file, s.pos, t.size, t.count));
  }

  lemma {:induction false} MergeFrom(s: State, i: nat, acc: Chunk, a: Action)
    requires s.loop == Merging(i, acc) && i <= s.counter <= |s.buffer| && a.MergeOne?
    ensures Exec(s, Repeat(a, s.counter - i + 1))
         == PB.Some(s.(loop := WantReset(acc + Concat(s.buffer[i..s.counter]))))
    decreases s.counter - i
  {
    var s' := Step(s, a).value;
    ExecCons(s, a, Repeat(a, s.counter - i));
    if i == s.counter {
      assert acc + Concat(s.buffer[i..s.counter]) == acc;
    } else {
      MergeFrom(s', i + 1, acc + s.buffer[i], a);
      assert s.buffer[i..s.counter][1..] == s.buffer[i + 1..s.counter];
      var rest := Concat(s.buffer[i + 1..s.counter]);
      assert acc + (s.buffer[i] + rest) == acc + s.buffer[i] + rest;
    }
  }

  /** The merge steps leave in the request thread what MergeSeries leaves in the merge buffer. */
  lemma MergesAreMergeSeries(s: State, a: Action)
    requires s.loop == Merging(0, []) && s.counter <= |s.buffer| && a.MergeOne?
    ensures Exec(s, Repeat(a, s.counter + 1)) == PB.Some(s.(loop := WantReset(Concat(s.buffer[..s.counter]))))
  {
    MergeFrom(s, 0, [], a);
    assert s.buffer[0..s.counter] == s.buffer[..s.counter];
    assert [] + Concat(s.buffer[..s.counter]) == Concat(s.buffer[..s.counter]);
  }
}
