/**
 One pass over the open streams that cuts new frames for a packet. A single frame object is filled in
 for stream after stream; a new one is made only after a frame has been emitted and there is room left.
 */
module FramingPass {
  import opened Wire
  import opened Wrappers
  import opened Framer

  /** What the writing side of a stream holds. */
  datatype SendState = SendState(
    streamId: nat,
    pending: Option<seq<byte>>,
    writeOffset: nat,
    finishedWriting: bool,
    finSent: bool,
    failed: bool,
    mark: Option<bool>)

  /** The number of bytes that wait, as the framer sees it. */
  function Waiting(s: SendState): nat {
    if s.failed || s.pending.None? then 0 else |s.pending.value|
  }

  function Header(s: SendState): nat {
    HeaderLength(StreamFrame(s.streamId, s.writeOffset, [], false, true, false))
  }

  /** How many bytes of data a frame of this stream may carry in `room` bytes, given its send window. */
  function DataRoom(s: SendState, window: nat, room: nat): nat
    requires Header(s) <= room
  {
    if Waiting(s) == 0 || room - Header(s) < window then room - Header(s) else window
  }

  /** The frame this stream gets and what the stream holds afterwards, if it has anything to send. */
  function Cut(s: SendState, window: nat, room: nat): (r: Option<(StreamFrame, SendState)>)
    ensures r.Some? ==> Length(r.value.0) <= room && r.value.0.streamId == r.value.1.streamId == s.streamId
    ensures r.Some? && r.value.0.data == [] ==> Length(r.value.0) < room
  {
    if Header(s) > room || DataRoom(s, window, room) == 0 then
      None
    else
      var (data, rest) := if Waiting(s) == 0 then ([], s.pending) else TakeData(s.pending, DataRoom(s, window, room));
      var fin := s.finishedWriting && !s.finSent && !s.failed && rest.None?;
      if Waiting(s) == 0 && !fin then
        None
      else
        Some((StreamFrame(s.streamId, s.writeOffset, data, fin, true, s.mark == Some(true)),
              s.(pending := rest, writeOffset := s.writeOffset + |data|, finSent := s.finSent || fin)))
  }

  /**
   A frame fits the room and the send window, carries the next bytes in order, and ends the stream only at its end.
   */
  lemma CutFits(s: SendState, window: nat, room: nat)
    requires Cut(s, window, room).Some?
    ensures var (f, t) := Cut(s, window, room).value;
            && Length(f) <= room
            && |f.data| <= Waiting(s) && (f.data != [] ==> |f.data| <= window)
            && f.streamId == s.streamId && f.offset == s.writeOffset && t.writeOffset == f.End()
            && (if s.pending.None? then f.data == [] && t.pending.None?
                else s.pending.value == f.data + if t.pending.Some? then t.pending.value else [])
            && (f.fin <==> s.finishedWriting && !s.finSent && !s.failed && t.pending.None?)
            && t == s.(pending := t.pending, writeOffset := t.writeOffset, finSent := s.finSent || f.fin)
            && (s.pending != Some([]) ==> t.pending != Some([]))
            && (f.data != [] || f.fin || s.pending == Some([]))
  {
  }

  /**
   There is no frame only if not even a byte or an end mark would fit, or nothing waits; and a frame carries as many
   bytes as wait, as the window allows, or as the room allows.
   */
  lemma CutIsLargest(s: SendState, window: nat, room: nat)
    ensures Cut(s, window, room).None? <==>
            || room <= Header(s)
            || (Waiting(s) > 0 && window == 0)
            || (Waiting(s) == 0 && !(s.finishedWriting && !s.finSent && !s.failed && s.pending.None?))
    ensures Cut(s, window, room).Some? && Waiting(s) > 0 ==>
              |Cut(s, window, room).value.0.data| in {Waiting(s), window, room - Header(s)}
  {
  }

  function Length(f: StreamFrame): nat {
    HeaderLength(f) + |f.data|
  }

  lemma CutIsShort(s: SendState, window: nat, room: nat)
    requires Cut(s, window, room).Some?
    ensures Length(Cut(s, window, room).value.0) <= room
  {
  }

  // ----- Visiting streams in a given order -----

  /**
   What visiting some streams leads to: the streams, the frames, whether one said stop, and whether that was with a full
   packet.
   */
  datatype Walked = Walked(streams: seq<SendState>, frames: seq<StreamFrame>, stopped: bool, full: bool)

  ghost predicate InRange(order: seq<nat>, n: nat) {
    forall k :: 0 <= k < |order| ==> order[k] < n
  }

  /** Cut frames from the streams in order, until the next header does not fit or the room is used up exactly. */
  ghost function Walk(streams: seq<SendState>, windows: seq<nat>, order: seq<nat>, room: nat): (w: Walked)
    requires |windows| == |streams| && InRange(order, |streams|)
    ensures |w.streams| == |streams| && WireLength(w.frames) <= room
    ensures w.full ==> w.stopped && w.frames != [] && order != [] && WireLength(w.frames) == room
                       && w.frames[|w.frames| - 1].data != []
    decreases |order|
  {
    if order == [] then Walked(streams, [], false, false)
    else
      match Cut(streams[order[0]], windows[order[0]], room)
      case None =>
        if Header(streams[order[0]]) > room then Walked(streams, [], true, false)
            else Walk(streams, windows, order[1..], room)
      case Some((f, s)) =>
        if Length(f) == room then Walked(streams[order[0] := s], [f], true, true)
        else
          var w := Walk(streams[order[0] := s], windows, order[1..], room - Length(f));
          w.(frames := [f] + w.frames)
  }

  lemma NoMore(streams: seq<SendState>, windows: seq<nat>, room: nat)
    requires |windows| == |streams|
    ensures Walk(streams, windows, [], room) == Walked(streams, [], false, false)
  {
  }

  /** What the next visit does. */
  lemma WalkNext(streams: seq<SendState>, windows: seq<nat>, order: seq<nat>, i: nat, room: nat)
    requires |windows| == |streams| && InRange(order, |streams|) && i < |order|
    ensures var w := Walk(streams, windows, order[i..], room);
            match Cut(streams[order[i]], windows[order[i]], room)
            case None =>
              w == if Header(streams[order[i]]) > room then Walked(streams, [], true, false)
                  else Walk(streams, windows, order[i + 1..], room)
            case Some((f, s)) =>
              && Length(f) <= room
              && if Length(f) == room then w == Walked(streams[order[i] := s], [f], true, true)
                 else var w' := Walk(streams[order[i] := s], windows, order[i + 1..], room - Length(f));
                     w == w'.(frames := [f] + w'.frames)
  {
    hide Cut, Header, WireLength, Length;
    assert order[i..][0] == order[i] && order[i..][1..] == order[i + 1..];
    if Cut(streams[order[i]], windows[order[i]], room).Some? {
      CutIsShort(streams[order[i]], windows[order[i]], room);
    }
  }

  /** No stream changes its number. */
  ghost predicate SameNumbers(a: seq<SendState>, b: seq<SendState>) {
    |a| == |b| && forall i :: 0 <= i < |a| ==> a[i].streamId == b[i].streamId
  }

  /** A frame never carries the number of a stream that is not visited. */
  lemma {:induction false} WalkKeepsNumbers(streams: seq<SendState>, windows: seq<nat>, order: seq<nat>, room: nat,
                                            id: nat)
    requires |windows| == |streams| && InRange(order, |streams|)
    requires forall k :: 0 <= k < |order| ==> streams[order[k]].streamId != id
    ensures var w := Walk(streams, windows, order, room);
            SameNumbers(streams, w.streams) && forall f :: f in w.frames ==> f.streamId != id
    decreases |order|
  {
    hide Cut, Header, WireLength, Length;
    if order != [] {
      assert streams[order[0]].streamId != id;
      assert forall k :: 0 <= k < |order[1..]| ==> order[1..][k] == order[k + 1];
      var cut := Cut(streams[order[0]], windows[order[0]], room);
      if cut.None? {
        WalkKeepsNumbers(streams, windows, order[1..], room, id);
      } else if Length(cut.value.0) != room {
        CutIsShort(streams[order[0]], windows[order[0]], room);
        WalkKeepsNumbers(streams[order[0] := cut.value.1], windows, order[1..], room - Length(cut.value.0), id);
      }
    }
  }

  // ----- What a visit of each stream did -----

  /** A stream went from state `s` to `t` when frame `c`, or nothing, was cut from it. */
  ghost predicate CutFrom(s: SendState, window: nat, c: Option<StreamFrame>, t: SendState) {
    if c.None? then t == s else exists room: nat :: Cut(s, window, room) == Some((c.value, t))
  }

  /** The frames that were cut, in order. */
  ghost function Somes(cuts: seq<Option<StreamFrame>>): seq<StreamFrame> {
    if cuts == [] then [] else
      Somes(cuts[..|cuts| - 1]) + if cuts[|cuts| - 1].Some? then [cuts[|cuts| - 1].value] else []
  }

  lemma SomesAppend(cuts: seq<Option<StreamFrame>>, c: Option<StreamFrame>)
    ensures Somes(cuts + [c]) == Somes(cuts) + if c.Some? then [c.value] else []
  {
    assert (cuts + [c])[..|cuts|] == cuts;
  }

  lemma NothingCut()
    ensures Somes([]) == [] && WireLength([]) == 0
  {
  }

  /** A record of a pass: the visited streams, what was cut from each, and the streams before and after. */
  datatype Trace = Trace(
    before: seq<SendState>,
    windows: seq<nat>,
    order: seq<nat>,
    cuts: seq<Option<StreamFrame>>,
    after: seq<SendState>)
  {
    /** No stream is visited twice, each visited stream changed as its cut says, and no other stream changed. */
    ghost predicate Ok() {
      && |before| == |windows| == |after| && |order| == |cuts|
      && (forall k :: 0 <= k < |order| ==> order[k] < |before|)
      && (forall j, k :: 0 <= j < k < |order| ==> order[j] != order[k])
      && (forall k :: 0 <= k < |order| ==> CutFrom(before[order[k]], windows[order[k]], cuts[k], after[order[k]]))
      && (forall i :: 0 <= i < |before| && i !in order ==> after[i] == before[i])
    }

    ghost function Frames(): seq<StreamFrame> {
      Somes(cuts)
    }
  }

  type GoodTrace = t: Trace | t.Ok() witness Trace([], [], [], [], [])

  lemma Extend(t: GoodTrace, i: nat, c: Option<StreamFrame>, after: seq<SendState>) returns (u: GoodTrace)
    requires i < |t.before| && i !in t.order && |after| == |t.after|
    requires CutFrom(t.after[i], t.windows[i], c, after[i]) && after == t.after[i := after[i]]
    ensures u == Trace(t.before, t.windows, t.order + [i], t.cuts + [c], after)
    ensures u.Frames() == t.Frames() + if c.Some? then [c.value] else []
  {
    u := Trace(t.before, t.windows, t.order + [i], t.cuts + [c], after);
    SomesAppend(t.cuts, c);
    forall j | 0 <= j < |t.before| && j !in u.order
      ensures after[j] == t.before[j]
    {
      assert forall x :: x in t.order + [i] <==> x in t.order || x == i;
    }
  }

  /** Streams that exist, are all different, and have not been visited. */
  ghost predicate Fresh(order: seq<nat>, n: nat, visited: seq<nat>) {
    && (forall k :: 0 <= k < |order| ==> order[k] < n && order[k] !in visited)
    && (forall j, k :: 0 <= j < k < |order| ==> order[j] != order[k])
  }

  /** Visiting streams conserves them: each gives up what its frame carries. */
  lemma {:induction false} WalkConserves(streams: seq<SendState>, windows: seq<nat>, order: seq<nat>, room: nat,
                                         t: GoodTrace)
      returns (u: GoodTrace)
    requires |windows| == |streams| && t.after == streams && t.windows == windows && Fresh(order, |streams|, t.order)
    ensures var w := Walk(streams, windows, order, room);
            && u.before == t.before && u.windows == windows && u.after == w.streams
            && u.Frames() == t.Frames() + w.frames
    ensures u.order <= t.order + order && (!Walk(streams, windows, order, room).stopped ==> u.order == t.order + order)
    decreases |order|
  {
    hide Cut, Header, WireLength, Length, Somes;
    u := t;
    assert order[..0] == [] && t.order + [] == t.order && t.Frames() + [] == t.Frames();
    if order != [] {
      var i, cut := order[0], Cut(streams[order[0]], windows[order[0]], room);
      assert t.order + order == (t.order + [i]) + order[1..];
      FreshRest(order, |streams|, t.order);
      if cut.None? && Header(streams[i]) <= room {
        assert streams[i := streams[i]] == streams;
        u := Extend(t, i, None, streams);
        assert t.Frames() + [] == t.Frames();
        u := WalkConserves(streams, windows, order[1..], room, u);
      } else if cut.Some? {
        u := Extend(t, i, Some(cut.value.0), streams[i := cut.value.1]);
        if Length(cut.value.0) != room {
          CutIsShort(streams[i], windows[i], room);
          var w := Walk(streams[i := cut.value.1], windows, order[1..], room - Length(cut.value.0));
          assert t.Frames() + [cut.value.0] + w.frames == t.Frames() + ([cut.value.0] + w.frames);
          u := WalkConserves(streams[i := cut.value.1], windows, order[1..], room - Length(cut.value.0), u);
        }
      }
    }
  }

  lemma FreshRest(order: seq<nat>, n: nat, visited: seq<nat>)
    requires Fresh(order, n, visited) && order != []
    ensures Fresh(order[1..], n, visited + [order[0]])
  {
  }

  lemma FreshParts(a: seq<nat>, b: seq<nat>, c: seq<nat>, n: nat)
    requires Fresh(a + b + c, n, [])
    ensures Fresh(a, n, []) && Fresh(b, n, a) && Fresh(c, n, a + b)
  {
    var all := a + b + c;
    assert forall k :: 0 <= k < |a| ==> all[k] == a[k];
    assert forall k :: 0 <= k < |b| ==> all[|a| + k] == b[k];
    assert forall k :: 0 <= k < |c| ==> all[|a| + |b| + k] == c[k];
  }

  lemma FreshAfter(order: seq<nat>, n: nat, visited: seq<nat>, all: seq<nat>)
    requires Fresh(order, n, all) && visited <= all
    ensures Fresh(order, n, visited)
  {
    assert forall x :: x in visited ==> x in all;
  }

  // ----- A pass goes on as long as it can -----

  /** The stream has sent all it had, or all that its window allows, and its end mark if that was due. */
  ghost predicate Exhausted(s: SendState, window: nat, t: SendState) {
    if Waiting(t) > 0 then Waiting(s) - Waiting(t) == window
    else t.finishedWriting && !t.failed && t.pending.None? ==> t.finSent
  }

  lemma CutExhausts(s: SendState, window: nat, room: nat)
    ensures match Cut(s, window, room)
            case None => Header(s) <= room ==> Exhausted(s, window, s) || Header(s) == room
            case Some((f, t)) => Length(f) == room || Exhausted(s, window, t)
  {
  }

  lemma {:induction false} WalkKeepsOthers(streams: seq<SendState>, windows: seq<nat>, order: seq<nat>, room: nat,
                                           i: nat)
    requires |windows| == |streams| && InRange(order, |streams|) && i < |streams| && i !in order
    ensures Walk(streams, windows, order, room).streams[i] == streams[i]
    decreases |order|
  {
    hide Cut, Header, WireLength, Length;
    if order != [] {
      var cut := Cut(streams[order[0]], windows[order[0]], room);
      if cut.None? {
        WalkKeepsOthers(streams, windows, order[1..], room, i);
      } else if Length(cut.value.0) != room {
        CutIsShort(streams[order[0]], windows[order[0]], room);
        WalkKeepsOthers(streams[order[0] := cut.value.1], windows, order[1..], room - Length(cut.value.0), i);
      }
    }
  }

  /** What is left of the room. */
  ghost function Leftover(w: Walked, room: nat): int {
    room - WireLength(w.frames)
  }

  /**
   The visits stop only when the packet is full or a header does not fit; and if they do not stop, every stream has sent
   what it could, or there was not even room for a byte behind its header.
   */
  ghost predicate Greedy(streams: seq<SendState>, windows: seq<nat>, order: seq<nat>, w: Walked, leftover: int)
    requires |windows| == |streams| == |w.streams| && InRange(order, |streams|)
  {
    if w.stopped then leftover == 0 || exists k :: 0 <= k < |order| && Header(streams[order[k]]) > leftover
    else
      forall k :: 0 <= k < |order| ==>
        || Exhausted(streams[order[k]], windows[order[k]], w.streams[order[k]])
        || Header(streams[order[k]]) >= leftover
  }

  lemma {:induction false} WalkIsGreedy(streams: seq<SendState>, windows: seq<nat>, order: seq<nat>, room: nat)
    requires |windows| == |streams| && Fresh(order, |streams|, [])
    ensures var w := Walk(streams, windows, order, room); Greedy(streams, windows, order, w, Leftover(w, room))
    decreases |order|
  {
    hide Cut, Header, Length, Exhausted;
    if order != [] {
      var i, cut := order[0], Cut(streams[order[0]], windows[order[0]], room);
      CutExhausts(streams[i], windows[i], room);
      FreshRest(order, |streams|, []);
      FreshAfter(order[1..], |streams|, [], [] + [i]);
      assert forall k :: 0 <= k < |order[1..]| ==> order[1..][k] == order[k + 1];
      var streams', room' := if cut.Some? then streams[i := cut.value.1] else streams,
                             if cut.Some? then room - Length(cut.value.0) else room;
      if cut.Some? {
        CutIsShort(streams[i], windows[i], room);
        LengthIsWire(cut.value.0);
      }
      if (cut.None? && Header(streams[i]) <= room) || (cut.Some? && Length(cut.value.0) != room) {
        WalkIsGreedy(streams', windows, order[1..], room');
        WalkKeepsOthers(streams', windows, order[1..], room', i);
        GreedyStep(streams, windows, order, room, streams', room');
      } else if cut.None? {
        assert Header(streams[order[0]]) > Leftover(Walk(streams, windows, order, room), room);
      }
    }
  }

  lemma LengthIsWire(f: StreamFrame)
    ensures WireLength([f]) == Length(f)
  {
    assert [f][1..] == [];
  }

  lemma GreedyStep(streams: seq<SendState>, windows: seq<nat>, order: seq<nat>, room: nat, streams': seq<SendState>,
                   room': nat)
    requires |windows| == |streams| == |streams'| && Fresh(order, |streams|, []) && order != []
    requires var i := order[0];
             && streams' == streams[i := streams'[i]]
             && var w, w' := Walk(streams, windows, order, room), Walk(streams', windows, order[1..], room');
                && w.stopped == w'.stopped && w.streams == w'.streams && Leftover(w, room) == Leftover(w', room')
                && w'.streams[i] == streams'[i]
                && (Exhausted(streams[i], windows[i], streams'[i]) || Header(streams[i]) >= Leftover(w, room))
                && Greedy(streams', windows, order[1..], w', Leftover(w', room'))
    ensures var w := Walk(streams, windows, order, room); Greedy(streams, windows, order, w, Leftover(w, room))
  {
    hide Walk, Header, Exhausted, Leftover;
    var w, rest := Walk(streams, windows, order, room), order[1..];
    assert forall k :: 0 <= k < |rest| ==> rest[k] == order[k + 1] && streams'[rest[k]] == streams[order[k + 1]];
    if w.stopped && Leftover(w, room) != 0 {
      var k :| 0 <= k < |rest| && Header(streams'[rest[k]]) > Leftover(w, room);
      assert Header(streams[order[k + 1]]) > Leftover(w, room);
    } else if !w.stopped {
      forall k | 0 <= k < |order|
        ensures || Exhausted(streams[order[k]], windows[order[k]], w.streams[order[k]])
                || Header(streams[order[k]]) >= Leftover(w, room)
      {
        if k > 0 {
          assert rest[k - 1] == order[k];
        }
      }
    }
  }

  // ----- A whole pass -----

  /** What a pass is given: the streams and their send windows, the order of the visits, and the room. */
  datatype Inputs = Inputs(
    streams: seq<SendState>,
    windows: seq<nat>,
    priority: seq<nat>,
    first: seq<nat>,
    second: seq<nat>,
    sendingAllowed: bool,
    room: nat)
  {
    ghost predicate Ok() {
      |windows| == |streams| && Fresh(priority + first + second, |streams|, [])
    }

    ghost predicate Distinct() {
      forall i, j :: 0 <= i < j < |streams| ==> streams[i].streamId != streams[j].streamId
    }

    lemma Parts()
      requires Ok()
      ensures InRange(priority, |streams|) && InRange(first, |streams|) && InRange(second, |streams|)
    {
      FreshParts(priority, first, second, |streams|);
    }

    /** The streams with priority. */
    ghost function Prior(): (w: Walked)
      requires Ok()
      ensures |w.streams| == |streams| && WireLength(w.frames) <= room
    {
      Parts();
      Walk(streams, windows, priority, room)
    }

    /** The streams with priority, and then the first class, if the path may send. */
    ghost function First(): (w: Walked)
      requires Ok()
      ensures |w.streams| == |streams| && WireLength(w.frames) <= room
      ensures w.full ==> w.frames != [] && WireLength(w.frames) == room && w.frames[|w.frames| - 1].data != []
    {
      Parts();
      var p := Prior();
      if p.stopped || !sendingAllowed then p.(full := false)
      else
        var f := Walk(p.streams, windows, first, room - WireLength(p.frames));
        WireLengthAppend(p.frames, f.frames);
        Walked(f.streams, p.frames + f.frames, f.stopped, f.full)
    }

    /** The first class fills the packet exactly, and there is a stream of the second class to visit. */
    ghost predicate Overwritten()
      requires Ok()
    {
      First().full && second != []
    }

    /** The second class, which is visited even if the first one said stop. */
    ghost function Second(): (w: Walked)
      requires Ok()
      ensures |w.streams| == |streams| && WireLength(w.frames) <= room - WireLength(First().frames)
    {
      Parts();
      if Prior().stopped || Overwritten() then Walked(First().streams, [], true, false)
      else Walk(First().streams, windows, second, room - WireLength(First().frames))
    }

    /** The frames as they are cut from the streams. */
    ghost function Cuts(): seq<StreamFrame>
      requires Ok()
    {
      First().frames + Second().frames
    }

    ghost function After(): seq<SendState>
      requires Ok()
    {
      Second().streams
    }

    /** The last frame under the number and the offset of the first stream of the second class. */
    ghost function Relabelled(): StreamFrame
      requires Ok() && Overwritten()
    {
      Parts();
      var s := First().streams[second[0]];
      First().frames[|First().frames| - 1].(streamId := s.streamId, offset := s.writeOffset)
    }

    /** The frames as they are sent. */
    ghost function Frames(): seq<StreamFrame>
      requires Ok()
    {
      if Overwritten() then SetLast(Cuts(), Relabelled()) else Cuts()
    }

    lemma PriorConserves() returns (t: GoodTrace)
      requires Ok()
      ensures t.before == streams && t.windows == windows && t.after == Prior().streams && t.Frames() == Prior().frames
      ensures if Prior().stopped then t.order <= priority else t.order == priority
    {
      hide Walk, WireLength, Somes, CutFrom;
      FreshParts(priority, first, second, |streams|);
      NothingCut();
      var start := Trace(streams, windows, [], [], streams);
      assert [] + Prior().frames == Prior().frames && [] + priority == priority;
      t := WalkConserves(streams, windows, priority, room, start);
    }

    lemma FirstConserves() returns (t: GoodTrace)
      requires Ok()
      ensures t.before == streams && t.windows == windows && t.after == First().streams && t.Frames() == First().frames
      ensures t.order <= priority + first
    {
      hide Walk, WireLength, Somes, CutFrom, Prior;
      FreshParts(priority, first, second, |streams|);
      var p := Prior();
      t := PriorConserves();
      assert t.order <= priority + first;
      if !p.stopped && sendingAllowed {
        t := WalkConserves(p.streams, windows, first, room - WireLength(p.frames), t);
      }
    }

    /** A pass cuts frames that fit, and conserves every stream. */
    lemma Conserves() returns (t: GoodTrace)
      requires Ok()
      ensures WireLength(Cuts()) <= room
      ensures t.before == streams && t.windows == windows && t.after == After() && t.Frames() == Cuts()
    {
      hide Walk, WireLength, Somes, First, Prior;
      FreshParts(priority, first, second, |streams|);
      WireLengthAppend(First().frames, Second().frames);
      t := FirstConserves();
      assert First().frames + [] == First().frames;
      if !Prior().stopped && !Overwritten() {
        FreshAfter(second, |streams|, t.order, priority + first);
        t := WalkConserves(First().streams, windows, second, room - WireLength(First().frames), t);
      }
    }

    /**
     What is sent is what was cut, unless the last frame is overwritten; then its data goes out under another stream's
     number.
     */
    lemma SentIsCutIff()
      requires Ok() && Distinct()
      ensures Frames() == Cuts() <==> !Overwritten()
      ensures Overwritten() ==> Cuts() != [] && Relabelled().streamId != Cuts()[|Cuts()| - 1].streamId
    {
      hide Walk, WireLength;
      if Overwritten() {
        FreshParts(priority, first, second, |streams|);
        var p, id := Prior(), streams[second[0]].streamId;
        var left := room - WireLength(p.frames);
        WalkKeepsNumbers(streams, windows, priority, room, id);
        WalkKeepsNumbers(p.streams, windows, first, left, id);
        assert Cuts()[|Cuts()| - 1] in Walk(p.streams, windows, first, left).frames;
      }
    }

    /** A pass with an overwritten frame has used up the room, so it is too long exactly if the new header is. */
    lemma OverwrittenFitsIff()
      requires Ok() && Overwritten()
      ensures Cuts() != []
      ensures WireLength(Frames()) == room - HeaderLength(Cuts()[|Cuts()| - 1]) + HeaderLength(Relabelled())
    {
      var fs := Cuts();
      var n := |fs| - 1;
      assert First().frames + [] == First().frames;
      assert fs == fs[..n] + [fs[n]];
      assert Frames() == fs[..n] + [Relabelled()];
      WireLengthAppend(fs[..n], [fs[n]]);
      WireLengthAppend(fs[..n], [Relabelled()]);
    }
  }

  // ----- A pass that relabels a frame -----

  /**
   An unmarked stream with one byte, and a marked one that has sent `offset` bytes, in room for exactly the one byte.
   */
  function Example(offset: nat): Inputs {
    Inputs([SendState(5, Some([9]), 0, false, false, false, None),
            SendState(7, None, offset, false, false, false, Some(false))],
           [10, 10], [], [0], [1], true, 5)
  }

  lemma ExampleWalks(offset: nat)
    ensures var e := Example(offset);
            var f, t := StreamFrame(5, 0, [9], false, true, false), e.streams[0].(pending := None, writeOffset := 1);
            && Walk(e.streams, e.windows, [], 5) == Walked(e.streams, [], false, false)
            && Walk(e.streams, e.windows, [0], 5) == Walked(e.streams[0 := t], [f], true, true)
  {
    var e := Example(offset);
    var f, t := StreamFrame(5, 0, [9], false, true, false), e.streams[0].(pending := None, writeOffset := 1);
    assert Cut(e.streams[0], 10, 5) == Some((f, t));
  }

  /**
   The byte of stream 5 goes out as a byte of stream 7, and the frame gets longer than the room when stream 7 has sent
   something.
   */
  lemma ByteOnOtherStream(offset: nat)
    ensures var e := Example(offset);
            && e.Ok() && e.Distinct() && e.Overwritten()
            && e.Cuts() == [StreamFrame(5, 0, [9], false, true, false)]
            && e.Frames() == [StreamFrame(7, offset, [9], false, true, false)]
            && e.After() == [SendState(5, None, 1, false, false, false, None), e.streams[1]]
            && (WireLength(e.Frames()) <= e.room <==> offset == 0)
  {
    hide Walk, Cut;
    var e, f := Example(offset), StreamFrame(5, 0, [9], false, true, false);
    ExampleWalks(offset);
    assert [] + [0] + [1] == [0, 1];
    assert WireLength([]) == 0;
    assert [] + [f] == [f] + [] == [f];
    assert WireLength([f.(streamId := 7, offset := offset)]) == 5 + OffsetLength(offset) + WireLength([]);
  }

  // ----- The pass -----

  datatype Outcome = Stop | Skip | Emit

  function Blank(streamId: nat, offset: nat): StreamFrame {
    StreamFrame(streamId, offset, [], false, true, false)
  }

  function SetLast(fs: seq<StreamFrame>, f: StreamFrame): seq<StreamFrame> {
    if fs == [] then [] else fs[|fs| - 1 := f]
  }

  class Pass {
    const maxBytes: nat
    var streams: seq<SendState>
    var currentLen: nat
    var res: seq<StreamFrame>
    /** The frame object that is being filled in. */
    var frame: StreamFrame
    /** That object is also the last one of `res`. */
    var shared: bool

    constructor (maxBytes: nat, streams: seq<SendState>)
      ensures this.maxBytes == maxBytes && this.streams == streams && res == [] && !shared && Valid()
    {
      this.maxBytes, this.streams := maxBytes, streams;
      currentLen, res, frame, shared := 0, [], Blank(0, 0), false;
    }

    ghost predicate Valid()
      reads this
    {
      && currentLen <= maxBytes
      && (if shared then res != [] && frame == res[|res| - 1] && currentLen == maxBytes
          else frame == Blank(frame.streamId, frame.offset) && currentLen == WireLength(res))
    }

    /** Write to the frame object. */
    method SetFrame(f: StreamFrame)
      requires shared ==> res != []
      modifies this`frame, this`res
      ensures frame == f && res == if shared then SetLast(old(res), f) else old(res)
    {
      frame := f;
      if shared {
        res := SetLast(res, f);
      }
    }

    /** Fill in the frame for stream number `i`; `window` is its send window. */
    method FillIn(i: nat, window: nat) returns (outcome: Outcome)
      requires Valid() && i < |streams|
      modifies this`frame, this`res, this`streams
      ensures var s, f := old(streams[i]),
              old(frame).(streamId := old(streams[i]).streamId, offset := old(streams[i]).writeOffset);
              var cut := Cut(s, window, maxBytes - currentLen);
              && (outcome == Stop <==> Header(s) > maxBytes - currentLen)
              && (outcome == Emit <==> cut.Some?)
              && (if cut.Some? then
                    frame == cut.value.0 && streams == old(streams)[i := cut.value.1] && !shared && res == old(res)
                  else
                    frame == f && streams == old(streams) && res == if shared then SetLast(old(res), f) else old(res))
    {
      var s := streams[i];
      SetFrame(frame.(streamId := s.streamId, offset := s.writeOffset));
      var frameHeaderBytes := HeaderLength(frame.(dataLenPresent := true));
      if currentLen + frameHeaderBytes > maxBytes {
        return Stop;
      }
      var maxLen := maxBytes - currentLen - frameHeaderBytes;
      var lenStreamData := Waiting(s);
      if lenStreamData != 0 && window < maxLen {
        maxLen := window;
      }
      if maxLen == 0 {
        return Skip;
      }
      var data, rest := [], s.pending;
      if lenStreamData != 0 {
        var taken := TakeData(s.pending, maxLen);
        data, rest := taken.0, taken.1;
        s := s.(pending := rest, writeOffset := s.writeOffset + |data|);
      }
      var shouldSendFin := s.finishedWriting && !s.finSent && !s.failed && s.pending.None?;
      if lenStreamData == 0 && !shouldSendFin {
        return Skip;
      }
      if shouldSendFin {
        s := s.(finSent := true);
      }
      streams := streams[i := s];
      SetFrame(frame.(data := data, fin := shouldSendFin, unreliable := s.mark == Some(true)));
      return Emit;
    }

    /** Let stream number `i` fill in the frame and emit it if there is something to send. */
    method Visit(i: nat, window: nat) returns (cont: bool)
      requires Valid() && i < |streams|
      modifies this
      ensures Valid()
      ensures !old(shared) ==> currentLen == WireLength(res)
      ensures !old(shared) ==>
                var s, room := old(streams[i]), maxBytes - old(currentLen);
                match Cut(s, window, room)
                case None =>
                  streams == old(streams) && res == old(res) && currentLen == old(currentLen) && !shared
                      && cont == (Header(s) <= room)
                case Some((f, t)) =>
                  && streams == old(streams)[i := t] && res == old(res) + [f]
                  && currentLen == old(currentLen) + Length(f) && shared == !cont == (Length(f) == room)
      ensures old(shared) ==>
                && !cont && shared && streams == old(streams) && currentLen == old(currentLen)
                && res == SetLast(old(res),
                                  old(frame).(streamId := streams[i].streamId, offset := streams[i].writeOffset))
    {
      var outcome := FillIn(i, window);
      if outcome != Emit {
        return outcome == Skip;
      }
      WireLengthAppend(res, [frame]);
      res := res + [frame];
      currentLen := currentLen + HeaderLength(frame) + |frame.data|;
      shared := true;
      if currentLen == maxBytes {
        return false;
      }
      frame, shared := Blank(0, 0), false;
      return true;
    }

    /** Visit streams in order until one of them says stop. */
    method VisitAll(order: seq<nat>, windows: seq<nat>) returns (stopped: bool)
      requires Valid() && !shared && |windows| == |streams| && InRange(order, |streams|)
      modifies this
      ensures Valid() && currentLen == WireLength(res)
      ensures var w := Walk(old(streams), windows, order, maxBytes - old(currentLen));
              streams == w.streams && res == old(res) + w.frames && stopped == w.stopped && shared == w.full
    {
      hide Walk, Cut, Header, WireLength, Length;
      stopped := false;
      ghost var all := Walk(streams, windows, order, maxBytes - currentLen);
      var i := 0;
      assert order[0..] == order;
      while i < |order| && !stopped
        invariant 0 <= i <= |order| && Valid() && currentLen == WireLength(res)
        invariant |streams| == |windows| && (shared ==> stopped)
        invariant stopped ==> all == Walked(streams, all.frames, true, shared) && old(res) + all.frames == res
        invariant !stopped ==> Rest(all, old(res), order, i, windows)
        decreases |order| - i, !stopped
      {
        WalkNext(streams, windows, order, i, maxBytes - currentLen);
        ghost var before := res;
        ghost var cut := Cut(streams[order[i]], windows[order[i]], maxBytes - currentLen);
        ghost var w := Walk(streams, windows, order[i..], maxBytes - currentLen);
        var cont := Visit(order[i], windows[order[i]]);
        if cut.Some? && cont {
          assert before + ([cut.value.0] + w.frames[1..]) == res + w.frames[1..];
        }
        stopped := !cont;
        i := i + 1;
      }
      if !stopped {
        NoMore(streams, windows, maxBytes - currentLen);
        assert order[i..] == [];
      }
    }

    /** What is left to visit leads from here to where all the visits lead. */
    ghost predicate Rest(all: Walked, before: seq<StreamFrame>, order: seq<nat>, i: nat, windows: seq<nat>)
      reads this
      requires |windows| == |streams| && InRange(order, |streams|) && i <= |order| && currentLen <= maxBytes
    {
      var w := Walk(streams, windows, order[i..], maxBytes - currentLen);
      all == w.(frames := all.frames) && before + all.frames == res + w.frames
    }

    /** The streams with priority, and then the first class. */
    method PopFirstClass(priority: seq<nat>, first: seq<nat>, ghost second: seq<nat>, windows: seq<nat>,
                         sendingAllowed: bool)
      returns (done: bool)
      requires Valid() && !shared && res == []
               && Inputs(streams, windows, priority, first, second, sendingAllowed, maxBytes).Ok()
      modifies this
      ensures var inputs := Inputs(old(streams), windows, priority, first, second, sendingAllowed, maxBytes);
              && Valid() && currentLen == WireLength(res) && res == inputs.First().frames
              && streams == inputs.First().streams
              && done == inputs.Prior().stopped && (!done ==> shared == inputs.First().full)
    {
      hide Walk, WireLength;
      ghost var inputs := Inputs(streams, windows, priority, first, second, sendingAllowed, maxBytes);
      inputs.Parts();
      NothingCut();
      done := VisitAll(priority, windows);
      assert [] + inputs.Prior().frames == inputs.Prior().frames;
      if !done && sendingAllowed {
        var stopped := VisitAll(first, windows);
      }
    }

    /**
     One pass: the streams with priority, the first class, and the second class. The second class is visited even if the
     first one was told to stop. When the packet was full then, the visit overwrites the stream and offset of the frame
     emitted last.
     */
    method PopNormalFrames(priority: seq<nat>, first: seq<nat>, second: seq<nat>, windows: seq<nat>,
                           sendingAllowed: bool)
      requires Valid() && !shared && res == []
               && Inputs(streams, windows, priority, first, second, sendingAllowed, maxBytes).Ok()
      modifies this
      ensures var inputs := Inputs(old(streams), windows, priority, first, second, sendingAllowed, maxBytes);
              res == inputs.Frames() && streams == inputs.After()
    {
      hide Walk, WireLength;
      ghost var inputs := Inputs(streams, windows, priority, first, second, sendingAllowed, maxBytes);
      inputs.Parts();
      var done := PopFirstClass(priority, first, second, windows, sendingAllowed);
      assert res + [] == res;
      if !done && |second| > 0 {
        if shared {
          var cont := Visit(second[0], windows[second[0]]);
        } else {
          var stopped := VisitAll(second, windows);
        }
      } else if !done {
        NoMore(streams, windows, maxBytes - currentLen);
      }
    }
  }
}
