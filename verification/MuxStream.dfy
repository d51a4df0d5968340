/** One multiplexed stream between two sessions: both ends, the control frames each end's session holds
    for it, and its frames on the wire in both directions.

    Every step is taken by the end called `me`; `Flip` exchanges the ends, so a run may let either act.
    Other streams, and how a session picks whose frame leaves next, are the business of module
    MuxSession, which proves that each stream of a session takes these steps and no others. */
module MuxStream {
  import opened Bytes
  import opened Windows

  // ------------------------------------------------------------------- state

  datatype Frame = Syn(delta: nat) | Ack(delta: nat) | Data(bytes: seq<byte>) | Fin | Rst | Grant(n: nat)

  datatype FinState = NoFin | FinQueued | FinSent

  /** The write lock: free, a write framing the rest of what it accepted, or a CloseWrite under way. */
  datatype Hand = Idle | Framing(rest: seq<byte>) | Ending

  datatype Conf = Conf(
    opener: bool,            // this end opened, or may open, the stream
    window: nat,             // WindowSize
    maxFrame: nat)           // MaxFrame

  datatype Life = Life(
    down: bool,              // the session lost its transport
    made: bool,              // the Stream exists
    inTable: bool,
    aborted: bool,           // it left the table without finishing
    opening: bool,
    closed: bool,
    told: bool)              // it asked for a reset frame to be sent

  /** The sending half. */
  datatype Tx = Tx(
    wrote: seq<byte>,        // what Write accepted, ever
    out: seq<seq<byte>>, hand: Hand, localFin: bool, finState: FinState,
    fins: nat)               // FIN frames the transport took

  /** The receiving half. */
  datatype Rx = Rx(
    got: seq<byte>,          // what was read or discarded, ever
    inq: seq<byte>, peerFin: bool)

  datatype End = End(
    conf: Conf, life: Life, tx: Tx, rx: Rx, send: Send, recv: Recv,
    owes: nat,               // a grant its reader is about to send
    ctl: seq<Frame>,         // control frames the session holds for it
    faults: nat)             // flow-control and open violations reported

  datatype State = State(me: End, peer: End, toPeer: seq<Frame>, toMe: seq<Frame>)

  function Flip(s: State): State { State(s.peer, s.me, s.toMe, s.toPeer) }

  function Unopened(conf: Conf): End {
    End(conf, Life(false, false, false, false, false, false, false), Tx([], [], Idle, false, NoFin, 0),
        Rx([], [], false), Send(0, 0), Recv(0, 0, 0, 0), 0, [], 0)
  }

  /** Config.resolve makes every window at least the protocol floor; windows travel as 32-bit numbers. */
  predicate Configured(c: Conf) { MIN_WINDOW <= c.window < 0x1_0000_0000 && 0 < c.maxFrame }

  ghost predicate Init(s: State) {
    && Configured(s.me.conf) && Configured(s.peer.conf) && s.me.conf.opener != s.peer.conf.opener
    && s.me == Unopened(s.me.conf) && s.peer == Unopened(s.peer.conf)
    && s.toPeer == [] && s.toMe == []
  }

  // ------------------------------------------------------------------- steps

  datatype Step =
    | Open | FlushControl | FlushData | FlushFin
    | Write(bytes: seq<byte>) | Enqueue | CloseWrite | QueueFin
    | Read(n: nat) | SendGrant
    | Receive(accept: bool)
    | Abort(tell: bool) | Reset | Finish | Down

  function DeltaOf(c: Conf): nat { if c.window >= MIN_WINDOW then c.window - MIN_WINDOW else 0 }

  /** Leaves the table: queued frames and an unsent FIN go with it. */
  function Leave(e: End, tell: bool): End {
    if !e.life.inTable then e
    else e.(life := e.life.(inTable := false, aborted := true, told := e.life.told || tell),
            tx := e.tx.(out := [], finState := NoFin),
            ctl := if tell && !e.life.down then e.ctl + [Rst] else e.ctl)
  }

  /** The session has no transport for its frames any more. */
  function Drop(e: End): End { e.(life := e.life.(down := true), ctl := []) }

  /** How much of what a write accepted its next frame carries. */
  function Chunk(c: Conf, rest: seq<byte>): nat { if |rest| > c.maxFrame then c.maxFrame else |rest| }

  /** What a Write that finds credit accepts: as much as the window covers. */
  function Accepted(w: Send, bytes: seq<byte>): seq<byte>
    requires w.avail > 0
  {
    if |bytes| > w.avail then bytes[..w.avail] else bytes
  }

  /** The application writes or ends its direction. */
  function WriteDo(e: End, step: Step): End {
    var l, t := e.life, e.tx;
    match step
    case Write(bytes) =>
      if !l.made || !t.hand.Idle? || bytes == [] || l.closed || l.opening || t.localFin || e.send.avail <= 0 then e
      else
        var part := Accepted(e.send, bytes);
        e.(send := e.send.(avail := e.send.avail - |part|), tx := t.(hand := Framing(part), wrote := t.wrote + part))
    case Enqueue =>
      if !t.hand.Framing? then e
      else if !l.inTable || t.hand.rest == [] then e.(tx := t.(hand := Idle))
      else
        var n := Chunk(e.conf, t.hand.rest);
        e.(tx := t.(out := t.out + [t.hand.rest[..n]],
                    hand := if n == |t.hand.rest| then Idle else Framing(t.hand.rest[n..])))
    case CloseWrite =>
      if !l.made || !t.hand.Idle? || l.closed || t.localFin then e
      else e.(tx := t.(localFin := true, hand := Ending))
    case QueueFin =>
      if !t.hand.Ending? then e
      else e.(tx := t.(hand := Idle, finState := if t.finState.NoFin? && l.inTable then FinQueued else t.finState))
    case _ => e
  }

  /** The application reads or discards, and its credit goes back. */
  function ReadDo(e: End, step: Step): End {
    match step
    case Read(n) =>
      if n == 0 || n > |e.rx.inq| || e.owes > 0 then e
      else
        var (recv, granted) := Consumed(e.recv, n);
        e.(rx := e.rx.(inq := e.rx.inq[n..], got := e.rx.got + e.rx.inq[..n]), recv := recv,
           owes := if granted > 0 then granted else 0)
    case SendGrant =>
      if e.owes == 0 then e else e.(owes := 0, ctl := if e.life.down then e.ctl else e.ctl + [Grant(e.owes)])
    case _ => e
  }

  /** The stream begins or ends at this end.  Only an open that timed out leaves without a reset. */
  function LifeDo(e: End, step: Step): End {
    var l := e.life;
    match step
    case Open =>
      if !e.conf.opener || l.made || l.down then e
      else e.(life := l.(made := true, inTable := true, opening := true), send := Send(MIN_WINDOW, MIN_WINDOW),
              recv := Fresh(e.conf.window), ctl := e.ctl + [Syn(DeltaOf(e.conf))])
    case Abort(tell) => if tell || l.opening then Leave(e, tell) else e
    case Reset => if l.aborted && !l.closed then e.(life := l.(closed := true), rx := e.rx.(inq := [])) else e
    case Finish =>
      if l.inTable && !l.closed && e.rx.peerFin && e.tx.localFin && e.tx.finState.FinSent? && e.tx.out == []
         && e.rx.inq == []
      then e.(life := l.(closed := true, inTable := false), tx := e.tx.(finState := NoFin))
      else e
    case Down => Drop(Leave(e, false))
    case _ => e
  }

  /** The session's flush hands one of the stream's frames to the transport. */
  function FlushDo(s: State, step: Step): State {
    var e := s.me;
    if e.life.down then s
    else match step
      case FlushControl =>
        if e.ctl == [] then s else s.(me := e.(ctl := e.ctl[1..]), toPeer := s.toPeer + [e.ctl[0]])
      case FlushData =>
        if e.ctl != [] || !e.life.inTable || e.tx.out == [] then s
        else s.(me := e.(tx := e.tx.(out := e.tx.out[1..])), toPeer := s.toPeer + [Data(e.tx.out[0])])
      case FlushFin =>
        if e.ctl != [] || !e.life.inTable || e.tx.out != [] || !e.tx.finState.FinQueued? then s
        else s.(me := e.(tx := e.tx.(finState := FinSent, fins := e.tx.fins + 1)), toPeer := s.toPeer + [Fin])
      case _ => s
  }

  /** Resets a stream this end does not know or will not take. */
  function Refuse(e: End): End { e.(life := e.life.(told := true), ctl := e.ctl + [Rst]) }

  /** What the end makes of one arriving frame. */
  function Handle(e: End, f: Frame, accept: bool): End {
    var l := e.life;
    match f
    case Syn(delta) =>
      if l.made || e.conf.opener then e.(faults := e.faults + 1)
      else if !accept then Refuse(e)
      else
        var w := Min(MIN_WINDOW + delta, e.conf.window);
        e.(life := l.(made := true, inTable := true), send := Send(w, w),
           recv := Retuned(Fresh(e.conf.window), MIN_WINDOW + delta), ctl := e.ctl + [Ack(DeltaOf(e.conf))])
    case Ack(delta) =>
      if !l.inTable || !l.opening then e
      else
        var w := Min(MIN_WINDOW + delta, e.conf.window);
        e.(life := l.(opening := false), send := Send(w, w), recv := Retuned(e.recv, MIN_WINDOW + delta))
    case Data(bytes) =>
      if !l.inTable then Refuse(e)
      else if bytes == [] then e
      else if Holds(e.recv, |bytes|) then
        e.(recv := Arrived(e.recv, |bytes|), rx := e.rx.(inq := e.rx.inq + bytes))
      else e.(recv := Arrived(e.recv, |bytes|), faults := e.faults + 1)
    case Fin => if !l.inTable then e else e.(rx := e.rx.(peerFin := true))
    case Rst => Leave(e, false)
    case Grant(n) =>
      if !l.inTable || n == 0 then e
      else if Grantable(e.send, n) then e.(send := Granted(e.send, n))
      else e.(faults := e.faults + 1)
  }

  predicate OfFlush(step: Step) { step.FlushControl? || step.FlushData? || step.FlushFin? }

  predicate OfLife(step: Step) { step.Open? || step.Abort? || step.Reset? || step.Finish? || step.Down? }

  predicate OfWrite(step: Step) { step.Write? || step.Enqueue? || step.CloseWrite? || step.QueueFin? }

  /** A step taken by `me`. */
  function Do(s: State, step: Step): State {
    if step.Receive? then
      if s.toMe == [] || s.me.life.down then s
      else s.(me := Handle(s.me, s.toMe[0], step.accept), toMe := s.toMe[1..])
    else if OfFlush(step) then FlushDo(s, step)
    else if OfLife(step) then s.(me := LifeDo(s.me, step))
    else if OfWrite(step) then s.(me := WriteDo(s.me, step))
    else s.(me := ReadDo(s.me, step))
  }

  /** A step taken by either end. */
  function Move(s: State, mine: bool, step: Step): State {
    if mine then Do(s, step) else Flip(Do(Flip(s), step))
  }

  function Exec(s: State, steps: seq<(bool, Step)>): State {
    if steps == [] then s
    else Move(Exec(s, steps[..|steps| - 1]), steps[|steps| - 1].0, steps[|steps| - 1].1)
  }

  // ----------------------------------------------------------- frames, summed

  predicate Opens(f: Frame) { f.Syn? || f.Ack? }

  function BytesOf(f: Frame): seq<byte> { if f.Data? then f.bytes else [] }

  function CreditOf(f: Frame): nat { if f.Grant? then f.n else 0 }

  /** The payloads of a sequence of frames. */
  function DataIn(fs: seq<Frame>): seq<byte> {
    if fs == [] then [] else BytesOf(fs[0]) + DataIn(fs[1..])
  }

  function GrantsIn(fs: seq<Frame>): nat { if fs == [] then 0 else CreditOf(fs[0]) + GrantsIn(fs[1..]) }

  function FinsIn(fs: seq<Frame>): nat { if fs == [] then 0 else (if fs[0].Fin? then 1 else 0) + FinsIn(fs[1..]) }

  function OpensIn(fs: seq<Frame>): nat { if fs == [] then 0 else (if Opens(fs[0]) then 1 else 0) + OpensIn(fs[1..]) }

  /** Frames other than resets. */
  function OthersIn(fs: seq<Frame>): nat { if fs == [] then 0 else (if fs[0].Rst? then 0 else 1) + OthersIn(fs[1..]) }

  /** Frames that are not control frames: data and FINs. */
  function StreamIn(fs: seq<Frame>): nat {
    if fs == [] then 0 else (if fs[0].Data? || fs[0].Fin? then 1 else 0) + StreamIn(fs[1..])
  }

  /** No data and no second FIN follows a FIN. */
  predicate Clean(fs: seq<Frame>) {
    fs == [] || ((fs[0].Fin? ==> DataIn(fs[1..]) == [] && FinsIn(fs[1..]) == 0) && Clean(fs[1..]))
  }

  lemma {:induction false} DataSnoc(fs: seq<Frame>, f: Frame)
    ensures DataIn(fs + [f]) == DataIn(fs) + BytesOf(f)
  {
    if fs == [] {
      assert fs + [f] == [f];
      assert DataIn([f]) == BytesOf(f) + [];
    } else {
      assert (fs + [f])[1..] == fs[1..] + [f];
      DataSnoc(fs[1..], f);
      assert BytesOf(fs[0]) + (DataIn(fs[1..]) + BytesOf(f)) == (BytesOf(fs[0]) + DataIn(fs[1..])) + BytesOf(f);
    }
  }

  lemma {:induction false} CountsSnoc(fs: seq<Frame>, f: Frame)
    ensures GrantsIn(fs + [f]) == GrantsIn(fs) + CreditOf(f)
    ensures FinsIn(fs + [f]) == FinsIn(fs) + (if f.Fin? then 1 else 0)
    ensures OpensIn(fs + [f]) == OpensIn(fs) + (if Opens(f) then 1 else 0)
    ensures OthersIn(fs + [f]) == OthersIn(fs) + (if f.Rst? then 0 else 1)
    ensures StreamIn(fs + [f]) == StreamIn(fs) + (if f.Data? || f.Fin? then 1 else 0)
  {
    if fs == [] {
      assert fs + [f] == [f];
    } else {
      assert (fs + [f])[1..] == fs[1..] + [f];
      CountsSnoc(fs[1..], f);
    }
  }

  lemma {:induction false} CleanSnoc(fs: seq<Frame>, f: Frame)
    requires Clean(fs) && (FinsIn(fs) == 0 || (BytesOf(f) == [] && !f.Fin?))
    ensures Clean(fs + [f])
  {
    if fs == [] {
      assert fs + [f] == [f];
    } else {
      assert (fs + [f])[1..] == fs[1..] + [f];
      CleanSnoc(fs[1..], f);
      DataSnoc(fs[1..], f);
      CountsSnoc(fs[1..], f);
    }
  }

  // --------------------------------------------------------- the invariants

  function Rest(h: Hand): seq<byte> { if h.Framing? then h.rest else [] }

  function Small(a: Conf, b: Conf): int { Min(a.window, b.window) }

  predicate Established(l: Life) { l.made && !l.opening }

  /** An end that may have dropped frames or credit. */
  predicate Gone(l: Life) { l.aborted || l.down }

  /** An end whose stream ended cleanly. */
  predicate Finished(l: Life) { l.made && !l.inTable && !l.aborted }

  /** The ways a stream passes through its end of the table. */
  predicate Living(c: Conf, l: Life, ctl: seq<Frame>) {
    && Configured(c)
    && (l.inTable ==> l.made && !l.closed && !l.aborted && !l.down)
    && (l.aborted ==> l.made)
    && (Finished(l) ==> l.closed)
    && (!l.made ==> !l.closed)
    && (l.opening ==> c.opener && l.made)
    && (l.down ==> ctl == [])
    && StreamIn(ctl) == 0
  }

  predicate Sending(l: Life, t: Tx) {
    && (!l.inTable ==> t.out == [])
    && (!Established(l) ==> t.wrote == [] && t.out == [] && !t.hand.Framing?)
    && (!l.made ==> t.hand.Idle? && !t.localFin && t.finState.NoFin? && t.fins == 0)
    && (t.localFin ==> !t.hand.Framing?)
    && (t.fins == 1 ==> t.localFin && t.out == [])
    && t.fins <= 1
    && (l.inTable ==> (t.finState.FinSent? <==> t.fins == 1))
    && (t.finState.FinQueued? || t.hand.Ending? ==> t.localFin)
    && (Finished(l) ==> t.fins == 1)
  }

  predicate Receiving(c: Conf, l: Life, r: Rx, w: Recv, owes: nat) {
    && 0 <= w.consumed && 0 <= w.buffered
    && (!Established(l) ==> r == Rx([], [], false) && owes == 0 && w.buffered == 0 && w.consumed == 0)
    && (l.made ==> w.size == c.window && w.consumed < w.grant)
    && (!(l.closed && l.aborted) ==> w.buffered == |r.inq|)
    && (Finished(l) ==> r.inq == [] && r.peerFin)
  }

  predicate Sound(e: End) {
    && e.faults == 0 && e.send.avail >= 0
    && Living(e.conf, e.life, e.ctl) && Sending(e.life, e.tx) && Receiving(e.conf, e.life, e.rx, e.recv, e.owes)
  }

  /** Bytes accepted and not on the wire: queued frames, then what a write has in hand. */
  function Tail(t: Tx): seq<byte> { Flatten(t.out) + Rest(t.hand) }

  predicate Prefix(a: seq<byte>, b: seq<byte>) { |a| <= |b| && b[..|a|] == a }

  /** Bytes of one direction in the order they were accepted: read, unread, on the wire, and the tail.
      `alost`, `blost`: the sending, the receiving end aborted. */
  predicate Carried(wrote: seq<byte>, tail: seq<byte>, alost: bool, r: Rx, blost: bool, data: seq<byte>) {
    && (!alost && !blost ==> wrote == r.got + (r.inq + (data + tail)))
    && (!blost ==> Prefix(r.got + (r.inq + data), wrote))
    && Prefix(r.got + r.inq, wrote)
  }

  /** The FIN leaves behind every byte: of the frames on the wire, their payloads, FINs and order. */
  predicate Ended(wrote: seq<byte>, sent: nat, r: Rx, blost: bool, bclosed: bool,
                  data: seq<byte>, fins: nat, clean: bool) {
    && clean
    && fins + (if r.peerFin then 1 else 0) <= sent
    && (fins == 1 && !blost ==> r.got + (r.inq + data) == wrote)
    && (r.peerFin ==> data == [])
    && (r.peerFin && (!bclosed || !blost) ==> r.got + r.inq == wrote)
  }

  /** Credit of one direction, wherever it is, is the smaller window; an abort only loses some. */
  predicate Balanced(up: bool, lost: bool, w: Send, queued: nat, wire: nat,
                     v: Recv, owes: nat, grants: nat, small: int) {
    if up then
      var load := w.avail + queued + wire + v.buffered + v.consumed + owes + grants;
      w.max == small && load <= small && (!lost ==> load == small)
    else wire == 0 && v.buffered == 0 && v.consumed == 0 && owes == 0 && grants == 0
  }

  /** One direction, from `a` to `b`. */
  predicate Towards(a: End, b: End, ab: seq<Frame>, ba: seq<Frame>) {
    && Carried(a.tx.wrote, Tail(a.tx), a.life.aborted, b.rx, b.life.aborted, DataIn(ab))
    && Ended(a.tx.wrote, a.tx.fins, b.rx, b.life.aborted, b.life.closed, DataIn(ab), FinsIn(ab), Clean(ab))
    && Balanced(Established(a.life), !a.life.inTable || Gone(b.life), a.send, |Tail(a.tx)|, |DataIn(ab)|,
                b.recv, b.owes, GrantsIn(b.ctl) + GrantsIn(ba), Small(a.conf, b.conf))
    && (Established(b.life) ==> b.recv.grant == Threshold(Small(a.conf, b.conf)))
  }

  predicate SynAhead(o: Conf, ctl: seq<Frame>, op: seq<Frame>) {
    if op != [] then op[0] == Syn(DeltaOf(o)) else ctl != [] && ctl[0] == Syn(DeltaOf(o))
  }

  predicate AckAhead(p: Conf, ctl: seq<Frame>, po: seq<Frame>) {
    if po != [] then po[0] == Ack(DeltaOf(p)) else ctl != [] && ctl[0] == Ack(DeltaOf(p))
  }

  /** The opener's SYN and the acceptor's ACK come once each, ahead of everything else of their end. */
  predicate Opened(o: Conf, ol: Life, oc: seq<Frame>, p: Conf, pl: Life, pc: seq<Frame>,
                   op: seq<Frame>, po: seq<Frame>) {
    && o.opener && !p.opener
    && (!ol.made ==> op == [] && oc == [] && po == [] && pc == [] && !pl.made)
    && OpensIn(op) + OpensIn(oc) == (if SynAhead(o, oc, op) then 1 else 0)
    && OpensIn(po) + OpensIn(pc) == (if AckAhead(p, pc, po) then 1 else 0)
    && (SynAhead(o, oc, op) ==> !pl.made && po == [] && pc == [])
    && (AckAhead(p, pc, po) ==> pl.made && (ol.aborted || ol.opening))
    && (pl.made && ol.opening && !ol.aborted ==> AckAhead(p, pc, po) || (pl.down && po == []))
    && (Established(ol) ==> pl.made)
    && (!pl.made ==> OthersIn(po) == 0 && OthersIn(pc) == 0)
  }

  predicate Shaken(a: End, b: End, ab: seq<Frame>, ba: seq<Frame>) {
    if a.conf.opener then Opened(a.conf, a.life, a.ctl, b.conf, b.life, b.ctl, ab, ba)
    else Opened(b.conf, b.life, b.ctl, a.conf, a.life, a.ctl, ba, ab)
  }

  predicate Inv(s: State) {
    match s
    case State(me, peer, toPeer, toMe) =>
      && Sound(me) && Sound(peer)
      && Towards(me, peer, toPeer, toMe) && Towards(peer, me, toMe, toPeer)
      && Shaken(me, peer, toPeer, toMe)
  }

  // ------------------------------------------------------- one direction's bytes

  lemma CarriedWrite(wrote: seq<byte>, tail: seq<byte>, alost: bool, r: Rx, blost: bool,
                     data: seq<byte>, part: seq<byte>)
    requires Carried(wrote, tail, alost, r, blost, data)
    ensures Carried(wrote + part, tail + part, alost, r, blost, data)
  {
    assert (data + tail) + part == data + (tail + part);
    assert (r.inq + (data + tail)) + part == r.inq + ((data + tail) + part);
    assert (r.got + (r.inq + (data + tail))) + part == r.got + ((r.inq + (data + tail)) + part);
  }

  lemma TailEnqueue(t: Tx, n: nat, hand: Hand)
    requires t.hand.Framing? && n <= |t.hand.rest| && Rest(hand) == t.hand.rest[n..]
    ensures Tail(t.(out := t.out + [t.hand.rest[..n]], hand := hand)) == Tail(t)
  {
    var rest := t.hand.rest;
    FlattenSnoc(t.out, rest[..n]);
    assert (Flatten(t.out) + rest[..n]) + rest[n..] == Flatten(t.out) + rest;
  }

  lemma CarriedFlush(wrote: seq<byte>, x: seq<byte>, tail: seq<byte>, r: Rx, blost: bool, data: seq<byte>)
    requires Carried(wrote, x + tail, false, r, blost, data)
    ensures Carried(wrote, tail, false, r, blost, data + x)
  {
    assert data + (x + tail) == (data + x) + tail;
    if !blost {
      assert wrote == (r.got + (r.inq + (data + x))) + tail;
    }
  }

  lemma CarriedArrive(wrote: seq<byte>, tail: seq<byte>, alost: bool, r: Rx, bytes: seq<byte>, data: seq<byte>)
    requires Carried(wrote, tail, alost, r, false, bytes + data)
    ensures Carried(wrote, tail, alost, r.(inq := r.inq + bytes), false, data)
  {
    assert r.inq + ((bytes + data) + tail) == (r.inq + bytes) + (data + tail);
    assert r.inq + (bytes + data) == (r.inq + bytes) + data;
    assert r.got + ((r.inq + bytes) + data) == (r.got + (r.inq + bytes)) + data;
  }

  lemma CarriedRead(wrote: seq<byte>, tail: seq<byte>, alost: bool, r: Rx, blost: bool, data: seq<byte>, n: nat)
    requires Carried(wrote, tail, alost, r, blost, data) && n <= |r.inq|
    ensures Carried(wrote, tail, alost, r.(inq := r.inq[n..], got := r.got + r.inq[..n]), blost, data)
  {
    MovesOn(r.got, r.inq, data + tail, n);
    MovesOn(r.got, r.inq, data, n);
    MovesOn(r.got, r.inq, [], n);
    assert r.inq + [] == r.inq && r.inq[n..] + [] == r.inq[n..];
  }

  lemma MovesOn(got: seq<byte>, inq: seq<byte>, tail: seq<byte>, n: nat)
    requires n <= |inq|
    ensures got + (inq + tail) == (got + inq[..n]) + (inq[n..] + tail)
  {
    assert inq == inq[..n] + inq[n..];
  }

  /** The receiver drops what it had not read. */
  lemma CarriedReset(wrote: seq<byte>, tail: seq<byte>, alost: bool, r: Rx, data: seq<byte>)
    requires Carried(wrote, tail, alost, r, true, data)
    ensures Carried(wrote, tail, alost, r.(inq := []), true, data)
  {
    assert r.got + [] == r.got;
    assert (r.got + r.inq)[..|r.got|] == r.got;
  }

  lemma EndedFin(wrote: seq<byte>, r: Rx, blost: bool, bclosed: bool, data: seq<byte>, fins: nat)
    requires Carried(wrote, [], false, r, blost, data) && Ended(wrote, 0, r, blost, bclosed, data, fins, true)
    ensures Ended(wrote, 1, r, blost, bclosed, data, fins + 1, true)
  {
    assert data + [] == data;
  }

  lemma EndedArrive(wrote: seq<byte>, sent: nat, r: Rx, bytes: seq<byte>, bclosed: bool, data: seq<byte>, fins: nat)
    requires Ended(wrote, sent, r, false, bclosed, bytes + data, fins, true)
    ensures Ended(wrote, sent, r.(inq := r.inq + bytes), false, bclosed, data, fins, true)
  {
    assert r.inq + (bytes + data) == (r.inq + bytes) + data;
    if r.peerFin { assert r.inq + bytes == r.inq; }
  }

  lemma EndedRead(wrote: seq<byte>, sent: nat, r: Rx, blost: bool, bclosed: bool, data: seq<byte>, fins: nat, n: nat)
    requires Ended(wrote, sent, r, blost, bclosed, data, fins, true) && n <= |r.inq|
    ensures Ended(wrote, sent, r.(inq := r.inq[n..], got := r.got + r.inq[..n]), blost, bclosed, data, fins, true)
  {
    MovesOn(r.got, r.inq, data, n);
    MovesOn(r.got, r.inq, [], n);
    assert r.inq + [] == r.inq && r.inq[n..] + [] == r.inq[n..];
  }

  // ------------------------------------------------ a step seen from one predicate

  /** The direction into an end whose receiving side did not change. */
  lemma IntoKept(b: End, e: End, f: End, ba: seq<Frame>, ab: seq<Frame>)
    requires Towards(b, e, ba, ab)
    requires f.conf == e.conf && f.life == e.life && f.rx == e.rx && f.recv == e.recv
    requires f.owes == e.owes && f.ctl == e.ctl
    ensures Towards(b, f, ba, ab)
  {
  }

  /** The direction out of an end whose sending side did not change. */
  lemma OutKept(e: End, b: End, f: End, ab: seq<Frame>, ba: seq<Frame>)
    requires Towards(e, b, ab, ba)
    requires f.conf == e.conf && f.life == e.life && f.tx == e.tx && f.send == e.send
    ensures Towards(f, b, ab, ba)
  {
  }

  predicate SameOpening(l: Life, m: Life) {
    l.made == m.made && l.opening == m.opening && l.down == m.down && (l.aborted ==> m.aborted)
  }

  lemma ShakenKept(e: End, b: End, f: End, ab: seq<Frame>, ba: seq<Frame>)
    requires Shaken(e, b, ab, ba)
    requires f.conf == e.conf && SameOpening(e.life, f.life) && f.ctl == e.ctl
    ensures Shaken(f, b, ab, ba)
  {
  }

  /** The session takes a grant or a reset to send. */
  lemma ShakenControl(e: End, b: End, f: End, ab: seq<Frame>, ba: seq<Frame>, x: Frame)
    requires Shaken(e, b, ab, ba) && (x.Grant? || x.Rst?)
    requires f.conf == e.conf && SameOpening(e.life, f.life) && f.ctl == e.ctl + [x]
    requires e.life.made || (x.Rst? && b.life.made && b.conf.opener && !SynAhead(b.conf, b.ctl, ba))
    ensures Shaken(f, b, ab, ba)
  {
    CountsSnoc(e.ctl, x);
    assert e.ctl != [] ==> f.ctl[0] == e.ctl[0];
  }

  lemma ShakenFlush(e: End, b: End, f: End, ab: seq<Frame>, ba: seq<Frame>)
    requires Shaken(e, b, ab, ba) && e.ctl != [] && !e.life.down
    requires f.conf == e.conf && SameOpening(e.life, f.life) && f.ctl == e.ctl[1..]
    ensures Shaken(f, b, ab + [e.ctl[0]], ba)
  {
    CountsSnoc(ab, e.ctl[0]);
    assert ab != [] ==> (ab + [e.ctl[0]])[0] == ab[0];
  }

  lemma ShakenSend(e: End, b: End, f: End, ab: seq<Frame>, ba: seq<Frame>, x: Frame)
    requires Shaken(e, b, ab, ba) && e.ctl == [] && (x.Data? || x.Fin?) && e.life.made && !e.life.down
    requires f.conf == e.conf && SameOpening(e.life, f.life) && f.ctl == e.ctl
    ensures Shaken(f, b, ab + [x], ba)
  {
    CountsSnoc(ab, x);
    assert ab != [] ==> (ab + [x])[0] == ab[0];
  }

  lemma ShakenDown(e: End, b: End, f: End, ab: seq<Frame>, ba: seq<Frame>)
    requires Shaken(e, b, ab, ba)
    requires f.conf == e.conf && SameOpening(e.life, f.life.(down := e.life.down)) && f.life.down && f.ctl == []
    ensures Shaken(f, b, ab, ba)
  {
  }

  // ------------------------------------------------------------ writes and reads

  lemma WriteOut(e: End, b: End, ab: seq<Frame>, ba: seq<Frame>, bytes: seq<byte>)
    requires Sound(e) && Towards(e, b, ab, ba)
    ensures Sound(WriteDo(e, Write(bytes))) && Towards(WriteDo(e, Write(bytes)), b, ab, ba)
  {
    if e.tx.hand.Idle? && e.send.avail > 0 {
      var part := Accepted(e.send, bytes);
      CarriedWrite(e.tx.wrote, Tail(e.tx), e.life.aborted, b.rx, b.life.aborted, DataIn(ab), part);
      assert Tail(e.tx) == Flatten(e.tx.out);
    }
  }

  /** Steps of the write path that move bytes within the tail, or none. */
  lemma TxMoves(e: End, step: Step)
    requires Sound(e) && (step.Enqueue? || step.CloseWrite? || step.QueueFin?)
    ensures var t := WriteDo(e, step).tx;
            && WriteDo(e, step) == e.(tx := t) && t.wrote == e.tx.wrote && t.fins == e.tx.fins && Sending(e.life, t)
            && (Tail(t) == Tail(e.tx) || (!e.life.inTable && Tail(t) == []))
  {
    var t := WriteDo(e, step).tx;
    if e.life.inTable && step.Enqueue? && e.tx.hand.Framing? && e.tx.hand.rest != [] {
      TailEnqueue(e.tx, Chunk(e.conf, e.tx.hand.rest), t.hand);
    }
  }

  lemma TxOut(e: End, b: End, t: Tx, ab: seq<Frame>, ba: seq<Frame>)
    requires Sound(e) && Towards(e, b, ab, ba)
    requires t.wrote == e.tx.wrote && t.fins == e.tx.fins && Sending(e.life, t)
    requires Tail(t) == Tail(e.tx) || (!e.life.inTable && Tail(t) == [])
    ensures Towards(e.(tx := t), b, ab, ba)
  {
    if !e.life.inTable && !e.life.aborted { assert Tail(e.tx) == []; }
  }

  lemma TxKeeps(s: State, t: Tx)
    requires Inv(s) && t.wrote == s.me.tx.wrote && t.fins == s.me.tx.fins && Sending(s.me.life, t)
    requires Tail(t) == Tail(s.me.tx) || (!s.me.life.inTable && Tail(t) == [])
    ensures Inv(s.(me := s.me.(tx := t)))
  {
    var f := s.me.(tx := t);
    TxOut(s.me, s.peer, t, s.toPeer, s.toMe);
    IntoKept(s.peer, s.me, f, s.toMe, s.toPeer);
    ShakenKept(s.me, s.peer, f, s.toPeer, s.toMe);
  }

  lemma FramingKeeps(s: State, step: Step)
    requires Inv(s) && (step.Enqueue? || step.CloseWrite? || step.QueueFin?)
    ensures Inv(Do(s, step))
  {
    var f := WriteDo(s.me, step);
    assert Do(s, step) == s.(me := f);
    TxMoves(s.me, step);
    TxKeeps(s, f.tx);
    assert f == s.me.(tx := f.tx);
  }

  /** A step of the sending side alone. */
  lemma SendingKeeps(s: State, f: End)
    requires Inv(s) && Sound(f) && Towards(f, s.peer, s.toPeer, s.toMe)
    requires f == s.me.(tx := f.tx, send := f.send)
    ensures Inv(s.(me := f))
  {
    IntoKept(s.peer, s.me, f, s.toMe, s.toPeer);
    ShakenKept(s.me, s.peer, f, s.toPeer, s.toMe);
  }

  lemma WriteKeeps(s: State, bytes: seq<byte>)
    requires Inv(s)
    ensures Inv(Do(s, Write(bytes)))
  {
    var f := WriteDo(s.me, Write(bytes));
    WriteOut(s.me, s.peer, s.toPeer, s.toMe, bytes);
    SendingKeeps(s, f);
    assert Do(s, Write(bytes)) == s.(me := f);
  }

  lemma ReadInto(b: End, e: End, ba: seq<Frame>, ab: seq<Frame>, n: nat)
    requires Sound(e) && Towards(b, e, ba, ab)
    ensures Sound(ReadDo(e, Read(n))) && Towards(b, ReadDo(e, Read(n)), ba, ab)
  {
    if n <= |e.rx.inq| {
      CarriedRead(b.tx.wrote, Tail(b.tx), b.life.aborted, e.rx, e.life.aborted, DataIn(ba), n);
      EndedRead(b.tx.wrote, b.tx.fins, e.rx, e.life.aborted, e.life.closed, DataIn(ba), FinsIn(ba), n);
    }
  }

  lemma GrantInto(b: End, e: End, ba: seq<Frame>, ab: seq<Frame>)
    requires Sound(e) && Towards(b, e, ba, ab)
    ensures Sound(ReadDo(e, SendGrant)) && Towards(b, ReadDo(e, SendGrant), ba, ab)
  {
    CountsSnoc(e.ctl, Grant(e.owes));
  }

  lemma ReadKeeps(s: State, n: nat)
    requires Inv(s)
    ensures Inv(Do(s, Read(n)))
  {
    var f := ReadDo(s.me, Read(n));
    ReadInto(s.peer, s.me, s.toMe, s.toPeer, n);
    OutKept(s.me, s.peer, f, s.toPeer, s.toMe);
    ShakenKept(s.me, s.peer, f, s.toPeer, s.toMe);
  }

  lemma SendGrantKeeps(s: State)
    requires Inv(s)
    ensures Inv(Do(s, SendGrant))
  {
    var f := ReadDo(s.me, SendGrant);
    GrantInto(s.peer, s.me, s.toMe, s.toPeer);
    OutKept(s.me, s.peer, f, s.toPeer, s.toMe);
    if s.me.owes > 0 && !s.me.life.down {
      ShakenControl(s.me, s.peer, f, s.toPeer, s.toMe, Grant(s.me.owes));
    } else {
      ShakenKept(s.me, s.peer, f, s.toPeer, s.toMe);
    }
  }

  // ------------------------------------------------------------------ the flush

  lemma FlushControlOut(e: End, b: End, f: End, ab: seq<Frame>, ba: seq<Frame>)
    requires Sound(e) && Towards(e, b, ab, ba) && e.ctl != [] && f == e.(ctl := e.ctl[1..])
    ensures Sound(f) && Towards(f, b, ab + [e.ctl[0]], ba)
  {
    DataSnoc(ab, e.ctl[0]);
    CountsSnoc(ab, e.ctl[0]);
    CleanSnoc(ab, e.ctl[0]);
    assert DataIn(ab) + [] == DataIn(ab);
  }

  lemma FlushControlInto(b: End, e: End, f: End, ba: seq<Frame>, ab: seq<Frame>)
    requires Towards(b, e, ba, ab) && e.ctl != [] && f == e.(ctl := e.ctl[1..])
    ensures Towards(b, f, ba, ab + [e.ctl[0]])
  {
    CountsSnoc(ab, e.ctl[0]);
  }

  lemma FlushControlKeeps(s: State)
    requires Inv(s)
    ensures Inv(Do(s, FlushControl))
  {
    var e := s.me;
    if e.ctl != [] && !e.life.down {
      var f := e.(ctl := e.ctl[1..]);
      FlushControlOut(e, s.peer, f, s.toPeer, s.toMe);
      FlushControlInto(s.peer, e, f, s.toMe, s.toPeer);
      ShakenFlush(e, s.peer, f, s.toPeer, s.toMe);
    }
  }

  /** The direction into an end that sends data or a FIN. */
  lemma FlushInto(b: End, e: End, f: End, ba: seq<Frame>, ab: seq<Frame>, x: Frame)
    requires Towards(b, e, ba, ab) && (x.Data? || x.Fin?)
    requires f.conf == e.conf && f.life == e.life && f.rx == e.rx && f.recv == e.recv
    requires f.owes == e.owes && f.ctl == e.ctl
    ensures Towards(b, f, ba, ab + [x])
  {
    CountsSnoc(ab, x);
  }

  lemma FlushDataOut(e: End, b: End, f: End, ab: seq<Frame>, ba: seq<Frame>)
    requires Sound(e) && Towards(e, b, ab, ba) && e.life.inTable && e.tx.out != []
    requires f == e.(tx := e.tx.(out := e.tx.out[1..]))
    ensures Sound(f) && Towards(f, b, ab + [Data(e.tx.out[0])], ba)
  {
    var x := Data(e.tx.out[0]);
    DataSnoc(ab, x);
    CountsSnoc(ab, x);
    CleanSnoc(ab, x);
    assert Tail(e.tx) == e.tx.out[0] + Tail(f.tx);
    CarriedFlush(e.tx.wrote, e.tx.out[0], Tail(f.tx), b.rx, b.life.aborted, DataIn(ab));
  }

  lemma FlushDataKeeps(s: State)
    requires Inv(s)
    ensures Inv(Do(s, FlushData))
  {
    var e := s.me;
    if e.ctl == [] && !e.life.down && e.life.inTable && e.tx.out != [] {
      var f, x := e.(tx := e.tx.(out := e.tx.out[1..])), Data(e.tx.out[0]);
      FlushDataOut(e, s.peer, f, s.toPeer, s.toMe);
      FlushInto(s.peer, e, f, s.toMe, s.toPeer, x);
      ShakenSend(e, s.peer, f, s.toPeer, s.toMe, x);
    }
  }

  lemma FlushFinOut(e: End, b: End, f: End, ab: seq<Frame>, ba: seq<Frame>)
    requires Sound(e) && Towards(e, b, ab, ba) && e.life.inTable && e.tx.out == [] && e.tx.finState.FinQueued?
    requires f == e.(tx := e.tx.(finState := FinSent, fins := e.tx.fins + 1))
    ensures Sound(f) && Towards(f, b, ab + [Fin], ba)
  {
    DataSnoc(ab, Fin);
    CountsSnoc(ab, Fin);
    CleanSnoc(ab, Fin);
    assert DataIn(ab) + [] == DataIn(ab);
    assert Tail(e.tx) == [];
    EndedFin(e.tx.wrote, b.rx, b.life.aborted, b.life.closed, DataIn(ab), FinsIn(ab));
  }

  lemma FlushFinKeeps(s: State)
    requires Inv(s)
    ensures Inv(Do(s, FlushFin))
  {
    var e := s.me;
    if e.ctl == [] && !e.life.down && e.life.inTable && e.tx.out == [] && e.tx.finState.FinQueued? {
      var f := e.(tx := e.tx.(finState := FinSent, fins := e.tx.fins + 1));
      FlushFinOut(e, s.peer, f, s.toPeer, s.toMe);
      FlushInto(s.peer, e, f, s.toMe, s.toPeer, Fin);
      ShakenSend(e, s.peer, f, s.toPeer, s.toMe, Fin);
      assert Do(s, FlushFin) == s.(me := f, toPeer := s.toPeer + [Fin]);
    } else {
      assert Do(s, FlushFin) == s;
    }
  }

  // ------------------------------------------------------------ begins and ends

  lemma OpenKeeps(s: State)
    requires Inv(s)
    ensures Inv(s.(me := LifeDo(s.me, Open)))
  {
    var e := s.me;
    if e.conf.opener && !e.life.made && !e.life.down {
      CountsSnoc(e.ctl, Syn(DeltaOf(e.conf)));
      assert e.ctl + [Syn(DeltaOf(e.conf))] == [Syn(DeltaOf(e.conf))];
    }
  }

  lemma LeaveOut(e: End, b: End, ab: seq<Frame>, ba: seq<Frame>, tell: bool)
    requires Sound(e) && Towards(e, b, ab, ba) && e.life.inTable
    ensures Sound(Leave(e, tell)) && Towards(Leave(e, tell), b, ab, ba)
  {
    CountsSnoc(e.ctl, Rst);
  }

  lemma LeaveInto(b: End, e: End, ba: seq<Frame>, ab: seq<Frame>, tell: bool)
    requires Sound(e) && Towards(b, e, ba, ab) && e.life.inTable
    ensures Towards(b, Leave(e, tell), ba, ab)
  {
    CountsSnoc(e.ctl, Rst);
  }

  lemma LeaveShaken(e: End, b: End, ab: seq<Frame>, ba: seq<Frame>, tell: bool)
    requires Sound(e) && Shaken(e, b, ab, ba) && e.life.inTable
    ensures Shaken(Leave(e, tell), b, ab, ba)
  {
    if tell {
      ShakenControl(e, b, Leave(e, tell), ab, ba, Rst);
    } else {
      ShakenKept(e, b, Leave(e, tell), ab, ba);
    }
  }

  lemma AbortLive(s: State, tell: bool)
    requires Inv(s) && s.me.life.inTable
    ensures Inv(s.(me := Leave(s.me, tell)))
  {
    LeaveOut(s.me, s.peer, s.toPeer, s.toMe, tell);
    LeaveInto(s.peer, s.me, s.toMe, s.toPeer, tell);
    LeaveShaken(s.me, s.peer, s.toPeer, s.toMe, tell);
  }

  lemma LeaveKeeps(s: State, tell: bool)
    requires Inv(s)
    ensures Inv(s.(me := Leave(s.me, tell)))
  {
    if s.me.life.inTable { AbortLive(s, tell); } else { assert s.(me := Leave(s.me, tell)) == s; }
  }

  lemma ResetInto(b: End, e: End, ba: seq<Frame>, ab: seq<Frame>)
    requires Sound(e) && Towards(b, e, ba, ab)
    ensures Sound(LifeDo(e, Reset)) && Towards(b, LifeDo(e, Reset), ba, ab)
  {
    if e.life.aborted && !e.life.closed { CarriedReset(b.tx.wrote, Tail(b.tx), b.life.aborted, e.rx, DataIn(ba)); }
  }

  lemma EndOut(e: End, b: End, ab: seq<Frame>, ba: seq<Frame>, step: Step)
    requires Sound(e) && Towards(e, b, ab, ba) && (step.Reset? || step.Finish?)
    ensures Towards(LifeDo(e, step), b, ab, ba)
  {
  }

  lemma ResetLive(s: State)
    requires Inv(s) && s.me.life.aborted && !s.me.life.closed
    ensures Inv(s.(me := LifeDo(s.me, Reset)))
  {
    var f := LifeDo(s.me, Reset);
    ResetInto(s.peer, s.me, s.toMe, s.toPeer);
    EndOut(s.me, s.peer, s.toPeer, s.toMe, Reset);
    assert f.conf == s.me.conf && f.ctl == s.me.ctl && f.life == s.me.life.(closed := true);
    ShakenKept(s.me, s.peer, f, s.toPeer, s.toMe);
  }

  lemma ResetKeeps(s: State)
    requires Inv(s)
    ensures Inv(s.(me := LifeDo(s.me, Reset)))
  {
    if s.me.life.aborted && !s.me.life.closed {
      ResetLive(s);
    } else {
      assert s.(me := LifeDo(s.me, Reset)) == s;
    }
  }

  predicate Ends(e: End) {
    && e.life.inTable && !e.life.closed && e.rx.peerFin && e.tx.localFin && e.tx.finState.FinSent?
    && e.tx.out == [] && e.rx.inq == []
  }

  lemma FinishInto(b: End, e: End, ba: seq<Frame>, ab: seq<Frame>)
    requires Sound(e) && Towards(b, e, ba, ab) && Ends(e)
    ensures Sound(LifeDo(e, Finish)) && Towards(b, LifeDo(e, Finish), ba, ab)
  {
  }

  lemma FinishLive(s: State)
    requires Inv(s) && Ends(s.me)
    ensures Inv(s.(me := LifeDo(s.me, Finish)))
  {
    var f := LifeDo(s.me, Finish);
    FinishInto(s.peer, s.me, s.toMe, s.toPeer);
    EndOut(s.me, s.peer, s.toPeer, s.toMe, Finish);
    assert f.conf == s.me.conf && f.ctl == s.me.ctl && f.life == s.me.life.(closed := true, inTable := false);
    ShakenKept(s.me, s.peer, f, s.toPeer, s.toMe);
  }

  lemma FinishKeeps(s: State)
    requires Inv(s)
    ensures Inv(s.(me := LifeDo(s.me, Finish)))
  {
    if Ends(s.me) { FinishLive(s); } else { assert s.(me := LifeDo(s.me, Finish)) == s; }
  }

  lemma DropInto(b: End, e: End, ba: seq<Frame>, ab: seq<Frame>)
    requires Towards(b, e, ba, ab) && Towards(e, b, ab, ba) && Sound(e) && !e.life.inTable
    ensures Towards(b, Drop(e), ba, ab) && Towards(Drop(e), b, ab, ba) && Sound(Drop(e))
  {
  }

  lemma DropKeeps(s: State)
    requires Inv(s) && !s.me.life.inTable
    ensures Inv(s.(me := Drop(s.me)))
  {
    DropInto(s.peer, s.me, s.toMe, s.toPeer);
    ShakenDown(s.me, s.peer, Drop(s.me), s.toPeer, s.toMe);
  }

  lemma DownKeeps(s: State)
    requires Inv(s)
    ensures Inv(s.(me := LifeDo(s.me, Down)))
  {
    var t := s.(me := Leave(s.me, false));
    LeaveKeeps(s, false);
    DropKeeps(t);
    assert s.(me := LifeDo(s.me, Down)) == t.(me := Drop(t.me));
  }

  // ------------------------------------------------------------------- arrivals

  /** The direction into an end that takes a frame without payload, FIN or effect on its receiving side. */
  lemma TakenInto(b: End, e: End, f: End, ba: seq<Frame>, ab: seq<Frame>)
    requires Towards(b, e, ba, ab) && ba != [] && !ba[0].Data? && !ba[0].Fin?
    requires f.conf == e.conf && f.life == e.life && f.rx == e.rx && f.recv == e.recv
    requires f.owes == e.owes && f.ctl == e.ctl
    ensures Towards(b, f, ba[1..], ab)
  {
    assert DataIn(ba) == DataIn(ba[1..]);
  }

  lemma ShakenTaken(e: End, b: End, f: End, ab: seq<Frame>, ba: seq<Frame>)
    requires Shaken(e, b, ab, ba) && ba != [] && !Opens(ba[0])
    requires f.conf == e.conf && SameOpening(e.life, f.life) && f.ctl == e.ctl
    ensures Shaken(f, b, ab, ba[1..])
  {
  }

  /** A grant fits the window it returns to. */
  lemma GrantFits(e: End, b: End, ab: seq<Frame>, ba: seq<Frame>)
    requires Towards(e, b, ab, ba) && ba != [] && ba[0].Grant?
    requires 0 <= b.recv.buffered && 0 <= b.recv.consumed
    ensures ba[0].n == 0 || (Established(e.life) && Grantable(e.send, ba[0].n))
  {
  }

  lemma GrantOut(e: End, b: End, f: End, ab: seq<Frame>, ba: seq<Frame>)
    requires Towards(e, b, ab, ba) && ba != [] && ba[0].Grant?
    requires f == e || f == e.(send := e.send.(avail := e.send.avail + ba[0].n))
    requires f == e ==> !e.life.inTable || ba[0].n == 0
    ensures Towards(f, b, ab, ba[1..])
  {
  }

  lemma GrantKeeps(s: State)
    requires Inv(s) && s.toMe != [] && s.toMe[0].Grant?
    ensures Inv(s.(me := Handle(s.me, s.toMe[0], true), toMe := s.toMe[1..]))
  {
    var f := Handle(s.me, s.toMe[0], true);
    GrantFits(s.me, s.peer, s.toPeer, s.toMe);
    GrantOut(s.me, s.peer, f, s.toPeer, s.toMe);
    TakenInto(s.peer, s.me, f, s.toMe, s.toPeer);
    ShakenTaken(s.me, s.peer, f, s.toPeer, s.toMe);
  }

  /** Data fits the window it was sent against. */
  lemma DataFits(b: End, e: End, ba: seq<Frame>, ab: seq<Frame>)
    requires Sound(e) && Towards(b, e, ba, ab) && ba != [] && ba[0].Data? && e.life.inTable && b.send.avail >= 0
    ensures ba[0].bytes == [] || (Established(b.life) && Holds(e.recv, |ba[0].bytes|))
    ensures |DataIn(ba)| == |ba[0].bytes| + |DataIn(ba[1..])|
  {
    assert Small(b.conf, e.conf) <= e.conf.window;
  }

  lemma DataSound(e: End, bytes: seq<byte>)
    requires Sound(e) && e.life.inTable && !e.life.opening && (bytes == [] || Holds(e.recv, |bytes|))
    ensures Sound(Handle(e, Data(bytes), true))
  {
  }

  lemma DataInto(b: End, e: End, f: End, ba: seq<Frame>, ab: seq<Frame>)
    requires Towards(b, e, ba, ab) && ba != [] && ba[0].Data? && !e.life.aborted
    requires f == e.(rx := e.rx.(inq := e.rx.inq + ba[0].bytes),
                     recv := e.recv.(buffered := e.recv.buffered + |ba[0].bytes|))
    ensures Towards(b, f, ba[1..], ab)
  {
    var bytes, rest := ba[0].bytes, ba[1..];
    CarriedArrive(b.tx.wrote, Tail(b.tx), b.life.aborted, e.rx, bytes, DataIn(rest));
    EndedArrive(b.tx.wrote, b.tx.fins, e.rx, bytes, e.life.closed, DataIn(rest), FinsIn(rest));
  }

  /** The direction out of an end that takes a frame without credit. */
  lemma TakenOut(e: End, b: End, f: End, ab: seq<Frame>, ba: seq<Frame>)
    requires Towards(e, b, ab, ba) && ba != [] && !ba[0].Grant?
    requires f.conf == e.conf && f.life == e.life.(told := f.life.told) && f.tx == e.tx && f.send == e.send
    ensures Towards(f, b, ab, ba[1..])
  {
  }

  /** Before its ACK, an opener is sent nothing but that ACK or a reset. */
  lemma NotOpening(e: End, b: End, ab: seq<Frame>, ba: seq<Frame>)
    requires Sound(e) && Shaken(e, b, ab, ba) && ba != [] && e.life.inTable && !Opens(ba[0]) && !ba[0].Rst?
    ensures !e.life.opening
  {
  }

  lemma DataHeld(e: End, bytes: seq<byte>)
    requires e.life.inTable && Holds(e.recv, |bytes|)
    ensures Handle(e, Data(bytes), true)
            == e.(rx := e.rx.(inq := e.rx.inq + bytes), recv := e.recv.(buffered := e.recv.buffered + |bytes|))
  {
    assert bytes == [] ==> e.rx.inq + bytes == e.rx.inq;
  }

  lemma DataLive(s: State)
    requires Inv(s) && s.toMe != [] && s.toMe[0].Data? && s.me.life.inTable
    ensures Inv(s.(me := Handle(s.me, s.toMe[0], true), toMe := s.toMe[1..]))
  {
    var e, bytes := s.me, s.toMe[0].bytes;
    var f := Handle(e, s.toMe[0], true);
    NotOpening(e, s.peer, s.toPeer, s.toMe);
    DataFits(s.peer, e, s.toMe, s.toPeer);
    DataSound(e, bytes);
    DataHeld(e, bytes);
    DataInto(s.peer, e, f, s.toMe, s.toPeer);
    TakenOut(e, s.peer, f, s.toPeer, s.toMe);
    ShakenTaken(e, s.peer, f, s.toPeer, s.toMe);
  }

  /** Data for a stream that left: nothing of it is kept, and the sender is told. */
  lemma StrayInto(b: End, e: End, f: End, ba: seq<Frame>, ab: seq<Frame>)
    requires Sound(e) && Sound(b) && Towards(b, e, ba, ab) && ba != [] && ba[0].Data? && !e.life.inTable && !e.life.down
    requires Established(b.life) ==> e.life.made
    requires f == Refuse(e)
    ensures Towards(b, f, ba[1..], ab)
  {
    CountsSnoc(e.ctl, Rst);
    if Finished(e.life) || !e.life.made { assert DataIn(ba) == DataIn(ba[1..]); }
  }

  lemma RefuseSound(e: End)
    requires Sound(e) && !e.life.down
    ensures Sound(Refuse(e))
  {
    CountsSnoc(e.ctl, Rst);
  }

  lemma StrayShaken(e: End, b: End, f: End, ab: seq<Frame>, ba: seq<Frame>)
    requires Sound(e) && Shaken(e, b, ab, ba) && ba != [] && !Opens(ba[0])
    requires f == Refuse(e)
    ensures Shaken(f, b, ab, ba[1..])
  {
    ShakenTaken(e, b, e, ab, ba);
    ShakenControl(e, b, f, ab, ba[1..], Rst);
  }

  lemma DataStray(s: State)
    requires Inv(s) && s.toMe != [] && s.toMe[0].Data? && !s.me.life.inTable && !s.me.life.down
    ensures Inv(s.(me := Refuse(s.me), toMe := s.toMe[1..]))
  {
    var f := Refuse(s.me);
    RefuseSound(s.me);
    StrayInto(s.peer, s.me, f, s.toMe, s.toPeer);
    TakenOut(s.me, s.peer, f, s.toPeer, s.toMe);
    StrayShaken(s.me, s.peer, f, s.toPeer, s.toMe);
  }

  lemma FinInto(b: End, e: End, ba: seq<Frame>, ab: seq<Frame>)
    requires Sound(e) && Towards(b, e, ba, ab) && ba != [] && ba[0].Fin? && (e.life.inTable ==> !e.life.opening)
    ensures Sound(Handle(e, Fin, true)) && Towards(b, Handle(e, Fin, true), ba[1..], ab)
  {
    assert DataIn(ba) == DataIn(ba[1..]);
    assert e.rx.inq + [] == e.rx.inq;
  }

  lemma FinKeeps(s: State)
    requires Inv(s) && s.toMe != [] && s.toMe[0].Fin?
    ensures Inv(s.(me := Handle(s.me, Fin, true), toMe := s.toMe[1..]))
  {
    var f := Handle(s.me, Fin, true);
    if s.me.life.inTable { NotOpening(s.me, s.peer, s.toPeer, s.toMe); }
    FinInto(s.peer, s.me, s.toMe, s.toPeer);
    TakenOut(s.me, s.peer, f, s.toPeer, s.toMe);
    ShakenTaken(s.me, s.peer, f, s.toPeer, s.toMe);
  }

  lemma TakenKeeps(s: State)
    requires Inv(s) && s.toMe != [] && s.toMe[0].Rst?
    ensures Inv(s.(toMe := s.toMe[1..]))
  {
    TakenInto(s.peer, s.me, s.me, s.toMe, s.toPeer);
    TakenOut(s.me, s.peer, s.me, s.toPeer, s.toMe);
    ShakenTaken(s.me, s.peer, s.me, s.toPeer, s.toMe);
  }

  lemma RstKeeps(s: State)
    requires Inv(s) && s.toMe != [] && s.toMe[0].Rst?
    ensures Inv(s.(me := Leave(s.me, false), toMe := s.toMe[1..]))
  {
    var t := s.(toMe := s.toMe[1..]);
    TakenKeeps(s);
    LeaveKeeps(t, false);
    assert t.(me := Leave(t.me, false)) == s.(me := Leave(s.me, false), toMe := s.toMe[1..]);
  }

  // ------------------------------------------------------------- the open frames

  lemma OpensFirst(fs: seq<Frame>)
    ensures fs != [] && Opens(fs[0]) ==> OpensIn(fs) > 0
  {
  }

  lemma SynIsNext(e: End, b: End, ab: seq<Frame>, ba: seq<Frame>)
    requires Shaken(e, b, ab, ba) && ba != [] && ba[0].Syn?
    ensures !e.conf.opener && ba[0] == Syn(DeltaOf(b.conf)) && !e.life.made && ab == [] && e.ctl == []
    ensures b.life.made && b.life.opening && !SynAhead(b.conf, b.ctl, ba[1..])
  {
    OpensFirst(ba[1..]);
    OpensFirst(b.ctl);
  }

  lemma AckIsNext(e: End, b: End, ab: seq<Frame>, ba: seq<Frame>)
    requires Shaken(e, b, ab, ba) && ba != [] && ba[0].Ack?
    ensures e.conf.opener && ba[0] == Ack(DeltaOf(b.conf)) && b.life.made && (e.life.aborted || e.life.opening)
    ensures !AckAhead(b.conf, b.ctl, ba[1..])
  {
    OpensFirst(ba[1..]);
    OpensFirst(b.ctl);
  }

  lemma SynOut(e: End, b: End, f: End, ab: seq<Frame>, ba: seq<Frame>)
    requires Sound(e) && Sound(b) && Towards(e, b, ab, ba) && Shaken(e, b, ab, ba) && ba != [] && ba[0].Syn?
    requires f == Handle(e, ba[0], true) && !e.life.down
    ensures Sound(f) && Towards(f, b, ab, ba[1..])
  {
    SynIsNext(e, b, ab, ba);
    CountsSnoc(e.ctl, Ack(DeltaOf(e.conf)));
  }

  lemma SynInto(b: End, e: End, f: End, ba: seq<Frame>, ab: seq<Frame>)
    requires Sound(e) && Sound(b) && Towards(b, e, ba, ab) && Shaken(e, b, ab, ba) && ba != [] && ba[0].Syn?
    requires f == Handle(e, ba[0], true)
    ensures Towards(b, f, ba[1..], ab)
  {
    SynIsNext(e, b, ab, ba);
    CountsSnoc(e.ctl, Ack(DeltaOf(e.conf)));
    assert DataIn(ba) == DataIn(ba[1..]);
  }

  lemma SynShaken(e: End, b: End, f: End, ab: seq<Frame>, ba: seq<Frame>)
    requires Shaken(e, b, ab, ba) && ba != [] && ba[0].Syn? && f == Handle(e, ba[0], true)
    ensures Shaken(f, b, ab, ba[1..])
  {
    SynIsNext(e, b, ab, ba);
    CountsSnoc(e.ctl, Ack(DeltaOf(e.conf)));
    assert f.ctl == [Ack(DeltaOf(e.conf))];
  }

  lemma SynAccepted(s: State)
    requires Inv(s) && s.toMe != [] && s.toMe[0].Syn? && !s.me.life.down
    ensures Inv(s.(me := Handle(s.me, s.toMe[0], true), toMe := s.toMe[1..]))
  {
    var f := Handle(s.me, s.toMe[0], true);
    SynOut(s.me, s.peer, f, s.toPeer, s.toMe);
    SynInto(s.peer, s.me, f, s.toMe, s.toPeer);
    SynShaken(s.me, s.peer, f, s.toPeer, s.toMe);
  }

  lemma SynRefused(s: State)
    requires Inv(s) && s.toMe != [] && s.toMe[0].Syn? && !s.me.life.down
    ensures Inv(s.(me := Handle(s.me, s.toMe[0], false), toMe := s.toMe[1..]))
  {
    var f := Handle(s.me, s.toMe[0], false);
    SynIsNext(s.me, s.peer, s.toPeer, s.toMe);
    CountsSnoc(s.me.ctl, Rst);
    RefusedInto(s.peer, s.me, f, s.toMe, s.toPeer);
    TakenOut(s.me, s.peer, f, s.toPeer, s.toMe);
    RefusedShaken(s.me, s.peer, f, s.toPeer, s.toMe);
  }

  lemma RefusedInto(b: End, e: End, f: End, ba: seq<Frame>, ab: seq<Frame>)
    requires Towards(b, e, ba, ab) && ba != [] && ba[0].Syn? && f == Refuse(e)
    ensures Towards(b, f, ba[1..], ab)
  {
    CountsSnoc(e.ctl, Rst);
    assert DataIn(ba) == DataIn(ba[1..]);
  }

  lemma RefusedShaken(e: End, b: End, f: End, ab: seq<Frame>, ba: seq<Frame>)
    requires Shaken(e, b, ab, ba) && ba != [] && ba[0].Syn? && f == Refuse(e)
    ensures Shaken(f, b, ab, ba[1..])
  {
    SynIsNext(e, b, ab, ba);
    CountsSnoc(e.ctl, Rst);
    assert f.ctl == [Rst];
  }

  lemma AckOut(e: End, b: End, f: End, ab: seq<Frame>, ba: seq<Frame>)
    requires Sound(e) && Sound(b) && Towards(e, b, ab, ba) && Shaken(e, b, ab, ba) && ba != [] && ba[0].Ack?
    requires f == Handle(e, ba[0], true)
    ensures Sound(f) && Towards(f, b, ab, ba[1..])
  {
    AckIsNext(e, b, ab, ba);
  }

  lemma AckInto(b: End, e: End, f: End, ba: seq<Frame>, ab: seq<Frame>)
    requires Sound(e) && Sound(b) && Towards(b, e, ba, ab) && Shaken(e, b, ab, ba) && ba != [] && ba[0].Ack?
    requires f == Handle(e, ba[0], true)
    ensures Towards(b, f, ba[1..], ab)
  {
    AckIsNext(e, b, ab, ba);
    assert DataIn(ba) == DataIn(ba[1..]);
  }

  lemma AckShaken(e: End, b: End, f: End, ab: seq<Frame>, ba: seq<Frame>)
    requires Sound(e) && Shaken(e, b, ab, ba) && ba != [] && ba[0].Ack? && f == Handle(e, ba[0], true)
    ensures Shaken(f, b, ab, ba[1..])
  {
    AckIsNext(e, b, ab, ba);
  }

  lemma AckKeeps(s: State)
    requires Inv(s) && s.toMe != [] && s.toMe[0].Ack?
    ensures Inv(s.(me := Handle(s.me, s.toMe[0], true), toMe := s.toMe[1..]))
  {
    var f := Handle(s.me, s.toMe[0], true);
    AckOut(s.me, s.peer, f, s.toPeer, s.toMe);
    AckInto(s.peer, s.me, f, s.toMe, s.toPeer);
    AckShaken(s.me, s.peer, f, s.toPeer, s.toMe);
  }

  // --------------------------------------------------------------- every run

  lemma AcceptIsForSyn(e: End, f: Frame, accept: bool)
    requires accept || !f.Syn?
    ensures Handle(e, f, accept) == Handle(e, f, true)
  {
  }

  lemma TakeKeeps(s: State)
    requires Inv(s) && s.toMe != [] && !s.me.life.down
    ensures Inv(s.(me := Handle(s.me, s.toMe[0], true), toMe := s.toMe[1..]))
  {
    match s.toMe[0]
    case Syn(_) => SynAccepted(s);
    case Ack(_) => AckKeeps(s);
    case Data(_) => if s.me.life.inTable { DataLive(s); } else { DataStray(s); }
    case Fin => FinKeeps(s);
    case Rst => RstKeeps(s);
    case Grant(_) => GrantKeeps(s);
  }

  lemma ReceiveKeeps(s: State, accept: bool)
    requires Inv(s)
    ensures Inv(Do(s, Receive(accept)))
  {
    if s.toMe != [] && !s.me.life.down {
      if accept || !s.toMe[0].Syn? {
        AcceptIsForSyn(s.me, s.toMe[0], accept);
        TakeKeeps(s);
      } else {
        SynRefused(s);
      }
      assert Do(s, Receive(accept)) == s.(me := Handle(s.me, s.toMe[0], accept), toMe := s.toMe[1..]);
    } else {
      assert Do(s, Receive(accept)) == s;
    }
  }

  lemma FlushKeeps(s: State, step: Step)
    requires Inv(s) && OfFlush(step)
    ensures Inv(Do(s, step))
  {
    match step
    case FlushControl => FlushControlKeeps(s);
    case FlushData => FlushDataKeeps(s);
    case FlushFin => FlushFinKeeps(s);
  }

  lemma AbortKeeps(s: State, tell: bool)
    requires Inv(s)
    ensures Inv(s.(me := LifeDo(s.me, Abort(tell))))
  {
    if tell || s.me.life.opening {
      LeaveKeeps(s, tell);
      assert LifeDo(s.me, Abort(tell)) == Leave(s.me, tell);
    } else {
      assert s.(me := LifeDo(s.me, Abort(tell))) == s;
    }
  }

  lemma LifeKeeps(s: State, step: Step)
    requires Inv(s) && OfLife(step)
    ensures Inv(s.(me := LifeDo(s.me, step)))
  {
    match step
    case Open => OpenKeeps(s);
    case Abort(tell) => AbortKeeps(s, tell);
    case Reset => ResetKeeps(s);
    case Finish => FinishKeeps(s);
    case Down => DownKeeps(s);
  }

  lemma AppKeeps(s: State, step: Step)
    requires Inv(s) && (OfWrite(step) || step.Read? || step.SendGrant?)
    ensures Inv(Do(s, step))
  {
    match step
    case Write(bytes) => WriteKeeps(s, bytes);
    case Read(n) => ReadKeeps(s, n);
    case SendGrant => SendGrantKeeps(s);
    case _ => FramingKeeps(s, step);
  }

  lemma StepKeeps(s: State, step: Step)
    requires Inv(s)
    ensures Inv(Do(s, step))
  {
    if step.Receive? {
      ReceiveKeeps(s, step.accept);
    } else if OfFlush(step) {
      FlushKeeps(s, step);
    } else if OfLife(step) {
      LifeKeeps(s, step);
      assert Do(s, step) == s.(me := LifeDo(s.me, step));
    } else {
      AppKeeps(s, step);
    }
  }

  lemma FlipKeeps(s: State)
    requires Inv(s)
    ensures Inv(Flip(s))
  {
  }

  lemma MoveKeeps(s: State, mine: bool, step: Step)
    requires Inv(s)
    ensures Inv(Move(s, mine, step))
  {
    if mine {
      StepKeeps(s, step);
    } else {
      FlipKeeps(s);
      StepKeeps(Flip(s), step);
      FlipKeeps(Do(Flip(s), step));
    }
  }

  lemma InitKeeps(s: State)
    requires Init(s)
    ensures Inv(s)
  {
  }

  lemma {:induction false} Reachable(s: State, steps: seq<(bool, Step)>)
    requires Init(s)
    ensures Inv(Exec(s, steps))
  {
    if steps == [] {
      InitKeeps(s);
    } else {
      var last := steps[|steps| - 1];
      Reachable(s, steps[..|steps| - 1]);
      MoveKeeps(Exec(s, steps[..|steps| - 1]), last.0, last.1);
    }
  }

  // ------------------------------------------------------------- resets are heard

  function ResetsIn(fs: seq<Frame>): nat { if fs == [] then 0 else (if fs[0].Rst? then 1 else 0) + ResetsIn(fs[1..]) }

  lemma {:induction false} ResetsSnoc(fs: seq<Frame>, f: Frame)
    ensures ResetsIn(fs + [f]) == ResetsIn(fs) + (if f.Rst? then 1 else 0)
  {
    if fs == [] {
      assert fs + [f] == [f];
    } else {
      assert (fs + [f])[1..] == fs[1..] + [f];
      ResetsSnoc(fs[1..], f);
    }
  }

  /** The other end has the stream, or will accept it when the SYN arrives. */
  predicate MayHave(a: End, b: End, ab: seq<Frame>) { b.life.inTable || SynAhead(a.conf, a.ctl, ab) }

  /** While the other end may have a stream that `a` reset, the reset is on its way. */
  predicate Heard(a: End, b: End, ab: seq<Frame>) {
    a.life.told && !a.life.down && MayHave(a, b, ab) ==> ResetsIn(a.ctl) + ResetsIn(ab) > 0
  }

  /** Nothing is reset before the stream is opened, nor by the acceptor before it sees the SYN. */
  predicate Unsaid(a: End, b: End, ab: seq<Frame>) {
    a.conf.opener ==> (!a.life.made ==> !a.life.told && !b.life.told) && (SynAhead(a.conf, a.ctl, ab) ==> !b.life.told)
  }

  predicate Told(s: State) {
    match s
    case State(me, peer, toPeer, toMe) =>
      Heard(me, peer, toPeer) && Heard(peer, me, toMe) && Unsaid(me, peer, toPeer) && Unsaid(peer, me, toMe)
  }

  lemma HeardKept(a: End, b: End, c: End, d: End, ab: seq<Frame>)
    requires Heard(a, b, ab) && c.conf == a.conf && c.ctl == a.ctl && c.life.told == a.life.told
    requires (a.life.down ==> c.life.down) && (d.life.inTable ==> b.life.inTable)
    ensures Heard(c, d, ab)
  {
  }

  /** A control frame is queued; a reset queued now is on its way. */
  lemma HeardControl(a: End, b: End, c: End, ab: seq<Frame>, x: Frame)
    requires Heard(a, b, ab) && c.conf == a.conf && c.ctl == a.ctl + [x] && c.life.down == a.life.down
    requires c.life.told == (a.life.told || x.Rst?) && (x.Grant? || x.Rst?)
    ensures Heard(c, b, ab)
  {
    ResetsSnoc(a.ctl, x);
    assert a.ctl != [] ==> c.ctl[0] == a.ctl[0];
  }

  lemma AppLife(s: State, step: Step)
    requires OfWrite(step) || step.Read? || step.Reset? || step.Finish?
    ensures var f := Do(s, step).me;
            && Do(s, step) == s.(me := f) && f.conf == s.me.conf && f.ctl == s.me.ctl && f.life.told == s.me.life.told
            && f.life.down == s.me.life.down && f.life.made == s.me.life.made && (f.life.inTable ==> s.me.life.inTable)
  {
  }

  lemma QuietTold(s: State, f: End)
    requires Told(s) && f.conf == s.me.conf && f.ctl == s.me.ctl && f.life.told == s.me.life.told
    requires f.life.down == s.me.life.down && f.life.made == s.me.life.made && (f.life.inTable ==> s.me.life.inTable)
    ensures Told(s.(me := f))
  {
    HeardKept(s.me, s.peer, f, s.peer, s.toPeer);
    HeardKept(s.peer, s.me, s.peer, f, s.toMe);
  }

  lemma AppTold(s: State, step: Step)
    requires Told(s) && (OfWrite(step) || step.Read? || step.Reset? || step.Finish?)
    ensures Told(Do(s, step))
  {
    AppLife(s, step);
    QuietTold(s, Do(s, step).me);
  }

  lemma SendGrantTold(s: State)
    requires Inv(s) && Told(s)
    ensures Told(Do(s, SendGrant))
  {
    var f := ReadDo(s.me, SendGrant);
    if s.me.owes > 0 && !s.me.life.down {
      HeardControl(s.me, s.peer, f, s.toPeer, Grant(s.me.owes));
    } else {
      HeardKept(s.me, s.peer, f, s.peer, s.toPeer);
    }
    HeardKept(s.peer, s.me, s.peer, f, s.toMe);
  }

  lemma LeaveTold(s: State, tell: bool)
    requires Inv(s) && Told(s)
    ensures Told(s.(me := Leave(s.me, tell)))
  {
    var f := Leave(s.me, tell);
    if s.me.life.inTable {
      if tell {
        HeardControl(s.me, s.peer, f, s.toPeer, Rst);
      } else {
        HeardKept(s.me, s.peer, f, s.peer, s.toPeer);
      }
      HeardKept(s.peer, s.me, s.peer, f, s.toMe);
    } else {
      assert s.(me := f) == s;
    }
  }

  lemma DownTold(s: State)
    requires Inv(s) && Told(s)
    ensures Told(s.(me := LifeDo(s.me, Down)))
  {
    var t := s.(me := Leave(s.me, false));
    LeaveTold(s, false);
    HeardKept(t.peer, t.me, t.peer, Drop(t.me), t.toMe);
    assert s.(me := LifeDo(s.me, Down)) == t.(me := Drop(t.me));
  }

  lemma OpenTold(s: State)
    requires Inv(s) && Told(s)
    ensures Told(s.(me := LifeDo(s.me, Open)))
  {
  }

  lemma FlushControlTold(s: State)
    requires Inv(s) && Told(s)
    ensures Told(Do(s, FlushControl))
  {
    if s.me.ctl != [] {
      ResetsSnoc(s.toPeer, s.me.ctl[0]);
      assert s.toPeer != [] ==> (s.toPeer + [s.me.ctl[0]])[0] == s.toPeer[0];
    }
  }

  /** Data or a FIN goes on the wire, behind whatever is there. */
  lemma SentTold(s: State, f: End, x: Frame)
    requires Told(s) && s.me.ctl == [] && (x.Data? || x.Fin?)
    requires f.conf == s.me.conf && f.life == s.me.life && f.ctl == []
    ensures Told(s.(me := f, toPeer := s.toPeer + [x]))
  {
    ResetsSnoc(s.toPeer, x);
    assert s.toPeer != [] ==> (s.toPeer + [x])[0] == s.toPeer[0];
  }

  lemma FlushTold(s: State, step: Step)
    requires Told(s) && (step.FlushData? || step.FlushFin?)
    ensures Told(Do(s, step))
  {
    var t := Do(s, step);
    if t != s {
      SentTold(s, t.me, if step.FlushData? then Data(s.me.tx.out[0]) else Fin);
    }
  }

  /** The direction into an end that takes a frame: no SYN is left behind it. */
  lemma HeardTaken(b: End, e: End, f: End, ba: seq<Frame>, ab: seq<Frame>)
    requires Heard(b, e, ba) && Shaken(e, b, ab, ba) && ba != []
    requires ba[0].Rst? ==> !f.life.inTable
    requires f.life.inTable ==> e.life.inTable || ba[0].Syn?
    ensures Heard(b, f, ba[1..])
  {
    OpensFirst(ba[1..]);
    OpensFirst(b.ctl);
    if ba[0].Syn? { SynIsNext(e, b, ab, ba); }
  }

  /** What handling a frame does to the reset it may owe. */
  lemma HandleReset(e: End, x: Frame, accept: bool)
    ensures var f := Handle(e, x, accept);
            && f.conf == e.conf && f.life.down == e.life.down
            && (f == Refuse(e) || (f.life.told == e.life.told && (f.ctl == e.ctl || x.Syn?)))
            && (x.Rst? ==> !f.life.inTable) && (f.life.inTable ==> e.life.inTable || x.Syn?)
            && (e.life.made ==> f.life.made)
  {
  }

  lemma ReplyHeard(e: End, b: End, f: End, ab: seq<Frame>, ba: seq<Frame>)
    requires Heard(e, b, ab) && Shaken(e, b, ab, ba) && ba != []
    requires f.conf == e.conf && f.life.down == e.life.down
    requires f == Refuse(e) || (f.life.told == e.life.told && (f.ctl == e.ctl || ba[0].Syn?))
    requires ba[0].Syn? && f != Refuse(e) ==> !e.life.told
    ensures Heard(f, b, ab)
  {
    if f == Refuse(e) {
      HeardControl(e, b, f, ab, Rst);
    } else if f.ctl == e.ctl {
      HeardKept(e, b, f, b, ab);
    }
  }

  /** Whoever receives something, the opener has opened; and nothing was reset before the SYN came. */
  lemma OpenedOnce(s: State)
    requires Inv(s) && s.toMe != []
    ensures (s.me.conf.opener ==> s.me.life.made) && (s.peer.conf.opener ==> s.peer.life.made)
  {
  }

  lemma UnsaidTaken(s: State, f: End)
    requires Inv(s) && Told(s) && s.toMe != []
    ensures Unsaid(s.peer, f, s.toMe[1..])
  {
    OpenedOnce(s);
    OpensFirst(s.toMe[1..]);
    OpensFirst(s.peer.ctl);
    if s.peer.conf.opener && s.toMe[0].Syn? { SynIsNext(s.me, s.peer, s.toPeer, s.toMe); }
  }

  lemma UnsaidReply(s: State, f: End)
    requires Inv(s) && Told(s) && s.toMe != [] && f.conf == s.me.conf && (s.me.life.made ==> f.life.made)
    requires s.me.conf.opener ==> f.ctl == s.me.ctl || f.ctl == s.me.ctl + [Rst]
    ensures Unsaid(f, s.peer, s.toPeer)
  {
    OpenedOnce(s);
    assert s.me.ctl != [] ==> (s.me.ctl + [Rst])[0] == s.me.ctl[0];
  }

  lemma ReceiveTold(s: State, accept: bool)
    requires Inv(s) && Told(s)
    ensures Told(Do(s, Receive(accept)))
  {
    if s.toMe != [] && !s.me.life.down {
      var f := Handle(s.me, s.toMe[0], accept);
      HandleReset(s.me, s.toMe[0], accept);
      if s.toMe[0].Syn? { SynIsNext(s.me, s.peer, s.toPeer, s.toMe); }
      HeardTaken(s.peer, s.me, f, s.toMe, s.toPeer);
      ReplyHeard(s.me, s.peer, f, s.toPeer, s.toMe);
      UnsaidTaken(s, f);
      UnsaidReply(s, f);
      assert Do(s, Receive(accept)) == s.(me := f, toMe := s.toMe[1..]);
    } else {
      assert Do(s, Receive(accept)) == s;
    }
  }

  lemma LifeTold(s: State, step: Step)
    requires Inv(s) && Told(s) && (step.Open? || step.Abort? || step.Down?)
    ensures Told(s.(me := LifeDo(s.me, step)))
  {
    match step
    case Open => OpenTold(s);
    case Abort(tell) =>
      LeaveTold(s, tell);
      assert LifeDo(s.me, step) == Leave(s.me, tell) || LifeDo(s.me, step) == s.me;
    case Down => DownTold(s);
  }

  lemma StepTold(s: State, step: Step)
    requires Inv(s) && Told(s)
    ensures Told(Do(s, step))
  {
    if step.Open? || step.Abort? || step.Down? {
      LifeTold(s, step);
      assert Do(s, step) == s.(me := LifeDo(s.me, step));
    } else if step.SendGrant? {
      SendGrantTold(s);
    } else if step.Receive? {
      ReceiveTold(s, step.accept);
    } else if step.FlushControl? {
      FlushControlTold(s);
    } else if OfFlush(step) {
      FlushTold(s, step);
    } else {
      AppTold(s, step);
    }
  }

  lemma {:induction false} ReachableTold(s: State, steps: seq<(bool, Step)>)
    requires Init(s)
    ensures Inv(Exec(s, steps)) && Told(Exec(s, steps))
  {
    Reachable(s, steps);
    if steps != [] {
      var u, last := Exec(s, steps[..|steps| - 1]), steps[|steps| - 1];
      ReachableTold(s, steps[..|steps| - 1]);
      if last.0 {
        StepTold(u, last.1);
      } else {
        FlipKeeps(u);
        FlipTold(u);
        StepTold(Flip(u), last.1);
        FlipTold(Do(Flip(u), last.1));
      }
    }
  }

  lemma FlipTold(s: State)
    requires Told(s)
    ensures Told(Flip(s))
  {
  }

  // ------------------------------------------------------------ who leaves in silence

  /** A reset is sent by an end that has left; and one that left without a reset timed out opening, lost
      its transport, or was reset itself. */
  predicate Parting(a: End, b: End, ab: seq<Frame>) {
    && (a.life.told ==> !a.life.inTable)
    && (ResetsIn(a.ctl) + ResetsIn(ab) > 0 ==> a.life.told)
    && (a.life.aborted && !a.life.told ==> a.life.opening || a.life.down || b.life.told)
  }

  /** An end whose open was not acknowledged, and that answered no stray data, missed none of the bytes
      the other end sent: they are on the wire. */
  predicate Unmet(b: End, a: End, ba: seq<Frame>) {
    a.life.opening && !a.life.told && !b.life.aborted ==> b.tx.wrote == DataIn(ba) + Tail(b.tx)
  }

  predicate Parted(s: State) {
    match s
    case State(me, peer, toPeer, toMe) =>
      Parting(me, peer, toPeer) && Parting(peer, me, toMe) && Unmet(me, peer, toPeer) && Unmet(peer, me, toMe)
  }

  /** A step of `me` that neither leaves nor resets. */
  lemma StayParted(s: State, f: End)
    requires Parted(s) && Unmet(f, s.peer, s.toPeer) && ResetsIn(f.ctl) == ResetsIn(s.me.ctl)
    requires f.life == s.me.life.(closed := f.life.closed, inTable := f.life.inTable)
    requires f.life.inTable ==> s.me.life.inTable
    ensures Parted(s.(me := f))
  {
  }

  lemma WriteUnmet(e: End, b: End, ab: seq<Frame>, bytes: seq<byte>)
    requires Unmet(e, b, ab)
    ensures Unmet(WriteDo(e, Write(bytes)), b, ab)
  {
    var f := WriteDo(e, Write(bytes));
    if f != e {
      var part := Accepted(e.send, bytes);
      assert Tail(e.tx) == Flatten(e.tx.out) && Tail(f.tx) == Flatten(e.tx.out) + part;
      assert (DataIn(ab) + Tail(e.tx)) + part == DataIn(ab) + (Tail(e.tx) + part);
    }
  }

  lemma FramingUnmet(e: End, b: End, ab: seq<Frame>, step: Step)
    requires Sound(e) && Unmet(e, b, ab) && (step.Enqueue? || step.CloseWrite? || step.QueueFin?)
    ensures Unmet(WriteDo(e, step), b, ab)
  {
    TxMoves(e, step);
    if !e.life.inTable && !e.life.aborted { assert Tail(e.tx) == []; }
  }

  lemma WriteLife(e: End, step: Step)
    ensures WriteDo(e, step).life == e.life && WriteDo(e, step).ctl == e.ctl
  {
  }

  lemma WriteParted(s: State, step: Step)
    requires Inv(s) && Parted(s) && OfWrite(step)
    ensures Parted(s.(me := WriteDo(s.me, step)))
  {
    WriteLife(s.me, step);
    var f := WriteDo(s.me, step);
    assert Unmet(f, s.peer, s.toPeer) by {
      if step.Write? {
        WriteUnmet(s.me, s.peer, s.toPeer, step.bytes);
      } else {
        FramingUnmet(s.me, s.peer, s.toPeer, step);
      }
    }
    StayParted(s, f);
  }

  lemma ReadParted(s: State, step: Step)
    requires Parted(s) && (step.Read? || step.SendGrant?)
    ensures Parted(s.(me := ReadDo(s.me, step)))
  {
    ResetsSnoc(s.me.ctl, Grant(s.me.owes));
    StayParted(s, ReadDo(s.me, step));
  }

  lemma EndParted(s: State, step: Step)
    requires Parted(s) && (step.Reset? || step.Finish?)
    ensures Parted(s.(me := LifeDo(s.me, step)))
  {
    StayParted(s, LifeDo(s.me, step));
  }

  lemma LeaveParted(s: State, tell: bool)
    requires Inv(s) && Parted(s) && (tell || s.me.life.opening || s.peer.life.told)
    ensures Parted(s.(me := Leave(s.me, tell)))
  {
    ResetsSnoc(s.me.ctl, Rst);
  }

  lemma AbortParted(s: State, tell: bool)
    requires Inv(s) && Parted(s)
    ensures Parted(s.(me := LifeDo(s.me, Abort(tell))))
  {
    if tell || s.me.life.opening {
      LeaveParted(s, tell);
      assert LifeDo(s.me, Abort(tell)) == Leave(s.me, tell);
    } else {
      assert s.(me := LifeDo(s.me, Abort(tell))) == s;
    }
  }

  lemma DownParted(s: State)
    requires Inv(s) && Parted(s)
    ensures Parted(s.(me := LifeDo(s.me, Down)))
  {
  }

  lemma OpenParted(s: State)
    requires Inv(s) && Told(s) && Parted(s)
    ensures Parted(s.(me := LifeDo(s.me, Open)))
  {
    ResetsSnoc(s.me.ctl, Syn(DeltaOf(s.me.conf)));
  }

  lemma LifeParted(s: State, step: Step)
    requires Inv(s) && Told(s) && Parted(s) && OfLife(step)
    ensures Parted(s.(me := LifeDo(s.me, step)))
  {
    match step
    case Open => OpenParted(s);
    case Abort(tell) => AbortParted(s, tell);
    case Reset => EndParted(s, Reset);
    case Finish => EndParted(s, Finish);
    case Down => DownParted(s);
  }

  /** A frame of `me` goes on the wire. */
  lemma SentParted(s: State, f: End, x: Frame)
    requires Parted(s) && f.life == s.me.life && ResetsIn(f.ctl) + (if x.Rst? then 1 else 0) == ResetsIn(s.me.ctl)
    requires Tail(s.me.tx) == BytesOf(x) + Tail(f.tx) && f.tx.wrote == s.me.tx.wrote
    ensures Parted(s.(me := f, toPeer := s.toPeer + [x]))
  {
    ResetsSnoc(s.toPeer, x);
    DataSnoc(s.toPeer, x);
    assert DataIn(s.toPeer) + (BytesOf(x) + Tail(f.tx)) == (DataIn(s.toPeer) + BytesOf(x)) + Tail(f.tx);
  }

  lemma FlushControlParted(s: State)
    requires Inv(s) && Parted(s)
    ensures Parted(FlushDo(s, FlushControl))
  {
    var e := s.me;
    if !e.life.down && e.ctl != [] {
      assert BytesOf(e.ctl[0]) == [] && [] + Tail(e.tx) == Tail(e.tx);
      SentParted(s, e.(ctl := e.ctl[1..]), e.ctl[0]);
    } else {
      assert FlushDo(s, FlushControl) == s;
    }
  }

  lemma FlushDataParted(s: State)
    requires Parted(s)
    ensures Parted(FlushDo(s, FlushData))
  {
    var e := s.me;
    if !e.life.down && e.ctl == [] && e.life.inTable && e.tx.out != [] {
      var f := e.(tx := e.tx.(out := e.tx.out[1..]));
      assert Tail(e.tx) == e.tx.out[0] + Tail(f.tx);
      SentParted(s, f, Data(e.tx.out[0]));
    } else {
      assert FlushDo(s, FlushData) == s;
    }
  }

  lemma FlushFinParted(s: State)
    requires Parted(s)
    ensures Parted(FlushDo(s, FlushFin))
  {
    var e := s.me;
    if !e.life.down && e.ctl == [] && e.life.inTable && e.tx.out == [] && e.tx.finState.FinQueued? {
      assert [] + Tail(e.tx) == Tail(e.tx);
      SentParted(s, e.(tx := e.tx.(finState := FinSent, fins := e.tx.fins + 1)), Fin);
    } else {
      assert FlushDo(s, FlushFin) == s;
    }
  }

  lemma FlushParted(s: State, step: Step)
    requires Inv(s) && Parted(s) && OfFlush(step)
    ensures Parted(FlushDo(s, step))
  {
    match step
    case FlushControl => FlushControlParted(s);
    case FlushData => FlushDataParted(s);
    case FlushFin => FlushFinParted(s);
  }

  /** What handling a frame does to an end that may leave. */
  lemma HandleParts(e: End, x: Frame, accept: bool)
    ensures var f := Handle(e, x, accept);
            && (f.tx == e.tx || f.life.aborted) && (f.life.opening ==> e.life.opening) && f.life.down == e.life.down
            && (f.life.aborted ==> e.life.aborted || (x.Rst? && f == Leave(e, false)))
            && (f.life.told == (e.life.told || f == Refuse(e)))
            && (x.Data? && !e.life.inTable ==> f == Refuse(e))
            && (f == Refuse(e) || ResetsIn(f.ctl) == ResetsIn(e.ctl))
            && (f.life.inTable ==> e.life.inTable || x.Syn?)
            && (f == Refuse(e) ==> !e.life.inTable || x.Syn?)
  {
    if x.Syn? { ResetsSnoc(e.ctl, Ack(DeltaOf(e.conf))); }
  }

  lemma ReceiveParts(s: State, accept: bool)
    requires Inv(s) && Told(s) && Parted(s) && s.toMe != [] && !s.me.life.down
    ensures var f := Handle(s.me, s.toMe[0], accept); Parting(f, s.peer, s.toPeer) && Unmet(f, s.peer, s.toPeer)
  {
    HandleParts(s.me, s.toMe[0], accept);
    ResetsSnoc(s.me.ctl, Rst);
    if s.toMe[0].Syn? { SynIsNext(s.me, s.peer, s.toPeer, s.toMe); }
  }

  lemma SenderParts(s: State, accept: bool)
    requires Inv(s) && Parted(s) && s.toMe != [] && !s.me.life.down
    ensures var f := Handle(s.me, s.toMe[0], accept); Parting(s.peer, f, s.toMe[1..]) && Unmet(s.peer, f, s.toMe[1..])
  {
    var f := Handle(s.me, s.toMe[0], accept);
    HandleParts(s.me, s.toMe[0], accept);
    if f.life.opening && !f.life.told && s.toMe[0].Data? { NotOpening(s.me, s.peer, s.toPeer, s.toMe); }
    assert !s.toMe[0].Data? ==> DataIn(s.toMe) == DataIn(s.toMe[1..]);
  }

  lemma ReceiveParted(s: State, accept: bool)
    requires Inv(s) && Told(s) && Parted(s)
    ensures Parted(Do(s, Receive(accept)))
  {
    if s.toMe != [] && !s.me.life.down {
      ReceiveParts(s, accept);
      SenderParts(s, accept);
      assert Do(s, Receive(accept)) == s.(me := Handle(s.me, s.toMe[0], accept), toMe := s.toMe[1..]);
    } else {
      assert Do(s, Receive(accept)) == s;
    }
  }

  lemma StepParted(s: State, step: Step)
    requires Inv(s) && Told(s) && Parted(s)
    ensures Parted(Do(s, step))
  {
    if step.Receive? {
      ReceiveParted(s, step.accept);
    } else if OfFlush(step) {
      FlushParted(s, step);
      assert Do(s, step) == FlushDo(s, step);
    } else if OfLife(step) {
      LifeParted(s, step);
      assert Do(s, step) == s.(me := LifeDo(s.me, step));
    } else if OfWrite(step) {
      WriteParted(s, step);
      assert Do(s, step) == s.(me := WriteDo(s.me, step));
    } else {
      ReadParted(s, step);
      assert Do(s, step) == s.(me := ReadDo(s.me, step));
    }
  }

  lemma FlipParted(s: State)
    requires Parted(s)
    ensures Parted(Flip(s))
  {
  }

  lemma {:induction false} ReachableParted(s: State, steps: seq<(bool, Step)>)
    requires Init(s)
    ensures Parted(Exec(s, steps))
  {
    if steps != [] {
      var u, last := Exec(s, steps[..|steps| - 1]), steps[|steps| - 1];
      ReachableTold(s, steps[..|steps| - 1]);
      ReachableParted(s, steps[..|steps| - 1]);
      if last.0 {
        StepParted(u, last.1);
      } else {
        FlipKeeps(u);
        FlipTold(u);
        FlipParted(u);
        StepParted(Flip(u), last.1);
        FlipParted(Do(Flip(u), last.1));
      }
    }
  }

  // --------------------------------------------------------------- ends are met

  /** A FIN that left is on the wire or was seen, at an end that has the stream or will. */
  predicate FinWhole(a: End, b: End, ab: seq<Frame>) {
    MayHave(a, b, ab) ==> FinsIn(ab) + (if b.rx.peerFin then 1 else 0) == a.tx.fins
  }

  /** A writing direction that was ended has its FIN queued or sent, or is about to queue it. */
  predicate FinSet(e: End) {
    e.life.inTable && e.tx.localFin ==> e.tx.hand.Ending? || !e.tx.finState.NoFin?
  }

  predicate Met(s: State) {
    match s
    case State(me, peer, toPeer, toMe) =>
      FinWhole(me, peer, toPeer) && FinWhole(peer, me, toMe) && FinSet(me) && FinSet(peer)
  }

  lemma FinKept(a: End, b: End, c: End, d: End, ab: seq<Frame>)
    requires FinWhole(a, b, ab) && c.conf == a.conf && c.tx.fins == a.tx.fins && d.rx.peerFin == b.rx.peerFin
    requires c.ctl == a.ctl || (a.ctl != [] && c.ctl != [] && c.ctl[0] == a.ctl[0])
             || (a.ctl == [] && c.ctl != [] && !c.ctl[0].Syn?) || c.ctl == []
    requires d.life.inTable ==> b.life.inTable
    ensures FinWhole(c, d, ab)
  {
  }

  /** What the end's own steps leave alone. */
  lemma OwnEnds(e: End, step: Step)
    requires OfWrite(step) || step.Read? || step.SendGrant? || step.Abort? || step.Reset? || step.Finish? || step.Down?
    ensures var f := Do(State(e, e, [], []), step).me;
            && f.conf == e.conf && f.tx.fins == e.tx.fins && f.rx.peerFin == e.rx.peerFin
            && (f.life.inTable ==> e.life.inTable)
            && (f.ctl == e.ctl || (e.ctl != [] && f.ctl != [] && f.ctl[0] == e.ctl[0])
                || (e.ctl == [] && f.ctl != [] && !f.ctl[0].Syn?) || f.ctl == [])
            && (FinSet(e) ==> FinSet(f))
  {
  }

  lemma OwnMet(s: State, step: Step)
    requires Met(s)
    requires OfWrite(step) || step.Read? || step.SendGrant? || step.Abort? || step.Reset? || step.Finish? || step.Down?
    ensures Met(Do(s, step))
  {
    var f := Do(s, step).me;
    OwnEnds(s.me, step);
    FinKept(s.me, s.peer, f, s.peer, s.toPeer);
    FinKept(s.peer, s.me, s.peer, f, s.toMe);
    assert Do(s, step) == s.(me := f);
  }

  lemma OpenMet(s: State)
    requires Inv(s) && Met(s)
    ensures Met(Do(s, Open))
  {
  }

  lemma FlushMet(s: State, step: Step)
    requires Inv(s) && Met(s) && OfFlush(step)
    ensures Met(Do(s, step))
  {
    if s.me.ctl != [] { CountsSnoc(s.toPeer, s.me.ctl[0]); }
    if s.me.tx.out != [] { CountsSnoc(s.toPeer, Data(s.me.tx.out[0])); }
    CountsSnoc(s.toPeer, Fin);
  }

  lemma HandleEnds(e: End, x: Frame, accept: bool)
    ensures var f := Handle(e, x, accept);
            && f.conf == e.conf && f.tx.fins == e.tx.fins
            && f.rx.peerFin == (e.rx.peerFin || (x.Fin? && e.life.inTable))
            && (f.life.inTable ==> e.life.inTable || (x.Syn? && !e.life.made))
            && (f.ctl == e.ctl || (e.ctl != [] && f.ctl != [] && f.ctl[0] == e.ctl[0])
                || (e.ctl == [] && f.ctl != [] && !f.ctl[0].Syn?))
            && (FinSet(e) && (!e.life.made ==> !e.tx.localFin) ==> FinSet(f))
  {
  }

  lemma FinTaken(b: End, e: End, f: End, ba: seq<Frame>, ab: seq<Frame>)
    requires FinWhole(b, e, ba) && Shaken(e, b, ab, ba) && ba != [] && b.tx.fins <= 1
    requires f.rx.peerFin == (e.rx.peerFin || (ba[0].Fin? && e.life.inTable))
    requires f.life.inTable ==> e.life.inTable || ba[0].Syn?
    ensures FinWhole(b, f, ba[1..])
  {
    OpensFirst(ba[1..]);
    OpensFirst(b.ctl);
    if ba[0].Syn? { SynIsNext(e, b, ab, ba); }
  }

  lemma ReceiveMet(s: State, accept: bool)
    requires Inv(s) && Met(s)
    ensures Met(Do(s, Receive(accept)))
  {
    if s.toMe != [] && !s.me.life.down {
      var f := Handle(s.me, s.toMe[0], accept);
      HandleEnds(s.me, s.toMe[0], accept);
      FinTaken(s.peer, s.me, f, s.toMe, s.toPeer);
      FinKept(s.me, s.peer, f, s.peer, s.toPeer);
      assert Do(s, Receive(accept)) == s.(me := f, toMe := s.toMe[1..]);
    } else {
      assert Do(s, Receive(accept)) == s;
    }
  }

  lemma StepMet(s: State, step: Step)
    requires Inv(s) && Met(s)
    ensures Met(Do(s, step))
  {
    if step.Open? {
      OpenMet(s);
    } else if step.Receive? {
      ReceiveMet(s, step.accept);
    } else if OfFlush(step) {
      FlushMet(s, step);
    } else {
      OwnMet(s, step);
    }
  }

  lemma FlipMet(s: State)
    requires Met(s)
    ensures Met(Flip(s))
  {
  }

  lemma {:induction false} ReachableMet(s: State, steps: seq<(bool, Step)>)
    requires Init(s)
    ensures Inv(Exec(s, steps)) && Met(Exec(s, steps))
  {
    Reachable(s, steps);
    if steps != [] {
      var u, last := Exec(s, steps[..|steps| - 1]), steps[|steps| - 1];
      ReachableMet(s, steps[..|steps| - 1]);
      if last.0 {
        StepMet(u, last.1);
      } else {
        FlipKeeps(u);
        FlipMet(u);
        StepMet(Flip(u), last.1);
        FlipMet(Do(Flip(u), last.1));
      }
    }
  }

  // ----------------------------------------------------------- what is proved

  /** What `b` has read and holds of the direction from `a`: with the wire, the queued frames and a
      write's unframed rest, exactly what Write accepted, while neither end aborted; always a prefix. */
  predicate Preserved(a: End, b: End, ab: seq<Frame>) {
    && (!a.life.aborted && !b.life.aborted ==>
          a.tx.wrote == b.rx.got + (b.rx.inq + (DataIn(ab) + (Flatten(a.tx.out) + Rest(a.tx.hand)))))
    && Prefix(b.rx.got + b.rx.inq, a.tx.wrote)
  }

  lemma InvPreserves(u: State)
    requires Inv(u)
    ensures Preserved(u.me, u.peer, u.toPeer) && Preserved(u.peer, u.me, u.toMe)
  {
    assert Tail(u.me.tx) == Flatten(u.me.tx.out) + Rest(u.me.tx.hand);
    assert Tail(u.peer.tx) == Flatten(u.peer.tx.out) + Rest(u.peer.tx.hand);
  }

  /** What a reader may conclude from the end of the stream: everything accepted was read. */
  predicate EndsWhole(a: End, b: End, ab: seq<Frame>) {
    && a.tx.fins <= 1 && FinsIn(ab) <= 1 && Clean(ab)
    && (a.tx.fins == 1 ==> a.tx.localFin && a.tx.out == [] && !a.tx.hand.Framing?)
    && (b.rx.peerFin && b.rx.inq == [] && !(b.life.closed && b.life.aborted) ==> b.rx.got == a.tx.wrote)
  }

  lemma InvEnds(u: State)
    requires Inv(u)
    ensures EndsWhole(u.me, u.peer, u.toPeer) && EndsWhole(u.peer, u.me, u.toMe)
  {
    assert u.me.rx.got + [] == u.me.rx.got && u.peer.rx.got + [] == u.peer.rx.got;
  }

  /** Where the credit of the direction from `a` to `b` is. */
  function Credit(a: End, b: End, ab: seq<Frame>, ba: seq<Frame>): int {
    a.send.avail + |Flatten(a.tx.out)| + |Rest(a.tx.hand)| + |DataIn(ab)| + |b.rx.inq| + b.recv.consumed + b.owes
    + GrantsIn(b.ctl) + GrantsIn(ba)
  }

  /** Credit is the smaller window while the sender is live and the receiver did not drop any. */
  predicate Conserved(a: End, b: End, ab: seq<Frame>, ba: seq<Frame>) {
    a.life.inTable && !a.life.opening && !Gone(b.life) ==>
      Credit(a, b, ab, ba) == Small(a.conf, b.conf) && a.send.avail >= 0
  }

  lemma InvConserves(u: State)
    requires Inv(u)
    ensures Conserved(u.me, u.peer, u.toPeer, u.toMe) && Conserved(u.peer, u.me, u.toMe, u.toPeer)
    ensures u.me.faults == 0 && u.peer.faults == 0
  {
    assert |Tail(u.me.tx)| == |Flatten(u.me.tx.out)| + |Rest(u.me.tx.hand)|;
    assert |Tail(u.peer.tx)| == |Flatten(u.peer.tx.out)| + |Rest(u.peer.tx.hand)|;
  }

  /** Nothing of the direction from `a` to `b` is queued, in flight or unread, and no grant is on its way. */
  predicate Drained(a: End, b: End, ab: seq<Frame>, ba: seq<Frame>) {
    a.tx.out == [] && !a.tx.hand.Framing? && ab == [] && b.rx.inq == [] && b.owes == 0 && b.ctl == [] && ba == []
  }

  /** The sender of a drained direction holds more than three quarters of its window. */
  predicate Flowing(a: End, b: End, ab: seq<Frame>, ba: seq<Frame>) {
    a.life.inTable && !a.life.opening && !Gone(b.life) && a.ctl == [] && Drained(a, b, ab, ba) ==>
      a.send.max == Small(a.conf, b.conf) && 4 * a.send.avail > 3 * a.send.max
  }

  lemma InvFlows(u: State)
    requires Inv(u)
    ensures Flowing(u.me, u.peer, u.toPeer, u.toMe)
  {
    InvConserves(u);
  }

  /** In every run of both ends, in any order: no byte is lost, added or reordered. */
  lemma {:induction false} StreamPreserved(s: State, steps: seq<(bool, Step)>)
    requires Init(s)
    ensures var u := Exec(s, steps); Preserved(u.me, u.peer, u.toPeer) && Preserved(u.peer, u.me, u.toMe)
  {
    Reachable(s, steps);
    InvPreserves(Exec(s, steps));
  }

  /** In every run a FIN leaves once and behind all data, so an end of stream is read only after every
      byte the other end's Write accepted. */
  lemma {:induction false} EofAfterAll(s: State, steps: seq<(bool, Step)>)
    requires Init(s)
    ensures var u := Exec(s, steps); EndsWhole(u.me, u.peer, u.toPeer) && EndsWhole(u.peer, u.me, u.toMe)
  {
    Reachable(s, steps);
    InvEnds(Exec(s, steps));
  }

  /** In every run credit is conserved, so neither end ever reports a flow-control violation. */
  lemma {:induction false} CreditConserved(s: State, steps: seq<(bool, Step)>)
    requires Init(s)
    ensures var u := Exec(s, steps);
            && Conserved(u.me, u.peer, u.toPeer, u.toMe) && Conserved(u.peer, u.me, u.toMe, u.toPeer)
            && u.me.faults == 0 && u.peer.faults == 0
  {
    Reachable(s, steps);
    InvConserves(Exec(s, steps));
  }

  /** In every run, for any pair of windows, a sender can never wait on a grant that will not come. */
  lemma {:induction false} NeverStalls(s: State, steps: seq<(bool, Step)>)
    requires Init(s)
    ensures var u := Exec(s, steps); Flowing(u.me, u.peer, u.toPeer, u.toMe) && Flowing(u.peer, u.me, u.toMe, u.toPeer)
  {
    Reachable(s, steps);
    InvFlows(Exec(s, steps));
    FlipKeeps(Exec(s, steps));
    InvFlows(Flip(Exec(s, steps)));
  }

  /** A stream that `a` reset is gone at the other end once nothing of `a` is on its way. */
  predicate Mutual(a: End, b: End, ab: seq<Frame>) {
    a.life.told && !a.life.down && a.ctl == [] && ab == [] ==> !b.life.inTable
  }

  /** Both sessions are up and every frame of the stream has arrived. */
  predicate Settled(u: State) {
    !u.me.life.down && !u.peer.life.down && u.me.ctl == [] && u.peer.ctl == [] && u.toPeer == [] && u.toMe == []
  }

  /** An end left behind by `a`: `a` gave up an open that was not acknowledged, and `b` has sent nothing. */
  predicate BehindQuietOpen(a: End, b: End) {
    a.life.aborted && b.life.inTable ==> a.life.opening && !a.life.told && b.tx.wrote == Tail(b.tx)
  }

  predicate NotAbandoned(u: State) { Settled(u) ==> BehindQuietOpen(u.me, u.peer) && BehindQuietOpen(u.peer, u.me) }

  /** In every run a reset is heard: an end that reset the stream, refused it or answered stray data is
      not left with a peer that still believes in the stream.  Once everything arrived, the one departure
      that leaves a peer behind is the open timeout, which sends no reset; and that peer has then sent no
      byte: the first to arrive is answered by a reset. */
  lemma {:induction false} ResetsAreHeard(s: State, steps: seq<(bool, Step)>)
    requires Init(s)
    ensures var u := Exec(s, steps); Mutual(u.me, u.peer, u.toPeer) && Mutual(u.peer, u.me, u.toMe) && NotAbandoned(u)
  {
    var u := Exec(s, steps);
    ReachableTold(s, steps);
    ReachableParted(s, steps);
    assert [] + Tail(u.me.tx) == Tail(u.me.tx) && [] + Tail(u.peer.tx) == Tail(u.peer.tx);
  }

  predicate AckWaits(u: State) {
    && u.me.life.inTable && u.me.life.opening && !u.me.life.told && !u.me.life.down && u.me.ctl == []
    && u.peer.life.inTable && !u.peer.life.down && u.peer.ctl == [Ack(DeltaOf(u.peer.conf))]
    && u.toPeer == [] && u.toMe == []
  }

  lemma OpenAccepted(s: State)
    requires Init(s) && s.me.conf.opener
    ensures AckWaits(Move(Move(Move(s, true, Open), true, FlushControl), false, Receive(true)))
  {
  }

  lemma GivesUp(u: State)
    requires AckWaits(u)
    ensures var v := Move(Move(Move(u, true, Abort(false)), false, FlushControl), true, Receive(true));
            Settled(v) && v.me.life.aborted && v.me.life.opening && !v.me.life.told && v.peer.life.inTable
  {
  }

  lemma ExecOn(s: State, steps: seq<(bool, Step)>, mine: bool, step: Step)
    ensures Exec(s, steps + [(mine, step)]) == Move(Exec(s, steps), mine, step)
  {
    assert (steps + [(mine, step)])[..|steps|] == steps;
  }

  /** An open that times out while its acknowledgement is on the way does leave the acceptor behind. */
  lemma OpenTimeoutLeaves(s: State) returns (run: seq<(bool, Step)>)
    requires Init(s) && s.me.conf.opener
    ensures var u := Exec(s, run);
            Settled(u) && u.me.life.aborted && u.me.life.opening && !u.me.life.told && u.peer.life.inTable
  {
    ExecOn(s, [], true, Open);
    run := [] + [(true, Open)];
    ExecOn(s, run, true, FlushControl);
    run := run + [(true, FlushControl)];
    ExecOn(s, run, false, Receive(true));
    run := run + [(false, Receive(true))];
    OpenAccepted(s);
    var u := Exec(s, run);
    ExecOn(s, run, true, Abort(false));
    run := run + [(true, Abort(false))];
    ExecOn(s, run, false, FlushControl);
    run := run + [(false, FlushControl)];
    ExecOn(s, run, true, Receive(true));
    run := run + [(true, Receive(true))];
    GivesUp(u);
  }

  /** An end that ended its direction and has nothing more to send or to read. */
  predicate Done(e: End) {
    e.life.inTable && e.tx.localFin && e.tx.hand.Idle? && e.tx.out == [] && !e.tx.finState.FinQueued? && e.rx.inq == []
  }

  predicate NotHalfClosed(u: State) {
    Done(u.me) && Done(u.peer) && u.toPeer == [] && u.toMe == [] ==> Ends(u.me) && Ends(u.peer)
  }

  /** In every run, two ends that both ended their direction are not left half-closed: once their frames
      arrived and were read, each has seen the other's FIN and can finish. */
  lemma {:induction false} EndsMeet(s: State, steps: seq<(bool, Step)>)
    requires Init(s)
    ensures NotHalfClosed(Exec(s, steps))
  {
    ReachableMet(s, steps);
  }
}
