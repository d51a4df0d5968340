/** The sessions of module MuxSession over the frames of module Codec: what a session hands to its
    transport is always a legal frame at the other end, and the bytes, however they are split, parse to
    the messages that were sent. */
module MuxWire {
  import opened Bytes
  import opened MuxStream
  import opened MuxSession
  import Codec

  const FLAG_ACK: nat := 2
  const FLAG_FIN: nat := 4
  const FLAG_RST: nat := 8

  function Update(flags: nat, id: nat, length: nat): Codec.Frame {
    Codec.Frame(Codec.Header(Codec.PROTO_VERSION, Codec.TYPE_WINDOW_UPDATE, flags, id, length), [])
  }

  function Session(typ: nat, flags: nat): Codec.Frame {
    Codec.Frame(Codec.Header(Codec.PROTO_VERSION, typ, flags, 0, 0), [])
  }

  /** The frame a message travels as. */
  function Encoded(m: Msg): Codec.Frame {
    match m
    case GoAway => Session(Codec.TYPE_GO_AWAY, 0)
    case Ping => Session(Codec.TYPE_PING, Codec.FLAG_SYN)
    case Pong => Session(Codec.TYPE_PING, FLAG_ACK)
    case For(id, f) =>
      match f
      case Syn(delta) => Update(Codec.FLAG_SYN, id, delta)
      case Ack(delta) => Update(FLAG_ACK, id, delta)
      case Fin => Update(FLAG_FIN, id, 0)
      case Rst => Update(FLAG_RST, id, 0)
      case Grant(n) => Update(0, id, n)
      case Data(bytes) =>
        Codec.Frame(Codec.Header(Codec.PROTO_VERSION, Codec.TYPE_DATA, 0, id, |bytes|), bytes)
  }

  /** The message the dispatch of a received frame acts on; None for frames this code never sends. */
  function Decoded(f: Codec.Frame): Codec.Option<Msg> {
    var h := f.hdr;
    if h.typ == Codec.TYPE_GO_AWAY then Codec.Some(GoAway)
    else if h.typ == Codec.TYPE_PING then
      if h.flags == Codec.FLAG_SYN then Codec.Some(Ping)
      else if h.flags == FLAG_ACK then Codec.Some(Pong)
      else Codec.None
    else if h.typ == Codec.TYPE_DATA then (if h.flags == 0 then Codec.Some(For(h.id, Data(f.payload))) else Codec.None)
    else if h.typ == Codec.TYPE_WINDOW_UPDATE then
      if h.flags == Codec.FLAG_SYN then Codec.Some(For(h.id, Syn(h.length)))
      else if h.flags == FLAG_ACK then Codec.Some(For(h.id, Ack(h.length)))
      else if h.flags == FLAG_RST then Codec.Some(For(h.id, Rst))
      else if h.flags == FLAG_FIN then Codec.Some(For(h.id, Fin))
      else if h.flags == 0 then Codec.Some(For(h.id, Grant(h.length)))
      else Codec.None
    else Codec.None
  }

  /** A message whose fields fit the header and the receiver's window. */
  predicate Sendable(m: Msg, window: nat) {
    m.For? ==>
      && 0 < m.id < 0x1_0000_0000
      && |BytesOf(m.frame)| <= window && CreditOf(m.frame) < 0x1_0000_0000
      && (Opens(m.frame) ==> m.frame.delta < 0x1_0000_0000)
  }

  /** Each message is a legal frame and is understood as what it was. */
  lemma MsgRoundTrip(m: Msg, window: nat, maxMeta: nat)
    requires window < 0x1_0000_0000 && Sendable(m, window)
    ensures Codec.Legal(Encoded(m), window, maxMeta) && Decoded(Encoded(m)) == Codec.Some(m)
  {
  }

  // -------------------------------------------------- what is on the wire is legal

  lemma {:induction false} FrameBound(fs: seq<Frame>, k: nat)
    requires k < |fs|
    ensures |BytesOf(fs[k])| <= |DataIn(fs)| && CreditOf(fs[k]) <= GrantsIn(fs)
    ensures Opens(fs[k]) ==> OpensIn(fs) >= (if k > 0 && Opens(fs[0]) then 2 else 1)
  {
    if k > 0 { FrameBound(fs[1..], k - 1); }
  }

  /** What one stream has on the wire fits the windows. */
  lemma ShareFits(v: State, k: nat)
    requires MuxStream.Inv(v) && k < |v.toPeer|
    ensures |BytesOf(v.toPeer[k])| <= v.peer.conf.window && CreditOf(v.toPeer[k]) < 0x1_0000_0000
    ensures Opens(v.toPeer[k]) ==> v.toPeer[k].delta < 0x1_0000_0000
  {
    FrameBound(v.toPeer, k);
    FrameBound(v.toPeer, 0);
  }

  lemma {:induction false} ShareMember(ms: seq<Msg>, i: nat) returns (k: nat)
    requires i < |ms| && ms[i].For?
    ensures k < |Share(ms, ms[i].id)| && Share(ms, ms[i].id)[k] == ms[i].frame
  {
    if i == 0 {
      k := 0;
    } else {
      k := ShareMember(ms[1..], i - 1);
      if ms[0].For? && ms[0].id == ms[i].id { k := k + 1; }
    }
  }

  /** No session opens stream 0: its numbers start above. */
  predicate ZeroUnused(s: Sess) {
    s.nextId >= 1 && (ConfOf(s.cfg, 0).opener ==> !Get(s, 0).life.made)
  }

  lemma HandleMade(e: End, x: Frame, accept: bool)
    requires e.conf.opener && !e.life.made
    ensures !Handle(e, x, accept).life.made
  {
  }

  lemma AppMade(e: End, step: Step)
    ensures WriteDo(e, step).life == e.life && ReadDo(e, step).life == e.life
  {
  }

  lemma LifeMade(e: End, step: Step)
    requires !e.life.made && !step.Open?
    ensures !LifeDo(e, step).life.made
  {
  }

  lemma FlushMade(v: State, step: Step)
    ensures MuxStream.FlushDo(v, step).me.life == v.me.life
  {
  }

  lemma StepMade(v: State, step: Step)
    requires v.me.conf.opener && !v.me.life.made && !step.Open?
    ensures !Do(v, step).me.life.made
  {
    if step.Receive? {
      if v.toMe != [] { HandleMade(v.me, v.toMe[0], step.accept); }
    } else if OfFlush(step) {
      FlushMade(v, step);
    } else if OfLife(step) {
      LifeMade(v.me, step);
    } else {
      AppMade(v.me, step);
    }
  }

  lemma ActNumbers(n: Net, act: Act)
    ensures NetDo(n, act).me.nextId >= n.me.nextId && NetDo(n, act).me.cfg == n.me.cfg
  {
  }

  lemma ZeroNotBegun(n: Net, act: Act)
    requires n.me.nextId >= 1
    ensures StepsOf(n, act, 0) != [] ==> !StepsOf(n, act, 0)[0].Open?
  {
    match act
    case Begin =>
    case App(_, _) =>
    case Receives(_) =>
    case Flushes(_) =>
    case _ =>
  }

  lemma ActZero(n: Net, act: Act)
    requires Wired(n) && ZeroUnused(n.me)
    ensures ZeroUnused(NetDo(n, act).me)
  {
    var t, steps := NetDo(n, act).me, StepsOf(n, act, 0);
    ActNumbers(n, act);
    ActRefines(n, act, 0);
    assert Get(t, 0).life.made == View(NetDo(n, act), 0).me.life.made;
    assert Get(n.me, 0).life.made == View(n, 0).me.life.made;
    ZeroNotBegun(n, act);
    if ConfOf(t.cfg, 0).opener && steps != [] {
      ConfStored(n, 0);
      StepMade(View(n, 0), steps[0]);
    }
  }

  lemma ConfStored(n: Net, id: nat)
    requires Wired(n)
    ensures View(n, id).me.conf == ConfOf(n.me.cfg, id)
  {
  }

  lemma {:induction false} RunZero(n: Net, acts: seq<(bool, Act)>)
    requires Start(n)
    ensures var u := NetExec(n, acts); Ready(u) && ZeroUnused(u.me) && ZeroUnused(u.peer)
  {
    StartReady(n);
    if acts != [] {
      var u, last := NetExec(n, acts[..|acts| - 1]), acts[|acts| - 1];
      RunZero(n, acts[..|acts| - 1]);
      MoveReady(u, last.0, last.1);
      var m := if last.0 then u else Turned(u);
      if !last.0 { TurnedReady(u); }
      ActZero(m, last.1);
      PeerStays(m, last.1);
    }
  }

  lemma {:induction false} RunConfig(n: Net, acts: seq<(bool, Act)>)
    ensures NetExec(n, acts).me.cfg == n.me.cfg && NetExec(n, acts).peer.cfg == n.peer.cfg
  {
    if acts != [] {
      var u, last := NetExec(n, acts[..|acts| - 1]), acts[|acts| - 1];
      RunConfig(n, acts[..|acts| - 1]);
      var m := if last.0 then u else Turned(u);
      ActNumbers(m, last.1);
      PeerStays(m, last.1);
    }
  }

  /** Nothing of stream 0 is ever on the wire. */
  lemma ZeroSilent(u: Net)
    requires Wired(u) && ZeroUnused(u.me) && ZeroUnused(u.peer) && u.me.cfg.client != u.peer.cfg.client
    ensures Share(u.toPeer, 0) == []
  {
    var v := View(u, 0);
    assert MuxStream.Inv(v);
    ConfStored(u, 0);
    assert View(u, 0).peer.conf == ConfOf(u.peer.cfg, 0);
    assert Shaken(v.me, v.peer, v.toPeer, v.toMe);
  }

  lemma PeerConf(u: Net, id: nat)
    requires Stored(u.peer)
    ensures View(u, id).peer.conf == ConfOf(u.peer.cfg, id)
  {
  }

  lemma MsgSendable(u: Net, i: nat)
    requires Wired(u) && ZeroUnused(u.me) && ZeroUnused(u.peer) && u.me.cfg.client != u.peer.cfg.client
    requires i < |u.toPeer| && (u.toPeer[i].For? ==> u.toPeer[i].id < 0x1_0000_0000)
    ensures Sendable(u.toPeer[i], u.peer.cfg.window)
  {
    var m := u.toPeer[i];
    if m.For? {
      var k := ShareMember(u.toPeer, i);
      ZeroSilent(u);
      assert m.id != 0;
      PeerConf(u, m.id);
      ShareFits(View(u, m.id), k);
    }
  }

  function Frames(ms: seq<Msg>): seq<Codec.Frame> { seq(|ms|, i requires 0 <= i < |ms| => Encoded(ms[i])) }

  predicate Narrow(ms: seq<Msg>) { forall i :: 0 <= i < |ms| && ms[i].For? ==> ms[i].id < 0x1_0000_0000 }

  /** In every run, while stream numbers have not passed 32 bits, what is on the wire is a sequence of legal
      frames for the session that will read it. */
  lemma {:induction false} WireLegal(n: Net, acts: seq<(bool, Act)>, maxMeta: nat)
    requires Start(n) && Narrow(NetExec(n, acts).toPeer)
    ensures Codec.AllLegal(Frames(NetExec(n, acts).toPeer), n.peer.cfg.window, maxMeta)
    ensures forall i :: 0 <= i < |NetExec(n, acts).toPeer| ==>
              Decoded(Encoded(NetExec(n, acts).toPeer[i])) == Codec.Some(NetExec(n, acts).toPeer[i])
  {
    var u := NetExec(n, acts);
    RunZero(n, acts);
    RunConfig(n, acts);
    forall i | 0 <= i < |u.toPeer|
      ensures Codec.Legal(Encoded(u.toPeer[i]), n.peer.cfg.window, maxMeta)
      ensures Decoded(Encoded(u.toPeer[i])) == Codec.Some(u.toPeer[i])
    {
      MsgSendable(u, i);
      MsgRoundTrip(u.toPeer[i], n.peer.cfg.window, maxMeta);
    }
  }

  /** The bytes in flight to the other session. */
  ghost function InFlight(n: Net, acts: seq<(bool, Act)>, maxMeta: nat): seq<byte>
    requires Start(n) && Narrow(NetExec(n, acts).toPeer)
  {
    WireLegal(n, acts, maxMeta);
    Codec.Encode(Frames(NetExec(n, acts).toPeer), n.peer.cfg.window, maxMeta)
  }

  /** In every run, the bytes in flight, split across reads in any way, parse at the other end to exactly
      the messages in flight, and leave nothing. */
  lemma {:induction false} OverBytes(n: Net, acts: seq<(bool, Act)>, blocks: seq<seq<byte>>, maxMeta: nat)
    requires Start(n) && Narrow(NetExec(n, acts).toPeer)
    requires Flatten(blocks) == InFlight(n, acts, maxMeta)
    ensures var p, ms := Codec.FeedAll(blocks, n.peer.cfg.window, maxMeta), NetExec(n, acts).toPeer;
            && p.fault.None? && p.rest == [] && |p.frames| == |ms|
            && forall i :: 0 <= i < |ms| ==> Decoded(p.frames[i]) == Codec.Some(ms[i])
  {
    WireLegal(n, acts, maxMeta);
    Codec.SplitRoundTrip(Frames(NetExec(n, acts).toPeer), blocks, n.peer.cfg.window, maxMeta);
  }
}
