/** Two multiplexing sessions joined by a transport that keeps frames in order: any number of streams in
    both directions, each session's control queue and round-robin flush queue, GoAway, Shutdown and the
    loss of the transport.

    Every step is taken by the session called `me`; `Flip` exchanges the two.  What one stream sees of a
    run is a run of module MuxStream, whatever the other streams do. */
module MuxSession {
  import opened Windows
  import opened MuxStream

  // ------------------------------------------------------------------- state

  datatype Msg = For(id: nat, frame: Frame) | GoAway | Ping | Pong

  datatype Config = Config(client: bool, window: nat, maxFrame: nat)

  datatype Flags = Flags(
    goAway: bool, goAwaySent: bool, goAwayFlushed: bool, closed: bool,
    draining: bool, drainClosed: bool,
    drainClean: bool)        // the drain ended without an error: Shutdown returns nil

  datatype Sess = Sess(
    cfg: Config,
    streams: map<nat, End>,  // every stream ever seen; those in the table say so
    control: seq<Msg>, pending: seq<nat>,
    queued: set<nat>,        // streams that are marked as being on the flush queue
    nextId: nat, flags: Flags,
    log: seq<nat>,           // whose stream frames the transport took, in order
    farewells: nat)          // GoAway frames the transport took

  datatype Net = Net(me: Sess, peer: Sess, toPeer: seq<Msg>, toMe: seq<Msg>)

  function Turned(n: Net): Net { Net(n.peer, n.me, n.toMe, n.toPeer) }

  function NewSession(cfg: Config): Sess {
    Sess(cfg, map[], [], [], {}, if cfg.client then 1 else 2,
         Flags(false, false, false, false, false, false, false), [], 0)
  }

  predicate Resolved(cfg: Config) { MIN_WINDOW <= cfg.window < 0x1_0000_0000 && 0 < cfg.maxFrame }

  ghost predicate Start(n: Net) {
    && Resolved(n.me.cfg) && Resolved(n.peer.cfg) && n.me.cfg.client != n.peer.cfg.client
    && n.me == NewSession(n.me.cfg) && n.peer == NewSession(n.peer.cfg) && n.toPeer == [] && n.toMe == []
  }

  // ------------------------------------------------------- one stream's share

  /** Client streams are odd, server streams even. */
  function ConfOf(cfg: Config, id: nat): Conf { Conf((id % 2 == 1) == cfg.client, cfg.window, cfg.maxFrame) }

  /** The stream as the table knows it, or one that was never opened. */
  function Get(s: Sess, id: nat): End {
    var e := if id in s.streams then s.streams[id] else Unopened(ConfOf(s.cfg, id));
    e.(life := e.life.(down := s.flags.closed))
  }

  function Wrap(id: nat, fs: seq<Frame>): seq<Msg> {
    if fs == [] then [] else [For(id, fs[0])] + Wrap(id, fs[1..])
  }

  /** Puts back a stream after a step of its own; the control frames it asked for join the session's
      queue, and one that left the table is no longer marked as queued. */
  function Put(s: Sess, id: nat, e: End): Sess {
    s.(streams := s.streams[id := e.(ctl := [], life := e.life.(down := false))],
       control := s.control + Wrap(id, e.ctl),
       queued := if e.life.inTable then s.queued else s.queued - {id})
  }

  /** Marks the stream as queued and appends it to the flush queue, unless it is there already. */
  function Enlist(s: Sess, id: nat): Sess {
    if id in s.queued then s else s.(queued := s.queued + {id}, pending := s.pending + [id])
  }

  /** One stream's frames of a queue or a wire. */
  function Share(ms: seq<Msg>, id: nat): seq<Frame> {
    if ms == [] then []
    else (if ms[0].For? && ms[0].id == id then [ms[0].frame] else []) + Share(ms[1..], id)
  }

  function EndOf(s: Sess, id: nat): End { Get(s, id).(ctl := Share(s.control, id)) }

  /** What one stream sees of both sessions. */
  function View(n: Net, id: nat): State {
    State(EndOf(n.me, id), EndOf(n.peer, id), Share(n.toPeer, id), Share(n.toMe, id))
  }

  predicate InTable(s: Sess, id: nat) { id in s.streams && s.streams[id].life.inTable }

  predicate Empty(s: Sess) { forall id :: id in s.streams ==> !s.streams[id].life.inTable }

  // ------------------------------------------------------------------- steps

  datatype Act =
    | Begin                          // Open
    | App(id: nat, step: Step)       // an application's call on a stream, one lock section at a time
    | Receives(accept: bool)
    | Flushes(ok: bool)              // one round of the flush loop; the transport takes a frame or is full
    | Pings
    | Shutdown | CloseSession | FinishDrain | ForceDrain
    | LoseTransport

  /** Steps an application's call takes on its stream. */
  predicate OfApp(step: Step) {
    OfWrite(step) || step.Read? || step.SendGrant? || step.Abort? || step.Reset? || step.Finish?
  }

  function EndStep(e: End, step: Step): End {
    if OfLife(step) then LifeDo(e, step) else if OfWrite(step) then WriteDo(e, step) else ReadDo(e, step)
  }

  /** A stream that was given more to send. */
  predicate MoreWork(e: End, f: End) {
    |f.tx.out| > |e.tx.out| || (f.tx.finState.FinQueued? && !e.tx.finState.FinQueued?)
  }

  function AppDo(s: Sess, id: nat, step: Step): Sess {
    if !OfApp(step) || !Get(s, id).life.made then s
    else
      var e := Get(s, id);
      var f := EndStep(e, step);
      if MoreWork(e, f) then Enlist(Put(s, id, f), id)
      else Put(s, id, f)
  }

  function BeginDo(s: Sess): Sess {
    if s.flags.closed || s.flags.goAway then s
    else Put(s, s.nextId, LifeDo(Get(s, s.nextId), Open)).(nextId := s.nextId + 2)
  }

  function Farewell(s: Sess): Sess {
    s.(flags := s.flags.(goAway := true, goAwaySent := true),
       control := if s.flags.goAwaySent then s.control else s.control + [GoAway])
  }

  function EndDrain(f: Flags, clean: bool): Flags {
    if !f.draining || f.drainClosed then f else f.(drainClosed := true, drainClean := clean)
  }

  function ShutDo(s: Sess, act: Act): Sess {
    match act
    case Shutdown =>
      if s.flags.draining || s.flags.closed then s else Farewell(s.(flags := s.flags.(draining := true)))
    case CloseSession =>
      if s.flags.closed then s else Farewell(s.(flags := EndDrain(s.flags, false)))
    case FinishDrain =>
      if s.flags.draining && !s.flags.drainClosed && !s.flags.closed && Empty(s) && s.flags.goAwayFlushed
      then s.(flags := EndDrain(s.flags, true))
      else s
    case ForceDrain => s.(flags := EndDrain(s.flags, false))
    case Pings => if s.flags.closed then s else s.(control := s.control + [Ping])
    case LoseTransport =>
      if s.flags.closed then s
      else s.(streams := map id | id in s.streams :: Leave(s.streams[id], false),
              control := [], pending := [], queued := {},
              flags := EndDrain(s.flags, false).(closed := true))
    case _ => s
  }

  /** A frame arrives: session frames first, then streams'; a session that said goodbye accepts none. */
  function TakeDo(s: Sess, m: Msg, accept: bool): Sess {
    match m
    case GoAway => s.(flags := s.flags.(goAway := true))
    case Ping => s.(control := s.control + [Pong])
    case Pong => s
    case For(id, f) => Put(s, id, Handle(Get(s, id), f, accept && !s.flags.goAway))
  }

  /** The head of the flush queue has its turn. */
  function TurnDo(n: Net, ok: bool): Net
    requires n.me.pending != []
  {
    var s, id := n.me, n.me.pending[0];
    var e, rest := Get(n.me, id), n.me.pending[1..];
    if !e.life.inTable then n.(me := s.(pending := rest))
    else if e.tx.out == [] then
      if !e.tx.finState.FinQueued? then n.(me := s.(pending := rest, queued := s.queued - {id}))
      else if !ok then n
      else
        n.(me := Put(s, id, e.(tx := e.tx.(finState := FinSent, fins := e.tx.fins + 1)))
                 .(pending := rest, queued := s.queued - {id}, log := s.log + [id]),
           toPeer := n.toPeer + [For(id, Fin)])
    else if !ok then n
    else
      var last := |e.tx.out| == 1 && !e.tx.finState.FinQueued?;
      n.(me := Put(s, id, e.(tx := e.tx.(out := e.tx.out[1..])))
               .(pending := if last then rest else rest + [id],
                 queued := if last then s.queued - {id} else s.queued,
                 log := s.log + [id]),
         toPeer := n.toPeer + [For(id, Data(e.tx.out[0]))])
  }

  /** What a flush that found no control frame notes of the GoAway. */
  function Noted(n: Net): Net {
    n.(me := n.me.(flags := n.me.flags.(goAwayFlushed := n.me.flags.goAwayFlushed || n.me.flags.goAwaySent)))
  }

  function FlushDo(n: Net, ok: bool): Net {
    var s := n.me;
    if s.flags.closed then n
    else if s.control != [] then
      if !ok then n
      else n.(me := s.(control := s.control[1..],
                       farewells := if s.control[0].GoAway? then s.farewells + 1 else s.farewells),
              toPeer := n.toPeer + [s.control[0]])
    else
      if s.pending == [] then Noted(n) else TurnDo(Noted(n), ok)
  }

  /** A step taken by `me`. */
  function NetDo(n: Net, act: Act): Net {
    match act
    case Begin => n.(me := BeginDo(n.me))
    case App(id, step) => n.(me := AppDo(n.me, id, step))
    case Receives(accept) =>
      if n.toMe == [] || n.me.flags.closed then n
      else n.(me := TakeDo(n.me, n.toMe[0], accept), toMe := n.toMe[1..])
    case Flushes(ok) => FlushDo(n, ok)
    case _ => n.(me := ShutDo(n.me, act))
  }

  function NetMove(n: Net, mine: bool, act: Act): Net {
    if mine then NetDo(n, act) else Turned(NetDo(Turned(n), act))
  }

  function NetExec(n: Net, acts: seq<(bool, Act)>): Net {
    if acts == [] then n
    else NetMove(NetExec(n, acts[..|acts| - 1]), acts[|acts| - 1].0, acts[|acts| - 1].1)
  }

  // ------------------------------------------------------------ shares of queues

  lemma {:induction false} ShareConcat(a: seq<Msg>, b: seq<Msg>, id: nat)
    ensures Share(a + b, id) == Share(a, id) + Share(b, id)
  {
    if a == [] {
      assert a + b == b;
    } else {
      assert (a + b)[1..] == a[1..] + b;
      ShareConcat(a[1..], b, id);
    }
  }

  lemma {:induction false} ShareWrap(id: nat, fs: seq<Frame>, j: nat)
    ensures Share(Wrap(id, fs), j) == if j == id then fs else []
  {
    if fs != [] {
      assert Wrap(id, fs)[1..] == Wrap(id, fs[1..]);
      ShareWrap(id, fs[1..], j);
      assert fs == [fs[0]] + fs[1..];
    }
  }

  lemma ShareSnoc(ms: seq<Msg>, m: Msg, j: nat)
    ensures Share(ms + [m], j) == if m.For? && m.id == j then Share(ms, j) + [m.frame] else Share(ms, j)
  {
    ShareConcat(ms, [m], j);
    assert [m][1..] == [];
    assert Share([m], j) == (if m.For? && m.id == j then [m.frame] else []) + [];
  }

  /** A stored stream has its session's configuration and keeps no frames of its own. */
  predicate StoredOk(cfg: Config, id: nat, e: End) { e.conf == ConfOf(cfg, id) && e.ctl == [] && !e.life.down }

  ghost predicate Stored(s: Sess) { forall id :: id in s.streams ==> StoredOk(s.cfg, id, s.streams[id]) }

  lemma PutView(s: Sess, id: nat, e: End, j: nat)
    requires Stored(s) && e.life.down == s.flags.closed && e.conf == ConfOf(s.cfg, id)
    ensures EndOf(Put(s, id, e), j) == if j == id then e.(ctl := Share(s.control, id) + e.ctl) else EndOf(s, j)
    ensures Stored(Put(s, id, e))
  {
    ShareConcat(s.control, Wrap(id, e.ctl), j);
    ShareWrap(id, e.ctl, j);
  }

  // ------------------------------------------------- each stream takes its own steps

  lemma EndStepFrame(e: End, c: seq<Frame>, step: Step)
    requires e.ctl == [] && (OfApp(step) || step.Open?)
    ensures EndStep(e.(ctl := c), step) == EndStep(e, step).(ctl := c + EndStep(e, step).ctl)
    ensures EndStep(e, step).conf == e.conf && EndStep(e, step).life.down == e.life.down
  {
    assert c + [] == c;
  }

  lemma HandleFrame(e: End, c: seq<Frame>, f: Frame, accept: bool)
    requires e.ctl == []
    ensures Handle(e.(ctl := c), f, accept) == Handle(e, f, accept).(ctl := c + Handle(e, f, accept).ctl)
    ensures Handle(e, f, accept).conf == e.conf && Handle(e, f, accept).life.down == e.life.down
  {
    assert c + [] == c;
  }

  /** The steps stream `j` takes when `me` acts: one, or none. */
  function StepsOf(n: Net, act: Act, j: nat): seq<Step> {
    var s := n.me;
    match act
    case Begin => if !s.flags.closed && !s.flags.goAway && j == s.nextId then [Open] else []
    case App(id, step) => if OfApp(step) && Get(s, id).life.made && j == id then [step] else []
    case Receives(accept) =>
      if n.toMe == [] || s.flags.closed || !n.toMe[0].For? || n.toMe[0].id != j then []
      else [Receive(accept && !s.flags.goAway)]
    case Flushes(ok) => if s.flags.closed || !ok then [] else FlushOf(s, j)
    case LoseTransport => if s.flags.closed then [] else [Down]
    case _ => []
  }

  function FlushOf(s: Sess, j: nat): seq<Step> {
    if s.control != [] then (if s.control[0].For? && s.control[0].id == j then [FlushControl] else [])
    else if s.pending == [] || s.pending[0] != j || !Get(s, j).life.inTable then []
    else if Get(s, j).tx.out != [] then [FlushData]
    else if Get(s, j).tx.finState.FinQueued? then [FlushFin]
    else []
  }

  function After(v: State, steps: seq<Step>): State { if steps == [] then v else Do(v, steps[0]) }

  lemma BeginRefines(n: Net, j: nat)
    requires Stored(n.me)
    ensures Stored(BeginDo(n.me)) && View(NetDo(n, Begin), j) == After(View(n, j), StepsOf(n, Begin, j))
  {
    var s := n.me;
    if !s.flags.closed && !s.flags.goAway {
      var e := Get(s, s.nextId);
      EndStepFrame(e, Share(s.control, s.nextId), Open);
      PutView(s, s.nextId, LifeDo(e, Open), j);
    }
  }

  lemma EnlistView(s: Sess, id: nat, j: nat)
    ensures EndOf(Enlist(s, id), j) == EndOf(s, j) && (Stored(s) ==> Stored(Enlist(s, id)))
  {
  }

  lemma AppPuts(s: Sess, id: nat, step: Step)
    requires OfApp(step) && Get(s, id).life.made
    ensures var t := Put(s, id, EndStep(Get(s, id), step));
            AppDo(s, id, step) == t || AppDo(s, id, step) == Enlist(t, id)
  {
  }

  lemma PutEnd(s: Sess, t: Sess, id: nat, f: End, j: nat)
    requires Stored(s) && f.life.down == s.flags.closed && f.conf == ConfOf(s.cfg, id)
    requires t == Put(s, id, f) || t == Enlist(Put(s, id, f), id)
    ensures Stored(t) && EndOf(t, j) == if j == id then f.(ctl := Share(s.control, id) + f.ctl) else EndOf(s, j)
  {
    PutView(s, id, f, j);
    EnlistView(Put(s, id, f), id, j);
  }

  lemma AppEnd(s: Sess, id: nat, step: Step, j: nat)
    requires Stored(s) && OfApp(step) && Get(s, id).life.made
    ensures Stored(AppDo(s, id, step))
    ensures EndOf(AppDo(s, id, step), j) == if j == id then EndStep(EndOf(s, id), step) else EndOf(s, j)
  {
    var e := Get(s, id);
    AppPuts(s, id, step);
    EndStepFrame(e, Share(s.control, id), step);
    PutEnd(s, AppDo(s, id, step), id, EndStep(e, step), j);
  }

  lemma DoIsEndStep(v: State, step: Step)
    requires OfApp(step)
    ensures Do(v, step) == v.(me := EndStep(v.me, step))
  {
  }

  lemma AppRefines(n: Net, id: nat, step: Step, j: nat)
    requires Stored(n.me)
    ensures Stored(AppDo(n.me, id, step))
    ensures View(NetDo(n, App(id, step)), j) == After(View(n, j), StepsOf(n, App(id, step), j))
  {
    if OfApp(step) && Get(n.me, id).life.made {
      AppEnd(n.me, id, step, j);
      DoIsEndStep(View(n, j), step);
    } else {
      assert AppDo(n.me, id, step) == n.me;
    }
  }

  lemma ReceiveRefines(n: Net, accept: bool, j: nat)
    requires Stored(n.me)
    ensures Stored(NetDo(n, Receives(accept)).me)
    ensures View(NetDo(n, Receives(accept)), j) == After(View(n, j), StepsOf(n, Receives(accept), j))
  {
    var s := n.me;
    if n.toMe != [] && !s.flags.closed {
      var m := n.toMe[0];
      match m
      case For(id, f) =>
        HandleFrame(Get(s, id), Share(s.control, id), f, accept && !s.flags.goAway);
        PutView(s, id, Handle(Get(s, id), f, accept && !s.flags.goAway), j);
      case Ping => ShareSnoc(s.control, Pong, j);
      case _ =>
    }
  }

  lemma ControlRefines(n: Net, ok: bool, j: nat)
    requires Stored(n.me) && n.me.control != []
    ensures Stored(FlushDo(n, ok).me) && View(FlushDo(n, ok), j) == After(View(n, j), StepsOf(n, Flushes(ok), j))
  {
    ShareSnoc(n.toPeer, n.me.control[0], j);
  }

  function FinSentBy(e: End): End { e.(tx := e.tx.(finState := FinSent, fins := e.tx.fins + 1)) }

  lemma FinTurnEnd(n: Net, j: nat)
    requires Stored(n.me) && n.me.control == [] && n.me.pending != [] && !n.me.flags.closed
    requires var e := Get(n.me, n.me.pending[0]); e.life.inTable && e.tx.out == [] && e.tx.finState.FinQueued?
    ensures var t, id := TurnDo(n, true), n.me.pending[0];
            && Stored(t.me) && t == n.(me := t.me, toPeer := n.toPeer + [For(id, Fin)])
            && EndOf(t.me, j) == if j == id then FinSentBy(Get(n.me, id)) else EndOf(n.me, j)
  {
    PutView(n.me, n.me.pending[0], FinSentBy(Get(n.me, n.me.pending[0])), j);
  }

  lemma FinFlushed(v: State)
    requires !v.me.life.down && v.me.ctl == [] && v.me.life.inTable && v.me.tx.out == [] && v.me.tx.finState.FinQueued?
    ensures Do(v, FlushFin) == v.(me := FinSentBy(v.me), toPeer := v.toPeer + [Fin])
  {
  }

  lemma FinTurnRefines(n: Net, j: nat)
    requires Stored(n.me) && n.me.control == [] && n.me.pending != [] && !n.me.flags.closed
    requires var e := Get(n.me, n.me.pending[0]); e.life.inTable && e.tx.out == [] && e.tx.finState.FinQueued?
    ensures Stored(TurnDo(n, true).me) && View(TurnDo(n, true), j) == After(View(n, j), StepsOf(n, Flushes(true), j))
  {
    FinTurnEnd(n, j);
    ShareSnoc(n.toPeer, For(n.me.pending[0], Fin), j);
    if j == n.me.pending[0] { FinFlushed(View(n, j)); }
  }

  lemma DataTurnRefines(n: Net, j: nat)
    requires Stored(n.me) && n.me.control == [] && n.me.pending != [] && !n.me.flags.closed
    requires var e := Get(n.me, n.me.pending[0]); e.life.inTable && e.tx.out != []
    ensures Stored(TurnDo(n, true).me) && View(TurnDo(n, true), j) == After(View(n, j), StepsOf(n, Flushes(true), j))
  {
    var s, id := n.me, n.me.pending[0];
    var e := Get(s, id);
    PutView(s, id, e.(tx := e.tx.(out := e.tx.out[1..])), j);
    ShareSnoc(n.toPeer, For(id, Data(e.tx.out[0])), j);
  }

  lemma TurnRefines(n: Net, ok: bool, j: nat)
    requires Stored(n.me) && n.me.control == [] && n.me.pending != [] && !n.me.flags.closed
    ensures Stored(TurnDo(n, ok).me) && View(TurnDo(n, ok), j) == After(View(n, j), StepsOf(n, Flushes(ok), j))
  {
    var e := Get(n.me, n.me.pending[0]);
    if e.life.inTable && ok {
      if e.tx.out != [] {
        DataTurnRefines(n, j);
      } else if e.tx.finState.FinQueued? {
        FinTurnRefines(n, j);
      }
    }
  }

  lemma NotedView(n: Net, ok: bool, j: nat)
    ensures View(Noted(n), j) == View(n, j) && StepsOf(Noted(n), Flushes(ok), j) == StepsOf(n, Flushes(ok), j)
  {
  }

  lemma FlushRefines(n: Net, ok: bool, j: nat)
    requires Stored(n.me)
    ensures Stored(FlushDo(n, ok).me) && View(FlushDo(n, ok), j) == After(View(n, j), StepsOf(n, Flushes(ok), j))
  {
    if n.me.flags.closed {
      assert FlushDo(n, ok) == n;
    } else if n.me.control != [] {
      ControlRefines(n, ok, j);
    } else {
      NotedView(n, ok, j);
      if n.me.pending != [] {
        TurnRefines(Noted(n), ok, j);
        assert FlushDo(n, ok) == TurnDo(Noted(n), ok);
      } else {
        assert FlushDo(n, ok) == Noted(n);
      }
    }
  }

  lemma LossEnd(s: Sess, j: nat)
    requires Stored(s) && !s.flags.closed
    ensures Stored(ShutDo(s, LoseTransport)) && EndOf(ShutDo(s, LoseTransport), j) == Drop(Leave(EndOf(s, j), false))
  {
  }

  lemma LossRefines(n: Net, j: nat)
    requires Stored(n.me)
    ensures Stored(ShutDo(n.me, LoseTransport))
    ensures View(NetDo(n, LoseTransport), j) == After(View(n, j), StepsOf(n, LoseTransport, j))
  {
    if !n.me.flags.closed {
      LossEnd(n.me, j);
      assert Do(View(n, j), Down) == View(n, j).(me := Drop(Leave(EndOf(n.me, j), false)));
    }
  }

  lemma ShutRefines(n: Net, act: Act, j: nat)
    requires Stored(n.me) && !act.Begin? && !act.App? && !act.Receives? && !act.Flushes?
    ensures Stored(ShutDo(n.me, act)) && View(NetDo(n, act), j) == After(View(n, j), StepsOf(n, act, j))
  {
    if act.LoseTransport? {
      LossRefines(n, j);
    } else {
      ShareSnoc(n.me.control, GoAway, j);
      ShareSnoc(n.me.control, Ping, j);
      assert ShutDo(n.me, act).streams == n.me.streams;
    }
  }

  ghost predicate Wired(n: Net) { Stored(n.me) && Stored(n.peer) && forall id :: MuxStream.Inv(View(n, id)) }

  /** An act of `me` is, for each stream, one step of its own or none. */
  lemma ActRefines(n: Net, act: Act, j: nat)
    requires Stored(n.me)
    ensures Stored(NetDo(n, act).me) && View(NetDo(n, act), j) == After(View(n, j), StepsOf(n, act, j))
  {
    match act
    case Begin => BeginRefines(n, j);
    case App(id, step) => AppRefines(n, id, step, j);
    case Receives(accept) => ReceiveRefines(n, accept, j);
    case Flushes(ok) => FlushRefines(n, ok, j);
    case _ => ShutRefines(n, act, j);
  }

  lemma PeerStays(n: Net, act: Act)
    ensures NetDo(n, act).peer == n.peer
  {
  }

  lemma ActView(n: Net, act: Act, j: nat)
    requires Stored(n.me) && MuxStream.Inv(View(n, j))
    ensures MuxStream.Inv(View(NetDo(n, act), j))
  {
    ActRefines(n, act, j);
    var steps := StepsOf(n, act, j);
    if steps != [] { MuxStream.StepKeeps(View(n, j), steps[0]); }
  }

  lemma ActKeeps(n: Net, act: Act)
    requires Wired(n)
    ensures Wired(NetDo(n, act))
  {
    PeerStays(n, act);
    ActRefines(n, act, 0);
    forall j ensures MuxStream.Inv(View(NetDo(n, act), j)) {
      ActView(n, act, j);
    }
  }

  lemma TurnedKeeps(n: Net)
    requires Wired(n)
    ensures Wired(Turned(n))
  {
    forall j ensures MuxStream.Inv(View(Turned(n), j)) {
      MuxStream.FlipKeeps(View(n, j));
      assert View(Turned(n), j) == MuxStream.Flip(View(n, j));
    }
  }

  lemma StartKeeps(n: Net)
    requires Start(n)
    ensures Wired(n)
  {
    forall j ensures MuxStream.Inv(View(n, j)) {
      MuxStream.InitKeeps(View(n, j));
    }
  }

  // ------------------------------------------------------------- the flush queue

  predicate HasWork(e: End) { e.tx.out != [] || e.tx.finState.FinQueued? }

  predicate Distinct(ids: seq<nat>) { forall i, j :: 0 <= i < j < |ids| ==> ids[i] != ids[j] }

  /** Every stream with frames or a FIN to send is marked as queued, and the marked streams are on the
      flush queue, once each; other entries are streams that have left the table. */
  ghost predicate Listed(s: Sess) {
    && Distinct(s.pending)
    && (forall id :: id in s.queued ==> id in s.pending && InTable(s, id))
    && (forall id :: id in s.pending && InTable(s, id) ==> id in s.queued)
    && (forall id :: id in s.pending ==> id in s.streams && s.streams[id].life.made)
    && (forall id :: id in s.streams && s.streams[id].life.inTable ==> s.streams[id].life.made)
    && (forall id :: id in s.streams && s.streams[id].life.inTable && HasWork(s.streams[id]) ==> id in s.queued)
  }

  /** A stream that takes a step without new frames to send. */
  lemma PutListed(s: Sess, id: nat, f: End)
    requires Listed(s) && (f.life.inTable ==> f.life.made) && (Get(s, id).life.made ==> f.life.made)
    requires f.life.inTable ==> InTable(s, id) || !Get(s, id).life.made
    requires f.life.inTable && HasWork(f) ==> InTable(s, id) && HasWork(s.streams[id])
    ensures Listed(Put(s, id, f))
  {
    var t := Put(s, id, f);
    assert forall j :: j != id ==> (InTable(t, j) <==> InTable(s, j));
  }

  /** A stream that has frames to send and is put on the queue. */
  lemma EnlistListed(s: Sess, id: nat, f: End)
    requires Listed(s) && InTable(s, id) && f.life.inTable && f.life.made
    ensures Listed(Enlist(Put(s, id, f), id))
  {
    var t := Put(s, id, f);
    assert forall j :: j != id ==> (InTable(t, j) <==> InTable(s, j));
    assert id in s.pending <==> id in s.queued;
  }

  /** What a step of a stream may do to its place in the table and to what it has to send. */
  predicate Works(e: End, f: End) {
    && f.life.made && (f.life.inTable ==> e.life.inTable)
    && (f.life.inTable && HasWork(f) && !HasWork(e) ==> MoreWork(e, f))
    && (MoreWork(e, f) ==> f.life.inTable)
    && (f.life.inTable && HasWork(e) ==> HasWork(f))
  }

  lemma WriteWork(e: End, step: Step)
    requires OfWrite(step) && e.life.made && (e.life.inTable || e.tx.out == [])
    ensures Works(e, WriteDo(e, step))
  {
  }

  lemma LifeWork(e: End, step: Step)
    requires (step.Abort? || step.Reset? || step.Finish?) && e.life.made
    ensures Works(e, LifeDo(e, step))
  {
  }

  /** No step makes a stream return to the table, and only the two enqueues give it more to send. */
  lemma StepWork(e: End, step: Step)
    requires OfApp(step) && e.life.made && (e.life.inTable || e.tx.out == [])
    ensures Works(e, EndStep(e, step))
  {
    if OfWrite(step) {
      WriteWork(e, step);
    } else if OfLife(step) {
      LifeWork(e, step);
    }
  }

  lemma AppListed(s: Sess, id: nat, step: Step)
    requires Listed(s) && (Get(s, id).life.inTable || Get(s, id).tx.out == [])
    ensures Listed(AppDo(s, id, step))
  {
    var e := Get(s, id);
    if OfApp(step) && e.life.made {
      var f := EndStep(e, step);
      StepWork(e, step);
      if MoreWork(e, f) {
        EnlistListed(s, id, f);
      } else {
        PutListed(s, id, f);
      }
    }
  }

  lemma HandleWork(e: End, f: Frame, accept: bool)
    requires (e.life.inTable ==> e.life.made) && (!e.life.made ==> !HasWork(e))
    ensures var h := Handle(e, f, accept);
            && (h.life.inTable ==> h.life.made) && (e.life.made ==> h.life.made)
            && (h.life.inTable ==> e.life.inTable || !e.life.made)
            && (h.life.inTable && HasWork(h) ==> e.life.inTable && HasWork(e))
            && (h.life.inTable && HasWork(e) ==> HasWork(h))
  {
  }

  lemma TakeListed(s: Sess, m: Msg, accept: bool)
    requires Listed(s) && (m.For? && !Get(s, m.id).life.made ==> !HasWork(Get(s, m.id)))
    ensures Listed(TakeDo(s, m, accept))
  {
    if m.For? {
      var e := Get(s, m.id);
      HandleWork(e, m.frame, accept && !s.flags.goAway);
      PutListed(s, m.id, Handle(e, m.frame, accept && !s.flags.goAway));
    }
  }

  lemma BeginListed(s: Sess)
    requires Listed(s) && (Get(s, s.nextId).life.made || !HasWork(Get(s, s.nextId)))
    ensures Listed(BeginDo(s))
  {
    if !s.flags.closed && !s.flags.goAway {
      var e := Get(s, s.nextId);
      PutListed(s, s.nextId, LifeDo(e, Open));
    }
  }

  /** The head entry goes: it is stale, or it has nothing more to send. */
  lemma DequeueListed(s: Sess, e: End)
    requires Listed(s) && s.pending != [] && e.life.made
    requires e.life.inTable ==> InTable(s, s.pending[0])
    requires e.life.inTable ==> !HasWork(e)
    ensures Listed(Put(s, s.pending[0], e).(pending := s.pending[1..], queued := s.queued - {s.pending[0]}))
  {
    var id, t := s.pending[0], Put(s, s.pending[0], e).(pending := s.pending[1..], queued := s.queued - {s.pending[0]});
    assert forall j :: j != id ==> (InTable(t, j) <==> InTable(s, j));
    assert forall j :: j in s.pending && j != id ==> j in t.pending;
    assert id !in t.pending;
  }

  /** The head entry goes to the back. */
  lemma RotateListed(s: Sess, e: End)
    requires Listed(s) && s.pending != [] && InTable(s, s.pending[0]) && e.life.made && e.life.inTable
    ensures Listed(Put(s, s.pending[0], e).(pending := s.pending[1..] + [s.pending[0]]))
  {
    var id, t := s.pending[0], Put(s, s.pending[0], e).(pending := s.pending[1..] + [s.pending[0]]);
    assert forall j :: j != id ==> (InTable(t, j) <==> InTable(s, j));
    assert forall j :: j in s.pending <==> j in t.pending;
  }

  lemma StaleListed(s: Sess)
    requires Listed(s) && s.pending != []
    requires InTable(s, s.pending[0]) ==> !HasWork(s.streams[s.pending[0]])
    ensures Listed(s.(pending := s.pending[1..], queued := s.queued - {s.pending[0]}))
  {
    var id, t := s.pending[0], s.(pending := s.pending[1..], queued := s.queued - {s.pending[0]});
    assert forall j :: InTable(t, j) <==> InTable(s, j);
    assert forall j :: j in s.pending && j != id ==> j in t.pending;
    assert id !in t.pending;
  }

  lemma FinTurnListed(n: Net)
    requires Listed(n.me) && n.me.pending != []
    requires var e := Get(n.me, n.me.pending[0]); e.life.inTable && e.tx.out == [] && e.tx.finState.FinQueued?
    ensures Listed(TurnDo(n, true).me)
  {
    var e := Get(n.me, n.me.pending[0]);
    DequeueListed(n.me, e.(tx := e.tx.(finState := FinSent, fins := e.tx.fins + 1)));
  }

  lemma LastTurnListed(n: Net)
    requires Listed(n.me) && n.me.pending != []
    requires var e := Get(n.me, n.me.pending[0]); e.life.inTable && |e.tx.out| == 1 && !e.tx.finState.FinQueued?
    ensures Listed(TurnDo(n, true).me)
  {
    var e := Get(n.me, n.me.pending[0]);
    DequeueListed(n.me, e.(tx := e.tx.(out := e.tx.out[1..])));
  }

  lemma DataTurnListed(n: Net)
    requires Listed(n.me) && n.me.pending != []
    requires var e := Get(n.me, n.me.pending[0]); e.life.inTable && e.tx.out != []
    ensures Listed(TurnDo(n, true).me)
  {
    var e := Get(n.me, n.me.pending[0]);
    if |e.tx.out| == 1 && !e.tx.finState.FinQueued? {
      LastTurnListed(n);
    } else {
      RotateListed(n.me, e.(tx := e.tx.(out := e.tx.out[1..])));
    }
  }

  lemma TurnListed(n: Net, ok: bool)
    requires Listed(n.me) && n.me.pending != []
    ensures Listed(TurnDo(n, ok).me)
  {
    var s, id := n.me, n.me.pending[0];
    var e := Get(s, id);
    if !e.life.inTable || (e.tx.out == [] && !e.tx.finState.FinQueued?) {
      StaleListed(s);
      assert !e.life.inTable ==> s.queued - {id} == s.queued;
    } else if ok {
      if e.tx.out == [] { FinTurnListed(n); } else { DataTurnListed(n); }
    }
  }

  lemma ShutListed(s: Sess, act: Act)
    requires Listed(s)
    ensures Listed(ShutDo(s, act))
  {
  }

  /** A stream outside the table has nothing to send. */
  lemma OutsideIdle(n: Net, id: nat)
    requires Wired(n)
    ensures var e := Get(n.me, id); (!e.life.inTable ==> e.tx.out == []) && (!e.life.made ==> !HasWork(e))
  {
    assert MuxStream.Inv(View(n, id));
    assert MuxStream.Sound(View(n, id).me);
  }

  lemma ActListed(n: Net, act: Act)
    requires Wired(n) && Listed(n.me)
    ensures Listed(NetDo(n, act).me)
  {
    var s := n.me;
    match act
    case Begin => OutsideIdle(n, s.nextId); BeginListed(s);
    case App(id, step) => OutsideIdle(n, id); AppListed(s, id, step);
    case Receives(accept) =>
      if n.toMe != [] && !s.flags.closed {
        if n.toMe[0].For? { OutsideIdle(n, n.toMe[0].id); }
        TakeListed(s, n.toMe[0], accept);
      }
    case Flushes(ok) =>
      if !s.flags.closed && s.control == [] && s.pending != [] { TurnListed(Noted(n), ok); }
    case _ => ShutListed(s, act);
  }

  // ------------------------------------------------------------------ turns taken

  /** How many entries are ahead of the stream. */
  function Ahead(ids: seq<nat>, id: nat): nat {
    if ids == [] || ids[0] == id then 0 else 1 + Ahead(ids[1..], id)
  }

  lemma {:induction false} AheadSnoc(ids: seq<nat>, id: nat, x: nat)
    requires id in ids
    ensures Ahead(ids + [x], id) == Ahead(ids, id)
  {
    if ids[0] != id {
      assert (ids + [x])[1..] == ids[1..] + [x];
      AheadSnoc(ids[1..], id, x);
    }
  }

  predicate Waiting(s: Sess, id: nat) { InTable(s, id) && HasWork(s.streams[id]) }

  /** From `s` to `t`: what the transport took is only added to, and while the stream waits it took no
      more stream frames than entries went from ahead of it. */
  predicate Waits(s: Sess, t: Sess, id: nat) {
    && s.log <= t.log
    && (Waiting(s, id) && InTable(t, id) && id !in t.log[|s.log|..] ==>
          Waiting(t, id) && id in t.pending && |t.log| - |s.log| + Ahead(t.pending, id) <= Ahead(s.pending, id))
  }

  /** A stream that left the table does not come back. */
  predicate StaysOut(s: Sess, t: Sess, id: nat) {
    id in s.streams && s.streams[id].life.made ==>
      id in t.streams && t.streams[id].life.made && (t.streams[id].life.inTable ==> s.streams[id].life.inTable)
  }

  lemma WaitsChain(r: Sess, s: Sess, t: Sess, id: nat)
    requires Waits(r, s, id) && Waits(s, t, id) && StaysOut(r, s, id) && StaysOut(s, t, id) && Listed(r)
    ensures Waits(r, t, id) && StaysOut(r, t, id)
  {
    assert r.log <= t.log;
    var a, b := s.log[|r.log|..], t.log[|s.log|..];
    assert t.log[|r.log|..] == a + b;
  }

  lemma TurnWaits(n: Net, ok: bool, id: nat)
    requires Listed(n.me) && n.me.pending != []
    ensures Waits(n.me, TurnDo(n, ok).me, id) && StaysOut(n.me, TurnDo(n, ok).me, id)
  {
    var s, head := n.me, n.me.pending[0];
    var rest := s.pending[1..];
    if id != head && id in s.pending {
      assert id in rest;
      AheadSnoc(rest, id, head);
    }
    assert (s.log + [head])[|s.log|..] == [head];
    assert s.log[|s.log|..] == [];
  }

  /** A stream's step leaves the queue ahead of others alone. */
  lemma PutWaits(s: Sess, id: nat, f: End, j: nat)
    requires Listed(s) && (Get(s, id).life.made ==> f.life.made && (f.life.inTable ==> Get(s, id).life.inTable))
    requires f.life.inTable && HasWork(Get(s, id)) ==> HasWork(f)
    ensures Waits(s, Put(s, id, f), j) && StaysOut(s, Put(s, id, f), j)
  {
    assert s.log[|s.log|..] == [];
  }

  lemma EnlistWaits(s: Sess, t: Sess, id: nat, j: nat)
    requires Listed(s) && Waits(s, t, j) && StaysOut(s, t, j) && t.pending == s.pending
    ensures Waits(s, Enlist(t, id), j) && StaysOut(s, Enlist(t, id), j)
  {
    if j in t.pending { AheadSnoc(t.pending, j, id); }
  }

  lemma AppWaits(s: Sess, id: nat, step: Step, j: nat)
    requires Listed(s) && (Get(s, id).life.inTable || Get(s, id).tx.out == [])
    ensures Waits(s, AppDo(s, id, step), j) && StaysOut(s, AppDo(s, id, step), j)
  {
    var e := Get(s, id);
    if OfApp(step) && e.life.made {
      StepWork(e, step);
      PutWaits(s, id, EndStep(e, step), j);
      EnlistWaits(s, Put(s, id, EndStep(e, step)), id, j);
    } else {
      SameWaits(s, s, j);
    }
  }

  /** Nothing of the streams or the queue changed, or the table was emptied. */
  lemma SameWaits(s: Sess, t: Sess, j: nat)
    requires Listed(s) && t.log == s.log
    requires (t.streams == s.streams && t.pending == s.pending)
             || (j in s.streams ==> j in t.streams && t.streams[j].life.made == s.streams[j].life.made
                                    && !t.streams[j].life.inTable)
    ensures Waits(s, t, j) && StaysOut(s, t, j)
  {
    assert s.log[|s.log|..] == [];
  }

  lemma TakeWaits(s: Sess, m: Msg, accept: bool, j: nat)
    requires Listed(s) && (m.For? && !Get(s, m.id).life.made ==> !HasWork(Get(s, m.id)))
    ensures Waits(s, TakeDo(s, m, accept), j) && StaysOut(s, TakeDo(s, m, accept), j)
  {
    if m.For? {
      var e := Get(s, m.id);
      HandleWork(e, m.frame, accept && !s.flags.goAway);
      PutWaits(s, m.id, Handle(e, m.frame, accept && !s.flags.goAway), j);
    } else {
      SameWaits(s, TakeDo(s, m, accept), j);
    }
  }

  lemma ShutWaits(s: Sess, act: Act, j: nat)
    requires Listed(s)
    ensures Waits(s, ShutDo(s, act), j) && StaysOut(s, ShutDo(s, act), j)
  {
    SameWaits(s, ShutDo(s, act), j);
  }

  lemma ActWaits(n: Net, act: Act, j: nat)
    requires Wired(n) && Listed(n.me)
    ensures Waits(n.me, NetDo(n, act).me, j) && StaysOut(n.me, NetDo(n, act).me, j)
  {
    var s := n.me;
    match act
    case Begin =>
      OutsideIdle(n, s.nextId);
      if s.flags.closed || s.flags.goAway { SameWaits(s, s, j); }
      else { PutWaits(s, s.nextId, LifeDo(Get(s, s.nextId), Open), j); }
    case App(id, step) => OutsideIdle(n, id); AppWaits(s, id, step, j);
    case Receives(accept) =>
      if n.toMe != [] && !s.flags.closed {
        if n.toMe[0].For? { OutsideIdle(n, n.toMe[0].id); }
        TakeWaits(s, n.toMe[0], accept, j);
      } else {
        SameWaits(s, s, j);
      }
    case Flushes(ok) =>
      if !s.flags.closed && s.control == [] && s.pending != [] {
        TurnWaits(Noted(n), ok, j);
      } else {
        SameWaits(s, NetDo(n, act).me, j);
      }
    case _ => ShutWaits(s, act, j);
  }

  // ------------------------------------------------------------ GoAway and drains

  function GoAwaysIn(ms: seq<Msg>): nat {
    if ms == [] then 0 else (if ms[0].GoAway? then 1 else 0) + GoAwaysIn(ms[1..])
  }

  lemma {:induction false} GoAwaysConcat(a: seq<Msg>, b: seq<Msg>)
    ensures GoAwaysIn(a + b) == GoAwaysIn(a) + GoAwaysIn(b)
  {
    if a == [] {
      assert a + b == b;
    } else {
      assert (a + b)[1..] == a[1..] + b;
      GoAwaysConcat(a[1..], b);
    }
  }

  /** The GoAway is queued or taken from the moment it is said to be sent, and a drain that ended well
      ended with it taken and the table empty. */
  ghost predicate Farewelled(s: Sess) {
    var f := s.flags;
    && (f.draining ==> f.goAwaySent)
    && (f.goAwaySent ==> f.goAway)
    && (f.goAwaySent && !f.closed ==> s.farewells + GoAwaysIn(s.control) >= 1)
    && (f.goAwayFlushed ==> s.farewells >= 1)
    && (f.drainClean ==> f.drainClosed && f.draining && s.farewells >= 1 && Empty(s))
  }

  lemma PutFarewelled(s: Sess, id: nat, f: End)
    requires Farewelled(s) && (s.flags.drainClean ==> !f.life.inTable)
    ensures Farewelled(Put(s, id, f)) && Farewelled(Enlist(Put(s, id, f), id))
  {
    GoAwaysConcat(s.control, Wrap(id, f.ctl));
  }

  lemma AppFarewelled(s: Sess, id: nat, step: Step)
    requires Farewelled(s) && (Get(s, id).life.inTable || Get(s, id).tx.out == [])
    ensures Farewelled(AppDo(s, id, step))
  {
    var e := Get(s, id);
    if OfApp(step) && e.life.made {
      StepWork(e, step);
      PutFarewelled(s, id, EndStep(e, step));
    }
  }

  lemma ShutFarewelled(s: Sess, act: Act)
    requires Farewelled(s)
    ensures Farewelled(ShutDo(s, act))
  {
    GoAwaysConcat(s.control, [GoAway]);
    GoAwaysConcat(s.control, [Ping]);
  }

  /** After GoAway nothing new enters the table. */
  lemma TakeFarewelled(s: Sess, m: Msg, accept: bool)
    requires Farewelled(s)
    ensures Farewelled(TakeDo(s, m, accept))
  {
    GoAwaysConcat(s.control, [Pong]);
    if m.For? { PutFarewelled(s, m.id, Handle(Get(s, m.id), m.frame, accept && !s.flags.goAway)); }
  }

  /** The flush queue and its marks have no part in the farewell. */
  lemma QueuesFarewelled(s: Sess, pending: seq<nat>, queued: set<nat>, log: seq<nat>)
    requires Farewelled(s)
    ensures Farewelled(s.(pending := pending, queued := queued, log := log))
  {
    assert Empty(s) ==> Empty(s.(pending := pending, queued := queued, log := log));
  }

  lemma TurnFarewelled(n: Net, ok: bool)
    requires Farewelled(n.me) && n.me.pending != []
    ensures Farewelled(TurnDo(n, ok).me)
  {
    var s, id := n.me, n.me.pending[0];
    var e, t := Get(s, id), TurnDo(n, ok).me;
    if e.life.inTable && ok && (e.tx.out != [] || e.tx.finState.FinQueued?) {
      var f := if e.tx.out == [] then FinSentBy(e) else e.(tx := e.tx.(out := e.tx.out[1..]));
      PutFarewelled(s, id, f);
      QueuesFarewelled(Put(s, id, f), t.pending, t.queued, t.log);
      assert t == Put(s, id, f).(pending := t.pending, queued := t.queued, log := t.log);
    } else {
      QueuesFarewelled(s, t.pending, t.queued, t.log);
      assert t == s.(pending := t.pending, queued := t.queued, log := t.log);
    }
  }

  lemma NotedFarewelled(n: Net)
    requires Farewelled(n.me) && n.me.control == [] && !n.me.flags.closed
    ensures Farewelled(Noted(n).me)
  {
  }

  lemma FlushFarewelled(n: Net, ok: bool)
    requires Farewelled(n.me)
    ensures Farewelled(FlushDo(n, ok).me)
  {
    if !n.me.flags.closed && n.me.control == [] {
      NotedFarewelled(n);
      if n.me.pending != [] { TurnFarewelled(Noted(n), ok); }
    }
  }

  lemma ActFarewelled(n: Net, act: Act)
    requires Wired(n) && Farewelled(n.me)
    ensures Farewelled(NetDo(n, act).me)
  {
    var s := n.me;
    match act
    case Begin =>
      if !s.flags.closed && !s.flags.goAway { PutFarewelled(s, s.nextId, LifeDo(Get(s, s.nextId), Open)); }
    case App(id, step) => OutsideIdle(n, id); AppFarewelled(s, id, step);
    case Receives(accept) => if n.toMe != [] { TakeFarewelled(s, n.toMe[0], accept); }
    case Flushes(ok) => FlushFarewelled(n, ok);
    case _ => ShutFarewelled(s, act);
  }

  /** GoAway is final, and from then on the table only shrinks. */
  predicate Shrinks(s: Sess, t: Sess, id: nat) {
    s.flags.goAway ==> t.flags.goAway && (InTable(t, id) ==> InTable(s, id))
  }

  lemma PutShrinks(s: Sess, id: nat, f: End, j: nat)
    requires s.flags.goAway && f.life.inTable ==> InTable(s, id)
    ensures Shrinks(s, Put(s, id, f), j) && Shrinks(s, Enlist(Put(s, id, f), id), j)
  {
  }

  lemma AppShrinks(s: Sess, id: nat, step: Step, j: nat)
    requires Get(s, id).life.inTable || Get(s, id).tx.out == []
    ensures Shrinks(s, AppDo(s, id, step), j)
  {
    var e := Get(s, id);
    if OfApp(step) && e.life.made {
      StepWork(e, step);
      PutShrinks(s, id, EndStep(e, step), j);
    }
  }

  lemma TakeShrinks(s: Sess, m: Msg, accept: bool, j: nat)
    ensures Shrinks(s, TakeDo(s, m, accept), j)
  {
    if m.For? { PutShrinks(s, m.id, Handle(Get(s, m.id), m.frame, accept && !s.flags.goAway), j); }
  }

  lemma TurnShrinks(n: Net, ok: bool, j: nat)
    requires n.me.pending != []
    ensures Shrinks(n.me, TurnDo(n, ok).me, j)
  {
  }

  lemma FlushShrinks(n: Net, ok: bool, j: nat)
    ensures Shrinks(n.me, FlushDo(n, ok).me, j)
  {
    if !n.me.flags.closed && n.me.control == [] && n.me.pending != [] { TurnShrinks(Noted(n), ok, j); }
  }

  lemma ActShrinks(n: Net, act: Act, j: nat)
    requires Wired(n)
    ensures Shrinks(n.me, NetDo(n, act).me, j)
  {
    match act
    case App(id, step) => OutsideIdle(n, id); AppShrinks(n.me, id, step, j);
    case Receives(accept) => if n.toMe != [] { TakeShrinks(n.me, n.toMe[0], accept, j); }
    case Flushes(ok) => FlushShrinks(n, ok, j);
    case _ =>
  }

  // --------------------------------------------------------------- every run

  ghost predicate Ready(n: Net) {
    Wired(n) && Listed(n.me) && Listed(n.peer) && Farewelled(n.me) && Farewelled(n.peer)
  }

  lemma ActReady(n: Net, act: Act)
    requires Ready(n)
    ensures Ready(NetDo(n, act))
  {
    PeerStays(n, act);
    ActKeeps(n, act);
    ActListed(n, act);
    ActFarewelled(n, act);
  }

  lemma TurnedReady(n: Net)
    requires Ready(n)
    ensures Ready(Turned(n))
  {
    TurnedKeeps(n);
  }

  lemma MoveReady(n: Net, mine: bool, act: Act)
    requires Ready(n)
    ensures Ready(NetMove(n, mine, act))
  {
    if mine {
      ActReady(n, act);
    } else {
      TurnedReady(n);
      ActReady(Turned(n), act);
      TurnedReady(NetDo(Turned(n), act));
    }
  }

  lemma {:induction false} RunReady(n: Net, acts: seq<(bool, Act)>)
    requires Ready(n)
    ensures Ready(NetExec(n, acts))
  {
    if acts != [] {
      RunReady(n, acts[..|acts| - 1]);
      MoveReady(NetExec(n, acts[..|acts| - 1]), acts[|acts| - 1].0, acts[|acts| - 1].1);
    }
  }

  lemma StartReady(n: Net)
    requires Start(n)
    ensures Ready(n)
  {
    StartKeeps(n);
  }

  lemma MoveSession(n: Net, mine: bool, act: Act, j: nat)
    requires Ready(n)
    ensures var t := NetMove(n, mine, act).me; Waits(n.me, t, j) && StaysOut(n.me, t, j) && Shrinks(n.me, t, j)
  {
    if mine {
      ActWaits(n, act, j);
      ActShrinks(n, act, j);
    } else {
      PeerStays(Turned(n), act);
      SameWaits(n.me, n.me, j);
    }
  }

  lemma {:induction false} RunSession(n: Net, acts: seq<(bool, Act)>, j: nat)
    requires Ready(n)
    ensures var t := NetExec(n, acts).me; Waits(n.me, t, j) && StaysOut(n.me, t, j) && Shrinks(n.me, t, j)
  {
    if acts == [] {
      SameWaits(n.me, n.me, j);
    } else {
      var u := NetExec(n, acts[..|acts| - 1]);
      RunReady(n, acts[..|acts| - 1]);
      RunSession(n, acts[..|acts| - 1], j);
      MoveSession(u, acts[|acts| - 1].0, acts[|acts| - 1].1, j);
      WaitsChain(n.me, u.me, NetExec(n, acts).me, j);
    }
  }

  // ----------------------------------------------------------- what is proved

  lemma MoveView(n: Net, mine: bool, act: Act, id: nat) returns (steps: seq<(bool, Step)>)
    requires Ready(n)
    ensures |steps| <= 1
    ensures View(NetMove(n, mine, act), id)
         == if steps == [] then View(n, id) else Move(View(n, id), steps[0].0, steps[0].1)
  {
    var m := if mine then n else Turned(n);
    ActRefines(m, act, id);
    var own := StepsOf(m, act, id);
    steps := if own == [] then [] else [(mine, own[0])];
    if !mine {
      assert View(m, id) == Flip(View(n, id));
      assert View(NetMove(n, mine, act), id) == Flip(View(NetDo(m, act), id));
      assert Flip(Flip(View(n, id))) == View(n, id);
    }
  }

  /** Multiplexing is transparent: what stream `id` sees of any run of both sessions, with any other
      streams, is a run of that stream alone. */
  lemma {:induction false} StreamAlone(n: Net, acts: seq<(bool, Act)>, id: nat) returns (steps: seq<(bool, Step)>)
    requires Start(n)
    ensures MuxStream.Init(View(n, id))
    ensures View(NetExec(n, acts), id) == MuxStream.Exec(View(n, id), steps)
  {
    if acts == [] {
      steps := [];
    } else {
      var front, last := acts[..|acts| - 1], acts[|acts| - 1];
      var before := StreamAlone(n, front, id);
      StartReady(n);
      RunReady(n, front);
      var more := MoveView(NetExec(n, front), last.0, last.1, id);
      steps := before + more;
      if more == [] {
        assert steps == before;
      } else {
        assert steps[..|steps| - 1] == before && steps[|steps| - 1] == more[0];
      }
    }
  }

  /** In every run, for every stream: bytes arrive in the order they were accepted and none is lost, an
      end of stream is read only after all of them, credit is conserved in both directions, no violation
      is reported, no sender stalls, a reset is heard and only an open timeout leaves a peer behind, and two
      ended directions do not stay half-closed. */
  lemma {:induction false} EveryStream(n: Net, acts: seq<(bool, Act)>, id: nat)
    requires Start(n)
    ensures var v := View(NetExec(n, acts), id);
            && Preserved(v.me, v.peer, v.toPeer) && Preserved(v.peer, v.me, v.toMe)
            && EndsWhole(v.me, v.peer, v.toPeer) && EndsWhole(v.peer, v.me, v.toMe)
            && Conserved(v.me, v.peer, v.toPeer, v.toMe) && Conserved(v.peer, v.me, v.toMe, v.toPeer)
            && Flowing(v.me, v.peer, v.toPeer, v.toMe) && Flowing(v.peer, v.me, v.toMe, v.toPeer)
            && Mutual(v.me, v.peer, v.toPeer) && Mutual(v.peer, v.me, v.toMe) && NotAbandoned(v) && NotHalfClosed(v)
            && v.me.faults == 0 && v.peer.faults == 0
  {
    var steps := StreamAlone(n, acts, id);
    ResetsAreHeard(View(n, id), steps);
    EndsMeet(View(n, id), steps);
    StreamPreserved(View(n, id), steps);
    EofAfterAll(View(n, id), steps);
    CreditConserved(View(n, id), steps);
    NeverStalls(View(n, id), steps);
  }

  /** In every run every stream with queued frames or an unsent FIN is on the flush queue, and no stream
      is on it twice. */
  lemma {:induction false} NoneForgotten(n: Net, acts: seq<(bool, Act)>, id: nat)
    requires Start(n)
    ensures var s := NetExec(n, acts).me; (Waiting(s, id) ==> id in s.pending) && Distinct(s.pending)
  {
    StartReady(n);
    RunReady(n, acts);
  }

  lemma {:induction false} AheadIsIndex(ids: seq<nat>, id: nat)
    requires id in ids
    ensures Ahead(ids, id) < |ids| && ids[Ahead(ids, id)] == id
  {
    if ids[0] != id { AheadIsIndex(ids[1..], id); }
  }

  /** Over any stretch of any run: until the next frame of a waiting stream is taken, the transport takes
      at most as many stream frames as there are queue entries ahead of it. */
  lemma {:induction false} NextTurn(n: Net, acts: seq<(bool, Act)>, more: seq<(bool, Act)>, id: nat)
    requires Start(n)
    ensures var u := NetExec(n, acts); var s, t := u.me, NetExec(u, more).me;
            && s.log <= t.log
            && (Waiting(s, id) && InTable(t, id) && id !in t.log[|s.log|..] ==>
                  |t.log| - |s.log| <= Ahead(s.pending, id) < |s.pending| && s.pending[Ahead(s.pending, id)] == id)
  {
    var u := NetExec(n, acts);
    StartReady(n);
    RunReady(n, acts);
    RunSession(u, more, id);
    if Waiting(u.me, id) { AheadIsIndex(u.me.pending, id); }
  }

  /** Over any stretch of any run: once GoAway is set the stream table never grows. */
  lemma {:induction false} NoGrowth(n: Net, acts: seq<(bool, Act)>, more: seq<(bool, Act)>, id: nat)
    requires Start(n)
    ensures var u := NetExec(n, acts);
            u.me.flags.goAway && InTable(NetExec(u, more).me, id) ==> InTable(u.me, id)
  {
    StartReady(n);
    RunReady(n, acts);
    RunSession(NetExec(n, acts), more, id);
  }

  /** In every run: a drain that ended without an error, which is when Shutdown returns nil, ended with
      every stream gone and the GoAway taken by the transport, and no stream comes after it. */
  lemma {:induction false} ShutdownMeans(n: Net, acts: seq<(bool, Act)>)
    requires Start(n)
    ensures var s := NetExec(n, acts).me;
            s.flags.drainClean ==> Empty(s) && s.farewells >= 1 && s.flags.goAway && s.flags.drainClosed
  {
    StartReady(n);
    RunReady(n, acts);
  }
}
