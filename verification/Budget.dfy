/** The session's receive budget: bytes are charged as a frame arrives and returned as they are read or
    dropped, in separate sections under the session lock, while one turn parses frames and stops when
    the budget is spent. */
module Budget {
  import opened Sums

  // ------------------------------------------------------------------- state

  datatype Config = Config(window: nat, sessionWindow: nat)

  datatype Stream = Stream(unread: nat, closed: bool)

  /** The parsing turn: idle, about to read a frame, and with a frame whose bytes are charged. */
  datatype Turn =
    | Idle
    | Parsing                        // within budget, about to take the next frame
    | Pushing(id: nat, n: nat)       // charged, not in the stream's queue yet
    | Dropping(n: nat)               // charged for a closed or overrun stream, to be given back
    | Checking                       // the frame was handled, about to look at the budget

  datatype State = State(
    cfg: Config,
    streams: seq<Stream>,
    pendingBytes: int, readHeld: bool,
    turn: Turn,
    releases: seq<nat>,              // bytes taken off a stream and not yet returned to the budget
    waiting: bool,                   // frames were left unparsed for lack of budget
    wake: bool,                      // a turn of the transport is asked for
    lost: bool)

  ghost predicate Init(s: State) {
    s == State(s.cfg, s.streams, 0, false, Idle, [], false, false, false)
    && 0 < s.cfg.sessionWindow && 0 < s.cfg.window
    && forall i :: 0 <= i < |s.streams| ==> s.streams[i] == Stream(0, false)
  }

  /** One stream window below the budget, and at least half of it. */
  function LowWater(c: Config): int {
    var low := c.sessionWindow - c.window;
    if low < c.sessionWindow / 2 then c.sessionWindow / 2 else low
  }

  // ------------------------------------------------------------------- steps

  datatype Step =
    | Begin                                      // the transport runs a turn
    | Frame(id: nat, n: nat) | NoFrame           // it finds a complete frame, or none
    | Push(fits: bool) | GiveBack | Check
    | Consume(id: nat, n: nat)                   // Read, Discard
    | Reset(id: nat)                             // every way a stream closes
    | Release(i: nat)
    | LoseTransport

  /** releaseInbound. */
  function Returned(s: State, n: nat): State {
    var left := if s.pendingBytes - n < 0 then 0 else s.pendingBytes - n;
    if s.readHeld && left <= LowWater(s.cfg) then s.(pendingBytes := left, readHeld := false, wake := true)
    else s.(pendingBytes := left)
  }

  function TurnDo(s: State, step: Step): State {
    match step
    case Begin =>
      if !s.turn.Idle? || s.lost then s
      else if s.readHeld && s.pendingBytes > LowWater(s.cfg) then s.(wake := false)
      else s.(readHeld := false, wake := false, turn := Parsing)
    case Frame(id, n) =>
      // a legal data frame is no longer than this end's window
      if !s.turn.Parsing? || id >= |s.streams| || n > s.cfg.window then s
      else s.(pendingBytes := s.pendingBytes + n, turn := Pushing(id, n))
    case NoFrame => if s.turn.Parsing? then s.(turn := Idle, waiting := false) else s
    case Push(fits) =>
      if !s.turn.Pushing? || s.turn.id >= |s.streams| then s
      else
        var st, n := s.streams[s.turn.id], s.turn.n;
        if st.closed || !fits then s.(turn := Dropping(n))
        else s.(streams := s.streams[s.turn.id := st.(unread := st.unread + n)], turn := Checking)
    case GiveBack => if s.turn.Dropping? then Returned(s, s.turn.n).(turn := Checking) else s
    case Check =>
      if !s.turn.Checking? then s
      else if s.pendingBytes <= s.cfg.sessionWindow then s.(turn := Parsing)
      else s.(readHeld := true, turn := Idle, waiting := true)
    case _ => s
  }

  function StreamDo(s: State, step: Step): State {
    match step
    case Consume(id, n) =>
      if id >= |s.streams| || n > s.streams[id].unread then s
      else s.(streams := s.streams[id := s.streams[id].(unread := s.streams[id].unread - n)],
              releases := s.releases + [n])
    case Reset(id) =>
      if id >= |s.streams| || s.streams[id].closed then s
      else s.(streams := s.streams[id := Stream(0, true)], releases := s.releases + [s.streams[id].unread])
    case Release(i) =>
      if i >= |s.releases| then s
      else Returned(s, s.releases[i]).(releases := s.releases[..i] + s.releases[i + 1..])
    case LoseTransport =>
      if s.turn.Idle? then s.(readHeld := false, lost := true, waiting := false, wake := false) else s
    case _ => s
  }

  predicate OfTurn(step: Step) {
    step.Begin? || step.Frame? || step.NoFrame? || step.Push? || step.GiveBack? || step.Check?
  }

  function Do(s: State, step: Step): State { if OfTurn(step) then TurnDo(s, step) else StreamDo(s, step) }

  function Exec(s: State, steps: seq<Step>): State {
    if steps == [] then s else Do(Exec(s, steps[..|steps| - 1]), steps[|steps| - 1])
  }

  // --------------------------------------------------------- the invariants

  function Unread(ss: seq<Stream>): nat { if ss == [] then 0 else ss[0].unread + Unread(ss[1..]) }

  /** Bytes charged for a frame that is not in a queue. */
  function InHand(t: Turn): nat { if t.Pushing? || t.Dropping? then t.n else 0 }

  predicate Inv(s: State) {
    && 0 < s.cfg.sessionWindow
    && s.pendingBytes == Unread(s.streams) + InHand(s.turn) + Sum(s.releases)
    && s.pendingBytes <= s.cfg.sessionWindow + s.cfg.window
    && (s.turn.Parsing? ==> s.pendingBytes <= s.cfg.sessionWindow)
    && (s.turn.Idle? ==> s.readHeld || s.lost || s.pendingBytes <= s.cfg.sessionWindow)
    && (s.turn.Pushing? || s.turn.Dropping? ==> s.turn.n <= s.cfg.window)
    && (s.readHeld ==> s.pendingBytes > LowWater(s.cfg) && s.turn.Idle?)
    && (s.turn.Idle? && s.waiting ==> s.readHeld || s.wake)
  }

  // -------------------------------------------------------------- the argument

  lemma {:induction false} UnreadUpdate(ss: seq<Stream>, i: nat, st: Stream)
    requires i < |ss|
    ensures Unread(ss[i := st]) == Unread(ss) - ss[i].unread + st.unread
  {
    if i == 0 {
      assert ss[0 := st][1..] == ss[1..];
    } else {
      assert ss[i := st][1..] == ss[1..][i - 1 := st];
      UnreadUpdate(ss[1..], i - 1, st);
    }
  }

  lemma PushKeeps(s: State, fits: bool)
    requires Inv(s)
    ensures Inv(TurnDo(s, Push(fits)))
  {
    if s.turn.Pushing? && s.turn.id < |s.streams| {
      var st := s.streams[s.turn.id];
      UnreadUpdate(s.streams, s.turn.id, st.(unread := st.unread + s.turn.n));
    }
  }

  lemma TurnKeeps(s: State, step: Step)
    requires Inv(s)
    ensures Inv(TurnDo(s, step))
  {
    SumOfNats(s.releases);
    if step.Push? { PushKeeps(s, step.fits); }
  }

  lemma ConsumeKeeps(s: State, id: nat, n: nat)
    requires Inv(s)
    ensures Inv(StreamDo(s, Consume(id, n)))
  {
    if id < |s.streams| && n <= s.streams[id].unread {
      UnreadUpdate(s.streams, id, s.streams[id].(unread := s.streams[id].unread - n));
      SumSnoc(s.releases, n);
    }
  }

  lemma ResetKeeps(s: State, id: nat)
    requires Inv(s)
    ensures Inv(StreamDo(s, Reset(id)))
  {
    if id < |s.streams| {
      UnreadUpdate(s.streams, id, Stream(0, true));
      SumSnoc(s.releases, s.streams[id].unread);
    }
  }

  lemma ReleaseKeeps(s: State, i: nat)
    requires Inv(s)
    ensures Inv(StreamDo(s, Release(i)))
  {
    if i < |s.releases| {
      SumRemove(s.releases, i);
      SumOfNats(s.releases[..i] + s.releases[i + 1..]);
    }
  }

  lemma StreamKeeps(s: State, step: Step)
    requires Inv(s) && !OfTurn(step)
    ensures Inv(StreamDo(s, step))
  {
    match step
    case Consume(id, n) => ConsumeKeeps(s, id, n);
    case Reset(id) => ResetKeeps(s, id);
    case Release(i) => ReleaseKeeps(s, i);
    case LoseTransport =>
  }

  lemma {:induction false} NothingUnread(ss: seq<Stream>)
    requires forall i :: 0 <= i < |ss| ==> ss[i].unread == 0
    ensures Unread(ss) == 0
  {
    if ss != [] { NothingUnread(ss[1..]); }
  }

  lemma {:induction false} Reachable(s: State, steps: seq<Step>)
    requires Init(s)
    ensures Inv(Exec(s, steps))
  {
    if steps == [] {
      NothingUnread(s.streams);
    } else {
      var u, last := Exec(s, steps[..|steps| - 1]), steps[|steps| - 1];
      Reachable(s, steps[..|steps| - 1]);
      if OfTurn(last) { TurnKeeps(u, last); } else { StreamKeeps(u, last); }
    }
  }

  // ----------------------------------------------------------- what is proved

  /** In every run the charge is exact, and at most one legal frame above the session window. */
  lemma {:induction false} BudgetExact(s: State, steps: seq<Step>)
    requires Init(s)
    ensures var u := Exec(s, steps);
            && u.pendingBytes == Unread(u.streams) + InHand(u.turn) + Sum(u.releases)
            && 0 <= u.pendingBytes <= u.cfg.sessionWindow + u.cfg.window
  {
    Reachable(s, steps);
    SumOfNats(Exec(s, steps).releases);
  }

  lemma {:induction false} SomeUnread(ss: seq<Stream>) returns (i: nat)
    requires Unread(ss) > 0
    ensures i < |ss| && ss[i].unread > 0
  {
    if ss[0].unread > 0 {
      i := 0;
    } else {
      i := SomeUnread(ss[1..]);
      i := i + 1;
    }
  }

  /** In every run a held session has more than the low-water mark charged, so once what was consumed is
      returned some stream still has bytes to read; and frames left unparsed are held or a turn is asked
      for, so the consumption that crosses the mark always resumes the parser. */
  lemma {:induction false} HeldResumes(s: State, steps: seq<Step>)
    requires Init(s)
    ensures var u := Exec(s, steps);
            && (u.readHeld ==> u.pendingBytes > LowWater(u.cfg) >= 0)
            && (u.readHeld && u.releases == [] ==> exists i :: 0 <= i < |u.streams| && u.streams[i].unread > 0)
            && (u.turn.Idle? && u.waiting ==> u.readHeld || u.wake)
  {
    Reachable(s, steps);
    var u := Exec(s, steps);
    if u.readHeld && u.releases == [] { var i := SomeUnread(u.streams); }
  }

  /** The return that brings a held session to the mark asks for a turn at once; no other does.  The
      session then has room for a whole stream window, or for half its own when that is less, so it is
      not held again after a few bytes. */
  lemma CrossingWakes(u: State, n: nat)
    requires Inv(u) && u.readHeld && n <= u.pendingBytes
    ensures var t := Returned(u, n);
            && t.pendingBytes == u.pendingBytes - n
            && (!t.readHeld <==> u.pendingBytes - n <= LowWater(u.cfg))
            && (!t.readHeld ==> t.wake)
            && (!t.readHeld ==> u.cfg.sessionWindow - t.pendingBytes >= u.cfg.window
                                || 2 * (u.cfg.sessionWindow - t.pendingBytes) >= u.cfg.sessionWindow)
  {
  }
}
