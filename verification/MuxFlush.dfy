/** Who flushes a session: writers that queue frames and request a flush, the transport's turn that honours
    requests, callers that flush under the session lock themselves, and the transport's reports.

    Every atomic operation on the request flag and every section under the session lock is a step of its
    own, one pass of the flush loop at a time; the transport sends and reports beside it. */
module MuxFlush {

  // ------------------------------------------------------------------- state

  /** maxFlushFrames: one flush makes at most this many passes. */
  const MAX_FLUSH_FRAMES: nat := 256

  /** An entry of the flush queue: its stream has frames or a FIN to send, or it left the table. */
  datatype Entry = Live | Stale

  /** The session lock: free, with a flush that may make `left` more passes, or with one about to return.
      `took`: the transport took a frame of this flush; `turn`: it is the turn's; `whole`: it is `flush`,
      which takes finFlushed too, and not `flushLocked` alone. */
  datatype Lock =
    | Free
    | Flushing(left: nat, took: bool, turn: bool, whole: bool)
    | Leaving(turn: bool, whole: bool)

  /** The transport's turn: begun, past the store that clears the request, about to flush, in its flush. */
  datatype Turn = Quiet | Begun | Parsing | Waiting | InFlush | After

  datatype State = State(
    control: nat, pending: seq<Entry>,
    fins: nat,               // finFlushed
    lock: Lock,
    held: nat,               // bytes the transport accepted and has not sent
    owed: nat,               // sends whose OnBytesWritten has not run
    flushReq: bool, wake: bool,
    writers: nat,            // writes and half-closes that queue frames and request a flush afterwards
    askers: nat,             // about to set flushReq
    wakers: nat,             // set it, about to wake the transport
    closers: nat,            // streams that left and whose OnClose wakes the transport
    turn: Turn,
    handler: bool,           // the session has a Handler: a stream that leaves gets an OnClose
    closing: bool,           // the transport is closing
    starved: bool)           // history: a flush began with its whole bound of stale entries ahead of a live one

  ghost predicate Init(s: State) {
    && s.control == 0 && s.pending == [] && s.fins == 0 && s.lock.Free? && s.held == 0 && s.owed == 0
    && !s.flushReq && !s.wake && s.writers == 0 && s.askers == 0 && s.wakers == 0 && s.closers == 0
    && s.turn.Quiet? && !s.closing && !s.starved
  }

  // ------------------------------------------------------------------- steps

  /** What becomes of the frame a pass offers to the transport: it is taken, with `n` further bytes, and the
      stream leaves the queue, goes to its end, or has sent its FIN; it is refused; or the transport fails. */
  datatype How = Last(n: nat) | Rotate(n: nat) | Fin(n: nat) | Refuse | Fail

  datatype Step =
    | Frame | Enqueue | Request | Ask | WakeUp | LeaveTable(i: nat) | CloserWakes
    | Take(controls: nat, whole: bool) | Pass(how: How) | Unlock
    | Send(n: nat) | Report
    | Begin | Clear | Parsed | TurnTakes | End | Close

  /** A flush with `left` passes meets nothing but stale entries, and a live one is behind them. */
  predicate Starves(control: nat, pending: seq<Entry>, left: nat) {
    control == 0 && left <= |pending| && (forall k :: 0 <= k < left ==> pending[k] == Stale) && Live in pending[left..]
  }

  function Acquire(s: State, turn: bool, whole: bool): State {
    s.(lock := Flushing(MAX_FLUSH_FRAMES, false, turn, whole),
       starved := s.starved || Starves(s.control, s.pending, MAX_FLUSH_FRAMES))
  }

  /** Writers, requests and wakes. */
  function AskDo(s: State, step: Step): State {
    match step
    case Frame => s.(writers := s.writers + 1)
    case Enqueue => if s.writers == 0 || !s.lock.Free? then s else s.(pending := s.pending + [Live])
    case Request => if s.writers == 0 then s else s.(writers := s.writers - 1, askers := s.askers + 1)
    case Ask =>
      if s.askers == 0 then s
      else if s.flushReq then s.(askers := s.askers - 1)
      else s.(askers := s.askers - 1, flushReq := true, wakers := s.wakers + 1)
    case WakeUp => if s.wakers == 0 then s else s.(wakers := s.wakers - 1, wake := s.wake || !s.closing)
    case LeaveTable(i) =>
      if i >= |s.pending| || !s.lock.Free? then s
      else s.(pending := s.pending[i := Stale], closers := if s.handler then s.closers + 1 else s.closers)
    case CloserWakes => if s.closers == 0 then s else s.(closers := s.closers - 1, wake := s.wake || !s.closing)
    case _ => s
  }

  /** One pass of the flush loop that finds a frame. */
  function OfferDo(s: State, how: How): State
    requires s.lock.Flushing? && s.lock.left > 0 && (s.control > 0 || s.pending != [])
  {
    var l := s.lock.(left := s.lock.left - 1, took := true);
    match how
    case Refuse => if s.held > 0 then s.(lock := Leaving(l.turn, l.whole)) else s
    case Fail => s.(closing := true, lock := Leaving(l.turn, l.whole))
    case Last(n) =>
      if s.control > 0 then s.(control := s.control - 1, held := s.held + n + 1, lock := l)
      else s.(pending := s.pending[1..], held := s.held + n + 1, lock := l)
    case Rotate(n) =>
      if s.control > 0 then s
      else s.(pending := s.pending[1..] + [s.pending[0]], held := s.held + n + 1, lock := l)
    case Fin(n) =>
      if s.control > 0 then s
      else s.(pending := s.pending[1..], fins := s.fins + 1, held := s.held + n + 1, lock := l)
  }

  /** Sections under the session lock that flush. */
  function FlushDo(s: State, step: Step): State {
    match step
    case Take(controls, whole) =>
      if !s.lock.Free? then s else Acquire(s.(control := s.control + controls), false, whole)
    case Pass(how) =>
      if !s.lock.Flushing? then s
      else if s.lock.left == 0 || (s.control == 0 && s.pending == []) then
        s.(lock := Leaving(s.lock.turn, s.lock.whole))
      else if s.control == 0 && s.pending[0].Stale? then
        s.(pending := s.pending[1..], lock := s.lock.(left := s.lock.left - 1))
      else OfferDo(s, how)
    case Unlock =>
      if !s.lock.Leaving? then s
      else s.(lock := Free, fins := if s.lock.whole then 0 else s.fins, turn := if s.lock.turn then After else s.turn)
    case _ => s
  }

  /** The transport and its turn. */
  function TransportDo(s: State, step: Step): State {
    match step
    case Send(n) => if 0 < n <= s.held then s.(held := s.held - n, owed := s.owed + 1) else s
    case Report => if s.owed == 0 then s else s.(owed := s.owed - 1, askers := s.askers + 1)
    case Begin => if s.turn.Quiet? && !s.closing then s.(turn := Begun, wake := false) else s
    case Clear => if s.turn.Begun? then s.(turn := Parsing, flushReq := false) else s
    case Parsed => if s.turn.Parsing? then s.(turn := Waiting) else s
    case TurnTakes => if s.turn.Waiting? && s.lock.Free? then Acquire(s, true, true).(turn := InFlush) else s
    case End => if s.turn.After? then s.(turn := Quiet) else s
    case Close => s.(closing := true)
    case _ => s
  }

  predicate OfAsking(step: Step) {
    step.Frame? || step.Enqueue? || step.Request? || step.Ask? || step.WakeUp? || step.LeaveTable? || step.CloserWakes?
  }

  predicate OfFlush(step: Step) { step.Take? || step.Pass? || step.Unlock? }

  function Do(s: State, step: Step): State {
    if OfAsking(step) then AskDo(s, step) else if OfFlush(step) then FlushDo(s, step) else TransportDo(s, step)
  }

  /** The state after a run of steps, taken in any order by anyone. */
  function Exec(s: State, steps: seq<Step>): State {
    if steps == [] then s else Do(Exec(s, steps[..|steps| - 1]), steps[|steps| - 1])
  }

  // --------------------------------------------------------- the invariants

  /** Frames to send, or streams whose FIN was sent and that the next flush tries to finish. */
  predicate Left(s: State) { s.control > 0 || Live in s.pending || s.fins > 0 }

  /** A flush is on its way: the transport holds bytes or owes a report, somebody is about to request one or
      to wake the transport, or a turn that will flush is asked for or has begun. */
  predicate Minded(s: State) {
    || s.held > 0 || s.owed > 0 || s.writers > 0 || s.askers > 0 || s.wakers > 0 || s.closers > 0 || s.wake
    || s.turn.Begun? || s.turn.Parsing? || s.turn.Waiting?
  }

  /** What a flush under way may leave behind. */
  predicate FlushOk(s: State) {
    match s.lock
    case Free => Left(s) ==> s.starved || Minded(s)
    case Flushing(left, took, turn, whole) =>
      && (turn ==> whole)
      && (took ==> Minded(s))
      && (!took && left < MAX_FLUSH_FRAMES ==> s.control == 0)
      && (!took && !s.starved ==> !Starves(s.control, s.pending, left))
      && (s.fins > 0 && !turn ==> s.starved || Minded(s))
    case Leaving(turn, whole) =>
      && (turn ==> whole)
      && (s.control > 0 || Live in s.pending ==> s.starved || Minded(s))
      && (s.fins > 0 && !turn ==> s.starved || Minded(s))
  }

  predicate TurnFlushes(l: Lock) { !l.Free? && l.turn }

  ghost predicate Inv(s: State) {
    && (s.turn.InFlush? <==> TurnFlushes(s.lock))
    && (!s.closing ==> FlushOk(s) && (s.flushReq ==> s.wakers > 0 || s.wake || s.turn.Begun?))
  }

  // -------------------------------------------------------------- the argument

  lemma InTail(pending: seq<Entry>)
    requires pending != [] && pending[0].Stale?
    ensures Live in pending <==> Live in pending[1..]
  {
  }

  /** The stale entry a pass drops does not change whether the flush starves. */
  lemma StarvesTail(pending: seq<Entry>, left: nat)
    requires pending != [] && pending[0].Stale? && left > 0
    ensures Starves(0, pending, left) <==> Starves(0, pending[1..], left - 1)
  {
    var tail := pending[1..];
    if left <= |pending| { assert pending[left..] == tail[left - 1..]; }
    if Starves(0, tail, left - 1) {
      forall k | 0 <= k < left ensures pending[k] == Stale { if k > 0 { assert tail[k - 1] == Stale; } }
    }
  }

  lemma StarvesAtOnce(control: nat, pending: seq<Entry>)
    ensures Starves(control, pending, 0) <==> control == 0 && Live in pending
  {
    assert pending[0..] == pending;
  }

  lemma AskKeeps(s: State, step: Step)
    requires Inv(s) && (step.Frame? || step.Request? || step.Ask? || step.WakeUp? || step.CloserWakes?)
    ensures Inv(AskDo(s, step))
  {
    match step
    case Frame =>
    case Request =>
    case Ask =>
    case WakeUp =>
    case CloserWakes =>
  }

  lemma QueueKeeps(s: State, step: Step)
    requires Inv(s) && (step.Enqueue? || step.LeaveTable?)
    ensures Inv(AskDo(s, step))
  {
    if step.LeaveTable? && step.i < |s.pending| {
      assert Live in s.pending[step.i := Stale] ==> Live in s.pending;
    }
  }

  lemma TakeKeeps(s: State, controls: nat, whole: bool)
    requires Inv(s)
    ensures Inv(FlushDo(s, Take(controls, whole)))
  {
  }

  lemma OfferKeeps(s: State, how: How)
    requires Inv(s) && s.lock.Flushing? && s.lock.left > 0
    requires s.control > 0 || (s.pending != [] && s.pending[0].Live?)
    ensures Inv(OfferDo(s, how))
  {
    match how
    case Last(_) =>
    case Rotate(_) =>
    case Fin(_) =>
    case Refuse =>
    case Fail =>
  }

  lemma SkipKeeps(s: State)
    requires Inv(s) && s.lock.Flushing? && s.lock.left > 0 && s.control == 0 && s.pending != [] && s.pending[0].Stale?
    ensures Inv(s.(pending := s.pending[1..], lock := s.lock.(left := s.lock.left - 1)))
  {
    StarvesTail(s.pending, s.lock.left);
    InTail(s.pending);
  }

  /** A flush that used up its bound took a frame, or starved. */
  lemma BoundKeeps(s: State)
    requires Inv(s) && s.lock.Flushing? && (s.lock.left == 0 || (s.control == 0 && s.pending == []))
    ensures Inv(s.(lock := Leaving(s.lock.turn, s.lock.whole)))
  {
    StarvesAtOnce(s.control, s.pending);
  }

  lemma PassKeeps(s: State, how: How)
    requires Inv(s)
    ensures Inv(FlushDo(s, Pass(how)))
  {
    if s.lock.Flushing? {
      if s.lock.left == 0 || (s.control == 0 && s.pending == []) {
        BoundKeeps(s);
      } else if s.control == 0 && s.pending[0].Stale? {
        SkipKeeps(s);
      } else {
        OfferKeeps(s, how);
      }
    }
  }

  lemma UnlockKeeps(s: State)
    requires Inv(s)
    ensures Inv(FlushDo(s, Unlock))
  {
  }

  lemma TurnTakesKeeps(s: State)
    requires Inv(s)
    ensures Inv(TransportDo(s, TurnTakes))
  {
  }

  lemma TransportKeeps(s: State, step: Step)
    requires Inv(s)
    ensures Inv(TransportDo(s, step))
  {
    match step
    case Send(_) =>
    case Report =>
    case Begin =>
    case Clear =>
    case Parsed =>
    case TurnTakes => TurnTakesKeeps(s);
    case End =>
    case Close =>
    case _ =>
  }

  lemma StepKeeps(s: State, step: Step)
    requires Inv(s)
    ensures Inv(Do(s, step))
  {
    if step.Enqueue? || step.LeaveTable? {
      QueueKeeps(s, step);
    } else if OfAsking(step) {
      AskKeeps(s, step);
    } else if step.Take? {
      TakeKeeps(s, step.controls, step.whole);
    } else if step.Pass? {
      PassKeeps(s, step.how);
    } else if step.Unlock? {
      UnlockKeeps(s);
    } else {
      TransportKeeps(s, step);
    }
  }

  lemma {:induction false} Reachable(s: State, steps: seq<Step>)
    requires Init(s)
    ensures Inv(Exec(s, steps))
  {
    if steps != [] {
      Reachable(s, steps[..|steps| - 1]);
      StepKeeps(Exec(s, steps[..|steps| - 1]), steps[|steps| - 1]);
    }
  }

  // ----------------------------------------------------------- what is proved

  /** In every run with an open transport, unless a flush began with nothing but stale entries in its bound
      and a live one behind them: control frames, streams with something to send and streams whose FIN was
      sent, left while no flush is under way, have a flush on its way. */
  lemma {:induction false} NeverLeft(s: State, steps: seq<Step>)
    requires Init(s)
    ensures var u := Exec(s, steps); u.lock.Free? && Left(u) && !u.closing && !u.starved ==> Minded(u)
  {
    Reachable(s, steps);
  }

  /** In every run a request that was made has its turn to come. */
  lemma {:induction false} RequestHeard(s: State, steps: seq<Step>)
    requires Init(s)
    ensures var u := Exec(s, steps); u.flushReq && !u.closing ==> u.wakers > 0 || u.wake || u.turn.Begun?
  {
    Reachable(s, steps);
  }

  // ------------------------------------------------- and that the exception is real

  /** Some run leads from `s` to `t`. */
  ghost predicate Leads(s: State, t: State) { exists run :: Exec(s, run) == t }

  lemma LeadsSelf(s: State)
    ensures Leads(s, s)
  {
    assert Exec(s, []) == s;
  }

  lemma LeadsOn(s: State, t: State, step: Step)
    requires Leads(s, t)
    ensures Leads(s, Do(t, step))
  {
    var run :| Exec(s, run) == t;
    assert (run + [step])[..|run|] == run;
    assert Exec(s, run + [step]) == Do(t, step);
  }

  lemma {:induction false} ExecConcat(s: State, a: seq<Step>, b: seq<Step>)
    ensures Exec(s, a + b) == Exec(Exec(s, a), b)
  {
    if b == [] {
      assert a + b == a;
    } else {
      ExecConcat(s, a, b[..|b| - 1]);
      assert (a + b)[..|a + b| - 1] == a + b[..|b| - 1];
    }
  }

  lemma LeadsThen(s: State, t: State, u: State)
    requires Leads(s, t) && Leads(t, u)
    ensures Leads(s, u)
  {
    var a :| Exec(s, a) == t;
    var b :| Exec(t, b) == u;
    ExecConcat(s, a, b);
  }

  /** A flush after `n` passes over stale entries. */
  function Skipped(u: State, n: nat): State
    requires u.lock.Flushing? && n <= u.lock.left && n <= |u.pending|
  {
    u.(pending := u.pending[n..], lock := u.lock.(left := u.lock.left - n))
  }

  lemma SkipsOne(u: State, n: nat)
    requires u.lock.Flushing? && u.control == 0 && n < u.lock.left && n < |u.pending| && u.pending[n] == Stale
    ensures Do(Skipped(u, n), Pass(Refuse)) == Skipped(u, n + 1)
  {
    assert u.pending[n..][1..] == u.pending[n + 1..];
  }

  lemma {:induction false} SkipsAll(u: State, n: nat)
    requires u.lock.Flushing? && u.control == 0 && n <= u.lock.left && n <= |u.pending|
    requires forall k :: 0 <= k < n ==> u.pending[k] == Stale
    ensures Leads(u, Skipped(u, n))
  {
    if n == 0 {
      assert Skipped(u, 0) == u by { assert u.pending[0..] == u.pending; }
      LeadsSelf(u);
    } else {
      SkipsAll(u, n - 1);
      SkipsOne(u, n - 1);
      LeadsOn(u, Skipped(u, n - 1), Pass(Refuse));
    }
  }

  /** What a starving flush leaves when it returns: it has dropped its bound of stale entries. */
  function Returned(u: State): State
    requires u.lock.Flushing? && MAX_FLUSH_FRAMES <= |u.pending|
  {
    u.(pending := u.pending[MAX_FLUSH_FRAMES..], lock := Free,
       fins := if u.lock.whole then 0 else u.fins, turn := if u.lock.turn then After else u.turn)
  }

  lemma StarvedPasses(u: State)
    requires u.lock.Flushing? && u.lock.left == MAX_FLUSH_FRAMES && Starves(u.control, u.pending, MAX_FLUSH_FRAMES)
    ensures Leads(u, Returned(u))
  {
    var v := Skipped(u, MAX_FLUSH_FRAMES);
    SkipsAll(u, MAX_FLUSH_FRAMES);
    LeadsOn(u, v, Pass(Refuse));
    var w := v.(lock := Leaving(u.lock.turn, u.lock.whole));
    assert Do(v, Pass(Refuse)) == w;
    LeadsOn(u, w, Unlock);
    assert Do(w, Unlock) == Returned(u);
  }

  /** A flush that starves strands what is behind its bound, whenever nobody else is on the way: it returns
      with the live entry still queued and nobody to flush it. */
  lemma StarvedStrands(u: State) returns (v: State)
    requires u.lock.Flushing? && u.lock.left == MAX_FLUSH_FRAMES && Starves(u.control, u.pending, MAX_FLUSH_FRAMES)
    requires !Minded(u) && !u.closing
    ensures Leads(u, v) && v.lock.Free? && Live in v.pending && !Minded(v) && !v.closing
  {
    StarvedPasses(u);
    v := Returned(u);
  }

  // ... in a run of the whole machine

  function Copies(e: Entry, n: nat): seq<Entry> { seq(n, i requires 0 <= i < n => e) }

  lemma QueuesOne(s: State)
    requires s.lock.Free? && s.writers == 0
    ensures Leads(s, s.(pending := s.pending + [Live], askers := s.askers + 1))
  {
    LeadsSelf(s);
    LeadsOn(s, s, Frame);
    var u := s.(writers := 1);
    LeadsOn(s, u, Enqueue);
    LeadsOn(s, u.(pending := s.pending + [Live]), Request);
  }

  lemma {:induction false} QueuesMany(s: State, n: nat)
    requires s.lock.Free? && s.writers == 0
    ensures Leads(s, s.(pending := s.pending + Copies(Live, n), askers := s.askers + n))
  {
    if n == 0 {
      assert s.pending + Copies(Live, 0) == s.pending;
      LeadsSelf(s);
    } else {
      var u := s.(pending := s.pending + Copies(Live, n - 1), askers := s.askers + (n - 1));
      QueuesMany(s, n - 1);
      QueuesOne(u);
      assert u.pending + [Live] == s.pending + Copies(Live, n);
      LeadsThen(s, u, s.(pending := s.pending + Copies(Live, n), askers := s.askers + n));
    }
  }

  lemma {:induction false} AsksAll(s: State, n: nat)
    requires s.flushReq && n <= s.askers
    ensures Leads(s, s.(askers := s.askers - n))
  {
    if n == 0 {
      LeadsSelf(s);
    } else {
      AsksAll(s, n - 1);
      LeadsOn(s, s.(askers := s.askers - (n - 1)), Ask);
    }
  }

  function Stalen(pending: seq<Entry>, n: nat): seq<Entry>
    requires n <= |pending|
  {
    Copies(Stale, n) + pending[n..]
  }

  function LeftTable(s: State, n: nat): State
    requires n <= |s.pending|
  {
    s.(pending := Stalen(s.pending, n), closers := if s.handler then s.closers + n else s.closers)
  }

  lemma {:induction false} LeavesMany(s: State, n: nat)
    requires s.lock.Free? && n <= |s.pending|
    ensures Leads(s, LeftTable(s, n))
  {
    if n == 0 {
      assert Stalen(s.pending, 0) == s.pending;
      LeadsSelf(s);
    } else {
      LeavesMany(s, n - 1);
      assert Stalen(s.pending, n - 1)[n - 1 := Stale] == Stalen(s.pending, n);
      LeadsOn(s, LeftTable(s, n - 1), LeaveTable(n - 1));
    }
  }

  lemma {:induction false} ClosersWake(s: State, n: nat)
    requires n <= s.closers && !s.closing
    ensures Leads(s, s.(closers := s.closers - n, wake := s.wake || n > 0))
  {
    if n == 0 {
      LeadsSelf(s);
    } else {
      ClosersWake(s, n - 1);
      LeadsOn(s, s.(closers := s.closers - (n - 1), wake := s.wake || n - 1 > 0), CloserWakes);
    }
  }

  /** A turn that begins. */
  lemma TurnBegins(s: State)
    requires s.turn.Quiet? && !s.closing
    ensures Leads(s, s.(turn := Parsing, wake := false, flushReq := false))
  {
    LeadsSelf(s);
    LeadsOn(s, s, Begin);
    LeadsOn(s, s.(turn := Begun, wake := false), Clear);
  }

  function Locked(s: State): State {
    s.(turn := InFlush, lock := Flushing(MAX_FLUSH_FRAMES, false, true, true), starved := true)
  }

  lemma TurnLocks(s: State)
    requires s.turn.Parsing? && s.lock.Free? && Starves(s.control, s.pending, MAX_FLUSH_FRAMES)
    ensures Leads(s, Locked(s))
  {
    LeadsSelf(s);
    LeadsOn(s, s, Parsed);
    LeadsOn(s, s.(turn := Waiting), TurnTakes);
    assert Do(s.(turn := Waiting), TurnTakes) == Locked(s);
  }

  /** ... and that starves in its flush. */
  lemma TurnStarves(s: State)
    requires s.turn.Parsing? && s.lock.Free? && Starves(s.control, s.pending, MAX_FLUSH_FRAMES)
    ensures Leads(s, s.(turn := Quiet, pending := s.pending[MAX_FLUSH_FRAMES..], fins := 0, starved := true))
  {
    var v := Locked(s);
    TurnLocks(s);
    StarvedPasses(v);
    LeadsThen(s, v, Returned(v));
    LeadsOn(s, Returned(v), End);
  }

  /** Any number of requests set the flag once and wake the transport. */
  lemma RequestsWake(s: State)
    requires s.askers > 0 && !s.flushReq && s.wakers == 0 && !s.closing
    ensures Leads(s, s.(askers := 0, flushReq := true, wake := true))
  {
    LeadsSelf(s);
    LeadsOn(s, s, Ask);
    var u := s.(askers := s.askers - 1, flushReq := true, wakers := 1);
    assert Do(s, Ask) == u;
    AsksAll(u, u.askers);
    LeadsThen(s, u, u.(askers := 0));
    LeadsOn(s, u.(askers := 0), WakeUp);
  }

  /** Writers queue as many streams, and their requests are honoured by one turn. */
  lemma ManyQueue(s: State, n: nat)
    requires Init(s) && n > 0
    ensures Leads(s, s.(pending := Copies(Live, n), turn := Parsing))
  {
    var u := s.(pending := Copies(Live, n), askers := n);
    QueuesMany(s, n);
    assert s.pending + Copies(Live, n) == Copies(Live, n);
    RequestsWake(u);
    var v := u.(askers := 0, flushReq := true, wake := true);
    LeadsThen(s, u, v);
    TurnBegins(v);
    LeadsThen(s, v, s.(pending := Copies(Live, n), turn := Parsing));
  }

  /** The turn finds that all but the last of them left, and their closes, if there are any, woke the
      transport. */
  lemma AllButOneLeave(s: State, n: nat)
    requires s.pending == Copies(Live, n + 1) && s.lock.Free? && s.closers == 0 && !s.closing && n > 0
    ensures Leads(s, s.(pending := Copies(Stale, n) + [Live], wake := s.wake || s.handler))
  {
    var u := LeftTable(s, n);
    LeavesMany(s, n);
    assert Stalen(s.pending, n) == Copies(Stale, n) + [Live];
    ClosersWake(u, u.closers);
    LeadsThen(s, u, s.(pending := Copies(Stale, n) + [Live], wake := s.wake || s.handler));
  }

  lemma StaleAhead(n: nat)
    requires n >= MAX_FLUSH_FRAMES
    ensures Starves(0, Copies(Stale, n) + [Live], MAX_FLUSH_FRAMES)
    ensures (Copies(Stale, n) + [Live])[MAX_FLUSH_FRAMES..] == Copies(Stale, n - MAX_FLUSH_FRAMES) + [Live]
  {
    var rest := (Copies(Stale, n) + [Live])[MAX_FLUSH_FRAMES..];
    assert rest == Copies(Stale, n - MAX_FLUSH_FRAMES) + [Live];
    assert rest[|rest| - 1] == Live;
  }

  /** A turn with only one live entry, behind its bound. */
  lemma LastStarves(s: State, n: nat)
    requires s.turn.Parsing? && s.lock.Free? && s.control == 0 && n >= MAX_FLUSH_FRAMES
    requires s.pending == Copies(Stale, n) + [Live]
    ensures Leads(s, s.(turn := Quiet, pending := Copies(Stale, n - MAX_FLUSH_FRAMES) + [Live], fins := 0,
                        starved := true))
  {
    StaleAhead(n);
    TurnStarves(s);
  }

  /** How many streams must leave: with a Handler their closes wake one more turn. */
  function Leavers(handler: bool): nat { if handler then 2 * MAX_FLUSH_FRAMES else MAX_FLUSH_FRAMES }

  /** The exception happens: streams queue frames, all but one of them are reset by the peer in the turn that
      would flush them, and the last one's frames stay queued on an open, idle session with nobody to
      flush them. */
  lemma FramesStranded(s: State) returns (v: State)
    requires Init(s)
    ensures Leads(s, v) && v.lock.Free? && v.turn.Quiet? && Live in v.pending && !Minded(v) && !v.closing
  {
    var n := Leavers(s.handler);
    var u := s.(pending := Copies(Live, n + 1), turn := Parsing);
    ManyQueue(s, n + 1);
    var w := u.(pending := Copies(Stale, n) + [Live], wake := s.handler);
    AllButOneLeave(u, n);
    LeadsThen(s, u, w);
    LastStarves(w, n);
    v := w.(turn := Quiet, pending := Copies(Stale, n - MAX_FLUSH_FRAMES) + [Live], fins := 0, starved := true);
    LeadsThen(s, w, v);
    if s.handler { v := WokenStarves(s, v); }
  }

  /** The turn that the closes woke starves too. */
  lemma WokenStarves(s: State, u: State) returns (v: State)
    requires Leads(s, u) && u.turn.Quiet? && !u.closing && u.lock.Free? && u.control == 0
    requires u.pending == Copies(Stale, MAX_FLUSH_FRAMES) + [Live]
    ensures Leads(s, v) && Live in v.pending
    ensures v == u.(wake := false, flushReq := false, pending := v.pending, fins := 0, starved := true)
  {
    var w := u.(turn := Parsing, wake := false, flushReq := false);
    TurnBegins(u);
    LeadsThen(s, u, w);
    LastStarves(w, MAX_FLUSH_FRAMES);
    v := w.(turn := Quiet, pending := Copies(Stale, 0) + [Live], fins := 0, starved := true);
    LeadsThen(s, w, v);
  }
}
