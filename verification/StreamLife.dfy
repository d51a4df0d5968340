/** How one stream of a session ends, as its handler sees it: the callbacks on the transport's turns, aborts
    and settling from any goroutine, and the one OnClose.

    Sections under the session lock and the stream lock are steps of their own.  Goroutines that differ
    in nothing but their next step are counted. */
module StreamLife {

  // ------------------------------------------------------------------- state

  /** What settling looks at. */
  datatype Ends = Ends(
    inTable: bool, closed: bool, finished: bool,
    peerFin: bool, localFin: bool,
    finTaken: bool,          // the transport accepted the FIN
    unread: nat, frames: nat,
    active: bool,            // callbackActive
    yieldOwed: bool,
    paused: bool, resumeOwed: bool)

  /** Where the transport's turn stands: in onRead parsing, about to run the wakes, in onTimer, or about to
      run the queued closes. */
  datatype Stage = NoTurn | Parse | Wakes | Timers | Closing

  /** What the turn does for this stream: its callbacks run nowhere else. */
  datatype Call =
    | Rest
    | Accepted               // an accepted stream is in the table, OnOpen has not begun
    | Opening                // OnOpen runs
    | Dispatching
    | Calling(read: bool)    // about to begin OnRead, or OnTimer
    | Running
    | Failing | FailReset | FailDeliver | FailQueue
    | Ending | Settling

  /** The way of a close to OnClose. */
  datatype Closes = Closes(
    delivered: bool,         // closeDelivered
    resetting: nat,          // left the table, about to mark the stream closed
    delivering: nat,         // marked it closed, about to test closeDelivered
    queueing: nat,           // set it, about to queue OnClose
    queue: nat,              // the stream's entries in closeQ
    inPlace: nat)            // goroutines that drain closeQ themselves, the transport being gone

  /** Who will look at the stream again. */
  datatype Asks = Asks(
    trying: nat,             // about to call tryFinish
    fin: bool,               // in finFlushed: its FIN was taken, and the next flush tries to finish it
    wakers: nat,             // in Stream.Wake, about to put the stream on wakeQ
    queued: bool,            // on wakeQ
    poking: nat,             // about to wake the transport
    wake: bool)              // a turn of the transport is asked for

  /** What the handler saw. */
  datatype Seen = Seen(
    begun: nat,              // OnReads begun
    onCloses: nat,
    late: nat,               // callbacks begun after OnClose
    overlaps: nat,           // OnCloses begun while another callback runs
    failed: bool)            // a callback of this stream returned an error before it closed

  datatype State = State(
    ends: Ends, stage: Stage, call: Call, closes: Closes, asks: Asks, seen: Seen,
    closing: bool,           // the transport is closing: it takes no wake and starts no turn but its last
    lost: bool)              // the session's close has run

  /** A stream this end opened, or one the running turn has just accepted. */
  predicate Init(s: State) {
    var e, c, a, v := s.ends, s.closes, s.asks, s.seen;
    && e.inTable && !e.closed && !e.finished && !e.peerFin && !e.localFin && !e.finTaken && e.unread == 0
    && e.frames == 0 && !e.active && !e.yieldOwed && !e.paused && !e.resumeOwed
    && (if s.call.Rest? then s.stage.NoTurn? else s.call.Accepted? && s.stage.Parse?)
    && !c.delivered && c.resetting == 0 && c.delivering == 0 && c.queueing == 0 && c.queue == 0 && c.inPlace == 0
    && a.trying == 0 && !a.fin && a.wakers == 0 && !a.queued && a.poking == 0 && !a.wake
    && v.begun == 0 && v.onCloses == 0 && v.late == 0 && v.overlaps == 0 && !v.failed && !s.closing && !s.lost
  }

  // ------------------------------------------------------------------- steps

  datatype Step =
    | Begin | Timer | Arrive(n: nat, fin: bool) | TurnGoes(choice: bool) | Break      // the transport's turn
    | CloseTransport | LoseTransport
    | Consume(n: nat) | Yield | Pause | Resume | Waken                                 // the consumer
    | CloseWrite | Queue(n: nat) | Take(fin: bool) | Flush | TryFinish | PutWake | Poke // anyone
    | Abort | ResetClose | Deliver | QueueClose | DrainInPlace

  /** FIN completion waits for the consumer: unread input, a running callback, a pause or the resume turn
      its release owes, or a continuation it asked for. */
  predicate Settled(e: Ends) {
    && e.inTable && !e.closed && !e.active && e.peerFin && e.localFin && e.finTaken && e.frames == 0 && e.unread == 0
    && !e.yieldOwed && !e.paused && !e.resumeOwed
  }

  function Finish(s: State): State {
    if !Settled(s.ends) then s
    else s.(ends := s.ends.(closed := true, finished := true, inTable := false),
            closes := s.closes.(delivering := s.closes.delivering + 1))
  }

  function Leave(e: Ends): Ends { e.(inTable := false, frames := 0) }

  function Close(e: Ends): Ends { e.(closed := true, unread := 0) }

  predicate InHandler(c: Call) { c.Running? || c.Opening? }

  /** OnClose runs for one entry of the close queue. */
  function RunClose(s: State): State {
    s.(closes := s.closes.(queue := if s.closes.queue > 0 then s.closes.queue - 1 else 0),
       seen := s.seen.(onCloses := s.seen.onCloses + 1,
                       overlaps := if InHandler(s.call) then s.seen.overlaps + 1 else s.seen.overlaps))
  }

  function Late(v: Seen): nat { if v.onCloses > 0 then v.late + 1 else v.late }

  /** The turn goes on between its dealings with the stream; `due`: the stream's timer fired. */
  function StageDo(s: State, due: bool): State {
    match s.stage
    case NoTurn => s
    case Parse => s.(stage := Wakes, call := if s.asks.fin then Settling else Rest, asks := s.asks.(fin := false))
    case Wakes =>
      if !s.asks.queued then s.(stage := Closing)
      else s.(stage := Closing, asks := s.asks.(queued := false), call := if s.ends.closed then Rest else Dispatching)
    case Timers => s.(stage := Closing, call := if due then Calling(false) else Rest)
    case Closing => if s.closes.queue > 0 then RunClose(s) else s.(stage := NoTurn)
  }

  /** The next operation of the turn; `choice`: the callback it runs returns an error, or the timer is due. */
  function TurnDo(s: State, choice: bool): State {
    var e, c := s.ends, s.closes;
    match s.call
    case Rest => StageDo(s, choice)
    case Accepted => s.(call := Opening, seen := s.seen.(late := Late(s.seen)))
    case Opening => s.(call := Rest)
    case Dispatching => s.(call := if e.paused then Settling else Calling(true))
    case Calling(read) =>
      if e.closed then s.(call := Settling)
      else if read then
        s.(ends := e.(active := true, yieldOwed := false, resumeOwed := false), call := Running,
           seen := s.seen.(begun := s.seen.begun + 1, late := Late(s.seen)))
      else s.(ends := e.(active := true), call := Running, seen := s.seen.(late := Late(s.seen)))
    case _ => CallDo(s, choice)
  }

  /** ... and once a callback has begun. */
  function CallDo(s: State, fails: bool): State {
    var e, c := s.ends, s.closes;
    match s.call
    case Running =>
      if fails then s.(call := Failing, seen := s.seen.(failed := s.seen.failed || !e.closed)) else s.(call := Ending)
    case Failing => s.(ends := Leave(e), call := FailReset)
    case FailReset => if e.closed then s.(call := Ending) else s.(ends := Close(e), call := FailDeliver)
    case FailDeliver =>
      if c.delivered then s.(call := Ending) else s.(closes := c.(delivered := true), call := FailQueue)
    case FailQueue =>
      s.(closes := c.(queue := c.queue + 1), asks := s.asks.(poking := s.asks.poking + 1), call := Ending)
    case Ending => s.(ends := e.(active := false), call := Settling)
    case Settling => Finish(s).(call := Rest)
    case _ => s
  }

  /** The last unread byte of a stream whose directions both ended asks its reader to settle it. */
  function ConsumerDo(s: State, step: Step): State {
    var e, a := s.ends, s.asks;
    match step
    case Consume(n) =>
      if n > e.unread then s
      else s.(ends := e.(unread := e.unread - n),
              asks := if n == e.unread && e.peerFin && e.localFin && !e.closed then a.(trying := a.trying + 1) else a)
    case Yield => if InHandler(s.call) then s.(ends := e.(yieldOwed := true), asks := a.(wakers := a.wakers + 1)) else s
    case Pause => if e.closed || s.lost then s else s.(ends := e.(paused := true))
    case Resume =>
      if !e.paused then s
      else s.(ends := e.(paused := false, resumeOwed := true), asks := a.(wakers := a.wakers + 1))
    case Waken => s.(asks := a.(wakers := a.wakers + 1))
    case _ => s
  }

  function SenderDo(s: State, step: Step): State {
    var e, a := s.ends, s.asks;
    match step
    case CloseWrite =>
      if e.closed || e.localFin then s else s.(ends := e.(localFin := true), asks := a.(trying := a.trying + 1))
    case Queue(n) => if e.inTable && !e.localFin then s.(ends := e.(frames := e.frames + n)) else s
    case Take(fin) =>
      if s.lost || !e.inTable then s
      else if e.frames > 0 then s.(ends := e.(frames := e.frames - 1))
      else if fin && e.localFin && !e.finTaken then s.(ends := e.(finTaken := true), asks := a.(fin := true))
      else s
    case Flush => if a.fin then s.(asks := a.(fin := false, trying := a.trying + 1)) else s
    case TryFinish => if a.trying == 0 then s else Finish(s).(asks := a.(trying := a.trying - 1))
    case PutWake =>
      if a.wakers == 0 then s
      else if s.lost || e.closed then s.(asks := a.(wakers := a.wakers - 1))
      else s.(asks := a.(wakers := a.wakers - 1, queued := true, poking := a.poking + 1))
    case Poke => if a.poking == 0 then s else s.(asks := a.(poking := a.poking - 1, wake := a.wake || !s.closing))
    case _ => s
  }

  function CloseDo(s: State, step: Step): State {
    var e, c := s.ends, s.closes;
    match step
    case Abort => s.(ends := Leave(e), closes := c.(resetting := c.resetting + 1))
    case ResetClose =>
      if c.resetting == 0 then s
      else if e.closed then s.(closes := c.(resetting := c.resetting - 1))
      else s.(ends := Close(e), closes := c.(resetting := c.resetting - 1, delivering := c.delivering + 1))
    case Deliver =>
      if c.delivering == 0 then s
      else if c.delivered then s.(closes := c.(delivering := c.delivering - 1))
      else s.(closes := c.(delivering := c.delivering - 1, delivered := true, queueing := c.queueing + 1))
    case QueueClose =>
      if c.queueing == 0 then s
      else if s.lost then s.(closes := c.(queueing := c.queueing - 1, queue := c.queue + 1, inPlace := c.inPlace + 1))
      else s.(closes := c.(queueing := c.queueing - 1, queue := c.queue + 1),
              asks := s.asks.(poking := s.asks.poking + 1))
    case DrainInPlace =>
      if c.inPlace == 0 then s
      else if c.queue > 0 then RunClose(s)
      else s.(closes := c.(inPlace := c.inPlace - 1))
    case _ => s
  }

  function TransportDo(s: State, step: Step): State {
    var e, c := s.ends, s.closes;
    match step
    case Begin =>
      if !s.stage.NoTurn? || s.closing then s else s.(stage := Parse, asks := s.asks.(wake := false))
    case Timer => if !s.stage.NoTurn? || s.closing then s else s.(stage := Timers)
    case Arrive(n, fin) =>
      if !s.stage.Parse? || !s.call.Rest? || !e.inTable then s
      else if e.closed then s.(call := Dispatching)
      else s.(ends := e.(unread := e.unread + n, peerFin := e.peerFin || fin), call := Dispatching)
    case Break => if s.stage.Parse? && s.call.Rest? then s.(stage := NoTurn, closing := true) else s
    case CloseTransport => s.(closing := true)
    case LoseTransport =>
      if !s.stage.NoTurn? || s.lost then s
      else s.(closing := true, lost := true, stage := Closing, ends := Leave(e),
              asks := s.asks.(fin := false, queued := false),
              closes := c.(resetting := if e.inTable then c.resetting + 1 else c.resetting))
    case _ => s
  }

  predicate OfConsumer(step: Step) { step.Consume? || step.Yield? || step.Pause? || step.Resume? || step.Waken? }

  predicate OfSender(step: Step) {
    step.CloseWrite? || step.Queue? || step.Take? || step.Flush? || step.TryFinish? || step.PutWake? || step.Poke?
  }

  predicate OfTransport(step: Step) {
    step.Begin? || step.Timer? || step.Arrive? || step.Break? || step.CloseTransport? || step.LoseTransport?
  }

  function Do(s: State, step: Step): State {
    if step.TurnGoes? then TurnDo(s, step.choice)
    else if OfConsumer(step) then ConsumerDo(s, step)
    else if OfSender(step) then SenderDo(s, step)
    else if OfTransport(step) then TransportDo(s, step)
    else CloseDo(s, step)
  }

  /** The state after a run of steps, taken in any order by anyone. */
  function Exec(s: State, steps: seq<Step>): State {
    if steps == [] then s else Do(Exec(s, steps[..|steps| - 1]), steps[|steps| - 1])
  }

  // --------------------------------------------------------- the invariants

  /** The turn holds the consumer's lifetime. */
  predicate InCallback(c: Call) {
    c.Running? || c.Failing? || c.FailReset? || c.FailDeliver? || c.FailQueue? || c.Ending?
  }

  predicate Unopened(c: Call) { c.Accepted? || c.Opening? }

  function OfFailing(c: Call, pc: Call): nat { if c == pc then 1 else 0 }

  /** The stream's ends, its table entry and the turn's call agree. */
  predicate EndsOk(e: Ends, c: Closes, call: Call) {
    && (e.active <==> InCallback(call))
    && (e.inTable ==> !e.closed && c.resetting == 0 && !call.FailReset?)
    && (e.finished ==> e.closed && !e.active && e.peerFin && e.localFin && e.finTaken && e.frames == 0 && e.unread == 0)
    && (e.closed ==> !e.inTable && e.unread == 0)
    && (e.finTaken ==> e.localFin && e.frames == 0)
  }

  /** One close on its way, from closedLocal to OnClose. */
  predicate OneClose(e: Ends, c: Closes, call: Call, onCloses: nat) {
    && onCloses + c.queue + c.queueing + OfFailing(call, FailQueue) == (if c.delivered then 1 else 0)
    && (c.delivered || c.delivering > 0 || call.FailDeliver? ==> e.closed)
    && (e.closed ==> c.delivered || c.delivering > 0 || call.FailDeliver?)
    && (!e.inTable && !e.closed ==> c.resetting > 0 || call.FailReset?)
  }

  /** ... and it is not forgotten. */
  predicate CloseMinded(s: State) {
    && (s.closes.queue > 0 ==>
          s.asks.wake || s.asks.poking > 0 || s.closes.inPlace > 0 || !s.stage.NoTurn? || (s.closing && !s.lost))
    && (s.closes.inPlace > 0 ==> s.lost)
    && (s.lost ==> s.closing && !s.ends.inTable && s.call.Rest? && (s.stage.Closing? || s.stage.NoTurn?))
    && (s.lost && s.closes.queue > 0 ==> s.closes.inPlace > 0 || s.stage.Closing?)
    && (!s.call.Rest? ==> !s.stage.NoTurn?)
    && (Unopened(s.call) ==> s.stage.Parse? && s.seen.onCloses == 0)
  }

  predicate SeenOk(s: State) {
    && s.seen.late == 0 && s.seen.overlaps == 0
    // a failed callback is not reported as a clean end
    && (s.seen.failed ==> !s.ends.finished && (s.ends.closed || InCallback(s.call) || s.closes.resetting > 0)
                          && (s.ends.inTable ==> s.call.Failing?))
  }

  /** A read turn of the stream is on its way. */
  predicate WakeComing(a: Asks) { a.wakers > 0 || a.queued }

  /** A turn the consumer is owed, by a released pause or a continuation, is on its way. */
  predicate DebtMinded(s: State) {
    !s.closing ==>
      && (!s.ends.closed && !s.ends.paused && (s.ends.yieldOwed || s.ends.resumeOwed) ==>
            WakeComing(s.asks) || s.call.Dispatching? || s.call == Calling(true))
      && (s.asks.queued ==> s.asks.poking > 0 || s.asks.wake || s.stage.Parse? || s.stage.Wakes?)
  }

  /** Both directions ended, everything was sent and read, and nobody paused the stream: nothing but a turn
      its consumer is owed, or is in, stands between it and its finish. */
  predicate Ready(e: Ends) {
    e.inTable && !e.closed && e.peerFin && e.localFin && e.finTaken && e.frames == 0 && e.unread == 0 && !e.paused
  }

  /** Somebody will try to finish the stream. */
  predicate WillTry(a: Asks, call: Call) {
    a.trying > 0 || a.fin || WakeComing(a) || !(call.Rest? || Unopened(call))
  }

  predicate FinishMinded(s: State) { Ready(s.ends) && !s.closing ==> WillTry(s.asks, s.call) }

  predicate Inv(s: State) {
    && EndsOk(s.ends, s.closes, s.call) && OneClose(s.ends, s.closes, s.call, s.seen.onCloses)
    && CloseMinded(s) && SeenOk(s) && DebtMinded(s) && FinishMinded(s)
  }

  // -------------------------------------------------------------- the argument

  lemma StageKeeps(s: State, due: bool)
    requires Inv(s) && s.call.Rest?
    ensures Inv(StageDo(s, due))
  {
    match s.stage
    case NoTurn =>
    case Parse =>
    case Wakes => WakesKeeps(s, due);
    case Timers =>
    case Closing => ClosingKeeps(s, due);
  }

  lemma WakesKeeps(s: State, due: bool)
    requires Inv(s) && s.call.Rest? && s.stage.Wakes?
    ensures Inv(StageDo(s, due))
  {
  }

  lemma ClosingKeeps(s: State, due: bool)
    requires Inv(s) && s.call.Rest? && s.stage.Closing?
    ensures Inv(StageDo(s, due))
  {
  }

  lemma DispatchKeeps(s: State, choice: bool)
    requires Inv(s) && (Unopened(s.call) || s.call.Dispatching? || s.call.Calling?)
    ensures Inv(TurnDo(s, choice))
  {
    match s.call
    case Accepted =>
    case Opening =>
    case Dispatching =>
    case Calling(_) =>
  }

  lemma FailKeeps(s: State, fails: bool)
    requires Inv(s) && (s.call.Failing? || s.call.FailReset? || s.call.FailDeliver? || s.call.FailQueue?)
    ensures Inv(CallDo(s, fails))
  {
    match s.call
    case Failing =>
    case FailReset =>
    case FailDeliver =>
    case FailQueue =>
  }

  lemma SettleKeeps(s: State, fails: bool)
    requires Inv(s) && (s.call.Running? || s.call.Ending? || s.call.Settling?)
    ensures Inv(CallDo(s, fails))
  {
    match s.call
    case Running =>
    case Ending =>
    case Settling =>
  }

  lemma TurnKeeps(s: State, choice: bool)
    requires Inv(s)
    ensures Inv(TurnDo(s, choice))
  {
    match s.call
    case Rest => StageKeeps(s, choice);
    case Accepted => DispatchKeeps(s, choice);
    case Opening => DispatchKeeps(s, choice);
    case Dispatching => DispatchKeeps(s, choice);
    case Calling(_) => DispatchKeeps(s, choice);
    case Running => SettleKeeps(s, choice);
    case Ending => SettleKeeps(s, choice);
    case Settling => SettleKeeps(s, choice);
    case _ => FailKeeps(s, choice);
  }

  lemma ConsumerKeeps(s: State, step: Step)
    requires Inv(s) && OfConsumer(step)
    ensures Inv(ConsumerDo(s, step))
  {
    match step
    case Consume(_) =>
    case Yield =>
    case Pause =>
    case Resume =>
    case Waken =>
  }

  lemma SendKeeps(s: State, step: Step)
    requires Inv(s) && (step.CloseWrite? || step.Queue? || step.Take?)
    ensures Inv(SenderDo(s, step))
  {
    match step
    case CloseWrite =>
    case Queue(_) =>
    case Take(_) =>
  }

  lemma AskKeeps(s: State, step: Step)
    requires Inv(s) && (step.Flush? || step.TryFinish? || step.PutWake? || step.Poke?)
    ensures Inv(SenderDo(s, step))
  {
  }

  lemma AbortKeeps(s: State, step: Step)
    requires Inv(s) && (step.Abort? || step.ResetClose?)
    ensures Inv(CloseDo(s, step))
  {
  }

  lemma DeliverKeeps(s: State, step: Step)
    requires Inv(s) && (step.Deliver? || step.QueueClose? || step.DrainInPlace?)
    ensures Inv(CloseDo(s, step))
  {
  }

  lemma TransportKeeps(s: State, step: Step)
    requires Inv(s)
    ensures Inv(TransportDo(s, step))
  {
  }

  lemma StepKeeps(s: State, step: Step)
    requires Inv(s)
    ensures Inv(Do(s, step))
  {
    if step.TurnGoes? {
      TurnKeeps(s, step.choice);
    } else if OfConsumer(step) {
      ConsumerKeeps(s, step);
    } else if OfSender(step) {
      if step.CloseWrite? || step.Queue? || step.Take? { SendKeeps(s, step); } else { AskKeeps(s, step); }
    } else if OfTransport(step) {
      TransportKeeps(s, step);
    } else if step.Abort? || step.ResetClose? {
      AbortKeeps(s, step);
    } else {
      DeliverKeeps(s, step);
    }
  }

  lemma FreshEnds(e: Ends, c: Closes, call: Call)
    requires e.inTable && !e.closed && !e.finished && !e.finTaken && !e.active && (call.Rest? || call.Accepted?)
    requires !c.delivered && c.resetting == 0 && c.delivering == 0 && c.queueing == 0 && c.queue == 0
    ensures EndsOk(e, c, call) && OneClose(e, c, call, 0)
  {
    assert !InCallback(call) && OfFailing(call, FailQueue) == 0;
  }

  lemma FreshMinded(s: State)
    requires Init(s)
    ensures CloseMinded(s)
  {
    assert s.closes.queue == 0 && s.closes.inPlace == 0 && !s.lost;
    assert !s.call.Rest? ==> s.stage.Parse?;
    assert Unopened(s.call) ==> s.stage.Parse?;
    assert s.seen.onCloses == 0;
  }

  lemma FreshSeen(s: State)
    requires Init(s)
    ensures SeenOk(s) && DebtMinded(s) && FinishMinded(s)
  {
    assert !Ready(s.ends);
  }

  lemma InitKeeps(s: State)
    requires Init(s)
    ensures Inv(s)
  {
    FreshEnds(s.ends, s.closes, s.call);
    FreshMinded(s);
    FreshSeen(s);
  }

  lemma {:induction false} Reachable(s: State, steps: seq<Step>)
    requires Init(s)
    ensures Inv(Exec(s, steps))
  {
    if steps == [] {
      InitKeeps(s);
    } else {
      Reachable(s, steps[..|steps| - 1]);
      StepKeeps(Exec(s, steps[..|steps| - 1]), steps[|steps| - 1]);
      assert Exec(s, steps) == Do(Exec(s, steps[..|steps| - 1]), steps[|steps| - 1]);
    }
  }

  // ----------------------------------------------------------- what is proved

  /** In every run OnClose is called at most once, no OnOpen, OnRead or OnTimer begins after it and none
      runs beside it. */
  lemma {:induction false} CloseIsLast(s: State, steps: seq<Step>)
    requires Init(s)
    ensures var u := Exec(s, steps).seen; u.onCloses <= 1 && u.late == 0 && u.overlaps == 0
  {
    Reachable(s, steps);
  }

  /** In every run a stream that finished cleanly has both FINs, its own accepted by the transport, nothing
      queued or unread and no callback, and a callback that failed on a live stream is never reported as
      a clean end. */
  lemma {:induction false} FinishedMeans(s: State, steps: seq<Step>)
    requires Init(s)
    ensures var u := Exec(s, steps);
            && (u.ends.finished ==> u.ends.peerFin && u.ends.localFin && u.ends.finTaken && u.ends.frames == 0
                                    && u.ends.unread == 0 && !u.ends.active)
            && (u.seen.failed ==> !u.ends.finished)
  {
    Reachable(s, steps);
  }

  /** In every run, until the transport closes, a stream whose directions both ended, that sent and was read
      everything and is not paused has somebody who will try to finish it: a caller about to, the flush
      that takes its finFlushed entry, a read turn on its way, or the turn that is with it now. */
  lemma {:induction false} FinishComes(s: State, steps: seq<Step>)
    requires Init(s)
    ensures var u := Exec(s, steps); Ready(u.ends) && !u.closing ==> WillTry(u.asks, u.call)
  {
    Reachable(s, steps);
  }

  /** Nobody has an operation left to do for the stream. */
  predicate Quiet(u: State) {
    && u.stage.NoTurn? && (u.closing ==> u.lost) && u.asks == Asks(0, false, 0, false, 0, false)
    && u.closes.resetting + u.closes.delivering + u.closes.queueing + u.closes.inPlace == 0
  }

  lemma QuietMeans(u: State)
    requires Inv(u) && Quiet(u)
    ensures !Ready(u.ends) && (!u.ends.inTable ==> u.ends.closed && u.seen.onCloses == 1)
  {
    assert u.call.Rest? && u.closes.queue == 0;
  }

  /** Once everything has come to rest, a stream whose directions both ended and were read out, and that is
      not paused, has finished, and a stream that was closed or left the table has had its OnClose. */
  lemma {:induction false} CloseIsDelivered(s: State, steps: seq<Step>)
    requires Init(s)
    ensures var u := Exec(s, steps);
            Quiet(u) ==> !Ready(u.ends) && (!u.ends.inTable ==> u.ends.closed && u.seen.onCloses == 1)
  {
    Reachable(s, steps);
    if Quiet(Exec(s, steps)) { QuietMeans(Exec(s, steps)); }
  }

  /** The consumer paused its reads, or is owed a turn by a released pause or a continuation it asked for. */
  predicate Owes(e: Ends) { e.paused || e.resumeOwed || e.yieldOwed }

  /** A step that begins no OnRead leaves a debt to the consumer standing and does not finish the stream. */
  predicate Waits(u: State, t: State) {
    && u.seen.begun <= t.seen.begun
    && (t.seen.begun == u.seen.begun && Owes(u.ends) ==> Owes(t.ends) && (t.ends.finished ==> u.ends.finished))
  }

  lemma TurnWaits(u: State, choice: bool)
    ensures Waits(u, TurnDo(u, choice))
  {
    match u.call
    case Rest => assert StageDo(u, choice).ends == u.ends && StageDo(u, choice).seen.begun == u.seen.begun;
    case Calling(_) =>
    case Settling =>
    case _ =>
  }

  lemma CloseWaits(u: State, step: Step)
    ensures Waits(u, CloseDo(u, step))
  {
  }

  lemma ConsumerWaits(u: State, step: Step)
    ensures Waits(u, ConsumerDo(u, step))
  {
  }

  lemma SenderWaits(u: State, step: Step)
    ensures Waits(u, SenderDo(u, step))
  {
    match step
    case CloseWrite =>
    case Queue(_) =>
    case Take(_) =>
    case Flush =>
    case TryFinish => TryWaits(u);
    case PutWake =>
    case Poke =>
    case _ =>
  }

  lemma TryWaits(u: State)
    ensures Waits(u, SenderDo(u, TryFinish))
  {
    FinishOwes(u);
  }

  lemma FinishOwes(u: State)
    ensures Owes(u.ends) ==> Finish(u) == u
  {
  }

  lemma TransportWaits(u: State, step: Step)
    ensures Waits(u, TransportDo(u, step))
  {
  }

  lemma StepWaits(u: State, step: Step)
    ensures Waits(u, Do(u, step))
  {
    if step.TurnGoes? {
      TurnWaits(u, step.choice);
    } else if OfConsumer(step) {
      ConsumerWaits(u, step);
    } else if OfSender(step) {
      SenderWaits(u, step);
    } else if OfTransport(step) {
      TransportWaits(u, step);
    } else {
      CloseWaits(u, step);
    }
  }

  lemma {:induction false} RunWaits(s: State, steps: seq<Step>, k: nat)
    requires k <= |steps|
    ensures Waits(Exec(s, steps[..k]), Exec(s, steps))
  {
    if k == |steps| {
      assert steps[..k] == steps;
    } else {
      var front := steps[..|steps| - 1];
      assert front[..k] == steps[..k];
      RunWaits(s, front, k);
      StepWaits(Exec(s, front), steps[|steps| - 1]);
    }
  }

  /** Over any stretch of any run: a stream whose consumer paused its reads, released a pause or asked for a
      continuation does not finish cleanly until another OnRead has begun. */
  lemma {:induction false} FinishWaits(s: State, steps: seq<Step>, k: nat)
    requires k <= |steps|
    ensures var u, t := Exec(s, steps[..k]), Exec(s, steps);
            (u.ends.paused || u.ends.resumeOwed || u.ends.yieldOwed) && !u.ends.finished && t.ends.finished
            ==> t.seen.begun > u.seen.begun
  {
    RunWaits(s, steps, k);
  }
}
