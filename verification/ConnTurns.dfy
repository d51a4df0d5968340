/** One native connection's turns and its close: the word that folds events and claims the single turn,
    the counted reservation each turn holds, the close phases with a graceful close's drain, the write
    claim a release needs, and the loop's shutdown pass.

    Every atomic operation is a step of its own.  Goroutines that differ in nothing but their next
    operation are counted; turns that own the scheduled bit are listed, so that there is at most one of
    them is proved and not built in. */
module ConnTurns {

  // ------------------------------------------------------------------- state

  datatype Event = Read | Write | Hangup | Open | Wake | Resume | ShutWrite | Close | Teardown

  const OPEN := 0
  const DRAINING := 1
  const REQUESTED := 2
  const RELEASED := 3
  const DELIVERED := 4

  /** taskState: the folded events and taskScheduledBit. */
  datatype Word = Word(events: set<Event>, sched: bool)

  /** The loop: turns counted, the stopping flag, and ioStop. */
  datatype Loop = Loop(count: int, stopping: bool, stopped: bool)

  /** The close phase, the output accepted and not sent, and what has been done to the connection so far. */
  datatype Life = Life(
    phase: nat,
    pending: nat,
    wants: bool,             // the user has an OnClose
    releases: nat, fdCloses: nat, onCloses: nat,
    late: nat)               // sends after the descriptor closed

  /** The write claim: its flags, and the goroutines that hold it or have just given it up. */
  datatype Claim = Claim(
    owned: bool,             // writeOwnerFlag
    closeWait: bool,         // writeCloseWaitFlag
    turn: nat,               // the connection's turn, for a send of its own
    closer: nat,             // a teardown, for good
    taken: nat,              // kickWriter with the claim, about to count a write turn
    counting: nat,           // ... counted, about to look at ioStop
    refused: nat,            // ... refused, about to release
    writing: nat,            // a write turn
    ending: nat,             // a write turn that released and still has its count
    waited: nat,             // released with closeWait set, about to clear it and schedule the teardown
    looks: nat,              // released, about to look whether a graceful close is draining
    checks: nat)             // ... it is, about to look at pending

  /** Goroutines in noteIO and finishIOTask that do not own the scheduled bit, by their next operation. */
  datatype Notes = Notes(
    route: nat,              // scheduleTeardown, about to look at stopping and the phase
    foldT: nat,              // ... about to fold the teardown request
    fold: nat,               // about to fold other events
    look: nat,               // folded, about to look at the scheduled bit
    reserve: nat,            // found it clear, about to count
    counted: nat,            // counted, about to look at ioStop
    claim: nat,              // admitted, about to set the scheduled bit
    left: nat,               // a finished turn that gave the bit up with events left
    reclaim: nat,            // ... about to set it again
    drop: nat,               // about to uncount
    asks: nat,               // CloseGracefully, about to look at pending
    ends: nat)               // escalateDrain, about to end the drain

  /** A turn that owns the scheduled bit: claimed, queued, running or finishing. */
  datatype Pc =
    | Submitting | Queued
    | Body(closing: bool)    // running, with or without ioEventClose among its events
    | Settle | Empty | End   // its epilogue looks for a drain, at its queue, and ends it
    | Check                  // ... and looks at the phase
    | ClearRequest | Try | Asked | Mark | Retry | Unmark | Release | Flush | FdClose | Deliver
    | Finish | Resubmit | Give

  /** The loop's shutdown pass over this connection. */
  datatype Pass = Off | Marking | Stopping | Waiting | Claiming | Releasing | Flushing | FdClosing
                | Publishing | Noting | Scheduling | Counting | Done

  datatype State = State(word: Word, loop: Loop, life: Life, claim: Claim, notes: Notes, owners: seq<Pc>, pass: Pass)

  /** An accepted connection: its open event is stored and its first turn is about to be claimed. */
  ghost predicate Init(s: State) {
    && s.word == Word({Open}, false)
    && s.loop == Loop(0, false, false)
    && s.life == Life(OPEN, 0, s.life.wants, 0, 0, 0, 0)
    && s.claim == Claim(false, false, 0, 0, 0, 0, 0, 0, 0, 0, 0, 0)
    && s.notes == Notes(0, 0, 0, 1, 0, 0, 0, 0, 0, 0, 0, 0)
    && s.owners == [] && s.pass == Off
  }

  // ------------------------------------------------------------------- steps

  datatype Step =
    | Note | Route | FoldTeardown | Fold(events: set<Event>) | Look | Reserve | Admit | ClaimTask
    | Left | Reclaim | Drop
    | Turn(i: nat) | TurnNotes(i: nat, event: Event) | TurnCloses(i: nat) | TurnDrains(i: nat)
    | TurnClaims(i: nat) | TurnSends(i: nat, n: nat) | TurnReleases(i: nat)
    | Kick | KickCount | KickAdmit | KickRelease | WriteSend(n: nat) | WriteEnd | WriteAgain(go: bool) | Waited
    | ReleaseLooks | ReleaseChecks
    | Accept(n: nat) | Drain | DrainAsks | Linger | EndDrain | CloseOutside | StopLoop | ShutdownPass

  /** noteIO, by anyone, after its checks; and finishIOTask after the scheduled bit is given up. */
  function NoteDo(s: State, step: Step): State {
    var n := s.notes;
    match step
    case Note =>
      if !s.loop.stopping && s.life.phase < REQUESTED then s.(notes := n.(fold := n.fold + 1)) else s
    case Route =>
      if n.route == 0 then s
      else if s.loop.stopping || s.life.phase >= RELEASED then s.(notes := n.(route := n.route - 1))
      else s.(notes := n.(route := n.route - 1, foldT := n.foldT + 1))
    case FoldTeardown =>
      if n.foldT == 0 then s
      else s.(word := s.word.(events := s.word.events + {Teardown}),
              notes := n.(foldT := n.foldT - 1, look := n.look + 1))
    case Fold(events) =>
      if n.fold == 0 || Teardown in events || Close in events || Open in events then s
      else s.(word := s.word.(events := s.word.events + events), notes := n.(fold := n.fold - 1, look := n.look + 1))
    case Look =>
      if n.look == 0 then s
      else if s.word.sched then s.(notes := n.(look := n.look - 1))
      else s.(notes := n.(look := n.look - 1, reserve := n.reserve + 1))
    case Reserve =>
      if n.reserve == 0 then s
      else s.(loop := s.loop.(count := s.loop.count + 1),
              notes := n.(reserve := n.reserve - 1, counted := n.counted + 1))
    case Admit =>
      if n.counted == 0 then s
      else if s.loop.stopped then s.(notes := n.(counted := n.counted - 1, drop := n.drop + 1))
      else s.(notes := n.(counted := n.counted - 1, claim := n.claim + 1))
    case ClaimTask =>
      if n.claim == 0 then s
      else if s.word.sched then s.(notes := n.(claim := n.claim - 1, drop := n.drop + 1))
      else s.(word := s.word.(sched := true), notes := n.(claim := n.claim - 1), owners := s.owners + [Submitting])
    case Left =>
      if n.left == 0 then s
      else if s.loop.stopped || s.life.phase == DELIVERED then s.(notes := n.(left := n.left - 1, drop := n.drop + 1))
      else s.(notes := n.(left := n.left - 1, reclaim := n.reclaim + 1))
    case Reclaim =>
      if n.reclaim == 0 then s
      else if s.word.sched then s.(notes := n.(reclaim := n.reclaim - 1, drop := n.drop + 1))
      else s.(word := s.word.(sched := true), notes := n.(reclaim := n.reclaim - 1), owners := s.owners + [Submitting])
    case Drop =>
      if n.drop == 0 then s
      else s.(loop := s.loop.(count := s.loop.count - 1), notes := n.(drop := n.drop - 1))
    case _ => s
  }

  function At(s: State, i: nat, pc: Pc): State
    requires i < |s.owners|
  {
    s.(owners := s.owners[i := pc])
  }

  predicate Due(s: State) { s.life.wants && Open !in s.word.events }

  /** The CAS from released to delivered, and the callback when it is due. */
  function Fire(l: Life, due: bool): Life {
    if l.phase != RELEASED then l
    else l.(phase := DELIVERED, onCloses := if due then l.onCloses + 1 else l.onCloses)
  }

  /** The CAS from draining to requested. */
  function Escalate(l: Life): Life { if l.phase == DRAINING then l.(phase := REQUESTED) else l }

  /** The next operation of turn `i`, up to and with its teardown's claim. */
  function TurnDo(s: State, i: nat): State
    requires i < |s.owners|
  {
    match s.owners[i]
    case Submitting => At(s, i, Queued)
    case Queued => At(s, i, Body(Close in s.word.events)).(word := s.word.(events := {}))
    case Body(closing) =>
      if closing then At(s, i, Settle).(life := Fire(s.life, true))
      else if s.claim.turn > 0 then s              // the epilogue has given every claim back
      else At(s, i, Settle)
    case Settle => At(s, i, if s.life.phase == DRAINING then Empty else Check)
    case Empty => At(s, i, if s.life.pending == 0 then End else Check)
    case End => At(s, i, Check).(life := Escalate(s.life))
    case Check =>
      if REQUESTED == s.life.phase && !s.loop.stopping then At(s, i, ClearRequest) else At(s, i, Finish)
    case ClearRequest => At(s, i, Try).(word := s.word.(events := s.word.events - {Teardown}))
    case Try =>
      if s.claim.owned then At(s, i, Asked)
      else At(s, i, Release).(claim := s.claim.(owned := true, closer := s.claim.closer + 1))
    case Asked => At(s, i, if s.loop.stopped then Try else Mark)
    case Mark => At(s, i, Retry).(claim := s.claim.(closeWait := true))
    case Retry =>
      if s.claim.owned then At(s, i, Finish)
      else At(s, i, Unmark).(claim := s.claim.(owned := true, closer := s.claim.closer + 1))
    case _ => TurnEnds(s, i)
  }

  /** ... from there to the end of the turn. */
  function TurnEnds(s: State, i: nat): State
    requires i < |s.owners|
  {
    match s.owners[i]
    case Unmark => At(s, i, Release).(claim := s.claim.(closeWait := false))
    case Release =>
      if s.life.phase >= RELEASED then At(s, i, Finish)
      else At(s, i, Flush).(life := s.life.(phase := RELEASED, releases := s.life.releases + 1))
    case Flush => At(s, i, FdClose).(life := Sends(s.life, 0))
    case FdClose => At(s, i, Deliver).(life := s.life.(pending := 0, fdCloses := s.life.fdCloses + 1))
    case Deliver => At(s, i, Finish).(life := Fire(s.life, Due(s)))
    case Finish => At(s, i, if s.word.events != {} then Resubmit else Give)
    case Resubmit => At(s, i, if s.loop.stopped || s.life.phase == DELIVERED then Give else Submitting)
    case Give =>
      s.(word := s.word.(sched := false), owners := s.owners[..i] + s.owners[i + 1..],
         notes := if s.word.events != {} then s.notes.(left := s.notes.left + 1)
                  else s.notes.(drop := s.notes.drop + 1))
    case _ => s
  }

  /** A send by a holder of the claim: the socket takes some of what is pending. */
  function Sends(l: Life, n: nat): Life {
    l.(pending := if n <= l.pending then l.pending - n else 0, late := if l.fdCloses > 0 then l.late + 1 else l.late)
  }

  /** Gives the claim up; a close that asked is handed back, and the releaser looks for a drain it ended. */
  function GiveClaim(c: Claim): Claim {
    c.(owned := false, waited := if c.closeWait then c.waited + 1 else c.waited, looks := c.looks + 1)
  }

  /** What the callbacks of turn `i` do. */
  function BodyDo(s: State, i: nat, step: Step): State
    requires i < |s.owners|
  {
    var c := s.claim;
    if s.owners[i] != Body(false) then s
    else match step
      case TurnNotes(_, event) =>
        if event == Teardown || event == Close || event == Open then s
        else s.(word := s.word.(events := s.word.events + {event}))
      case TurnCloses(_) => if s.life.phase < REQUESTED then s.(life := s.life.(phase := REQUESTED)) else s
      case TurnDrains(_) => if s.life.phase == OPEN then s.(life := s.life.(phase := DRAINING)) else s
      case TurnClaims(_) => if c.owned then s else s.(claim := c.(owned := true, turn := c.turn + 1))
      case TurnSends(_, n) => if c.turn == 0 then s else s.(life := Sends(s.life, n))
      case TurnReleases(_) => if c.turn == 0 then s else s.(claim := GiveClaim(c).(turn := c.turn - 1))
      case _ => s
  }

  /** kickWriter and the write turns; and what a release does for a close that asked. */
  function WriteDo(s: State, step: Step): State {
    var c := s.claim;
    match step
    case Kick => if c.owned then s else s.(claim := c.(owned := true, taken := c.taken + 1))
    case KickCount =>
      if c.taken == 0 then s
      else s.(loop := s.loop.(count := s.loop.count + 1), claim := c.(taken := c.taken - 1, counting := c.counting + 1))
    case KickAdmit =>
      if c.counting == 0 then s
      else if s.loop.stopped then
        s.(claim := c.(counting := c.counting - 1, refused := c.refused + 1),
           notes := s.notes.(drop := s.notes.drop + 1))
      else s.(claim := c.(counting := c.counting - 1, writing := c.writing + 1))
    case KickRelease => if c.refused == 0 then s else s.(claim := GiveClaim(c).(refused := c.refused - 1))
    case WriteSend(n) => if c.writing == 0 then s else s.(life := Sends(s.life, n))
    case WriteEnd =>
      if c.writing == 0 then s
      else s.(claim := GiveClaim(c).(writing := c.writing - 1, ending := c.ending + 1))
    case WriteAgain(go) =>
      if c.ending == 0 then s
      else if go && !c.owned then s.(claim := c.(owned := true, ending := c.ending - 1, writing := c.writing + 1))
      else s.(claim := c.(ending := c.ending - 1), notes := s.notes.(drop := s.notes.drop + 1))
    case Waited =>
      if c.waited == 0 then s
      else s.(claim := c.(closeWait := false, waited := c.waited - 1), notes := s.notes.(route := s.notes.route + 1))
    case ReleaseLooks =>
      if c.looks == 0 then s
      else s.(claim := c.(looks := c.looks - 1, checks := if s.life.phase == DRAINING then c.checks + 1 else c.checks))
    case ReleaseChecks =>
      if c.checks == 0 then s
      else s.(claim := c.(checks := c.checks - 1),
              notes := if s.life.pending == 0 then s.notes.(route := s.notes.route + 1) else s.notes)
    case _ => s
  }

  /** What outsiders and the loop's owner do to the output, the phase and the stop flags.  A writer may
      have looked at the phase long before, so output is accepted in any of them. */
  function OutsideDo(s: State, step: Step): State {
    var n := s.notes;
    match step
    case Accept(size) => s.(life := s.life.(pending := s.life.pending + size))
    case Drain =>
      if s.life.phase == OPEN then s.(life := s.life.(phase := DRAINING), notes := n.(asks := n.asks + 1)) else s
    case DrainAsks =>
      if n.asks == 0 then s
      else s.(notes := n.(asks := n.asks - 1, ends := if s.life.pending == 0 then n.ends + 1 else n.ends))
    case Linger => if s.life.phase == DRAINING then s.(notes := n.(ends := n.ends + 1)) else s
    case EndDrain =>
      if n.ends == 0 then s
      else s.(life := Escalate(s.life),
              notes := n.(ends := n.ends - 1, route := if s.life.phase == DRAINING then n.route + 1 else n.route))
    case CloseOutside =>
      if s.life.phase < REQUESTED then
        s.(life := s.life.(phase := REQUESTED), notes := n.(route := n.route + 1))
      else s
    case StopLoop => if s.pass.Off? then s.(loop := s.loop.(stopping := true), pass := Marking) else s
    case _ => s
  }

  /** Turns and write turns that acquireIO admitted and that have not been uncounted. */
  function Admitted(s: State): nat {
    |s.owners| + s.notes.claim + s.notes.left + s.notes.reclaim + s.claim.writing + s.claim.ending
  }

  /** The shutdown pass: it marks the connection closing, stops admission, waits for the admitted turns
      (the barrier of module TurnBarrier), releases the connection and leaves OnClose to a last turn. */
  function PassDo(s: State): State {
    match s.pass
    case Marking =>
      s.(life := if s.life.phase < REQUESTED then s.life.(phase := REQUESTED) else s.life, pass := Stopping)
    case Stopping => s.(loop := s.loop.(stopped := true), pass := Waiting)
    case Waiting =>
      if Admitted(s) > 0 then s else s.(pass := if s.life.phase >= RELEASED then Done else Claiming)
    case Claiming =>
      if s.claim.owned then s
      else s.(claim := s.claim.(owned := true, closer := s.claim.closer + 1), pass := Releasing)
    case Releasing =>
      if s.life.phase >= RELEASED then s.(pass := Done)
      else s.(life := s.life.(phase := RELEASED, releases := s.life.releases + 1), pass := Flushing)
    case Flushing => s.(life := Sends(s.life, 0), pass := FdClosing)
    case FdClosing => s.(life := s.life.(pending := 0, fdCloses := s.life.fdCloses + 1), pass := Publishing)
    case Publishing => if Due(s) then s.(pass := Noting) else s.(life := Fire(s.life, false), pass := Done)
    case Noting => s.(word := s.word.(events := s.word.events + {Close}), pass := Scheduling)
    case Scheduling =>
      if s.word.sched then s.(pass := Done) else s.(word := s.word.(sched := true), pass := Counting)
    case Counting =>
      s.(loop := s.loop.(count := s.loop.count + 1), owners := s.owners + [Submitting], pass := Done)
    case _ => s
  }

  predicate OfTurn(step: Step) {
    step.TurnNotes? || step.TurnCloses? || step.TurnDrains? || step.TurnClaims? || step.TurnSends?
    || step.TurnReleases?
  }

  predicate OfWriter(step: Step) {
    step.Kick? || step.KickCount? || step.KickAdmit? || step.KickRelease? || step.WriteSend? || step.WriteEnd?
    || step.WriteAgain? || step.Waited? || step.ReleaseLooks? || step.ReleaseChecks?
  }

  predicate OfOutside(step: Step) {
    step.Accept? || step.Drain? || step.DrainAsks? || step.Linger? || step.EndDrain? || step.CloseOutside?
    || step.StopLoop?
  }

  function Do(s: State, step: Step): State {
    if step.Turn? then (if step.i < |s.owners| then TurnDo(s, step.i) else s)
    else if OfTurn(step) then (if step.i < |s.owners| then BodyDo(s, step.i, step) else s)
    else if OfWriter(step) then WriteDo(s, step)
    else if OfOutside(step) then OutsideDo(s, step)
    else if step.ShutdownPass? then PassDo(s)
    else NoteDo(s, step)
  }

  /** The state after a run of steps, taken in any order by anyone. */
  function Exec(s: State, steps: seq<Step>): State {
    if steps == [] then s else Do(Exec(s, steps[..|steps| - 1]), steps[|steps| - 1])
  }

  // --------------------------------------------------------- the invariants

  /** The scheduled bit is set exactly while one turn owns it. */
  predicate Single(w: Word, owners: seq<Pc>, pass: Pass) {
    |owners| + (if pass.Counting? then 1 else 0) == if w.sched then 1 else 0
  }

  /** Every admitted turn and every acquireIO under way is counted once. */
  predicate Counted(l: Loop, owners: seq<Pc>, c: Claim, n: Notes) {
    l.count == |owners| + n.counted + n.claim + n.left + n.reclaim + n.drop + c.counting + c.writing + c.ending
  }

  predicate Exclusive(c: Claim) {
    c.turn + c.closer + c.taken + c.counting + c.refused + c.writing == if c.owned then 1 else 0
  }

  /** The turn, or the pass, that has the claim for a release it has not made. */
  predicate Releaser(pc: Pc) { pc.Unmark? || pc.Release? }

  /** ... and that has released and not closed the descriptor. */
  predicate FdOpen(pc: Pc) { pc.Flush? || pc.FdClose? }

  predicate PassFdOpen(p: Pass) { p.Flushing? || p.FdClosing? }

  predicate PassEnds(p: Pass) { p.Publishing? || p.Noting? || p.Scheduling? || p.Counting? }

  /** The turn that will run OnClose, or has begun to. */
  predicate Closer(pc: Pc, events: set<Event>) {
    pc == Body(true) || ((pc.Submitting? || pc.Queued?) && Close in events)
  }

  /** A turn inside closeInTurn that has not made the release. */
  predicate Tearing(pc: Pc) {
    pc.ClearRequest? || pc.Try? || pc.Asked? || pc.Mark? || pc.Retry? || Releaser(pc)
  }

  ghost predicate OwnerFits(s: State, pc: Pc) {
    && (Tearing(pc) ==> s.life.phase == REQUESTED)
    && (Releaser(pc) ==> s.claim.closer == 1)
    && (FdOpen(pc) ==> s.life.phase == RELEASED && s.life.fdCloses == 0)
    && (pc.Deliver? ==> s.life.phase == RELEASED && s.life.fdCloses == 1)
    && (pc == Body(true) ==> s.life.phase >= RELEASED && s.life.wants)
    && (Open in s.word.events ==> pc.Submitting? || pc.Queued?)
    && (s.claim.turn > 0 ==> pc == Body(false))
  }

  /** Release, descriptor and OnClose each happen once, in this order. */
  ghost predicate Lived(s: State) {
    var l := s.life;
    && l.phase <= DELIVERED
    && l.releases == (if l.phase >= RELEASED then 1 else 0)
    && (l.phase >= RELEASED ==> s.claim.closer == 1)
    && (s.claim.closer > 0 && l.phase < RELEASED ==> s.pass.Releasing? || (s.owners != [] && Releaser(s.owners[0])))
    && l.fdCloses <= l.releases
    && (l.phase >= RELEASED && l.fdCloses == 0 ==> PassFdOpen(s.pass) || (s.owners != [] && FdOpen(s.owners[0])))
    && (l.phase == DELIVERED ==> l.fdCloses == 1)
    && l.onCloses <= 1 && (l.onCloses == 1 ==> l.phase == DELIVERED)
    && l.late == 0
    && (s.claim.turn > 0 ==> s.owners != [])
    && (s.owners != [] ==> OwnerFits(s, s.owners[0]))
  }

  /** What the pass knows at each point. */
  ghost predicate Passed(s: State) {
    var p := s.pass;
    && (p.Off? <==> !s.loop.stopping)
    && (s.loop.stopped <==> !p.Off? && !p.Marking? && !p.Stopping?)
    && (!p.Off? && !p.Marking? ==> s.life.phase >= REQUESTED)
    && (s.loop.stopped && !p.Waiting? && !p.Done? ==> Admitted(s) == 0)
    && (p.Claiming? ==> s.life.phase == REQUESTED)
    && (p.Releasing? ==> s.life.phase == REQUESTED && s.claim.closer == 1)
    && (PassFdOpen(p) ==> s.life.phase == RELEASED && s.life.fdCloses == 0)
    && (PassEnds(p) ==> s.life.phase == RELEASED && s.life.fdCloses == 1)
    && (p.Scheduling? || p.Counting? ==> Close in s.word.events)
    && (p.Done? ==> s.life.phase >= RELEASED)
    && (Close in s.word.events ==> p.Scheduling? || p.Counting? || p.Done?)
    && (Close in s.word.events || p.Noting? ==> Due(s))
    && (Open in s.word.events && s.life.phase >= RELEASED ==> s.loop.stopped && Admitted(s) == 0)
  }

  /** Somebody is about to set the scheduled bit for the folded events. */
  predicate WillClaim(n: Notes) { n.look + n.reserve + n.counted + n.claim + n.left + n.reclaim > 0 }

  predicate Unclaimed(w: Word, l: Loop, phase: nat) {
    w.events != {} && !w.sched && !l.stopped && phase != DELIVERED
  }

  /** A turn that will still find the connection closing and release it, or is doing so. */
  predicate WillTear(pc: Pc) { WillSettle(pc) || pc.Check? || Tearing(pc) }

  /** A turn that will still look for a drain whose queue is empty. */
  predicate WillSettle(pc: Pc) {
    pc.Submitting? || pc.Queued? || pc.Body? || pc.Settle? || pc.Empty? || pc.End?
  }

  /** A request to release the connection is under way to a turn. */
  predicate Asking(w: Word, c: Claim, n: Notes) {
    n.route > 0 || n.foldT > 0 || Teardown in w.events || c.waited > 0
  }

  /** A requested close has somebody who will carry it out. */
  predicate Handled(w: Word, c: Claim, n: Notes, owners: seq<Pc>) {
    Asking(w, c, n) || (owners != [] && WillTear(owners[0]))
    || (c.closeWait && c.taken + c.counting + c.refused + c.writing > 0)
  }

  /** Someone will deliver a released connection's OnClose, or count it as delivered. */
  predicate Delivering(w: Word, owners: seq<Pc>, pass: Pass) {
    PassFdOpen(pass) || PassEnds(pass)
    || (owners != [] && (FdOpen(owners[0]) || owners[0].Deliver? || Closer(owners[0], w.events)))
  }

  /** Somebody will end a drain whose queue is empty: a turn as it ends, a holder of the claim once it
      has released it, or the caller that began the drain. */
  predicate Ending(w: Word, c: Claim, n: Notes, owners: seq<Pc>) {
    Asking(w, c, n) || n.asks > 0 || n.ends > 0 || c.looks > 0 || c.checks > 0
    || c.turn + c.taken + c.counting + c.refused + c.writing > 0
    || (owners != [] && WillSettle(owners[0]))
  }

  ghost predicate Inv(s: State) {
    && Single(s.word, s.owners, s.pass)
    && Counted(s.loop, s.owners, s.claim, s.notes)
    && Exclusive(s.claim)
    && Lived(s)
    && Passed(s)
    && (Unclaimed(s.word, s.loop, s.life.phase) ==> WillClaim(s.notes))
    && (s.life.phase == REQUESTED && !s.loop.stopping ==> Handled(s.word, s.claim, s.notes, s.owners))
    && (s.owners != [] && s.owners[0].Retry? && !s.loop.stopping ==>
          s.claim.closeWait || Asking(s.word, s.claim, s.notes))
    && (s.life.phase == RELEASED ==> Delivering(s.word, s.owners, s.pass))
    && (s.life.phase == DELIVERED ==> (s.life.onCloses == 1 <==> Due(s)))
  }

  // -------------------------------------------------------------- the argument

  lemma NoteKeeps(s: State, step: Step)
    requires Inv(s) && (step.Note? || step.Route? || step.FoldTeardown? || step.Fold?)
    ensures Inv(NoteDo(s, step))
  {
  }

  lemma LookKeeps(s: State, step: Step)
    requires Inv(s) && (step.Look? || step.Reserve? || step.Drop?)
    ensures Inv(NoteDo(s, step))
  {
  }

  lemma AdmitKeeps(s: State, step: Step)
    requires Inv(s) && (step.Admit? || step.Left?)
    ensures Inv(NoteDo(s, step))
  {
  }

  lemma ClaimTaskKeeps(s: State)
    requires Inv(s)
    ensures Inv(NoteDo(s, ClaimTask))
  {
  }

  lemma ReclaimKeeps(s: State)
    requires Inv(s)
    ensures Inv(NoteDo(s, Reclaim))
  {
  }

  lemma QueuedKeeps(s: State, i: nat)
    requires Inv(s) && i < |s.owners| && (s.owners[i].Submitting? || s.owners[i].Queued?)
    ensures Inv(TurnDo(s, i))
  {
  }

  lemma BodyEndKeeps(s: State, i: nat)
    requires Inv(s) && i < |s.owners| && s.owners[i].Body?
    ensures Inv(TurnDo(s, i))
  {
  }

  lemma SettleKeeps(s: State, i: nat)
    requires Inv(s) && i < |s.owners| && (s.owners[i].Settle? || s.owners[i].Empty?)
    ensures Inv(TurnDo(s, i))
  {
  }

  lemma CheckKeeps(s: State, i: nat)
    requires Inv(s) && i < |s.owners| && (s.owners[i].End? || s.owners[i].Check?)
    ensures Inv(TurnDo(s, i))
  {
  }

  lemma TryKeeps(s: State, i: nat)
    requires Inv(s) && i < |s.owners| && (s.owners[i].ClearRequest? || s.owners[i].Try? || s.owners[i].Asked?)
    ensures Inv(TurnDo(s, i))
  {
  }

  lemma RetryKeeps(s: State, i: nat)
    requires Inv(s) && i < |s.owners| && (s.owners[i].Mark? || s.owners[i].Retry? || s.owners[i].Unmark?)
    ensures Inv(TurnDo(s, i))
  {
  }

  lemma ReleaseKeeps(s: State, i: nat)
    requires Inv(s) && i < |s.owners| && (s.owners[i].Release? || s.owners[i].Flush?)
    ensures Inv(TurnDo(s, i))
  {
  }

  lemma DeliverKeeps(s: State, i: nat)
    requires Inv(s) && i < |s.owners| && (s.owners[i].FdClose? || s.owners[i].Deliver?)
    ensures Inv(TurnDo(s, i))
  {
  }

  lemma FinishKeeps(s: State, i: nat)
    requires Inv(s) && i < |s.owners| && (s.owners[i].Finish? || s.owners[i].Resubmit? || s.owners[i].Give?)
    ensures Inv(TurnDo(s, i))
  {
  }

  lemma BodyKeeps(s: State, i: nat, step: Step)
    requires Inv(s) && i < |s.owners| && (step.TurnNotes? || step.TurnCloses? || step.TurnDrains?)
    ensures Inv(BodyDo(s, i, step))
  {
  }

  lemma BodyClaimKeeps(s: State, i: nat, step: Step)
    requires Inv(s) && i < |s.owners| && (step.TurnClaims? || step.TurnSends? || step.TurnReleases?)
    ensures Inv(BodyDo(s, i, step))
  {
  }

  lemma KickKeeps(s: State, step: Step)
    requires Inv(s) && (step.Kick? || step.KickCount? || step.KickAdmit?)
    ensures Inv(WriteDo(s, step))
  {
  }

  lemma WriteSendKeeps(s: State, step: Step)
    requires Inv(s) && (step.WriteSend? || step.ReleaseLooks? || step.ReleaseChecks?)
    ensures Inv(WriteDo(s, step))
  {
  }

  lemma WriteOnKeeps(s: State)
    requires Inv(s) && !s.claim.owned
    ensures Inv(WriteDo(s, WriteAgain(true)))
  {
  }

  lemma WriteAgainKeeps(s: State, go: bool)
    requires Inv(s)
    ensures Inv(WriteDo(s, WriteAgain(go)))
  {
    if go && !s.claim.owned { WriteOnKeeps(s); }
  }

  lemma WriteEndKeeps(s: State, step: Step)
    requires Inv(s) && (step.KickRelease? || step.WriteEnd?)
    ensures Inv(WriteDo(s, step))
  {
  }

  lemma WaitedKeeps(s: State)
    requires Inv(s)
    ensures Inv(WriteDo(s, Waited))
  {
  }

  lemma DrainKeeps(s: State, step: Step)
    requires Inv(s) && (step.Accept? || step.Drain? || step.DrainAsks? || step.Linger?)
    ensures Inv(OutsideDo(s, step))
  {
    match step
    case Accept(_) =>
    case Drain =>
    case DrainAsks =>
    case Linger =>
  }

  lemma RequestKeeps(s: State, step: Step)
    requires Inv(s) && (step.EndDrain? || step.CloseOutside? || step.StopLoop?)
    ensures Inv(OutsideDo(s, step))
  {
    match step
    case EndDrain =>
    case CloseOutside =>
    case StopLoop =>
  }

  lemma OutsideKeeps(s: State, step: Step)
    requires Inv(s) && OfOutside(step)
    ensures Inv(OutsideDo(s, step))
  {
    if step.EndDrain? || step.CloseOutside? || step.StopLoop? { RequestKeeps(s, step); } else { DrainKeeps(s, step); }
  }

  lemma PassStopKeeps(s: State)
    requires Inv(s) && (s.pass.Marking? || s.pass.Stopping? || s.pass.Waiting? || s.pass.Claiming?)
    ensures Inv(PassDo(s))
  {
  }

  lemma PassReleaseKeeps(s: State)
    requires Inv(s) && (s.pass.Releasing? || PassFdOpen(s.pass) || s.pass.Publishing?)
    ensures Inv(PassDo(s))
  {
  }

  lemma PassEndKeeps(s: State)
    requires Inv(s) && (s.pass.Noting? || s.pass.Scheduling? || s.pass.Counting?)
    ensures Inv(PassDo(s))
  {
  }

  lemma TurnKeeps(s: State, i: nat)
    requires Inv(s) && i < |s.owners|
    ensures Inv(TurnDo(s, i))
  {
    match s.owners[i]
    case Submitting => QueuedKeeps(s, i);
    case Queued => QueuedKeeps(s, i);
    case Body(_) => BodyEndKeeps(s, i);
    case Settle => SettleKeeps(s, i);
    case Empty => SettleKeeps(s, i);
    case End => CheckKeeps(s, i);
    case Check => CheckKeeps(s, i);
    case ClearRequest => TryKeeps(s, i);
    case Try => TryKeeps(s, i);
    case Asked => TryKeeps(s, i);
    case Mark => RetryKeeps(s, i);
    case Retry => RetryKeeps(s, i);
    case Unmark => RetryKeeps(s, i);
    case Release => ReleaseKeeps(s, i);
    case Flush => ReleaseKeeps(s, i);
    case FdClose => DeliverKeeps(s, i);
    case Deliver => DeliverKeeps(s, i);
    case _ => FinishKeeps(s, i);
  }

  lemma PassKeeps(s: State)
    requires Inv(s)
    ensures Inv(PassDo(s))
  {
    match s.pass
    case Off =>
    case Done =>
    case Marking => PassStopKeeps(s);
    case Stopping => PassStopKeeps(s);
    case Waiting => PassStopKeeps(s);
    case Claiming => PassStopKeeps(s);
    case Noting => PassEndKeeps(s);
    case Scheduling => PassEndKeeps(s);
    case Counting => PassEndKeeps(s);
    case _ => PassReleaseKeeps(s);
  }

  lemma NoteStepKeeps(s: State, step: Step)
    requires Inv(s)
    ensures Inv(NoteDo(s, step))
  {
    match step
    case ClaimTask => ClaimTaskKeeps(s);
    case Reclaim => ReclaimKeeps(s);
    case Look => LookKeeps(s, step);
    case Reserve => LookKeeps(s, step);
    case Drop => LookKeeps(s, step);
    case Admit => AdmitKeeps(s, step);
    case Left => AdmitKeeps(s, step);
    case Note => NoteKeeps(s, step);
    case Route => NoteKeeps(s, step);
    case FoldTeardown => NoteKeeps(s, step);
    case Fold(_) => NoteKeeps(s, step);
    case _ =>
  }

  lemma WriteStepKeeps(s: State, step: Step)
    requires Inv(s) && OfWriter(step)
    ensures Inv(WriteDo(s, step))
  {
    match step
    case KickRelease => WriteEndKeeps(s, step);
    case WriteEnd => WriteEndKeeps(s, step);
    case WriteSend(_) => WriteSendKeeps(s, step);
    case ReleaseLooks => WriteSendKeeps(s, step);
    case ReleaseChecks => WriteSendKeeps(s, step);
    case WriteAgain(go) => WriteAgainKeeps(s, go);
    case Waited => WaitedKeeps(s);
    case _ => KickKeeps(s, step);
  }

  lemma BodyStepKeeps(s: State, i: nat, step: Step)
    requires Inv(s) && i < |s.owners| && OfTurn(step)
    ensures Inv(BodyDo(s, i, step))
  {
    if step.TurnNotes? || step.TurnCloses? || step.TurnDrains? {
      BodyKeeps(s, i, step);
    } else {
      BodyClaimKeeps(s, i, step);
    }
  }

  lemma StepKeeps(s: State, step: Step)
    requires Inv(s)
    ensures Inv(Do(s, step))
  {
    if step.Turn? {
      if step.i < |s.owners| { TurnKeeps(s, step.i); }
    } else if OfTurn(step) {
      if step.i < |s.owners| { BodyStepKeeps(s, step.i, step); }
    } else if OfWriter(step) {
      WriteStepKeeps(s, step);
    } else if OfOutside(step) {
      OutsideKeeps(s, step);
    } else if step.ShutdownPass? {
      PassKeeps(s);
    } else {
      NoteStepKeeps(s, step);
    }
  }

  lemma InitKeeps(s: State)
    requires Init(s)
    ensures Inv(s)
  {
    assert Close !in s.word.events && Teardown !in s.word.events;
    assert Lived(s) && Passed(s);
  }

  lemma {:induction false} Reachable(s: State, steps: seq<Step>)
    requires Init(s)
    ensures Inv(Exec(s, steps))
  {
    if steps == [] {
      InitKeeps(s);
    } else {
      var u := Exec(s, steps[..|steps| - 1]);
      Reachable(s, steps[..|steps| - 1]);
      StepKeeps(u, steps[|steps| - 1]);
      assert Exec(s, steps) == Do(u, steps[|steps| - 1]);
    }
  }

  // ----------------------------------------------------------- what is proved

  /** In every run at most one turn of the connection is claimed, queued, running or finishing, the
      scheduled bit says so exactly, and the loop's count is exactly the admitted turns and the
      reservations being made or given back. */
  lemma {:induction false} OneTurn(s: State, steps: seq<Step>)
    requires Init(s)
    ensures var u := Exec(s, steps);
            && |u.owners| <= 1
            && (u.owners != [] ==> u.word.sched)
            && (u.word.sched ==> u.owners != [] || u.pass.Counting?)
            && Counted(u.loop, u.owners, u.claim, u.notes)
            && u.loop.count >= Admitted(u)
  {
    Reachable(s, steps);
  }

  /** In every run no folded event is lost: while turns are admitted and OnClose is not delivered, events
      without a turn to take them have somebody about to claim one. */
  lemma {:induction false} NoEventLost(s: State, steps: seq<Step>)
    requires Init(s)
    ensures var u := Exec(s, steps);
            u.word.events != {} && u.owners == [] && !u.loop.stopped && u.life.phase != DELIVERED
            ==> WillClaim(u.notes)
  {
    Reachable(s, steps);
  }

  /** In every run the connection is released, its descriptor closed and OnClose called at most once
      each, in this order, and nothing is sent after the descriptor closed. */
  lemma {:induction false} ClosedOnce(s: State, steps: seq<Step>)
    requires Init(s)
    ensures var l := Exec(s, steps).life;
            && l.onCloses <= l.fdCloses <= l.releases <= 1
            && (l.releases == 1 <==> l.phase >= RELEASED)
            && (l.phase == DELIVERED ==> l.fdCloses == 1)
            && l.late == 0
  {
    Reachable(s, steps);
  }

  lemma TurnForward(u: State, i: nat)
    requires i < |u.owners|
    ensures u.life.phase <= TurnDo(u, i).life.phase
  {
    if !u.owners[i].Release? && !u.owners[i].Deliver? && !u.owners[i].Body? && !u.owners[i].End? {
      assert TurnDo(u, i).life.phase == u.life.phase;
    }
  }

  lemma BodyForward(u: State, i: nat, step: Step)
    requires i < |u.owners|
    ensures u.life.phase <= BodyDo(u, i, step).life.phase
  {
  }

  lemma WriteForward(u: State, step: Step)
    ensures WriteDo(u, step).life.phase == u.life.phase
  {
  }

  lemma OutsideForward(u: State, step: Step)
    ensures u.life.phase <= OutsideDo(u, step).life.phase
  {
  }

  lemma PassForward(u: State)
    ensures u.life.phase <= PassDo(u).life.phase
  {
  }

  lemma NoteForward(u: State, step: Step)
    ensures NoteDo(u, step).life == u.life
  {
  }

  lemma StepForward(u: State, step: Step)
    ensures u.life.phase <= Do(u, step).life.phase
  {
    if step.Turn? {
      if step.i < |u.owners| { TurnForward(u, step.i); }
    } else if OfTurn(step) {
      if step.i < |u.owners| { BodyForward(u, step.i, step); }
    } else if OfWriter(step) {
      WriteForward(u, step);
    } else if OfOutside(step) {
      OutsideForward(u, step);
    } else if step.ShutdownPass? {
      PassForward(u);
    } else {
      NoteForward(u, step);
    }
  }

  /** The phase only moves forward, over any stretch of any run. */
  lemma {:induction false} PhaseForward(s: State, steps: seq<Step>, k: nat)
    requires k <= |steps|
    ensures Exec(s, steps[..k]).life.phase <= Exec(s, steps).life.phase
  {
    if k == |steps| {
      assert steps[..k] == steps;
    } else {
      var front := steps[..|steps| - 1];
      PhaseForward(s, front, k);
      assert front[..k] == steps[..k];
      StepForward(Exec(s, front), steps[|steps| - 1]);
    }
  }

  /** In every run a requested close is never lost: until the loop stops, a request is on its way to a
      turn, or a turn will find it, or a holder of the write claim was asked to hand it back. */
  lemma {:induction false} CloseNeverLost(s: State, steps: seq<Step>)
    requires Init(s)
    ensures var u := Exec(s, steps);
            u.life.phase == REQUESTED && !u.loop.stopping ==> Handled(u.word, u.claim, u.notes, u.owners)
  {
    Reachable(s, steps);
  }

  predicate DrainedOut(s: State) { s.life.phase == DRAINING && s.life.pending == 0 && !s.loop.stopping }

  ghost predicate Ended(s: State) { DrainedOut(s) ==> Ending(s.word, s.claim, s.notes, s.owners) }

  lemma TurnEnded(s: State, i: nat)
    requires Inv(s) && Ended(s) && i < |s.owners|
    ensures Ended(TurnDo(s, i))
  {
  }

  lemma BodyEnded(s: State, i: nat, step: Step)
    requires Inv(s) && Ended(s) && i < |s.owners|
    ensures Ended(BodyDo(s, i, step))
  {
  }

  lemma WriteEnded(s: State, step: Step)
    requires Inv(s) && Ended(s)
    ensures Ended(WriteDo(s, step))
  {
  }

  lemma OutsideEnded(s: State, step: Step)
    requires Inv(s) && Ended(s)
    ensures Ended(OutsideDo(s, step))
  {
  }

  lemma PassEnded(s: State)
    requires Inv(s) && Ended(s)
    ensures Ended(PassDo(s))
  {
  }

  lemma NoteEnded(s: State, step: Step)
    requires Inv(s) && Ended(s)
    ensures Ended(NoteDo(s, step))
  {
  }

  lemma StepEnded(s: State, step: Step)
    requires Inv(s) && Ended(s)
    ensures Ended(Do(s, step))
  {
    if step.Turn? {
      if step.i < |s.owners| { TurnEnded(s, step.i); }
    } else if OfTurn(step) {
      if step.i < |s.owners| { BodyEnded(s, step.i, step); }
    } else if OfWriter(step) {
      WriteEnded(s, step);
    } else if OfOutside(step) {
      OutsideEnded(s, step);
    } else if step.ShutdownPass? {
      PassEnded(s);
    } else {
      NoteEnded(s, step);
    }
  }

  /** In every run a graceful close whose output has left is ended: until the loop stops, a drain with an
      empty queue has a turn that will look as it ends, a request on its way to one, a holder of the
      write claim that will look once it releases it, or the caller that began it about to look. */
  lemma {:induction false} DrainNeverStuck(s: State, steps: seq<Step>)
    requires Init(s)
    ensures var u := Exec(s, steps);
            u.life.phase == DRAINING && u.life.pending == 0 && !u.loop.stopping
            ==> Ending(u.word, u.claim, u.notes, u.owners)
  {
    if steps != [] {
      var front := steps[..|steps| - 1];
      DrainNeverStuck(s, front);
      Reachable(s, front);
      StepEnded(Exec(s, front), steps[|steps| - 1]);
    }
  }

  /** Nobody has an operation left to do for the connection. */
  predicate Quiet(s: State) {
    && s.owners == [] && s.notes == Notes(0, 0, 0, 0, 0, 0, 0, 0, 0, 0, 0, 0)
    && s.claim.turn + s.claim.taken + s.claim.counting + s.claim.refused + s.claim.writing + s.claim.ending
       + s.claim.waited + s.claim.looks + s.claim.checks == 0
    && (s.pass.Off? || s.pass.Done?)
  }

  /** Once everything has come to rest: no event is left over on a live connection, a close that was
      requested has been carried out to the end, a graceful close still draining has output that waits,
      and after a shutdown every connection has been closed.  OnClose was then called if the user has one
      and the open turn ever began. */
  lemma {:induction false} ClosedAtRest(s: State, steps: seq<Step>)
    requires Init(s) && Quiet(Exec(s, steps))
    ensures var u := Exec(s, steps);
            && u.loop.count == 0
            && (u.life.phase >= REQUESTED || u.pass.Done? ==>
                  && u.life.phase == DELIVERED && u.life.fdCloses == 1
                  && (u.life.onCloses == 1 <==> u.life.wants && Open !in u.word.events))
            && (u.life.phase < REQUESTED ==> u.word.events == {})
            && (u.life.phase == DRAINING ==> u.life.pending > 0)
  {
    Reachable(s, steps);
    DrainNeverStuck(s, steps);
  }

  // ----------------------------------------------------------- rest is reached

  /** What a turn may still do before it has given its reservation back. */
  function TurnWork(pc: Pc): nat {
    match pc
    case Submitting => 21
    case Queued => 20
    case Body(_) => 19
    case Settle => 18
    case Empty => 17
    case End => 16
    case Check => 15
    case ClearRequest => 14
    case Try => 13
    case Asked => 12
    case Mark => 11
    case Retry => 10
    case Unmark => 9
    case Release => 8
    case Flush => 7
    case FdClose => 6
    case Deliver => 5
    case Finish => 4
    case Resubmit => 3
    case Give => 2
  }

  /** ... with the next turn that events folded since it took its own will cost. */
  function OwnerWork(w: Word, owners: seq<Pc>): nat {
    if owners == [] then 0
    else TurnWork(owners[0])
         + if owners[0].Resubmit? || (w.events != {} && !owners[0].Submitting? && !owners[0].Queued?) then 22 else 0
  }

  function NoteWork(n: Notes): nat {
    49 * n.route + 48 * n.foldT + 48 * n.fold + 25 * n.look + 24 * n.reserve + 23 * n.counted + 22 * n.claim
    + 23 * n.left + 22 * n.reclaim + n.drop + 51 * n.asks + 50 * n.ends
  }

  function ClaimWork(c: Claim): nat {
    102 * c.turn + 106 * c.taken + 105 * c.counting + 102 * c.refused + 104 * c.writing + 2 * c.ending + 50 * c.waited
    + 51 * c.looks + 50 * c.checks
  }

  function PassWork(p: Pass): nat {
    match p
    case Off => 0
    case Marking => 32
    case Stopping => 31
    case Waiting => 30
    case Claiming => 29
    case Releasing => 28
    case Flushing => 27
    case FdClosing => 26
    case Publishing => 25
    case Noting => 24
    case Scheduling => 23
    case Counting => 22
    case Done => 0
  }

  /** A bound on the steps the connection's goroutines can take by themselves. */
  function Work(s: State): nat {
    OwnerWork(s.word, s.owners) + NoteWork(s.notes) + ClaimWork(s.claim) + PassWork(s.pass) + s.life.pending
  }

  /** Steps that carry on what was begun; the others are calls of users, events, and the choice of a write
      turn to go on. */
  predicate Own(step: Step) {
    !(step.Note? || step.Kick? || (step.WriteAgain? && step.go) || step.TurnNotes? || step.TurnCloses?
      || step.TurnDrains? || step.TurnClaims? || step.Accept? || step.Drain? || step.Linger? || step.CloseOutside?
      || step.StopLoop?)
  }

  /** A teardown of a stopped loop that waits for the holder of the write claim by trying again. */
  predicate Retries(s: State, step: Step) {
    step.Turn? && step.i < |s.owners| && s.owners[step.i].Asked? && s.loop.stopped
  }

  /** What a step that is not the connection's own adds to the work. */
  function Brings(s: State, step: Step): nat {
    if Retries(s, step) then 1
    else match step
      case Note => 48
      case Kick => 106
      case WriteAgain(go) => if go then 102 else 0
      case TurnNotes(_, _) => 22
      case TurnClaims(_) => 102
      case Accept(n) => n
      case Drain => 51
      case Linger => 50
      case CloseOutside => 49
      case StopLoop => 32
      case _ => 0
  }

  /** A step that is the connection's own and does something. */
  predicate Moves(s: State, step: Step) { Own(step) && !Retries(s, step) && Do(s, step) != s }

  /** What the bookkeeping of work relies on: at most one turn, and no send once the descriptor closed. */
  predicate Plain(s: State) {
    && |s.owners| <= 1 && (!s.word.sched || s.pass.Counting? || s.pass.Noting? ==> s.owners == [])
    && (s.claim.writing > 0 || s.claim.turn > 0 ==> s.life.fdCloses == 0)
  }

  lemma InvPlain(s: State)
    requires Inv(s)
    ensures Plain(s)
  {
  }

  /** A step that does something is paid for: by the work it does, or by what it brings. */
  predicate Pays(s: State, t: State, own: bool, brings: nat) {
    t == s || Work(t) + (if own then 1 else 0) <= Work(s) + brings
  }

  lemma BodyTurnPays(s: State)
    requires Plain(s) && s.owners != []
    requires s.owners[0].Submitting? || s.owners[0].Queued? || s.owners[0].Body?
    ensures Pays(s, TurnDo(s, 0), true, 0)
  {
    match s.owners[0]
    case Submitting =>
    case Queued =>
    case Body(_) =>
  }

  lemma SettlePays(s: State)
    requires Plain(s) && s.owners != []
    requires s.owners[0].Settle? || s.owners[0].Empty? || s.owners[0].End? || s.owners[0].Check?
    ensures Pays(s, TurnDo(s, 0), true, 0)
  {
    match s.owners[0]
    case Settle =>
    case Empty =>
    case End =>
    case Check =>
  }

  /** A turn that goes to a later place in its epilogue, with its events no more and the pending output no
      more than before, has done work. */
  lemma OnwardPays(s: State, t: State, pc: Pc)
    requires s.owners != [] && t.owners == s.owners[0 := pc] && TurnWork(pc) < TurnWork(s.owners[0])
    requires !s.owners[0].Submitting? && !s.owners[0].Queued? && !pc.Submitting? && !pc.Queued? && !pc.Resubmit?
    requires t.notes == s.notes && ClaimWork(t.claim) == ClaimWork(s.claim) && t.pass == s.pass
    requires t.word.events <= s.word.events && t.life.pending <= s.life.pending
    ensures Pays(s, t, true, 0)
  {
    assert t.owners[0] == pc;
  }

  lemma TearPays(s: State)
    requires s.owners != []
    requires s.owners[0].ClearRequest? || s.owners[0].Try? || s.owners[0].Mark? || s.owners[0].Retry?
             || (s.owners[0].Asked? && !s.loop.stopped)
    ensures Pays(s, TurnDo(s, 0), true, 0)
  {
    var t := TurnDo(s, 0);
    OnwardPays(s, t, t.owners[0]);
  }

  lemma EndPays(s: State)
    requires s.owners != []
    requires s.owners[0].Unmark? || s.owners[0].Release? || s.owners[0].Flush? || s.owners[0].FdClose?
             || s.owners[0].Deliver?
    ensures Pays(s, TurnDo(s, 0), true, 0)
  {
    var t := TurnDo(s, 0);
    OnwardPays(s, t, t.owners[0]);
  }

  lemma FinishPays(s: State)
    requires Plain(s) && s.owners != [] && (s.owners[0].Finish? || s.owners[0].Resubmit? || s.owners[0].Give?)
    ensures Pays(s, TurnDo(s, 0), true, 0)
  {
    match s.owners[0]
    case Finish =>
    case Resubmit =>
    case Give => assert s.owners[..0] + s.owners[1..] == [];
  }

  lemma TurnPays(s: State)
    requires Plain(s) && s.owners != []
    ensures Pays(s, TurnDo(s, 0), !Retries(s, Turn(0)), Brings(s, Turn(0)))
  {
    match s.owners[0]
    case ClearRequest => TearPays(s);
    case Try => TearPays(s);
    case Asked => if !s.loop.stopped { TearPays(s); }
    case Mark => TearPays(s);
    case Retry => TearPays(s);
    case Unmark => EndPays(s);
    case Release => EndPays(s);
    case Flush => EndPays(s);
    case FdClose => EndPays(s);
    case Deliver => EndPays(s);
    case Finish => FinishPays(s);
    case Resubmit => FinishPays(s);
    case Give => FinishPays(s);
    case Submitting => BodyTurnPays(s);
    case Queued => BodyTurnPays(s);
    case Body(_) => BodyTurnPays(s);
    case _ => SettlePays(s);
  }

  lemma BodyPays(s: State, step: Step)
    requires Plain(s) && OfTurn(step) && s.owners != []
    ensures Pays(s, BodyDo(s, 0, step), Own(step), Brings(s, step))
  {
    match step
    case TurnNotes(_, _) =>
    case TurnCloses(_) =>
    case TurnDrains(_) =>
    case TurnClaims(_) =>
    case TurnSends(_, _) =>
    case TurnReleases(_) =>
  }

  lemma KickPays(s: State, step: Step)
    requires step.Kick? || step.KickCount? || step.KickAdmit? || step.KickRelease?
    ensures Pays(s, WriteDo(s, step), Own(step), Brings(s, step))
  {
    match step
    case Kick =>
    case KickCount =>
    case KickAdmit =>
    case KickRelease =>
  }

  lemma WriteSendPays(s: State, step: Step)
    requires Plain(s) && step.WriteSend?
    ensures Pays(s, WriteDo(s, step), true, 0)
  {
  }

  lemma WriteEndPays(s: State, step: Step)
    requires step.WriteEnd? || step.WriteAgain?
    ensures Pays(s, WriteDo(s, step), Own(step), Brings(s, step))
  {
    match step
    case WriteEnd =>
    case WriteAgain(_) =>
  }

  lemma GivenPays(s: State, step: Step)
    requires step.Waited? || step.ReleaseLooks? || step.ReleaseChecks?
    ensures Pays(s, WriteDo(s, step), Own(step), Brings(s, step))
  {
    match step
    case Waited =>
    case ReleaseLooks =>
    case ReleaseChecks =>
  }

  lemma WritePays(s: State, step: Step)
    requires Plain(s) && OfWriter(step)
    ensures Pays(s, WriteDo(s, step), Own(step), Brings(s, step))
  {
    if step.WriteSend? {
      WriteSendPays(s, step);
    } else if step.WriteEnd? || step.WriteAgain? {
      WriteEndPays(s, step);
    } else if step.Waited? || step.ReleaseLooks? || step.ReleaseChecks? {
      GivenPays(s, step);
    } else {
      KickPays(s, step);
    }
  }

  lemma OutsidePays(s: State, step: Step)
    requires OfOutside(step)
    ensures Pays(s, OutsideDo(s, step), Own(step), Brings(s, step))
  {
    match step
    case Accept(_) =>
    case Drain =>
    case DrainAsks =>
    case Linger =>
    case EndDrain =>
    case CloseOutside =>
    case StopLoop =>
  }

  lemma PassStopPays(s: State)
    requires s.pass.Marking? || s.pass.Stopping? || s.pass.Waiting? || s.pass.Claiming? || s.pass.Releasing?
    ensures Pays(s, PassDo(s), true, 0)
  {
    match s.pass
    case Marking =>
    case Stopping =>
    case Waiting =>
    case Claiming =>
    case Releasing =>
  }

  lemma PassEndPays(s: State)
    requires Plain(s) && (PassFdOpen(s.pass) || PassEnds(s.pass))
    ensures Pays(s, PassDo(s), true, 0)
  {
    match s.pass
    case Flushing =>
    case FdClosing =>
    case Publishing =>
    case Noting =>
    case Scheduling =>
    case Counting =>
  }

  lemma PassPays(s: State)
    requires Plain(s)
    ensures Pays(s, PassDo(s), true, 0)
  {
    if PassFdOpen(s.pass) || PassEnds(s.pass) {
      PassEndPays(s);
    } else if !s.pass.Off? && !s.pass.Done? {
      PassStopPays(s);
    }
  }

  predicate OfNotes(step: Step) {
    !step.Turn? && !OfTurn(step) && !OfWriter(step) && !OfOutside(step) && !step.ShutdownPass?
  }

  lemma FoldPays(s: State, step: Step)
    requires Plain(s) && (step.Note? || step.Route? || step.FoldTeardown? || step.Fold?)
    ensures Pays(s, NoteDo(s, step), Own(step), Brings(s, step))
  {
    match step
    case Note =>
    case Route =>
    case FoldTeardown =>
    case Fold(_) =>
  }

  lemma LookPays(s: State, step: Step)
    requires step.Look? || step.Reserve?
    ensures Pays(s, NoteDo(s, step), Own(step), Brings(s, step))
  {
    match step
    case Look =>
    case Reserve =>
  }

  lemma AdmitPays(s: State, step: Step)
    requires step.Admit? || step.Left? || step.Drop?
    ensures Pays(s, NoteDo(s, step), Own(step), Brings(s, step))
  {
    match step
    case Admit =>
    case Left =>
    case Drop =>
  }

  lemma ClaimPays(s: State, step: Step)
    requires Plain(s) && (step.ClaimTask? || step.Reclaim?)
    ensures Pays(s, NoteDo(s, step), Own(step), Brings(s, step))
  {
    match step
    case ClaimTask =>
    case Reclaim =>
  }

  lemma NotePays(s: State, step: Step)
    requires Plain(s) && OfNotes(step)
    ensures Pays(s, NoteDo(s, step), Own(step), Brings(s, step))
  {
    if step.ClaimTask? || step.Reclaim? {
      ClaimPays(s, step);
    } else if step.Note? || step.Route? || step.FoldTeardown? || step.Fold? {
      FoldPays(s, step);
    } else if step.Look? || step.Reserve? {
      LookPays(s, step);
    } else {
      AdmitPays(s, step);
    }
  }

  lemma TurnStepPays(s: State, i: nat)
    requires Plain(s)
    ensures Pays(s, Do(s, Turn(i)), !Retries(s, Turn(i)), Brings(s, Turn(i)))
  {
    if i < |s.owners| { TurnPays(s); }
  }

  lemma BodyStepPays(s: State, step: Step)
    requires Plain(s) && OfTurn(step)
    ensures Pays(s, Do(s, step), Own(step), Brings(s, step))
  {
    if step.i < |s.owners| { BodyPays(s, step); }
  }

  lemma StepPays(s: State, step: Step)
    requires Plain(s)
    ensures Pays(s, Do(s, step), Own(step) && !Retries(s, step), Brings(s, step))
  {
    if step.Turn? {
      TurnStepPays(s, step.i);
    } else if OfTurn(step) {
      BodyStepPays(s, step);
    } else if OfWriter(step) {
      WritePays(s, step);
      assert Do(s, step) == WriteDo(s, step);
    } else if OfOutside(step) {
      OutsidePays(s, step);
      assert Do(s, step) == OutsideDo(s, step);
    } else if step.ShutdownPass? {
      PassPays(s);
      assert Do(s, step) == PassDo(s);
    } else {
      NotePays(s, step);
      assert Do(s, step) == NoteDo(s, step);
    }
  }

  /** How many steps of its own that did something a run took, and what the others brought. */
  function OwnSteps(s: State, steps: seq<Step>): nat {
    if steps == [] then 0
    else
      var front, last := steps[..|steps| - 1], steps[|steps| - 1];
      OwnSteps(s, front) + if Moves(Exec(s, front), last) then 1 else 0
  }

  function Brought(s: State, steps: seq<Step>): nat {
    if steps == [] then 0
    else Brought(s, steps[..|steps| - 1]) + Brings(Exec(s, steps[..|steps| - 1]), steps[|steps| - 1])
  }

  /** In every run, in any interleaving, turns, write turns, requests, releases and the shutdown pass take no
      more steps than the work that events, calls and output brought: they come to rest by themselves. */
  lemma {:induction false} NeverSpins(s: State, steps: seq<Step>)
    requires Init(s)
    ensures OwnSteps(s, steps) + Work(Exec(s, steps)) <= 25 + Brought(s, steps)
  {
    if steps != [] {
      NeverSpins(s, steps[..|steps| - 1]);
      Reachable(s, steps[..|steps| - 1]);
      InvPlain(Exec(s, steps[..|steps| - 1]));
      StepPays(Exec(s, steps[..|steps| - 1]), steps[|steps| - 1]);
    }
  }

  /** No step of the connection's own does anything. */
  ghost predicate AtRest(s: State) { forall step :: Own(step) ==> Do(s, step) == s }

  /** In every run a connection at rest is one for which nobody has an operation left, so what is proved of
      those holds of it. */
  lemma {:induction false} RestIsQuiet(s: State, steps: seq<Step>)
    requires Init(s) && AtRest(Exec(s, steps))
    ensures Quiet(Exec(s, steps))
  {
    Reachable(s, steps);
    var u := Exec(s, steps);
    NotesRest(u);
    ClaimRests(u);
    TurnRests(u);
    PassStays(u);
    assert u.pass.Claiming? ==> !u.claim.owned;
    PassRests(u);
    QuietParts(u);
  }

  /** The goroutines whose next operation is `step`. */
  function Waiters(s: State, step: Step): nat {
    match step
    case Route => s.notes.route
    case FoldTeardown => s.notes.foldT
    case Fold(events) => if events == {} then s.notes.fold else 0
    case Look => s.notes.look
    case Reserve => s.notes.reserve
    case Admit => s.notes.counted
    case ClaimTask => s.notes.claim
    case Left => s.notes.left
    case Reclaim => s.notes.reclaim
    case Drop => s.notes.drop
    case DrainAsks => s.notes.asks
    case EndDrain => s.notes.ends
    case KickCount => s.claim.taken
    case KickAdmit => s.claim.counting
    case KickRelease => s.claim.refused
    case WriteEnd => s.claim.writing
    case WriteAgain(go) => if go then 0 else s.claim.ending
    case Waited => s.claim.waited
    case ReleaseLooks => s.claim.looks
    case ReleaseChecks => s.claim.checks
    case _ => 0
  }

  lemma NoteMoves(s: State, step: Step)
    requires OfNotes(step) && Waiters(s, step) > 0
    ensures NoteDo(s, step).notes != s.notes
  {
    match step
    case Route => assert NoteDo(s, step).notes.route == s.notes.route - 1;
    case FoldTeardown => assert NoteDo(s, step).notes.foldT == s.notes.foldT - 1;
    case Fold(_) => assert NoteDo(s, step).notes.fold == s.notes.fold - 1;
    case Look => assert NoteDo(s, step).notes.look == s.notes.look - 1;
    case Reserve => assert NoteDo(s, step).notes.reserve == s.notes.reserve - 1;
    case Admit => assert NoteDo(s, step).notes.counted == s.notes.counted - 1;
    case ClaimTask => assert NoteDo(s, step).notes.claim == s.notes.claim - 1;
    case Left => assert NoteDo(s, step).notes.left == s.notes.left - 1;
    case Reclaim => assert NoteDo(s, step).notes.reclaim == s.notes.reclaim - 1;
    case Drop => assert NoteDo(s, step).notes.drop == s.notes.drop - 1;
  }

  lemma ClaimMoves(s: State, step: Step)
    requires OfWriter(step) && Waiters(s, step) > 0
    ensures WriteDo(s, step).claim != s.claim
  {
    match step
    case KickCount => assert WriteDo(s, step).claim.taken == s.claim.taken - 1;
    case KickAdmit => assert WriteDo(s, step).claim.counting == s.claim.counting - 1;
    case KickRelease => assert WriteDo(s, step).claim.refused == s.claim.refused - 1;
    case WriteEnd => assert WriteDo(s, step).claim.writing == s.claim.writing - 1;
    case WriteAgain(_) => assert WriteDo(s, step).claim.ending == s.claim.ending - 1;
    case Waited => assert WriteDo(s, step).claim.waited == s.claim.waited - 1;
    case ReleaseLooks => assert WriteDo(s, step).claim.looks == s.claim.looks - 1;
    case ReleaseChecks => assert WriteDo(s, step).claim.checks == s.claim.checks - 1;
  }

  lemma DrainMoves(s: State, step: Step)
    requires OfOutside(step) && Waiters(s, step) > 0
    ensures OutsideDo(s, step).notes != s.notes
  {
    match step
    case DrainAsks => assert OutsideDo(s, step).notes.asks == s.notes.asks - 1;
    case EndDrain => assert OutsideDo(s, step).notes.ends == s.notes.ends - 1;
  }

  /** A goroutine with an operation to do can do it. */
  lemma WaiterMoves(s: State, step: Step)
    requires Waiters(s, step) > 0
    ensures Own(step) && Do(s, step) != s
  {
    if OfWriter(step) {
      ClaimMoves(s, step);
    } else if OfOutside(step) {
      DrainMoves(s, step);
    } else {
      NoteMoves(s, step);
    }
  }

  lemma NoWaiter(s: State, step: Step)
    requires AtRest(s)
    ensures Waiters(s, step) == 0
  {
    if Waiters(s, step) > 0 { WaiterMoves(s, step); }
  }

  predicate NotesQuiet(n: Notes) {
    && n.route == 0 && n.foldT == 0 && n.fold == 0 && n.look == 0 && n.reserve == 0 && n.counted == 0
    && n.claim == 0 && n.left == 0 && n.reclaim == 0 && n.drop == 0 && n.asks == 0 && n.ends == 0
  }

  predicate ClaimQuiet(c: Claim) {
    && c.taken == 0 && c.counting == 0 && c.refused == 0 && c.writing == 0 && c.ending == 0 && c.waited == 0
    && c.looks == 0 && c.checks == 0
  }

  lemma NotesRest(s: State)
    requires AtRest(s)
    ensures NotesQuiet(s.notes)
  {
    NoWaiter(s, Route);
    NoWaiter(s, FoldTeardown);
    NoWaiter(s, Fold({}));
    NoWaiter(s, Look);
    NoWaiter(s, Reserve);
    NoWaiter(s, Admit);
    NoWaiter(s, ClaimTask);
    NoWaiter(s, Left);
    NoWaiter(s, Reclaim);
    NoWaiter(s, Drop);
    NoWaiter(s, DrainAsks);
    NoWaiter(s, EndDrain);
  }

  lemma ClaimRests(s: State)
    requires AtRest(s)
    ensures ClaimQuiet(s.claim)
  {
    NoWaiter(s, KickCount);
    NoWaiter(s, KickAdmit);
    NoWaiter(s, KickRelease);
    NoWaiter(s, WriteEnd);
    NoWaiter(s, WriteAgain(false));
    NoWaiter(s, Waited);
    NoWaiter(s, ReleaseLooks);
    NoWaiter(s, ReleaseChecks);
  }

  lemma TurnRests(s: State)
    requires Inv(s) && AtRest(s)
    ensures s.owners == []
  {
    if s.owners != [] {
      assert Do(s, Turn(0)) == s && Do(s, TurnReleases(0)) == s;
      TurnMoves(s);
    }
  }

  /** A turn always has a step to take. */
  lemma TurnMoves(s: State)
    requires |s.owners| == 1 && (s.claim.turn > 0 ==> s.owners[0] == Body(false))
    ensures Do(s, Turn(0)) != s || Do(s, TurnReleases(0)) != s
  {
    var pc := s.owners[0];
    if pc.Give? {
      assert |Do(s, Turn(0)).owners| == 0;
    } else if pc == Body(false) && s.claim.turn > 0 {
      assert Do(s, TurnReleases(0)).claim.turn == s.claim.turn - 1;
    } else {
      TurnSteps(s);
    }
  }

  lemma TurnSteps(s: State)
    requires |s.owners| == 1 && !s.owners[0].Give? && !(s.owners[0] == Body(false) && s.claim.turn > 0)
    ensures |TurnDo(s, 0).owners| == 1 && TurnDo(s, 0).owners[0] != s.owners[0]
  {
    match s.owners[0]
    case Submitting =>
    case Queued =>
    case Body(_) =>
    case Settle =>
    case Empty =>
    case End =>
    case Check =>
    case ClearRequest =>
    case Try =>
    case Asked =>
    case Mark =>
    case Retry =>
    case Unmark =>
    case Release =>
    case Flush =>
    case FdClose =>
    case Deliver =>
    case Finish =>
    case Resubmit =>
  }

  lemma PassMoves(s: State)
    requires Admitted(s) == 0 && (s.pass.Claiming? ==> !s.claim.owned)
    requires !s.pass.Off? && !s.pass.Done?
    ensures PassDo(s).pass != s.pass
  {
    match s.pass
    case Marking =>
    case Stopping =>
    case Waiting =>
    case Claiming =>
    case Releasing =>
    case Flushing =>
    case FdClosing =>
    case Publishing =>
    case Noting =>
    case Scheduling =>
    case Counting =>
  }

  lemma PassRests(s: State)
    requires Admitted(s) == 0 && (s.pass.Claiming? ==> !s.claim.owned) && PassDo(s) == s
    ensures s.pass.Off? || s.pass.Done?
  {
    if !s.pass.Off? && !s.pass.Done? { PassMoves(s); }
  }

  lemma PassStays(s: State)
    requires AtRest(s)
    ensures PassDo(s) == s
  {
    assert Do(s, ShutdownPass) == s;
  }

  lemma QuietParts(s: State)
    requires NotesQuiet(s.notes) && ClaimQuiet(s.claim) && s.owners == [] && s.claim.turn == 0
    requires s.pass.Off? || s.pass.Done?
    ensures Quiet(s)
  {
  }
}
