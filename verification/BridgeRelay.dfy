/** Backpressure of one leg of a relay: the source's read callback against the drain reports of its
    destination.

    The callback runs on the source's turns, one at a time; any number of reports run at once on other
    goroutines.  Every load, store and compare-and-swap on the waiting mark, the drain count and the
    pause is a step of its own.  The destination reports each shrink of its queue after it, and refuses
    a write only while it holds queued bytes or still owes a report. */
module BridgeRelay {

  /** Where the source's callback stands.  `seen` is the drain count it loaded first. */
  datatype Callback =
    | Idle
    | Snapshot
    | Test(seen: nat)        // about to compare the destination's queue with the limit
    | Forward(seen: nat)     // WriteTo, in as many writes as it takes
    | Check(seen: nat)       // about to look whether input is left
    | Mark(seen: nat)        // about to set the waiting mark
    | Recheck(seen: nat)     // about to load the drain count again
    | TakeBack               // a drain came meanwhile: about to claim the mark itself
    | WakeSelf
    | MaybeHold
    | Pausing
    | LookAgain              // hold: about to load the waiting mark
    | Release                // hold: about to release the pause
    | ReleaseTurn            // ... and to ask for the turn

  /** Reports on their way, counted by where they stand in `resumeSource`. */
  datatype Reports = Reports(
    owed: nat,      // the queue shrank, the report has not started
    look: nat,      // about to compare the queue with half the limit
    bump: nat,      // about to count the drain
    claim: nat,     // about to claim the waiting mark
    choose: nat,    // claimed it, about to look at the pause
    wake: nat,      // about to wake the source
    resume: nat,    // about to release the pause
    turn: nat)      // released it, about to ask for the turn

  datatype State = State(
    high: nat, input: nat, queue: nat, waiting: bool, drains: nat, paused: bool,
    turn: bool,     // a turn of the source is scheduled
    runs: nat,      // history: callbacks begun
    cb: Callback, rep: Reports)

  ghost predicate Init(s: State) {
    s == State(s.high, 0, 0, false, 0, false, false, 0, Idle, Reports(0, 0, 0, 0, 0, 0, 0, 0)) && s.high > 0
  }

  datatype Step =
    | Arrive(n: nat)                                 // input reaches the source between its callbacks
    | Drain(n: nat)                                  // the destination's socket takes bytes
    | Push(taken: nat, queued: nat, reports: nat)    // one write: taken from the input, queued or sent at once
    | Refused                                        // a write the destination does not take
    | Callback                                       // the callback's next operation
    | Start | Look | Bump | Claim | Choose | Wake | Resume | Turn   // a report's next operation

  predicate Applies(s: State, step: Step) {
    match step
    case Arrive(n) => s.cb.Idle? && n > 0
    case Drain(n) => 0 < n <= s.queue
    case Push(taken, queued, reports) => s.cb.Forward? && queued <= taken <= s.input && (queued < taken ==> reports > 0)
    case Refused => s.cb.Forward? && s.input > 0 && (s.queue > 0 || s.rep.owed > 0)
    case Callback => (s.cb.Forward? ==> s.input == 0) && (s.cb.Idle? ==> s.turn)
    case Start => s.rep.owed > 0
    case Look => s.rep.look > 0
    case Bump => s.rep.bump > 0
    case Claim => s.rep.claim > 0
    case Choose => s.rep.choose > 0
    case Wake => s.rep.wake > 0
    case Resume => s.rep.resume > 0
    case Turn => s.rep.turn > 0
  }

  function CallbackDo(s: State): State {
    match s.cb
    case Idle => if s.paused then s.(turn := false) else s.(turn := false, runs := s.runs + 1, cb := Snapshot)
    case Snapshot => s.(cb := Test(s.drains))
    case Test(d) => s.(cb := if s.queue < s.high then Forward(d) else Check(d))
    case Forward(d) => s.(cb := Check(d))
    case Check(d) => s.(cb := if s.input == 0 then Idle else Mark(d))
    case Mark(d) => s.(waiting := true, cb := Recheck(d))
    case Recheck(d) => s.(cb := if s.drains != d then TakeBack else MaybeHold)
    case TakeBack => s.(waiting := false, cb := if s.waiting then WakeSelf else Idle)
    case WakeSelf => s.(turn := true, cb := Idle)
    case MaybeHold => s.(cb := if s.input >= s.high then Pausing else Idle)
    case Pausing => s.(paused := true, cb := LookAgain)
    case LookAgain => s.(cb := if s.waiting then Idle else Release)
    case Release => s.(paused := false, cb := if s.paused then ReleaseTurn else Idle)
    case ReleaseTurn => s.(turn := true, cb := Idle)
  }

  function Do(s: State, step: Step): State {
    if !Applies(s, step) then s
    else
      var r := s.rep;
      match step
      case Arrive(n) => s.(input := s.input + n, turn := true)
      case Drain(n) => s.(queue := s.queue - n, rep := r.(owed := r.owed + 1))
      case Push(taken, queued, reports) =>
        s.(input := s.input - taken, queue := s.queue + queued, rep := r.(owed := r.owed + reports))
      case Refused => s.(cb := Check(s.cb.seen))
      case Callback => CallbackDo(s)
      case Start => s.(rep := r.(owed := r.owed - 1, look := r.look + 1))
      case Look =>
        s.(rep := if s.queue > s.high / 2 then r.(look := r.look - 1) else r.(look := r.look - 1, bump := r.bump + 1))
      case Bump => s.(drains := s.drains + 1, rep := r.(bump := r.bump - 1, claim := r.claim + 1))
      case Claim =>
        s.(waiting := false,
           rep := if s.waiting then r.(claim := r.claim - 1, choose := r.choose + 1) else r.(claim := r.claim - 1))
      case Choose =>
        s.(rep := if s.paused then r.(choose := r.choose - 1, resume := r.resume + 1)
                  else r.(choose := r.choose - 1, wake := r.wake + 1))
      case Wake => s.(turn := true, rep := r.(wake := r.wake - 1))
      case Resume =>
        s.(paused := false,
           rep := if s.paused then r.(resume := r.resume - 1, turn := r.turn + 1) else r.(resume := r.resume - 1))
      case Turn => s.(turn := true, rep := r.(turn := r.turn - 1))
  }

  /** The state after a run of steps, taken in any order by anyone. */
  function Exec(s: State, steps: seq<Step>): State {
    if steps == [] then s else Do(Exec(s, steps[..|steps| - 1]), steps[|steps| - 1])
  }

  // ------------------------------------------------------------- the argument

  /** The destination is behind, or a report that has not counted its drain is on its way. */
  predicate Behind(s: State) { s.queue > 0 || s.rep.owed > 0 || s.rep.look > 0 || s.rep.bump > 0 }

  /** A waiting mark that will be claimed: by a report still to come, or by one past its count. */
  predicate Awaited(s: State) { s.waiting && (Behind(s) || s.rep.claim > 0) }

  /** A turn of the source is scheduled or about to be. */
  predicate Coming(s: State) { s.turn || s.rep.wake > 0 || s.rep.turn > 0 }

  predicate CallbackOk(s: State) {
    match s.cb
    case Idle =>
      if s.paused then Awaited(s) || s.rep.choose > 0 || s.rep.resume > 0
      else s.input > 0 ==> Coming(s) || Awaited(s) || s.rep.choose > 0
    case Snapshot => true
    case Test(d) => d <= s.drains
    case Forward(d) => d <= s.drains
    case Check(d) => d <= s.drains && (s.input > 0 ==> Behind(s) || s.drains != d)
    case Mark(d) => s.input > 0 && d <= s.drains && (Behind(s) || s.drains != d)
    case Recheck(d) =>
      && s.input > 0 && d <= s.drains && (Behind(s) || s.drains != d)
      && (s.waiting || s.rep.choose > 0 || Coming(s))
    case TakeBack => s.input > 0 && (s.waiting || s.rep.choose > 0 || Coming(s))
    case WakeSelf => true
    case MaybeHold => s.input > 0 && (Awaited(s) || (!s.waiting && (s.rep.choose > 0 || Coming(s))))
    case Pausing => s.input > 0 && (Awaited(s) || !s.waiting)
    case LookAgain => (s.waiting ==> Awaited(s)) && (s.paused || Coming(s))
    case Release => s.paused || Coming(s)
    case ReleaseTurn => true
  }

  predicate MayBePaused(cb: Callback) { cb.Idle? || cb.LookAgain? || cb.Release? }

  predicate Inv(s: State) {
    && s.high > 0
    && CallbackOk(s)
    && (s.paused ==> MayBePaused(s.cb) && s.input > 0)
    && (s.cb.LookAgain? || s.cb.Release? ==> s.input > 0)
  }

  predicate Forwarding(cb: Callback) {
    cb.Idle? || cb.Snapshot? || cb.Test? || cb.Forward? || cb.Check? || cb.Mark? || cb.Recheck?
  }

  lemma ForwardingKeeps(s: State)
    requires Inv(s) && Applies(s, Callback) && Forwarding(s.cb)
    ensures Inv(CallbackDo(s))
  {
  }

  lemma HoldingKeeps(s: State)
    requires Inv(s) && !Forwarding(s.cb)
    ensures Inv(CallbackDo(s))
  {
  }

  /** Reports pass the obligation on: shrink, look, count, claim, and the claim ends in a turn. */
  lemma ReportKeeps(s: State, step: Step)
    requires Inv(s) && Applies(s, step)
    requires step.Start? || step.Look? || step.Bump? || step.Claim?
    ensures Inv(Do(s, step))
  {
  }

  lemma ClaimedKeeps(s: State, step: Step)
    requires Inv(s) && Applies(s, step)
    requires step.Choose? || step.Wake? || step.Resume? || step.Turn?
    ensures Inv(Do(s, step))
  {
  }

  lemma TrafficKeeps(s: State, step: Step)
    requires Inv(s) && Applies(s, step)
    requires step.Arrive? || step.Drain? || step.Push? || step.Refused?
    ensures Inv(Do(s, step))
  {
  }

  lemma StepKeeps(s: State, step: Step)
    requires Inv(s)
    ensures Inv(Do(s, step))
  {
    if Applies(s, step) {
      if step.Callback? {
        if Forwarding(s.cb) { ForwardingKeeps(s); } else { HoldingKeeps(s); }
      } else if step.Start? || step.Look? || step.Bump? || step.Claim? {
        ReportKeeps(s, step);
      } else if step.Choose? || step.Wake? || step.Resume? || step.Turn? {
        ClaimedKeeps(s, step);
      } else {
        TrafficKeeps(s, step);
      }
    }
  }

  lemma {:induction false} Reachable(s: State, steps: seq<Step>)
    requires Init(s)
    ensures Inv(Exec(s, steps))
  {
    if steps != [] {
      Reachable(s, steps[..|steps| - 1]);
      StepKeeps(Exec(s, steps[..|steps| - 1]), steps[|steps| - 1]);
    }
  }

  // ----------------------------------------------------------- what is proved

  /** In every interleaving, a leg between callbacks with input it has not forwarded has a turn coming,
      or a report that claimed its waiting mark and will start one, or it is marked waiting while its
      destination is behind or a report that will claim the mark is on its way.  A paused leg is
      always the last two: its pause is never left behind. */
  lemma {:induction false} NeverHangs(s: State, steps: seq<Step>)
    requires Init(s)
    ensures var u := Exec(s, steps);
            && (u.cb.Idle? && u.input > 0 && !u.paused ==> Coming(u) || u.rep.choose > 0 || Awaited(u))
            && (u.cb.Idle? && u.paused ==> u.rep.choose > 0 || u.rep.resume > 0 || Awaited(u))
  {
    Reachable(s, steps);
  }

  /** At rest, once the destination has drained and every report has run, everything was forwarded. */
  lemma {:induction false} NothingLeftAtRest(s: State, steps: seq<Step>)
    requires Init(s)
    requires var u := Exec(s, steps);
             u.cb.Idle? && !u.turn && u.queue == 0 && u.rep == Reports(0, 0, 0, 0, 0, 0, 0, 0)
    ensures Exec(s, steps).input == 0 && !Exec(s, steps).paused
  {
    Reachable(s, steps);
  }

  /** Steps the leg and the reports take by themselves. */
  predicate Own(step: Step) { !step.Arrive? && !step.Drain? && !step.Push? }

  /** What the callback may still do before it is idle.  A count loaded before a drain, and a mark that a
      report claimed, may each cost it one more turn. */
  function CallbackWork(s: State): nat {
    match s.cb
    case Idle => 0
    case Snapshot => 9
    case Test(d) => 8 + Missed(s, d)
    case Forward(d) => 7 + Missed(s, d)
    case Check(d) => 6 + Missed(s, d)
    case Mark(d) => 5 + Missed(s, d)
    case Recheck(d) => 4 + Missed(s, d) + Taken(s)
    case TakeBack => 12
    case WakeSelf => 11
    case MaybeHold => 3 + Taken(s)
    case Pausing => 2 + Taken(s)
    case LookAgain => 1 + Taken(s)
    case Release => 12
    case ReleaseTurn => 11
  }

  function Missed(s: State, seen: nat): nat { if s.drains != seen then 10 else 0 }

  function Taken(s: State): nat { if s.waiting then 0 else 12 }

  function LegWork(s: State): nat { (if s.turn then 10 else 0) + CallbackWork(s) }

  function ReportWork(r: Reports): nat {
    39 * r.owed + 38 * r.look + 37 * r.bump + 26 * r.claim + 13 * r.choose + 11 * r.wake + 12 * r.resume + 11 * r.turn
  }

  /** A bound on the steps the leg and the reports can take by themselves. */
  function Work(s: State): nat { LegWork(s) + ReportWork(s.rep) }

  /** What a step of the source's peer or of the destination adds to it. */
  function Brings(step: Step): nat {
    match step
    case Arrive(_) => 10
    case Drain(_) => 39
    case Push(_, _, reports) => 39 * reports
    case _ => 0
  }

  lemma ForwardingWorks(s: State)
    requires Applies(s, Callback) && Forwarding(s.cb)
    ensures LegWork(CallbackDo(s)) < LegWork(s)
  {
    match s.cb
    case Idle =>
    case Snapshot =>
    case Test(_) =>
    case Forward(_) =>
    case Check(_) =>
    case Mark(_) =>
    case Recheck(_) =>
  }

  lemma HoldingWorks(s: State)
    requires !Forwarding(s.cb)
    ensures LegWork(CallbackDo(s)) < LegWork(s)
  {
    match s.cb
    case TakeBack =>
    case WakeSelf =>
    case MaybeHold =>
    case Pausing =>
    case LookAgain =>
    case Release =>
    case ReleaseTurn =>
  }

  lemma CallbackWorks(s: State)
    requires Applies(s, Callback)
    ensures Work(CallbackDo(s)) < Work(s)
  {
    assert CallbackDo(s).rep == s.rep;
    if Forwarding(s.cb) { ForwardingWorks(s); } else { HoldingWorks(s); }
  }

  /** A drain that is counted, or a mark that is claimed, costs the callback at most one more turn. */
  lemma CallbackPays(s: State, t: State)
    requires t.cb == s.cb
    ensures t.drains == s.drains && t.waiting == s.waiting ==> CallbackWork(t) == CallbackWork(s)
    ensures t.waiting == s.waiting ==> CallbackWork(t) <= CallbackWork(s) + 10
    ensures t.drains == s.drains ==> CallbackWork(t) <= CallbackWork(s) + 12
  {
  }

  lemma EarlyWorks(s: State, step: Step)
    requires Applies(s, step) && (step.Start? || step.Look? || step.Bump? || step.Claim?)
    ensures Work(Do(s, step)) < Work(s)
  {
    var t, r := Do(s, step), s.rep;
    CallbackPays(s, t);
    match step
    case Start => assert t.rep == r.(owed := r.owed - 1, look := r.look + 1);
    case Look => assert t.rep == r.(look := r.look - 1) || t.rep == r.(look := r.look - 1, bump := r.bump + 1);
    case Bump => assert t.rep == r.(bump := r.bump - 1, claim := r.claim + 1);
    case Claim => assert t.rep == r.(claim := r.claim - 1) || t.rep == r.(claim := r.claim - 1, choose := r.choose + 1);
  }

  lemma LateWorks(s: State, step: Step)
    requires Applies(s, step) && (step.Choose? || step.Wake? || step.Resume? || step.Turn?)
    ensures Work(Do(s, step)) < Work(s)
  {
    CallbackPays(s, Do(s, step));
    match step
    case Choose =>
    case Wake =>
    case Resume =>
    case Turn =>
  }

  lemma RefusedWorks(s: State)
    requires Applies(s, Refused)
    ensures Work(Do(s, Refused)) < Work(s)
  {
  }

  lemma TrafficWorks(s: State, step: Step)
    requires Applies(s, step) && !Own(step)
    ensures Work(Do(s, step)) <= Work(s) + Brings(step)
  {
    match step
    case Arrive(_) =>
    case Drain(_) =>
    case Push(_, _, reports) =>
      assert ReportWork(s.rep.(owed := s.rep.owed + reports)) == ReportWork(s.rep) + 39 * reports;
  }

  lemma StepWorks(s: State, step: Step)
    requires Applies(s, step)
    ensures Work(Do(s, step)) + (if Own(step) then 1 else 0) <= Work(s) + Brings(step)
  {
    if step.Callback? {
      CallbackWorks(s);
    } else if step.Refused? {
      RefusedWorks(s);
    } else if step.Start? || step.Look? || step.Bump? || step.Claim? {
      EarlyWorks(s, step);
    } else if Own(step) {
      LateWorks(s, step);
    } else {
      TrafficWorks(s, step);
    }
  }

  /** How many of the leg's own steps a run took. */
  function OwnSteps(s: State, steps: seq<Step>): nat {
    if steps == [] then 0
    else
      var front, last := steps[..|steps| - 1], steps[|steps| - 1];
      OwnSteps(s, front) + if Own(last) && Applies(Exec(s, front), last) then 1 else 0
  }

  function BringsAll(steps: seq<Step>): nat {
    if steps == [] then 0 else BringsAll(steps[..|steps| - 1]) + Brings(steps[|steps| - 1])
  }

  /** In every run, in any interleaving, the callback and the reports take no more steps than the work there
      was and the work that arrivals, drains and writes brought: they come to rest by themselves. */
  lemma {:induction false} NeverSpins(s: State, steps: seq<Step>)
    ensures OwnSteps(s, steps) + Work(Exec(s, steps)) <= Work(s) + BringsAll(steps)
  {
    if steps != [] {
      var front, last := steps[..|steps| - 1], steps[|steps| - 1];
      NeverSpins(s, front);
      if Applies(Exec(s, front), last) { StepWorks(Exec(s, front), last); }
    }
  }

  /** No step of the leg or of a report is left to take. */
  ghost predicate AtRest(s: State) { forall step :: Own(step) ==> !Applies(s, step) }

  lemma RestMeans(s: State)
    requires AtRest(s)
    ensures s.rep == Reports(0, 0, 0, 0, 0, 0, 0, 0)
    ensures (s.cb.Idle? && !s.turn) || (s.cb.Forward? && s.input > 0 && s.queue == 0)
  {
    assert !Applies(s, Start) && !Applies(s, Look) && !Applies(s, Bump) && !Applies(s, Claim);
    assert !Applies(s, Choose) && !Applies(s, Wake) && !Applies(s, Resume) && !Applies(s, Turn);
    assert !Applies(s, Callback) && !Applies(s, Refused);
  }

  /** In every run, when the leg has come to rest it has forwarded everything and is not paused, or it is
      marked waiting with bytes still queued at the destination, whose drain will be reported, or it is
      in a write that an empty destination takes. */
  lemma {:induction false} RestIsProgress(s: State, steps: seq<Step>)
    requires Init(s) && AtRest(Exec(s, steps))
    ensures var u := Exec(s, steps);
            || (u.cb.Idle? && u.input == 0 && !u.paused)
            || (u.cb.Idle? && u.waiting && u.queue > 0)
            || (u.cb.Forward? && u.input > 0 && u.queue == 0)
  {
    Reachable(s, steps);
    RestMeans(Exec(s, steps));
  }

  /** A report that will claim the mark, or the turn it leads to, is on its way to a leg that has begun no
      callback since. */
  predicate Pledged(s: State) {
    s.cb.Idle? && s.queue <= s.high / 2
    && ((s.waiting && s.rep.owed + s.rep.look + s.rep.bump + s.rep.claim > 0) || s.rep.choose > 0
        || (s.paused && s.rep.resume > 0) || (!s.paused && Coming(s)))
  }

  lemma PledgeKept(s: State, step: Step)
    requires Pledged(s) && Own(step)
    ensures Pledged(Do(s, step)) || Do(s, step).runs > s.runs
  {
  }

  lemma RunsGrow(s: State, step: Step)
    ensures Do(s, step).runs >= s.runs
  {
  }

  lemma {:induction false} RunsOnly(s: State, steps: seq<Step>)
    ensures Exec(s, steps).runs >= s.runs
  {
    if steps != [] {
      RunsOnly(s, steps[..|steps| - 1]);
      RunsGrow(Exec(s, steps[..|steps| - 1]), steps[|steps| - 1]);
    }
  }

  lemma {:induction false} PledgeHolds(u: State, more: seq<Step>)
    requires Pledged(u) && forall i :: 0 <= i < |more| ==> Own(more[i])
    ensures Pledged(Exec(u, more)) || Exec(u, more).runs > u.runs
  {
    if more != [] {
      var v := Exec(u, more[..|more| - 1]);
      PledgeHolds(u, more[..|more| - 1]);
      RunsOnly(u, more[..|more| - 1]);
      RunsGrow(v, more[|more| - 1]);
      if v.runs == u.runs { PledgeKept(v, more[|more| - 1]); }
      assert Exec(u, more) == Do(v, more[|more| - 1]);
    }
  }

  /** A leg marked waiting whose destination is down to half the limit, with a report on its way, runs: in
      whatever order the callback and all reports take their steps, they come to rest, and by then the
      source has had a callback. */
  lemma {:induction false} DrainRunsSource(u: State, more: seq<Step>)
    requires u.cb.Idle? && u.waiting && u.queue <= u.high / 2
    requires u.rep.owed + u.rep.look + u.rep.bump + u.rep.claim > 0
    requires forall i :: 0 <= i < |more| ==> Own(more[i])
    ensures OwnSteps(u, more) <= Work(u)
    ensures AtRest(Exec(u, more)) ==> Exec(u, more).runs > u.runs
  {
    NeverSpins(u, more);
    BringsNothing(more);
    PledgeHolds(u, more);
    if AtRest(Exec(u, more)) { RestMeans(Exec(u, more)); }
  }

  lemma {:induction false} BringsNothing(steps: seq<Step>)
    requires forall i :: 0 <= i < |steps| ==> Own(steps[i])
    ensures BringsAll(steps) == 0
  {
    if steps != [] { BringsNothing(steps[..|steps| - 1]); }
  }

  // ------------------------------------------------------------ prefix writes

  /** What an empty destination with `room` bytes of budget does with a write: all of it or nothing. */
  function Takes(room: nat, size: nat): nat { if size <= room then size else 0 }

  /** The prefix writer: halves a write an empty destination refuses whole until a prefix fits, and
      keeps the overflow so that the caller retains the rest. */
  method WritePrefix(size: nat, room: nat) returns (n: nat, overflow: bool)
    ensures n <= size && n <= room && (overflow <==> n < size)
    ensures size > 0 && room > 0 ==> n > 0            // an empty destination is never refused for good
    ensures n == size || room <= 2 * n                // and at least half of its budget is used
  {
    var cur: nat := size;
    n := Takes(room, cur);
    while n == 0 && cur > 1
      invariant n == Takes(room, cur) && cur <= size && (size > 0 ==> cur > 0)
      invariant cur == size || room <= 2 * cur
      decreases cur
    {
      cur := cur / 2;
      n := Takes(room, cur);
    }
    overflow := n < size;
  }
}
