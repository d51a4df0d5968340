/** CloseWrite of one layer of a stack, against any number of concurrent writers.

    Goroutines enter and leave the layer, call CloseWrite or Flush; the connection's turn settles ends
    left waiting.  Every load, store and compare-and-swap is a step of its own, including those of
    `requestTurn`, whose inTurn and turnAsked flags decide whether a turn is asked for at all. */
module LayerHalfClose {

  /** The steps of `shutDown`. */
  datatype Stage =
    | LoadWriters | Claim | CheckOver | Flush | LoadHeld | Republish | ReloadHeld | Uncount | Call

  datatype Pc =
    | Out
    | Entering       // the first refuses() let it pass
    | Counted        // writers incremented, second refuses() to come
    | Inside         // admitted
    | Backing        // refused the second time, about to leave
    | LastOut        // its decrement reached zero, about to load shutPending
    | AskInTurn      // requestTurn: load inTurn
    | AskAsked       // requestTurn: load turnAsked
    | AskClaim       // requestTurn: compare-and-swap turnAsked
    | AskWake        // requestTurn: wake the socket
    | AskUndo        // requestTurn: the socket refused, about to clear turnAsked
    | Flushed        // Flush sent what the layer held, about to load shutsPending
    | Marked         // CloseWrite won markWriteShut, about to count shutsPending
    | Publishing     // about to store shutPending
    | Shut(at: Stage)

  datatype TurnPc =
    | Idle
    | Clearing       // about to clear turnAsked
    | Starting       // about to load the stack's phase and set inTurn
    | Running        // layers run; inTurn is set
    | Settling       // inTurn cleared, about to load shutsPending
    | Looking        // about to load shutPending
    | Ending(at: Stage)

  datatype Core = Core(
    gateShut: bool, pending: bool, writers: int, flushed: bool, held: nat, shuts: int,
    over: bool,      // no layer is called any more
    closing: bool,   // the socket is closing: it takes no wake
    inTurn: bool, asked: bool, wake: bool,
    sealed: bool,    // history: a shutDown saw the writers gone
    calls: nat,      // times the layer's closeWriter was called
    dropped: nat)    // ends given up: the connection closed, or the layer's flush failed

  datatype State = State(core: Core, actors: seq<Pc>, turn: TurnPc)

  ghost predicate Init(s: State) {
    && s.core == Core(false, false, 0, false, 0, 0, false, false, false, false, false, false, 0, 0)
    && (forall a :: 0 <= a < |s.actors| ==> s.actors[a] == Out)
    && s.turn == Idle
  }

  /** What the program does where its next step is not determined: which call a goroutine makes, how
      much a layer's flush or an acknowledgement lets go, whether a flush fails. */
  datatype Choice = Enter | CloseWrite | Keep(n: nat) | Fail | Proceed

  function Left(c: Core, choice: Choice): nat {
    if choice.Keep? && choice.n <= c.held then choice.n else c.held
  }

  datatype ShutResult = Goes(core: Core, next: Stage) | Returns(core: Core)

  /** One step of `shutDown`. */
  function ShutDo(c: Core, at: Stage, choice: Choice): ShutResult {
    match at
    case LoadWriters => if c.writers == 0 then Goes(c.(sealed := true), Claim) else Returns(c)
    case Claim => if c.pending then Goes(c.(pending := false), CheckOver) else Returns(c)
    case CheckOver =>
      if c.over then Returns(c.(shuts := c.shuts - 1, dropped := c.dropped + 1))
      else Goes(c, if c.flushed then LoadHeld else Flush)
    case Flush =>
      if choice.Fail? then Returns(c.(flushed := true, shuts := c.shuts - 1, dropped := c.dropped + 1))
      else Goes(c.(flushed := true, held := Left(c, choice)), CheckOver)
    case LoadHeld => Goes(c, if c.held > 0 then Republish else Uncount)
    case Republish => Goes(c.(pending := true), ReloadHeld)
    case ReloadHeld => if c.held > 0 then Returns(c) else Goes(c, LoadWriters)
    case Uncount => Goes(c.(shuts := c.shuts - 1), Call)
    case Call => Returns(c.(calls := c.calls + 1))
  }

  datatype ActorResult = To(core: Core, pc: Pc)

  /** One step of a goroutine. */
  function ActorDo(c: Core, p: Pc, choice: Choice): ActorResult {
    match p
    case Out =>
      if choice.Enter? then To(c, if c.gateShut || c.over then Out else Entering)
      else if choice.CloseWrite? then
        if c.over || c.gateShut then To(c, Out) else To(c.(gateShut := true), Marked)
      else if choice.Keep? then To(c.(held := Left(c, choice)), Flushed)
      else To(c, Out)
    case Entering => To(c.(writers := c.writers + 1), Counted)
    case Counted => To(c, if c.gateShut || c.over then Backing else Inside)
    case Inside =>
      if choice.Keep? then To(c.(held := c.held + choice.n), Inside)
      else To(c.(writers := c.writers - 1), if c.writers == 1 then LastOut else Out)
    case Backing => To(c.(writers := c.writers - 1), if c.writers == 1 then LastOut else Out)
    case LastOut => To(c, if c.pending then AskInTurn else Out)
    case Flushed => To(c, if c.shuts > 0 then AskInTurn else Out)
    case AskInTurn => To(c, if c.inTurn then Out else AskAsked)
    case AskAsked => To(c, if c.asked then Out else AskClaim)
    case AskClaim => To(c.(asked := true), if c.asked then Out else AskWake)
    case AskWake => if c.closing then To(c, AskUndo) else To(c.(wake := true), Out)
    case AskUndo => To(c.(asked := false), Out)
    case Marked => To(c.(shuts := c.shuts + 1), Publishing)
    case Publishing => To(c.(pending := true), Shut(LoadWriters))
    case Shut(at) =>
      match ShutDo(c, at, choice)
      case Goes(d, next) => To(d, Shut(next))
      case Returns(d) => To(d, Out)
  }

  datatype TurnResult = TurnTo(core: Core, pc: TurnPc)

  /** One step of the connection's turns: they start when the socket was woken, or for reasons of
      their own, and what the layers hold can leave while they run. */
  function TurnDo(c: Core, p: TurnPc, choice: Choice): TurnResult {
    match p
    case Idle => TurnTo(c.(wake := false), Clearing)
    case Clearing => TurnTo(c.(asked := false), Starting)
    case Starting => if c.over then TurnTo(c, Idle) else TurnTo(c.(inTurn := true), Running)
    case Running =>
      if choice.Keep? then TurnTo(c.(held := Left(c, choice)), Running)
      else TurnTo(c.(inTurn := false), Settling)
    case Settling => TurnTo(c, if c.shuts > 0 then Looking else Idle)
    case Looking => TurnTo(c, if c.pending && !c.over then Ending(LoadWriters) else Idle)
    case Ending(at) =>
      match ShutDo(c, at, choice)
      case Goes(d, next) => TurnTo(d, Ending(next))
      case Returns(d) => TurnTo(d, Idle)
  }

  datatype Step = Actor(a: nat, choice: Choice) | Turn(choice: Choice) | StackEnds | SocketCloses

  function Do(s: State, step: Step): State {
    match step
    case Actor(a, choice) =>
      if a < |s.actors| then
        var r := ActorDo(s.core, s.actors[a], choice);
        State(r.core, s.actors[a := r.pc], s.turn)
      else s
    case Turn(choice) =>
      var r := TurnDo(s.core, s.turn, choice);
      State(r.core, s.actors, r.pc)
    case StackEnds => s.(core := s.core.(over := true))
    case SocketCloses => s.(core := s.core.(closing := true))
  }

  /** The state after a run of steps, taken in any order by anyone. */
  function Exec(s: State, steps: seq<Step>): State {
    if steps == [] then s else Do(Exec(s, steps[..|steps| - 1]), steps[|steps| - 1])
  }

  // ------------------------------------------------------------- the argument

  /** Three things are counted over the goroutines: writes that are counted in `writers`, holders of
      the one end there is to pass, and holders of a count in shutsPending. */
  datatype Kind = Writing | End | Owing

  function StageWeight(kind: Kind, at: Stage): nat {
    match kind
    case Writing => 0
    case End => if at.LoadWriters? || at.Claim? || at.ReloadHeld? then 0 else 1
    case Owing => if at.LoadWriters? || at.Claim? || at.ReloadHeld? || at.Call? then 0 else 1
  }

  function Weight(kind: Kind, p: Pc): nat {
    match p
    case Counted => if kind.Writing? then 1 else 0
    case Inside => if kind.Writing? then 1 else 0
    case Backing => if kind.Writing? then 1 else 0
    case Marked => if kind.End? then 1 else 0
    case Publishing => if kind.Writing? then 0 else 1
    case Shut(at) => StageWeight(kind, at)
    case _ => 0
  }

  function TurnWeight(kind: Kind, p: TurnPc): nat {
    if p.Ending? then StageWeight(kind, p.at) else 0
  }

  function Total(kind: Kind, actors: seq<Pc>): nat {
    if actors == [] then 0 else Weight(kind, actors[0]) + Total(kind, actors[1..])
  }

  function One(b: bool): nat { if b then 1 else 0 }

  predicate StageOk(c: Core, at: Stage) {
    && c.gateShut && (!at.LoadWriters? ==> c.sealed)
    && (at.Uncount? || at.Call? ==> c.held == 0)
  }

  predicate ActorOk(c: Core, p: Pc) {
    match p
    case Shut(at) => StageOk(c, at)
    case Inside => !c.sealed
    case Marked => c.gateShut
    case Publishing => c.gateShut
    case AskUndo => c.closing
    case _ => true
  }

  predicate TurnOk(c: Core, p: TurnPc) {
    && (p.Running? <==> c.inTurn)
    && (p.Ending? ==> StageOk(c, p.at))
  }

  /** Someone will still look at a published end. */
  ghost predicate Minded(s: State) {
    || s.core.held > 0 || s.core.writers > 0 || s.core.asked
    || (!s.turn.Idle? && (s.turn.Ending? ==> s.turn.at != Call))
    || exists a :: 0 <= a < |s.actors| && Minds(s.actors[a])
  }

  predicate Minds(p: Pc) {
    p.LastOut? || p.AskInTurn? || p.AskAsked? || p.AskClaim? || p.Flushed? || (p.Shut? && p.at != Call)
  }

  /** A turn is on its way for a request recorded in turnAsked. */
  ghost predicate Asked(s: State) {
    s.core.wake || s.turn.Clearing? || exists a :: 0 <= a < |s.actors| && s.actors[a].AskWake?
  }

  ghost predicate Inv(s: State) {
    && Counts(s)
    && TurnOk(s.core, s.turn)
    && (forall a :: 0 <= a < |s.actors| ==> ActorOk(s.core, s.actors[a]))
    && (s.core.sealed ==> s.core.gateShut) && (s.core.calls > 0 ==> s.core.sealed)
    && (s.core.asked && !s.core.closing ==> Asked(s))
    && (s.core.pending && !s.core.over && !s.core.closing ==> Minded(s))
  }

  lemma {:induction false} TotalUpdate(kind: Kind, actors: seq<Pc>, a: nat, q: Pc)
    requires a < |actors|
    ensures Total(kind, actors[a := q]) == Total(kind, actors) - Weight(kind, actors[a]) + Weight(kind, q)
  {
    if a > 0 {
      TotalUpdate(kind, actors[1..], a - 1, q);
      assert actors[a := q][1..] == actors[1..][a - 1 := q];
    } else {
      assert actors[0 := q][1..] == actors[1..];
    }
  }

  lemma {:induction false} TotalAtLeast(kind: Kind, actors: seq<Pc>, a: nat)
    requires a < |actors|
    ensures Total(kind, actors) >= Weight(kind, actors[a])
  {
    if a > 0 { TotalAtLeast(kind, actors[1..], a - 1); }
  }

  lemma {:induction false} TotalOut(kind: Kind, actors: seq<Pc>)
    requires forall a :: 0 <= a < |actors| ==> actors[a] == Out
    ensures Total(kind, actors) == 0
  {
    if actors != [] { TotalOut(kind, actors[1..]); }
  }

  ghost predicate Counts(s: State) {
    && s.core.writers == Total(Writing, s.actors)
    && Total(End, s.actors) + TurnWeight(End, s.turn) + One(s.core.pending) + s.core.calls + s.core.dropped
       == One(s.core.gateShut)
    && s.core.shuts == Total(Owing, s.actors) + TurnWeight(Owing, s.turn) + One(s.core.pending)
  }

  /** What a step does to the counted fields, set off against the weights it moves between. */
  ghost predicate Balanced(c: Core, d: Core, writing: int, end: int, owing: int) {
    && d.writers == c.writers + writing
    && One(d.pending) + d.calls + d.dropped - One(d.gateShut) + end
       == One(c.pending) + c.calls + c.dropped - One(c.gateShut)
    && d.shuts - One(d.pending) == c.shuts - One(c.pending) + owing
  }

  function After(kind: Kind, r: ShutResult): nat { if r.Goes? then StageWeight(kind, r.next) else 0 }

  lemma ShutBalanced(c: Core, at: Stage, choice: Choice)
    requires StageWeight(End, at) == 1 ==> !c.pending
    ensures var r := ShutDo(c, at, choice);
            Balanced(c, r.core, 0, After(End, r) - StageWeight(End, at), After(Owing, r) - StageWeight(Owing, at))
  {
  }

  ghost predicate ActorBalance(c: Core, p: Pc, r: ActorResult) {
    Balanced(c, r.core, Weight(Writing, r.pc) - Weight(Writing, p),
             Weight(End, r.pc) - Weight(End, p), Weight(Owing, r.pc) - Weight(Owing, p))
  }

  lemma ShutActorBalanced(c: Core, at: Stage, choice: Choice)
    requires StageWeight(End, at) == 1 ==> !c.pending
    ensures ActorBalance(c, Shut(at), ActorDo(c, Shut(at), choice))
  {
    var r := ShutDo(c, at, choice);
    ShutBalanced(c, at, choice);
    assert ActorDo(c, Shut(at), choice) == To(r.core, if r.Goes? then Shut(r.next) else Out);
  }

  lemma WriterBalanced(c: Core, p: Pc, choice: Choice)
    requires p.Entering? || p.Counted? || p.Inside? || p.Backing?
    ensures ActorBalance(c, p, ActorDo(c, p, choice))
  {
    match p
    case Entering =>
    case Counted =>
    case Inside =>
    case Backing =>
  }

  lemma CloserBalanced(c: Core, p: Pc, choice: Choice)
    requires (p.Out? || p.Marked? || p.Publishing?) && (p.Publishing? ==> !c.pending)
    ensures ActorBalance(c, p, ActorDo(c, p, choice))
  {
    match p
    case Out =>
    case Marked =>
    case Publishing =>
  }

  lemma ActorBalanced(c: Core, p: Pc, choice: Choice)
    requires Weight(End, p) == 1 ==> !c.pending
    ensures ActorBalance(c, p, ActorDo(c, p, choice))
  {
    match p
    case Shut(at) => ShutActorBalanced(c, at, choice);
    case Entering => WriterBalanced(c, p, choice);
    case Counted => WriterBalanced(c, p, choice);
    case Inside => WriterBalanced(c, p, choice);
    case Backing => WriterBalanced(c, p, choice);
    case Out => CloserBalanced(c, p, choice);
    case Marked => CloserBalanced(c, p, choice);
    case Publishing => CloserBalanced(c, p, choice);
    case LastOut =>
    case AskInTurn =>
    case AskAsked =>
    case AskClaim =>
    case AskWake =>
    case AskUndo =>
    case Flushed =>
  }

  lemma TurnBalanced(c: Core, p: TurnPc, choice: Choice)
    requires TurnWeight(End, p) == 1 ==> !c.pending
    ensures var r := TurnDo(c, p, choice);
            Balanced(c, r.core, 0, TurnWeight(End, r.pc) - TurnWeight(End, p),
                     TurnWeight(Owing, r.pc) - TurnWeight(Owing, p))
  {
    if p.Ending? { ShutBalanced(c, p.at, choice); }
  }

  lemma CountsKept(s: State, step: Step)
    requires Counts(s)
    ensures Counts(Do(s, step))
  {
    match step
    case Actor(a, choice) =>
      if a < |s.actors| {
        var q := ActorDo(s.core, s.actors[a], choice).pc;
        TotalAtLeast(End, s.actors, a);
        ActorBalanced(s.core, s.actors[a], choice);
        TotalUpdate(Writing, s.actors, a, q);
        TotalUpdate(End, s.actors, a, q);
        TotalUpdate(Owing, s.actors, a, q);
      }
    case Turn(choice) => TurnBalanced(s.core, s.turn, choice);
    case _ =>
  }

  /** Whoever is counted keeps the count above zero, so an end is claimed with nobody inside; behind a
      shut gate nobody gets inside afterwards. */
  lemma StageKept(c: Core, at: Stage, choice: Choice)
    requires StageOk(c, at)
    ensures var r := ShutDo(c, at, choice); r.Goes? ==> StageOk(r.core, r.next)
  {
  }

  /** What another goroutine's step leaves true of an actor it did not move. */
  ghost predicate Tame(c: Core, d: Core) {
    && (c.gateShut ==> d.gateShut) && (c.sealed ==> d.sealed) && (c.closing ==> d.closing)
    && (d.sealed && !c.sealed ==> c.writers == 0 && c.gateShut)
    && (c.sealed ==> d.held <= c.held)
  }

  ghost predicate SameFlags(c: Core, d: Core) {
    d.inTurn == c.inTurn && d.asked == c.asked && d.wake == c.wake && d.over == c.over && d.closing == c.closing
  }

  lemma ShutFlags(c: Core, at: Stage, choice: Choice)
    ensures SameFlags(c, ShutDo(c, at, choice).core)
    ensures ShutDo(c, at, choice).core.calls > c.calls ==> at.Call?
  {
  }

  lemma ShutTame(c: Core, at: Stage, choice: Choice)
    requires StageOk(c, at)
    ensures Tame(c, ShutDo(c, at, choice).core)
  {
  }

  lemma ActorTame(c: Core, p: Pc, choice: Choice)
    requires ActorOk(c, p)
    ensures Tame(c, ActorDo(c, p, choice).core)
  {
    if p.Shut? { ShutTame(c, p.at, choice); }
  }

  lemma TurnTame(c: Core, p: TurnPc, choice: Choice)
    requires TurnOk(c, p)
    ensures Tame(c, TurnDo(c, p, choice).core)
  {
    if p.Ending? { ShutTame(c, p.at, choice); }
  }

  lemma OthersKept(c: Core, d: Core, q: Pc)
    requires Tame(c, d) && ActorOk(c, q) && (Weight(Writing, q) > 0 ==> c.writers > 0)
    ensures ActorOk(d, q)
  {
  }

  lemma LocalKept(s: State, step: Step)
    requires Inv(s)
    ensures var t := Do(s, step);
            && TurnOk(t.core, t.turn)
            && (forall b :: 0 <= b < |t.actors| ==> ActorOk(t.core, t.actors[b]))
            && (t.core.sealed ==> t.core.gateShut) && (t.core.calls > 0 ==> t.core.sealed)
  {
    match step
    case Actor(a, choice) =>
      if a < |s.actors| {
        assert ActorOk(s.core, s.actors[a]);
        ActorLocal(s.core, s.actors[a], choice);
        ActorTame(s.core, s.actors[a], choice);
        TurnUnmoved(s.core, s.actors[a], choice, s.turn);
        forall b | 0 <= b < |s.actors| && b != a ensures ActorOk(Do(s, step).core, s.actors[b]) {
          TotalAtLeast(Writing, s.actors, b);
          OthersKept(s.core, Do(s, step).core, s.actors[b]);
        }
      }
    case Turn(choice) =>
      TurnLocal(s.core, s.turn, choice);
      TurnTame(s.core, s.turn, choice);
      forall b | 0 <= b < |s.actors| ensures ActorOk(Do(s, step).core, s.actors[b]) {
        TotalAtLeast(Writing, s.actors, b);
        OthersKept(s.core, Do(s, step).core, s.actors[b]);
      }
    case _ =>
  }

  ghost predicate CoreOk(c: Core) { (c.sealed ==> c.gateShut) && (c.calls > 0 ==> c.sealed) }

  lemma CoreKept(c: Core, at: Stage, choice: Choice)
    requires StageOk(c, at) && CoreOk(c)
    ensures CoreOk(ShutDo(c, at, choice).core)
  {
    match at
    case LoadWriters =>
    case Claim =>
    case CheckOver =>
    case Flush =>
    case LoadHeld =>
    case Republish =>
    case ReloadHeld =>
    case Uncount =>
    case Call =>
  }

  lemma ActorLocal(c: Core, p: Pc, choice: Choice)
    requires ActorOk(c, p) && CoreOk(c)
    ensures var r := ActorDo(c, p, choice); ActorOk(r.core, r.pc) && CoreOk(r.core)
  {
    match p
    case Out =>
    case Entering =>
    case Counted =>
    case Inside =>
    case Backing =>
    case LastOut =>
    case AskInTurn =>
    case AskAsked =>
    case AskClaim =>
    case AskWake =>
    case AskUndo =>
    case Flushed =>
    case Marked =>
    case Publishing =>
    case Shut(at) =>
      StageKept(c, at, choice);
      CoreKept(c, at, choice);
      var r := ShutDo(c, at, choice);
      assert ActorDo(c, p, choice) == if r.Goes? then To(r.core, Shut(r.next)) else To(r.core, Out);
  }

  lemma TurnLocal(c: Core, p: TurnPc, choice: Choice)
    requires TurnOk(c, p) && CoreOk(c) && (c.pending ==> c.gateShut)
    ensures var r := TurnDo(c, p, choice); TurnOk(r.core, r.pc) && CoreOk(r.core)
  {
    match p
    case Idle =>
    case Clearing =>
    case Starting =>
    case Running =>
    case Settling =>
    case Looking =>
    case Ending(at) =>
      StageKept(c, at, choice);
      CoreKept(c, at, choice);
      ShutFlags(c, at, choice);
  }

  lemma TurnUnmoved(c: Core, p: Pc, choice: Choice, turn: TurnPc)
    requires ActorOk(c, p) && TurnOk(c, turn)
    ensures TurnOk(ActorDo(c, p, choice).core, turn)
  {
    ActorTame(c, p, choice);
    ActorFlags(c, p, choice);
  }

  lemma ActorFlags(c: Core, p: Pc, choice: Choice)
    ensures var r := ActorDo(c, p, choice);
            && r.core.inTurn == c.inTurn && r.core.over == c.over && r.core.closing == c.closing
            && (r.core.asked == c.asked || r.pc.AskWake? || p.AskUndo?)
            && (c.asked && !p.AskUndo? ==> r.core.asked) && (c.wake ==> r.core.wake)
            && (p.AskWake? && !c.closing ==> r.core.wake)
            && (r.core.calls > c.calls ==> p == Shut(Call))
  {
    if p.Shut? { ShutFlags(c, p.at, choice); }
  }

  lemma TurnFlags(c: Core, p: TurnPc, choice: Choice)
    ensures var r := TurnDo(c, p, choice);
            && r.core.over == c.over && r.core.closing == c.closing
            && (r.core.asked ==> c.asked && !p.Clearing?)
            && (c.wake ==> r.core.wake || r.pc.Clearing?)
            && (r.core.calls > c.calls ==> p == Ending(Call))
  {
    if p.Ending? { ShutFlags(c, p.at, choice); }
  }

  lemma AskedKept(s: State, step: Step)
    requires s.core.asked && !s.core.closing ==> Asked(s)
    requires forall a :: 0 <= a < |s.actors| ==> ActorOk(s.core, s.actors[a])
    ensures var t := Do(s, step); t.core.asked && !t.core.closing ==> Asked(t)
  {
    var t := Do(s, step);
    match step
    case Actor(a, choice) =>
      if a < |s.actors| && t.core.asked && !t.core.closing && !t.core.wake && !t.turn.Clearing? {
        ActorFlags(s.core, s.actors[a], choice);
        assert ActorOk(s.core, s.actors[a]);
        if !t.actors[a].AskWake? {
          var b :| 0 <= b < |s.actors| && s.actors[b].AskWake?;
          assert t.actors[b].AskWake?;
        }
      }
    case Turn(choice) =>
      TurnFlags(s.core, s.turn, choice);
      if t.core.asked && !t.core.closing && !t.core.wake && !t.turn.Clearing? {
        var b :| 0 <= b < |s.actors| && s.actors[b].AskWake?;
        assert t.actors[b].AskWake?;
      }
    case StackEnds =>
      if t.core.asked && !t.core.closing && !t.core.wake && !t.turn.Clearing? {
        var b :| 0 <= b < |s.actors| && s.actors[b].AskWake?;
        assert t.actors[b].AskWake?;
      }
    case SocketCloses =>
  }

  /** What becomes of the reasons to mind a published end when the goroutine at `p` moves. */
  ghost predicate Passes(c: Core, p: Pc, r: ActorResult) {
    && (Minds(p) && r.core.pending ==>
          Minds(r.pc) || r.core.held > 0 || r.core.writers > 0 || r.core.asked || c.inTurn)
    && (c.held > 0 ==> r.core.held > 0 || Minds(r.pc))
    && (c.writers > 0 ==> r.core.writers > 0 || Minds(r.pc))
  }

  lemma ShutMinds(c: Core, at: Stage, choice: Choice)
    requires c.pending && StageWeight(End, at) == 0 && c.writers >= 0
    ensures var r := ShutDo(c, at, choice);
            && r.core.held == c.held && r.core.writers == c.writers
            && (r.core.pending ==> c.held > 0 || c.writers > 0 || (r.Goes? && r.next != Call))
  {
    var r := ShutDo(c, at, choice);
    match at
    case LoadWriters => assert r == Returns(c) || r == Goes(c.(sealed := true), Claim);
    case Claim => assert r == Goes(c.(pending := false), CheckOver);
    case ReloadHeld => assert r == Returns(c) || r == Goes(c, LoadWriters);
  }

  lemma OwnMinds(c: Core, p: Pc, choice: Choice)
    requires c.pending && c.shuts > 0 && Weight(End, p) == 0 && c.writers >= Weight(Writing, p)
    ensures Passes(c, p, ActorDo(c, p, choice))
  {
    match p
    case Out =>
    case Entering =>
    case Counted =>
    case Inside =>
    case Backing =>
    case LastOut =>
    case AskInTurn =>
    case AskAsked =>
    case AskClaim =>
    case AskWake =>
    case AskUndo =>
    case Flushed =>
    case Marked =>
    case Publishing =>
    case Shut(at) => ShutMinds(c, at, choice);
  }

  lemma ShutPublishes(c: Core, at: Stage, choice: Choice)
    requires !c.pending && ShutDo(c, at, choice).core.pending
    ensures at.Republish?
  {
  }

  /** Whoever publishes an end goes on to look at it. */
  lemma PublisherMinds(c: Core, p: Pc, choice: Choice)
    requires !c.pending && ActorDo(c, p, choice).core.pending
    ensures Minds(ActorDo(c, p, choice).pc)
  {
    match p
    case Out =>
    case Entering =>
    case Counted =>
    case Inside =>
    case Backing =>
    case LastOut =>
    case AskInTurn =>
    case AskAsked =>
    case AskClaim =>
    case AskWake =>
    case AskUndo =>
    case Flushed =>
    case Marked =>
    case Publishing =>
    case Shut(at) => ShutPublishes(c, at, choice);
  }

  /** The goroutines beside `a` mind a published end as they did. */
  lemma OthersMind(s: State, t: State, a: nat)
    requires a < |s.actors| == |t.actors| && t.actors == s.actors[a := t.actors[a]] && s.turn == t.turn && Minded(s)
    requires Passes(s.core, s.actors[a], To(t.core, t.actors[a])) && t.core.pending
    requires (s.core.asked ==> t.core.asked) && (s.core.inTurn ==> !s.turn.Idle? && !s.turn.Ending?)
    ensures Minded(t)
  {
    if Minds(t.actors[a]) {
    } else if b :| 0 <= b < |s.actors| && Minds(s.actors[b]) && b != a {
      assert Minds(t.actors[b]);
    }
  }

  /** A published end is always minded: the step that stops minding it hands it to someone else. */
  lemma ActorMinds(s: State, a: nat, choice: Choice)
    requires Inv(s) && a < |s.actors|
    ensures var t := Do(s, Actor(a, choice)); t.core.pending && !t.core.over && !t.core.closing ==> Minded(t)
  {
    var t := Do(s, Actor(a, choice));
    ActorFlags(s.core, s.actors[a], choice);
    if t.core.pending && !t.core.over && !t.core.closing {
      if !s.core.pending {
        PublisherMinds(s.core, s.actors[a], choice);
        assert Minds(t.actors[a]);
      } else {
        TotalAtLeast(End, s.actors, a);
        TotalAtLeast(Writing, s.actors, a);
        OwnMinds(s.core, s.actors[a], choice);
        assert ActorOk(s.core, s.actors[a]);
        OthersMind(s, t, a);
      }
    }
  }

  lemma TurnMinds(s: State, choice: Choice)
    requires Inv(s)
    ensures var t := Do(s, Turn(choice)); t.core.pending && !t.core.over && !t.core.closing ==> Minded(t)
  {
    var t := Do(s, Turn(choice));
    if s.turn.Ending? && s.core.pending { ShutMinds(s.core, s.turn.at, choice); }
    TurnFlags(s.core, s.turn, choice);
    if t.core.pending && !t.core.over && !t.core.closing && s.core.pending {
      if b :| 0 <= b < |s.actors| && Minds(s.actors[b]) {
        assert Minds(t.actors[b]);
      }
    }
  }

  lemma StepKeeps(s: State, step: Step)
    requires Inv(s)
    ensures Inv(Do(s, step))
  {
    CountsKept(s, step);
    LocalKept(s, step);
    AskedKept(s, step);
    match step
    case Actor(a, choice) => if a < |s.actors| { ActorMinds(s, a, choice); }
    case Turn(choice) => TurnMinds(s, choice);
    case _ =>
  }

  lemma {:induction false} Reachable(s: State, steps: seq<Step>)
    requires Init(s)
    ensures Inv(Exec(s, steps))
  {
    if steps == [] {
      TotalOut(Writing, s.actors);
      TotalOut(End, s.actors);
      TotalOut(Owing, s.actors);
    } else {
      Reachable(s, steps[..|steps| - 1]);
      StepKeeps(Exec(s, steps[..|steps| - 1]), steps[|steps| - 1]);
    }
  }

  // ----------------------------------------------------------- what is proved

  /** In every run the end is passed below at most once. */
  lemma {:induction false} PassedOnce(s: State, steps: seq<Step>)
    requires Init(s)
    ensures Exec(s, steps).core.calls <= 1
  {
    Reachable(s, steps);
  }

  /** In every run, the step that passes the end below finds no admitted write inside the layer and
      nothing held, and from then on no write is ever admitted. */
  lemma {:induction false} NeverOvertakes(s: State, steps: seq<Step>, step: Step)
    requires Init(s)
    ensures var u := Exec(s, steps); var t := Do(u, step);
            && (t.core.calls > u.core.calls ==> u.core.held == 0 && u.core.gateShut)
            && (t.core.calls > 0 ==> forall a :: 0 <= a < |t.actors| ==> u.actors[a] != Inside && t.actors[a] != Inside)
  {
    var u := Exec(s, steps);
    var t := Do(u, step);
    Reachable(s, steps);
    StepKeeps(u, step);
    if t.core.calls > u.core.calls { CallsAreSealed(u, step); }
    if t.core.calls > 0 {
      forall a | 0 <= a < |t.actors| ensures u.actors[a] != Inside && t.actors[a] != Inside {
        assert ActorOk(u.core, u.actors[a]) && ActorOk(t.core, t.actors[a]);
        if t.core.calls == u.core.calls { assert u.core.sealed; }
      }
    }
  }

  lemma CallsAreSealed(u: State, step: Step)
    requires Inv(u)
    ensures Do(u, step).core.calls > u.core.calls ==> u.core.held == 0 && u.core.sealed && u.core.gateShut
  {
    match step
    case Actor(a, choice) =>
      if a < |u.actors| {
        ActorFlags(u.core, u.actors[a], choice);
        assert ActorOk(u.core, u.actors[a]);
      }
    case Turn(choice) => TurnFlags(u.core, u.turn, choice);
    case _ =>
  }

  /** In every run, until the connection closes, an end that was asked for and is neither passed nor given
      up has someone to pass it; at rest, with nothing held back by the layer, it has been passed. */
  lemma {:induction false} NeverForgotten(s: State, steps: seq<Step>)
    requires Init(s)
    ensures var u := Exec(s, steps);
            && (u.core.pending && !u.core.over && !u.core.closing ==> Minded(u))
            && (u.core.gateShut && !u.core.over && !u.core.closing && u.core.dropped == 0 && u.core.held == 0
                && u.turn == Idle && !u.core.wake && (forall a :: 0 <= a < |u.actors| ==> u.actors[a] == Out)
                ==> u.core.calls == 1)
  {
    var u := Exec(s, steps);
    Reachable(s, steps);
    if forall a :: 0 <= a < |u.actors| ==> u.actors[a] == Out {
      TotalOut(Writing, u.actors);
      TotalOut(End, u.actors);
    }
  }
}
