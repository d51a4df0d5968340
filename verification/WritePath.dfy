/** The native stream write path: one write claim shared by the connection's turn, write turns and any
    number of producers, over a socket that takes a prefix or refuses.

    Every atomic operation and every section under the submit lock is a step of its own.  Accepted
    bytes lie, in this order, on the wire, in the detached batch, in the hand of a direct send, in the
    turn's reply space, and in the outbound queue. */
module WritePath {
  import opened Bytes

  // ------------------------------------------------------------------- state

  datatype Data = Data(
    wire: seq<byte>, inflight: seq<byte>, scratch: seq<byte>, outbound: seq<byte>,
    log: seq<seq<byte>>)         // accepted writes, in the order they were accepted

  datatype Owner = Free | ByTurn | ByWriter

  /** The write state word, the pending count and the phase. */
  datatype Ctl = Ctl(
    pending: int,                // accepted payload not yet written
    unretired: nat,              // sent by the holder, not yet taken off pending
    limit: nat,                  // MaxOutboundBuffered, 0 for none
    owner: Owner,                // writeOwnerFlag, with whom the claim is
    held: bool,                  // writeTurnHeldFlag: the turn keeps the claim for a reservation
    blocked: bool,               // writeBlockedFlag
    edgeFlag: bool,              // writeEdgeFlag
    isOpen: bool,                // writeOpenedFlag
    closing: bool)

  /** The socket, the poller's hold on its writable edge, the write event folded for the turn, and the one
      the turn took and has not noted: an open turn runs OnOpen in between. */
  datatype Poll = NoEdge | GotEdge | SawEmpty
  datatype Sock = Sock(full: bool, edge: bool, poll: Poll, event: bool, taken: bool)

  /** Goroutines inside `kickWriter` and write turns inside `finishWriteTurn`, by their next operation. */
  datatype Toks = Toks(kick1: nat, kick2: nat, kick3: nat, fin1: nat, fin2: nat, fin3: nat)

  /** Where the claim's holder stands in `flushWrite`. */
  datatype Send =
    | Rest | Entering | Choosing
    | Peeked(k: nat)             // outbound[..k] lent to a send, lock released
    | Sent(w: nat)               // outbound[..w] is on the wire, not discarded yet
    | Refused                    // the in-place send got EAGAIN, not recorded yet
    | Detached                   // sending the detached batch
    | BatchRefused
    | Retiring

  /** A write turn: submitted, at the head of its loop, flushing, or done and about to release. */
  datatype Writer = Absent | Handed | Looping | Flushing | Ending

  /** What the turn does after a flush: go on, end, or try once more to reserve. */
  datatype Next = Resume | Leave | Requeue(data: seq<byte>) | Rereserve(data: seq<byte>, took: bool)

  datatype Turn =
    | Off
    | Running                                      // callbacks run
    | TryDirect(data: seq<byte>)                   // saw nothing pending
    | Claimed(data: seq<byte>)                     // has the claim, about to look at pending again
    | Sending(data: seq<byte>, at: nat)            // nothing was queued: the write is log[at]
    | Suffix(rest: seq<byte>, at: nat, none: bool) // unsent rest, about to reserve it
    | Prepending(rest: seq<byte>, none: bool)      // reserved, about to queue it first
    | Settling(none: bool)                         // about to record whether the socket took anything
    | Releasing
    | Queueing(data: seq<byte>, tried: bool)       // about to reserve, the second time if tried
    | Appending(data: seq<byte>)                   // reserved, about to append
    | Reserving(data: seq<byte>, took: bool, tried: bool)   // ReserveOutbound with the claim
    | Placing(data: seq<byte>)                     // reserved, about to choose the place
    | PlacingLast(data: seq<byte>)                 // ... which is the tail of outbound
    | ScratchSend
    | ScratchRefused
    | ScratchDone
    | ClaimFlush(next: Next)                       // flushOnLoop saw output, about to take the claim
    | InFlush(next: Next)
    | Leaving

  datatype State = State(
    data: Data, ctl: Ctl, sock: Sock, toks: Toks,
    admitting: seq<seq<byte>>,   // producers that reserved and have not appended
    send: Send, writer: Writer, turn: Turn)

  ghost predicate Init(s: State) {
    && s.data == Data([], [], [], [], [])
    && s.ctl == Ctl(0, 0, s.ctl.limit, Free, false, false, false, false, false)
    && s.sock == Sock(false, s.sock.edge, NoEdge, false, false)    // registration may raise an edge
    && s.toks == Toks(0, 0, 0, 0, 0, 0)
    && s.admitting == [] && s.send == Rest && s.writer == Absent
    && s.turn == Off             // the first turn is the open turn
  }

  // ------------------------------------------------------------------- steps

  datatype Step =
    | Admit(bytes: seq<byte>) | Append(i: nat)                        // producers
    | Kick1 | Kick2 | Kick3 | Fin1 | Fin2 | Fin3
    | Hand | Loop(go: bool) | FlushDone | GiveUp                      // the write turn
    | Room | Poll1 | Poll2 | Poll3                                    // the socket and the poller
    | Close
    | Start | Note | Open | Write(bytes: seq<byte>, direct: bool)     // the connection's turn
    | Reserve(bytes: seq<byte>) | Flush | SendScratch | Finish
    | Turn(w: nat, fills: bool)
    | Sender(how: How)                                                // the holder, in flushWrite

  datatype How = InPlace(k: nat) | Detach | Batch | Stop | Take(w: nat, fills: bool)

  predicate Fits(c: Ctl, size: nat) { c.limit == 0 || size <= c.limit - c.pending }

  function Claim(c: Ctl, owner: Owner): Ctl { c.(owner := owner, edgeFlag := false) }

  /** releaseWrite followed by kickWriter, which runs on as an actor of its own. */
  function ReleaseAndKick(s: State): State {
    s.(ctl := s.ctl.(owner := Free, held := false), toks := s.toks.(kick1 := s.toks.kick1 + 1))
  }

  function HandOver(d: Data): Data { d.(scratch := [], outbound := d.scratch + d.outbound) }

  function Accept(d: Data, bytes: seq<byte>): Data {
    d.(outbound := d.outbound + bytes, log := d.log + [bytes])
  }

  function ProducerDo(s: State, step: Step): State
    requires step.Admit? || step.Append?
  {
    match step
    case Admit(bytes) =>
      if bytes != [] && !s.ctl.closing && Fits(s.ctl, |bytes|) then
        s.(ctl := s.ctl.(pending := s.ctl.pending + |bytes|), admitting := s.admitting + [bytes])
      else s
    case Append(i) =>
      if i < |s.admitting| then
        s.(data := Accept(s.data, s.admitting[i]), admitting := s.admitting[..i] + s.admitting[i + 1..],
           toks := s.toks.(kick1 := s.toks.kick1 + 1))
      else s
  }

  function TokDo(s: State, step: Step): State {
    var k, c := s.toks, s.ctl;
    match step
    case Kick1 =>
      if k.kick1 == 0 then s
      else if c.pending == 0 || c.closing then s.(toks := k.(kick1 := k.kick1 - 1))
      else s.(toks := k.(kick1 := k.kick1 - 1, kick2 := k.kick2 + 1))
    case Kick2 =>
      if k.kick2 == 0 then s
      else if c.owner != Free || c.blocked || !c.isOpen then s.(toks := k.(kick2 := k.kick2 - 1))
      else s.(toks := k.(kick2 := k.kick2 - 1, kick3 := k.kick3 + 1))
    case Kick3 =>
      if k.kick3 == 0 then s
      else if c.owner != Free then s.(toks := k.(kick3 := k.kick3 - 1))
      else s.(toks := k.(kick3 := k.kick3 - 1), ctl := Claim(c, ByWriter), writer := Handed)
    case Fin1 =>
      if k.fin1 == 0 then s
      else if c.pending == 0 then s.(toks := k.(fin1 := k.fin1 - 1))
      else s.(toks := k.(fin1 := k.fin1 - 1, fin2 := k.fin2 + 1))
    case Fin2 =>
      if k.fin2 == 0 then s
      else if c.blocked || c.closing then s.(toks := k.(fin2 := k.fin2 - 1))
      else s.(toks := k.(fin2 := k.fin2 - 1, fin3 := k.fin3 + 1))
    case Fin3 =>
      if k.fin3 == 0 then s
      else if c.owner != Free then s.(toks := k.(fin3 := k.fin3 - 1))
      else s.(toks := k.(fin3 := k.fin3 - 1), ctl := Claim(c, ByWriter), writer := Looping)
    case _ => s
  }

  function WriterDo(s: State, step: Step): State {
    match step
    case Hand => if s.writer.Handed? then s.(writer := Looping) else s
    case Loop(go) =>
      if !s.writer.Looping? then s
      else if s.ctl.closing || s.ctl.pending == 0 || s.ctl.blocked then s.(writer := Ending)
      else if go then s.(writer := Flushing, send := Entering)
      else s                                       // handed on to the next turn in the queue
    case FlushDone => if s.writer.Flushing? && s.send.Rest? then s.(writer := Looping) else s
    case GiveUp =>
      if !s.writer.Ending? then s
      else s.(ctl := s.ctl.(owner := Free), writer := Absent, toks := s.toks.(fin1 := s.toks.fin1 + 1))
    case _ => s
  }

  function SockDo(s: State, step: Step): State {
    var k := s.sock;
    match step
    case Room => if k.full then s.(sock := k.(full := false, edge := true)) else s
    case Poll1 => if k.edge && k.poll.NoEdge? then s.(sock := k.(edge := false, poll := GotEdge)) else s
    case Poll2 =>
      if !k.poll.GotEdge? then s
      else if s.ctl.closing then s.(sock := k.(poll := NoEdge))
      else if s.ctl.pending == 0 then s.(sock := k.(poll := SawEmpty))
      else s.(sock := k.(poll := NoEdge, event := true))
    case Poll3 =>
      if !k.poll.SawEmpty? then s
      else if s.ctl.owner == Free && !s.ctl.blocked then s.(sock := k.(poll := NoEdge))
      else s.(sock := k.(poll := NoEdge, event := true))
    case _ => s
  }

  /** The turn begins an operation from its callbacks, or ends. */
  function TurnBegin(s: State, step: Step): State {
    match step
    case Start =>
      if !s.turn.Off? then s
      else s.(turn := Running, sock := s.sock.(event := false, taken := s.sock.event))
    case Note =>
      if !s.turn.Running? || !s.sock.taken then s
      else s.(ctl := if s.ctl.closing then s.ctl else s.ctl.(blocked := false, edgeFlag := true),
              sock := s.sock.(taken := false))
    case Open => if s.turn.Running? then s.(ctl := s.ctl.(isOpen := true)) else s
    case Write(bytes, direct) =>
      if !s.turn.Running? || bytes == [] then s
      else s.(data := HandOver(s.data),
              turn := if direct && s.ctl.pending == 0 then TryDirect(bytes) else Queueing(bytes, false))
    case Reserve(bytes) =>
      if !s.turn.Running? || bytes == [] then s
      else if s.ctl.held then s.(turn := Reserving(bytes, false, false))
      else if s.ctl.owner == Free then
        s.(ctl := Claim(s.ctl, ByTurn).(held := true), turn := Reserving(bytes, true, false))
      else s                                       // ErrReserveUnsupported
    case Flush => if s.turn.Running? then BeginFlush(s, Resume) else s
    case SendScratch =>
      if !s.turn.Running? || s.data.scratch == [] then s
      else if s.ctl.pending != |s.data.scratch| || s.ctl.blocked || s.ctl.closing then s.(data := HandOver(s.data))
      else s.(turn := ScratchSend)
    case Finish =>
      if !s.turn.Running? || !s.ctl.isOpen || s.sock.taken then s
      else if s.ctl.closing then s.(data := HandOver(s.data), turn := Leaving)
      else BeginFlush(s, Leave)
    case _ => s
  }

  function Then(next: Next): Turn {
    match next
    case Resume => Running
    case Leave => Leaving
    case Requeue(data) => Queueing(data, true)
    case Rereserve(data, took) => Reserving(data, took, true)
  }

  /** flushOnLoop up to its claim: with nothing pending it returns at once. */
  function BeginFlush(s: State, next: Next): State {
    if s.ctl.pending == 0 then s.(turn := Then(next))
    else s.(data := HandOver(s.data), turn := ClaimFlush(next))
  }

  /** How much of `n` lent bytes a socket with room takes: something, as far as it can. */
  function Cap(w: nat, n: nat): (taken: nat)
    ensures taken <= n && (n > 0 ==> taken > 0)
  {
    if w == 0 && n > 0 then 1 else if w <= n then w else n
  }

  /** A direct write, up to its send. */
  function StartDo(s: State, w: nat, fills: bool): State {
    var d, c := s.data, s.ctl;
    match s.turn
    case TryDirect(data) =>
      if c.owner == Free then s.(ctl := Claim(c, ByTurn), turn := Claimed(data))
      else s.(turn := Queueing(data, false))
    case Claimed(data) =>
      if c.pending != 0 then ReleaseAndKick(s).(turn := Queueing(data, false))
      else s.(data := d.(log := d.log + [data]), turn := Sending(data, |d.log|))
    case Sending(data, at) =>
      if s.sock.full then s.(turn := Suffix(data, at, true))
      else
        var n := Cap(w, |data|);
        s.(data := d.(wire := d.wire + data[..n]), sock := s.sock.(full := fills),
           turn := if n == |data| then Releasing else Suffix(data[n..], at, false))
    case _ => s
  }

  /** A direct write, from its send on. */
  function SettleDo(s: State): State {
    var d, c := s.data, s.ctl;
    match s.turn
    case Suffix(rest, at, none) =>
      if Fits(c, |rest|) then s.(ctl := c.(pending := c.pending + |rest|), turn := Prepending(rest, none))
      else
        // overflow: nothing more of the write is accepted; a part on the wire ends the stream
        s.(data := d.(log := Withdraw(d.log, at, |rest|)), ctl := c.(closing := c.closing || !none), turn := Releasing)
    case Prepending(rest, none) =>
      s.(data := d.(outbound := rest + d.outbound), turn := Settling(none))
    case Settling(none) => s.(ctl := c.(blocked := none), turn := Releasing)
    case Releasing => ReleaseAndKick(s).(turn := Running)
    case _ => s
  }

  /** A queued write or a reservation goes on. */
  function QueueDo(s: State, fills: bool): State {
    var d, c := s.data, s.ctl;
    match s.turn
    case Queueing(data, tried) =>
      if Fits(c, |data|) then s.(ctl := c.(pending := c.pending + |data|), turn := Appending(data))
      else if tried || c.pending == 0 || c.blocked then s.(turn := Running)
      else BeginFlush(s, Requeue(data))
    case Appending(data) => s.(data := Accept(d, data), turn := Running)
    case Reserving(data, took, tried) =>
      if Fits(c, |data|) then s.(ctl := c.(pending := c.pending + |data|), turn := Placing(data))
      else if !tried && c.pending != 0 && !c.blocked then BeginFlush(s, Rereserve(data, took))
      else if took then ReleaseAndKick(s).(turn := Running)
      else s.(turn := Running)
    case Placing(data) =>
      if c.pending != |d.scratch| + |data| then s.(turn := PlacingLast(data))
      else if fills then s.(data := HandOver(d), turn := PlacingLast(data))     // no room left in the space
      else s.(data := d.(scratch := d.scratch + data, log := d.log + [data]), turn := Running)
    case PlacingLast(data) => s.(data := Accept(d, data), turn := Running)
    case _ => s
  }

  /** The reply space is sent at the end of a read round, or a flush or the turn ends. */
  function EndDo(s: State, w: nat, fills: bool): State {
    var d, c := s.data, s.ctl;
    match s.turn
    case ScratchSend =>
      if d.scratch == [] then s.(turn := ScratchDone)
      else if s.sock.full then s.(turn := ScratchRefused)
      else
        var n := Cap(w, |d.scratch|);
        s.(data := d.(wire := d.wire + d.scratch[..n], scratch := d.scratch[n..]),
           ctl := c.(unretired := c.unretired + n), sock := s.sock.(full := fills))
    case ScratchRefused =>
      if c.edgeFlag then s.(ctl := c.(edgeFlag := false), turn := ScratchSend)
      else s.(ctl := c.(blocked := true), data := HandOver(d), turn := ScratchDone)
    case ScratchDone => s.(ctl := c.(pending := c.pending - c.unretired, unretired := 0), turn := Running)
    case ClaimFlush(next) =>
      if c.held then s.(turn := InFlush(next), send := Entering)
      else if c.owner == Free then s.(ctl := Claim(c, ByTurn), turn := InFlush(next), send := Entering)
      else s.(turn := Then(next))
    case InFlush(next) =>
      if !s.send.Rest? then s
      else if c.held then s.(turn := Then(next))
      else ReleaseAndKick(s).(turn := Then(next))
    case Leaving => if c.held then ReleaseAndKick(s).(turn := Off) else s.(turn := Off)
    case _ => s
  }

  predicate DirectPc(t: Turn) {
    t.Claimed? || t.Sending? || t.Suffix? || t.Prepending? || t.Settling? || t.Releasing?
  }

  predicate StartPc(t: Turn) { t.TryDirect? || t.Claimed? || t.Sending? }

  predicate QueuePc(t: Turn) {
    t.Queueing? || t.Appending? || t.Reserving? || t.Placing? || t.PlacingLast?
  }

  /** The turn goes on with an operation it began. */
  function TurnDo(s: State, w: nat, fills: bool): State {
    if StartPc(s.turn) then StartDo(s, w, fills)
    else if DirectPc(s.turn) then SettleDo(s)
    else if QueuePc(s.turn) then QueueDo(s, fills)
    else EndDo(s, w, fills)
  }

  /** The write at `at` keeps what was sent of it; one nothing was sent of disappears. */
  function Withdraw(log: seq<seq<byte>>, at: nat, unsent: nat): seq<seq<byte>> {
    if at >= |log| || unsent > |log[at]| then log
    else if unsent == |log[at]| then log[..at] + log[at + 1..]
    else log[at := log[at][..|log[at]| - unsent]]
  }

  /** The holder goes on in `flushWrite`, which ends once it has sent something and chose to stop, was
      refused, or found nothing. */
  function SenderDo(s: State, how: How): State {
    var d, c := s.data, s.ctl;
    match s.send
    case Rest => s
    case Entering => s.(send := if c.pending == 0 || c.blocked then Rest else Choosing)
    case Choosing =>
      if how.InPlace? && d.inflight == [] && 0 < how.k <= |d.outbound| then s.(send := Peeked(how.k))
      else if how.Detach? && d.inflight == [] && d.outbound != [] then
        s.(data := d.(inflight := d.outbound, outbound := []), send := Detached)
      else if how.Batch? && d.inflight != [] then s.(send := Detached)
      else if how.Stop? && (c.unretired > 0 || (d.outbound == [] && d.inflight == [])) then s.(send := Retiring)
      else s
    case Peeked(k) =>
      if s.sock.full then s.(send := Refused)
      else if how.Take? && k <= |d.outbound| then
        var n := Cap(how.w, k);
        s.(data := d.(wire := d.wire + d.outbound[..n]), sock := s.sock.(full := how.fills), send := Sent(n))
      else s
    case Sent(w) =>
      if w <= |d.outbound| then
        s.(data := d.(outbound := d.outbound[w..]), ctl := c.(unretired := c.unretired + w), send := Choosing)
      else s
    case Refused =>
      if c.edgeFlag then s.(ctl := c.(edgeFlag := false), send := Choosing)
      else s.(ctl := c.(blocked := true), send := Retiring)
    case Detached =>
      if d.inflight == [] || (how.Stop? && c.unretired > 0) then s.(send := Retiring)
      else if s.sock.full then s.(send := BatchRefused)
      else if how.Take? then
        var n := Cap(how.w, |d.inflight|);
        s.(data := d.(wire := d.wire + d.inflight[..n], inflight := d.inflight[n..]),
           ctl := c.(unretired := c.unretired + n), sock := s.sock.(full := how.fills))
      else s
    case BatchRefused =>
      if c.edgeFlag then s.(ctl := c.(edgeFlag := false), send := Detached)
      else s.(ctl := c.(blocked := true), send := Retiring)
    case Retiring => s.(ctl := c.(pending := c.pending - c.unretired, unretired := 0), send := Rest)
  }

  predicate OfToks(step: Step) {
    step.Kick1? || step.Kick2? || step.Kick3? || step.Fin1? || step.Fin2? || step.Fin3?
  }

  predicate OfSock(step: Step) { step.Room? || step.Poll1? || step.Poll2? || step.Poll3? }

  predicate OfWriter(step: Step) { step.Hand? || step.Loop? || step.FlushDone? || step.GiveUp? }

  function Do(s: State, step: Step): State {
    if step.Turn? then TurnDo(s, step.w, step.fills)
    else if step.Sender? then SenderDo(s, step.how)
    else if step.Admit? || step.Append? then ProducerDo(s, step)
    else if step.Close? then s.(ctl := s.ctl.(closing := true))
    else if OfToks(step) then TokDo(s, step)
    else if OfSock(step) then SockDo(s, step)
    else if OfWriter(step) then WriterDo(s, step)
    else TurnBegin(s, step)
  }

  /** The state after a run of steps, taken in any order by anyone. */
  function Exec(s: State, steps: seq<Step>): State {
    if steps == [] then s else Do(Exec(s, steps[..|steps| - 1]), steps[|steps| - 1])
  }

  // --------------------------------------------------------- the invariants

  predicate ScratchPc(t: Turn) { t.ScratchSend? || t.ScratchRefused? || t.ScratchDone? }

  predicate HeldPc(t: Turn) {
    t.Reserving? || t.Placing? || t.PlacingLast? || ScratchPc(t) || ((t.ClaimFlush? || t.InFlush?) && t.next.Rereserve?)
  }

  predicate MayReserve(t: Turn) {
    t.Running? || t.Reserving? || t.Placing? || t.PlacingLast? || t.ScratchSend? || t.ScratchRefused?
  }

  /** A direct send is under way: it started with nothing queued or in flight. */
  predicate InHand(t: Turn) { t.Sending? || t.Suffix? || t.Prepending? }

  /** Who holds the claim, and that only its holder is inside a send. */
  predicate Owned(c: Ctl, send: Send, writer: Writer, turn: Turn) {
    && (c.held ==> c.owner == ByTurn && !turn.Off? && !DirectPc(turn))
    && (HeldPc(turn) ==> c.held)
    && (DirectPc(turn) || turn.InFlush? ==> c.owner == ByTurn)
    && (c.owner == ByTurn ==> c.held || DirectPc(turn) || turn.InFlush?)
    && (c.owner == ByWriter <==> !writer.Absent?)
    && (!send.Rest? ==> turn.InFlush? || writer.Flushing?)
  }

  /** Bytes the turn has reserved and not placed. */
  function Reserved(t: Turn): nat {
    match t
    case Prepending(rest, _) => |rest|
    case Appending(data) => |data|
    case Placing(data) => |data|
    case PlacingLast(data) => |data|
    case _ => 0
  }

  /** pending counts every accepted byte that is not known to be sent, and every reservation made for
      one; a zero proves that nothing is queued, in flight, reserved or unaccounted. */
  predicate Counted(d: Data, c: Ctl, admitting: seq<seq<byte>>, turn: Turn) {
    c.pending == |d.inflight| + |d.scratch| + |d.outbound| + Size(admitting) + Reserved(turn) + c.unretired
  }

  /** Which of the places bytes lie in may be in use together. */
  predicate Placed(d: Data, c: Ctl, send: Send, turn: Turn) {
    && (d.scratch != [] ==> c.held && d.inflight == [] && MayReserve(turn))
    && ((send.Rest? && !ScratchPc(turn)) || send.Entering? ==> c.unretired == 0)
    && (send.Peeked? ==> 0 < send.k <= |d.outbound| && d.inflight == [])
    && (send.Sent? ==> send.w <= |d.outbound| && d.inflight == [])
    && (InHand(turn) || ScratchPc(turn) ==> d.inflight == [])
    && (turn.Reserving? && turn.took ==> d.scratch == [])
  }

  /** The part of outbound that is not on the wire. */
  function Waiting(d: Data, send: Send): seq<byte> {
    if send.Sent? && send.w <= |d.outbound| then d.outbound[send.w..] else d.outbound
  }

  function Hand(t: Turn): seq<byte> { if t.Prepending? then t.rest else [] }

  /** A direct write, log[at], of which `rest` is unsent: everything before it is on the wire, and
      everything in outbound was accepted after it. */
  predicate Direct(d: Data, rest: seq<byte>, at: nat) {
    && at < |d.log| && |rest| <= |d.log[at]|
    && d.log[at][|d.log[at]| - |rest|..] == rest
    && d.wire == Flatten(d.log[..at]) + d.log[at][..|d.log[at]| - |rest|]
    && d.outbound == Flatten(d.log[at + 1..])
  }

  /** What is on the wire, then what the holder has of it, then what waits, is what was accepted. */
  predicate Ordered(d: Data, send: Send, turn: Turn) {
    if turn.Sending? then Direct(d, turn.data, turn.at)
    else if turn.Suffix? then Direct(d, turn.rest, turn.at)
    else Flatten(d.log) == Flatten([d.wire, d.inflight, Hand(turn), d.scratch, Waiting(d, send)])
  }

  /** The socket is full, so an edge will rise, or a risen edge has not been noted yet. */
  predicate Armed(k: Sock) { k.full || k.edge || !k.poll.NoEdge? || k.event || k.taken }

  /** A turn does not end before it noted the write event it took. */
  predicate Taking(k: Sock, turn: Turn) {
    k.taken ==> !turn.Off? && !turn.Leaving? && ((turn.ClaimFlush? || turn.InFlush?) ==> !turn.next.Leave?)
  }

  /** A send was refused and its holder has not recorded it yet. */
  predicate Refusing(send: Send, turn: Turn) { send.Refused? || send.BatchRefused? || turn.ScratchRefused? }

  /** A direct send was refused whole and the turn has not recorded it yet. */
  predicate NoneTaken(t: Turn) {
    (t.Suffix? && t.none) || (t.Prepending? && t.none) || (t.Settling? && t.none)
  }

  predicate Edges(c: Ctl, k: Sock, send: Send, turn: Turn) {
    !c.closing ==>
      && (c.blocked ==> Armed(k))
      && (Refusing(send, turn) ==> Armed(k) || c.edgeFlag)
      && (NoneTaken(turn) ==> Armed(k))
  }

  predicate Kicked(k: Toks) {
    k.kick1 + k.kick2 + k.kick3 + k.fin1 + k.fin2 + k.fin3 > 0
  }

  /** Pending output that may be sent now, with nobody holding the claim. */
  predicate Unclaimed(c: Ctl) {
    c.isOpen && !c.closing && c.pending > 0 && c.owner == Free && !c.blocked
  }

  /** Somebody is at a point where it will kick a sender, or the running turn will flush. */
  predicate Minded(k: Toks, admitting: seq<seq<byte>>, turn: Turn) {
    Kicked(k) || admitting != [] || (!turn.Off? && !turn.Leaving?)
  }

  predicate Inv(s: State) {
    && Owned(s.ctl, s.send, s.writer, s.turn)
    && Counted(s.data, s.ctl, s.admitting, s.turn)
    && Placed(s.data, s.ctl, s.send, s.turn)
    && Ordered(s.data, s.send, s.turn)
    && Edges(s.ctl, s.sock, s.send, s.turn)
    && Taking(s.sock, s.turn)
    && (Unclaimed(s.ctl) ==> Minded(s.toks, s.admitting, s.turn))
    && (s.ctl.limit > 0 ==> s.ctl.pending <= s.ctl.limit)
  }

  // ----------------------------------------------------------- byte sequences

  lemma Five(a: seq<byte>, b: seq<byte>, c: seq<byte>, d: seq<byte>, e: seq<byte>)
    ensures Flatten([a, b, c, d, e]) == a + (b + (c + (d + e)))
  {
    assert Flatten([e]) == e;
    assert [d, e][1..] == [e];
    assert Flatten([d, e]) == d + e;
    assert [c, d, e][1..] == [d, e];
    assert Flatten([c, d, e]) == c + (d + e);
    assert [b, c, d, e][1..] == [c, d, e];
    assert Flatten([b, c, d, e]) == b + (c + (d + e));
    assert [a, b, c, d, e][1..] == [b, c, d, e];
  }

  lemma FiveSnoc(a: seq<byte>, b: seq<byte>, c: seq<byte>, d: seq<byte>, e: seq<byte>, x: seq<byte>)
    ensures Flatten([a, b, c, d, e + x]) == Flatten([a, b, c, d, e]) + x
  {
    Five(a, b, c, d, e + x);
    Five(a, b, c, d, e);
    assert (d + e) + x == d + (e + x);
    assert (c + (d + e)) + x == c + ((d + e) + x);
    assert (b + (c + (d + e))) + x == b + ((c + (d + e)) + x);
  }

  lemma FiveHandOver(a: seq<byte>, b: seq<byte>, c: seq<byte>, d: seq<byte>, e: seq<byte>)
    ensures Flatten([a, b, c, d, e]) == Flatten([a, b, c, [], d + e])
  {
    Five(a, b, c, d, e);
    Five(a, b, c, [], d + e);
    assert [] + (d + e) == d + e;
  }

  /** Bytes that move from the head of the detached batch to the wire. */
  lemma FiveBatch(a: seq<byte>, b: seq<byte>, c: seq<byte>, d: seq<byte>, e: seq<byte>, n: nat)
    requires n <= |b|
    ensures Flatten([a, b, c, d, e]) == Flatten([a + b[..n], b[n..], c, d, e])
  {
    Five(a, b, c, d, e);
    Five(a + b[..n], b[n..], c, d, e);
    var rest := c + (d + e);
    assert b == b[..n] + b[n..];
    assert b + rest == b[..n] + (b[n..] + rest);
  }

  lemma FiveScratch(a: seq<byte>, d: seq<byte>, e: seq<byte>, n: nat)
    requires n <= |d|
    ensures Flatten([a, [], [], d, e]) == Flatten([a + d[..n], [], [], d[n..], e])
  {
    Five(a, [], [], d, e);
    Five(a + d[..n], [], [], d[n..], e);
    assert d == d[..n] + d[n..];
    assert d + e == d[..n] + (d[n..] + e);
  }

  lemma FiveInPlace(a: seq<byte>, e: seq<byte>, n: nat)
    requires n <= |e|
    ensures Flatten([a, [], [], [], e]) == Flatten([a + e[..n], [], [], [], e[n..]])
  {
    Five(a, [], [], [], e);
    Five(a + e[..n], [], [], [], e[n..]);
    assert e == e[..n] + e[n..];
  }

  /** The places empty in between do not matter. */
  lemma FiveTwo(a: seq<byte>, e: seq<byte>)
    ensures Flatten([a, [], [], [], e]) == a + e
    ensures Flatten([a, e, [], [], []]) == a + e
    ensures Flatten([a, [], [], e, []]) == a + e
  {
    Five(a, [], [], [], e);
    Five(a, e, [], [], []);
    Five(a, [], [], e, []);
  }

  lemma FiveHand(a: seq<byte>, r: seq<byte>, e: seq<byte>)
    ensures Flatten([a, [], r, [], e]) == a + (r + e)
  {
    Five(a, [], r, [], e);
  }

  lemma DirectWhole(d: Data, rest: seq<byte>, at: nat)
    requires Direct(d, rest, at)
    ensures Flatten(d.log) == d.wire + (rest + d.outbound)
  {
    var entry := d.log[at];
    assert d.log == d.log[..at] + ([entry] + d.log[at + 1..]);
    FlattenConcat(d.log[..at], [entry] + d.log[at + 1..]);
    assert entry == entry[..|entry| - |rest|] + rest;
    assert ([entry] + d.log[at + 1..])[1..] == d.log[at + 1..];
  }

  lemma AcceptOrdered(d: Data, send: Send, turn: Turn, bytes: seq<byte>)
    requires Ordered(d, send, turn) && !turn.Sending? && !turn.Suffix?
    requires send.Sent? ==> send.w <= |d.outbound|
    ensures Flatten(d.log + [bytes])
         == Flatten([d.wire, d.inflight, Hand(turn), d.scratch, Waiting(d, send) + bytes])
    ensures Waiting(Accept(d, bytes), send) == Waiting(d, send) + bytes
  {
    FlattenSnoc(d.log, bytes);
    FiveSnoc(d.wire, d.inflight, Hand(turn), d.scratch, Waiting(d, send), bytes);
  }

  /** A producer's bytes queued during a direct send lie behind its unsent rest. */
  lemma AcceptBehind(d: Data, bytes: seq<byte>, rest: seq<byte>, at: nat)
    requires Direct(d, rest, at)
    ensures Direct(Accept(d, bytes), rest, at)
  {
    var log := d.log + [bytes];
    assert log[..at] == d.log[..at];
    assert log[at + 1..] == d.log[at + 1..] + [bytes];
    FlattenSnoc(d.log[at + 1..], bytes);
  }

  /** Nothing is queued or in flight when pending is zero, so a direct write may start. */
  lemma DirectStarts(d: Data, send: Send, turn: Turn, data: seq<byte>)
    requires Ordered(d, send, turn) && turn.Claimed?
    requires d.inflight == [] && d.scratch == [] && d.outbound == []
    ensures Direct(d.(log := d.log + [data]), data, |d.log|)
  {
    var log := d.log + [data];
    assert log[..|d.log|] == d.log;
    assert log[|d.log| + 1..] == [];
    assert Waiting(d, send) == [];
    FiveTwo(d.wire, []);
  }

  lemma DirectMoves(d: Data, rest: seq<byte>, at: nat, n: nat)
    requires Direct(d, rest, at) && n <= |rest|
    ensures Direct(d.(wire := d.wire + rest[..n]), rest[n..], at)
  {
    var entry := d.log[at];
    var before := Flatten(d.log[..at]);
    SplitOn(entry, rest, n);
    assert (before + entry[..|entry| - |rest|]) + rest[..n] == before + (entry[..|entry| - |rest|] + rest[..n]);
  }

  lemma SplitOn(entry: seq<byte>, rest: seq<byte>, n: nat)
    requires n <= |rest| <= |entry| && entry[|entry| - |rest|..] == rest
    ensures entry[|entry| - |rest[n..]|..] == rest[n..]
    ensures entry[..|entry| - |rest|] + rest[..n] == entry[..|entry| - |rest[n..]|]
  {
  }

  lemma WithdrawOrdered(d: Data, rest: seq<byte>, at: nat)
    requires Direct(d, rest, at)
    ensures Flatten(Withdraw(d.log, at, |rest|)) == d.wire + d.outbound
  {
    var entry := d.log[at];
    var sent := entry[..|entry| - |rest|];
    if |rest| == |entry| {
      FlattenConcat(d.log[..at], d.log[at + 1..]);
    } else {
      FlattenUpdate(d.log, at, sent);
    }
  }

  lemma FlattenUpdate(log: seq<seq<byte>>, at: nat, x: seq<byte>)
    requires at < |log|
    ensures Flatten(log[at := x]) == (Flatten(log[..at]) + x) + Flatten(log[at + 1..])
  {
    var tail := [x] + log[at + 1..];
    assert log[at := x] == log[..at] + tail;
    FlattenConcat(log[..at], tail);
    assert tail[1..] == log[at + 1..];
    assert Flatten(log[..at]) + (x + Flatten(log[at + 1..])) == (Flatten(log[..at]) + x) + Flatten(log[at + 1..]);
  }

  lemma HandOverOrdered(d: Data, send: Send, turn: Turn)
    requires Ordered(d, send, turn) && !turn.Sending? && !turn.Suffix? && (send.Sent? ==> d.scratch == [])
    ensures Flatten(d.log) == Flatten([d.wire, d.inflight, Hand(turn), [], Waiting(HandOver(d), send)])
  {
    if send.Sent? {
      assert [] + d.outbound == d.outbound;
    } else {
      FiveHandOver(d.wire, d.inflight, Hand(turn), d.scratch, d.outbound);
    }
  }

  // ------------------------------------------------------ producers and tokens

  lemma ProducerKeeps(s: State, step: Step)
    requires Inv(s) && (step.Admit? || step.Append?)
    ensures Inv(ProducerDo(s, step))
  {
    match step
    case Admit(bytes) =>
      SizeSnoc(s.admitting, bytes);
    case Append(i) =>
      if i < |s.admitting| {
        SizeRemove(s.admitting, i);
        if s.turn.Sending? {
          AcceptBehind(s.data, s.admitting[i], s.turn.data, s.turn.at);
        } else if s.turn.Suffix? {
          AcceptBehind(s.data, s.admitting[i], s.turn.rest, s.turn.at);
        } else {
          AcceptOrdered(s.data, s.send, s.turn, s.admitting[i]);
        }
      }
  }

  lemma Kick1Keeps(s: State, step: Step)
    requires Inv(s) && step.Kick1?
    ensures Inv(TokDo(s, step))
  {
  }

  lemma Kick2Keeps(s: State, step: Step)
    requires Inv(s) && step.Kick2?
    ensures Inv(TokDo(s, step))
  {
  }

  lemma Kick3Keeps(s: State, step: Step)
    requires Inv(s) && step.Kick3?
    ensures Inv(TokDo(s, step))
  {
  }

  lemma Fin1Keeps(s: State, step: Step)
    requires Inv(s) && step.Fin1?
    ensures Inv(TokDo(s, step))
  {
  }

  lemma Fin2Keeps(s: State, step: Step)
    requires Inv(s) && step.Fin2?
    ensures Inv(TokDo(s, step))
  {
  }

  lemma Fin3Keeps(s: State, step: Step)
    requires Inv(s) && step.Fin3?
    ensures Inv(TokDo(s, step))
  {
  }

  lemma TokKeeps(s: State, step: Step)
    requires Inv(s) && OfToks(step)
    ensures Inv(TokDo(s, step))
  {
    match step
    case Kick1 => Kick1Keeps(s, step);
    case Kick2 => Kick2Keeps(s, step);
    case Kick3 => Kick3Keeps(s, step);
    case Fin1 => Fin1Keeps(s, step);
    case Fin2 => Fin2Keeps(s, step);
    case Fin3 => Fin3Keeps(s, step);
  }

  lemma RoomKeeps(s: State, step: Step)
    requires Inv(s) && (step.Room? || step.Poll1?)
    ensures Inv(SockDo(s, step))
  {
  }

  /** The socket or the poller moves on, and an edge not handled yet is still on its way. */
  lemma EdgeMoves(s: State, k: Sock)
    requires Inv(s) && k.taken == s.sock.taken && (Armed(s.sock) && !s.ctl.closing ==> Armed(k))
    ensures Inv(s.(sock := k))
  {
  }

  /** With the claim free and nothing marked blocked, nobody waits for the edge. */
  lemma EdgeDropped(s: State)
    requires Inv(s) && s.ctl.owner == Free && !s.ctl.blocked
    ensures Inv(s.(sock := s.sock.(poll := NoEdge)))
  {
  }

  lemma PollKeeps(s: State, step: Step)
    requires Inv(s) && (step.Poll2? || step.Poll3?)
    ensures Inv(SockDo(s, step))
  {
    if step.Poll3? && s.sock.poll.SawEmpty? && s.ctl.owner == Free && !s.ctl.blocked {
      EdgeDropped(s);
    } else {
      var t := SockDo(s, step);
      assert t == s.(sock := t.sock);
      EdgeMoves(s, t.sock);
    }
  }

  lemma SockKeeps(s: State, step: Step)
    requires Inv(s) && OfSock(step)
    ensures Inv(SockDo(s, step))
  {
    if step.Room? || step.Poll1? { RoomKeeps(s, step); } else { PollKeeps(s, step); }
  }

  lemma WriterKeeps(s: State, step: Step)
    requires Inv(s)
    ensures Inv(WriterDo(s, step))
  {
  }

  lemma CloseKeeps(s: State)
    requires Inv(s)
    ensures Inv(s.(ctl := s.ctl.(closing := true)))
  {
  }

  // ---------------------------------------------------------- the turn begins

  lemma WakingKeeps(s: State, step: Step)
    requires Inv(s) && (step.Start? || step.Note? || step.Open?)
    ensures Inv(TurnBegin(s, step))
  {
  }

  lemma WriteKeeps(s: State, step: Step)
    requires Inv(s) && step.Write?
    ensures Inv(TurnBegin(s, step))
  {
    if s.turn.Running? { HandOverOrdered(s.data, s.send, s.turn); }
  }

  lemma ReserveKeeps(s: State, step: Step)
    requires Inv(s) && step.Reserve?
    ensures Inv(TurnBegin(s, step))
  {
  }

  lemma SendScratchKeeps(s: State, step: Step)
    requires Inv(s) && step.SendScratch?
    ensures Inv(TurnBegin(s, step))
  {
    if s.turn.Running? { HandOverOrdered(s.data, s.send, s.turn); }
  }

  lemma FlushBegins(s: State, next: Next)
    requires Inv(s) && (s.turn.Running? || s.turn.Queueing? || s.turn.Reserving?) && s.ctl.pending != 0
    requires (next.Rereserve? ==> s.ctl.held) && (next.Leave? ==> !s.sock.taken)
    ensures Inv(BeginFlush(s, next))
  {
    var t := BeginFlush(s, next);
    HandOverOrdered(s.data, s.send, s.turn);
    assert t == s.(data := HandOver(s.data), turn := ClaimFlush(next));
    assert Counted(t.data, t.ctl, t.admitting, t.turn) && Ordered(t.data, t.send, t.turn);
  }

  lemma FlushKeeps(s: State, next: Next)
    requires Inv(s) && s.turn.Running? && (next.Resume? || (next.Leave? && !s.sock.taken))
    ensures Inv(BeginFlush(s, next))
  {
    if s.ctl.pending != 0 { FlushBegins(s, next); }
  }

  lemma FinishKeeps(s: State, step: Step)
    requires Inv(s) && (step.Flush? || step.Finish?)
    ensures Inv(TurnBegin(s, step))
  {
    if s.turn.Running? {
      if step.Flush? {
        FlushKeeps(s, Resume);
      } else if s.ctl.isOpen && !s.ctl.closing {
        if !s.sock.taken { FlushKeeps(s, Leave); }
      } else {
        HandOverOrdered(s.data, s.send, s.turn);
      }
    }
  }

  // ---------------------------------------------------------- the turn goes on

  lemma TryDirectKeeps(s: State, w: nat, fills: bool)
    requires Inv(s) && s.turn.TryDirect?
    ensures Inv(StartDo(s, w, fills))
  {
  }

  lemma ClaimedKeeps(s: State, w: nat, fills: bool)
    requires Inv(s) && s.turn.Claimed?
    ensures Inv(StartDo(s, w, fills))
  {
    if s.ctl.pending == 0 { DirectStarts(s.data, s.send, s.turn, s.turn.data); }
  }

  lemma SendingWhole(s: State, w: nat, fills: bool)
    requires Inv(s) && s.turn.Sending? && !s.sock.full && Cap(w, |s.turn.data|) == |s.turn.data|
    ensures Inv(StartDo(s, w, fills))
  {
    var data, n := s.turn.data, Cap(w, |s.turn.data|);
    DirectMoves(s.data, data, s.turn.at, n);
    DirectWhole(s.data.(wire := s.data.wire + data[..n]), data[n..], s.turn.at);
    FiveTwo(s.data.wire + data[..n], s.data.outbound);
  }

  lemma SendingPart(s: State, w: nat, fills: bool)
    requires Inv(s) && s.turn.Sending? && !s.sock.full && Cap(w, |s.turn.data|) < |s.turn.data|
    ensures Inv(StartDo(s, w, fills))
  {
    DirectMoves(s.data, s.turn.data, s.turn.at, Cap(w, |s.turn.data|));
  }

  lemma SendingKeeps(s: State, w: nat, fills: bool)
    requires Inv(s) && s.turn.Sending?
    ensures Inv(StartDo(s, w, fills))
  {
    if !s.sock.full {
      if Cap(w, |s.turn.data|) == |s.turn.data| {
        SendingWhole(s, w, fills);
      } else {
        SendingPart(s, w, fills);
      }
    }
  }

  lemma SuffixKeeps(s: State)
    requires Inv(s) && s.turn.Suffix?
    ensures Inv(SettleDo(s))
  {
    if Fits(s.ctl, |s.turn.rest|) {
      DirectWhole(s.data, s.turn.rest, s.turn.at);
      FiveHand(s.data.wire, s.turn.rest, s.data.outbound);
    } else {
      WithdrawOrdered(s.data, s.turn.rest, s.turn.at);
      FiveTwo(s.data.wire, s.data.outbound);
    }
  }

  lemma SettleKeeps(s: State)
    requires Inv(s) && (s.turn.Prepending? || s.turn.Settling? || s.turn.Releasing?)
    ensures Inv(SettleDo(s))
  {
    match s.turn
    case Prepending(rest, none) =>
      PrependingKeeps(s);
      assert SettleDo(s) == s.(data := s.data.(outbound := rest + s.data.outbound), turn := Settling(none));
    case Settling(_) =>
    case Releasing =>
  }

  lemma PrependingKeeps(s: State)
    requires Inv(s) && s.turn.Prepending?
    ensures Inv(s.(data := s.data.(outbound := s.turn.rest + s.data.outbound), turn := Settling(s.turn.none)))
  {
    FiveHand(s.data.wire, s.turn.rest, s.data.outbound);
    FiveTwo(s.data.wire, s.turn.rest + s.data.outbound);
  }

  lemma QueueingFits(s: State, fills: bool)
    requires Inv(s) && s.turn.Queueing? && Fits(s.ctl, |s.turn.data|)
    ensures Inv(QueueDo(s, fills))
  {
  }

  lemma QueueingKeeps(s: State, fills: bool)
    requires Inv(s) && s.turn.Queueing?
    ensures Inv(QueueDo(s, fills))
  {
    if Fits(s.ctl, |s.turn.data|) {
      QueueingFits(s, fills);
    } else if !s.turn.tried && s.ctl.pending != 0 && !s.ctl.blocked {
      FlushBegins(s, Requeue(s.turn.data));
    }
  }

  lemma ReservingFits(s: State, fills: bool)
    requires Inv(s) && s.turn.Reserving? && Fits(s.ctl, |s.turn.data|)
    ensures Inv(QueueDo(s, fills))
  {
  }

  lemma ReservingKeeps(s: State, fills: bool)
    requires Inv(s) && s.turn.Reserving?
    ensures Inv(QueueDo(s, fills))
  {
    if Fits(s.ctl, |s.turn.data|) {
      ReservingFits(s, fills);
    } else if !s.turn.tried && s.ctl.pending != 0 && !s.ctl.blocked {
      FlushBegins(s, Rereserve(s.turn.data, s.turn.took));
    }
  }

  lemma AppendKeeps(s: State, fills: bool)
    requires Inv(s) && (s.turn.Appending? || s.turn.PlacingLast?)
    ensures Inv(QueueDo(s, fills))
  {
    AcceptOrdered(s.data, s.send, s.turn, s.turn.data);
  }

  /** When pending holds no more than the reply space and this reservation, nothing else is queued, so
      the reservation follows what was accepted before it. */
  lemma AloneInScratch(s: State)
    requires Counted(s.data, s.ctl, s.admitting, s.turn) && s.turn.Placing?
    requires s.ctl.pending == |s.data.scratch| + |s.turn.data|
    ensures s.data.inflight == [] && s.data.outbound == []
  {
  }

  lemma PlacingLater(s: State, fills: bool)
    requires Inv(s) && s.turn.Placing?
    requires s.ctl.pending != |s.data.scratch| + |s.turn.data| || fills
    ensures Inv(QueueDo(s, fills))
  {
    if s.ctl.pending == |s.data.scratch| + |s.turn.data| {
      AloneInScratch(s);
      HandOverOrdered(s.data, s.send, s.turn);
    }
  }

  lemma PlacingHere(s: State)
    requires Inv(s) && s.turn.Placing? && s.ctl.pending == |s.data.scratch| + |s.turn.data|
    ensures Inv(QueueDo(s, false))
  {
    AloneInScratch(s);
    FlattenSnoc(s.data.log, s.turn.data);
    FiveTwo(s.data.wire, s.data.scratch);
    FiveTwo(s.data.wire, s.data.scratch + s.turn.data);
  }

  lemma PlacingKeeps(s: State, fills: bool)
    requires Inv(s) && s.turn.Placing?
    ensures Inv(QueueDo(s, fills))
  {
    if s.ctl.pending == |s.data.scratch| + |s.turn.data| && !fills {
      PlacingHere(s);
    } else {
      PlacingLater(s, fills);
    }
  }

  lemma ScratchTakes(s: State, w: nat, fills: bool)
    requires Inv(s) && s.turn.ScratchSend? && s.data.scratch != [] && !s.sock.full
    ensures Inv(EndDo(s, w, fills))
  {
    var n := Cap(w, |s.data.scratch|);
    FiveScratch(s.data.wire, s.data.scratch, Waiting(s.data, s.send), n);
  }

  lemma ScratchKeeps(s: State, w: nat, fills: bool)
    requires Inv(s) && s.turn.ScratchSend?
    ensures Inv(EndDo(s, w, fills))
  {
    if s.data.scratch != [] && !s.sock.full { ScratchTakes(s, w, fills); }
  }

  lemma ScratchRefusedKeeps(s: State, w: nat, fills: bool)
    requires Inv(s) && s.turn.ScratchRefused?
    ensures Inv(EndDo(s, w, fills))
  {
    if s.ctl.edgeFlag {
      assert EndDo(s, w, fills) == s.(ctl := s.ctl.(edgeFlag := false), turn := ScratchSend);
    } else {
      ScratchBlocked(s);
      assert EndDo(s, w, fills) == s.(ctl := s.ctl.(blocked := true), data := HandOver(s.data), turn := ScratchDone);
    }
  }

  lemma ScratchBlocked(s: State)
    requires Inv(s) && s.turn.ScratchRefused? && !s.ctl.edgeFlag
    ensures Inv(s.(ctl := s.ctl.(blocked := true), data := HandOver(s.data), turn := ScratchDone))
  {
    HandOverOrdered(s.data, s.send, s.turn);
  }

  lemma ScratchDoneKeeps(s: State, w: nat, fills: bool)
    requires Inv(s) && s.turn.ScratchDone?
    ensures Inv(EndDo(s, w, fills))
  {
  }

  lemma ClaimFlushKeeps(s: State, w: nat, fills: bool)
    requires Inv(s) && s.turn.ClaimFlush?
    ensures Inv(EndDo(s, w, fills))
  {
  }

  lemma InFlushKeeps(s: State, w: nat, fills: bool)
    requires Inv(s) && s.turn.InFlush?
    ensures Inv(EndDo(s, w, fills))
  {
  }

  lemma LeavingKeeps(s: State, w: nat, fills: bool)
    requires Inv(s) && s.turn.Leaving?
    ensures Inv(EndDo(s, w, fills))
  {
  }

  lemma TurnKeeps(s: State, w: nat, fills: bool)
    requires Inv(s)
    ensures Inv(TurnDo(s, w, fills))
  {
    match s.turn
    case Sending(_, _) => SendingKeeps(s, w, fills);
    case Suffix(_, _, _) => SuffixKeeps(s);
    case Placing(_) => PlacingKeeps(s, fills);
    case ScratchSend => ScratchKeeps(s, w, fills);
    case ScratchRefused => ScratchRefusedKeeps(s, w, fills);
    case Queueing(_, _) => QueueingKeeps(s, fills);
    case Reserving(_, _, _) => ReservingKeeps(s, fills);
    case Appending(_) => AppendKeeps(s, fills);
    case PlacingLast(_) => AppendKeeps(s, fills);
    case TryDirect(_) => TryDirectKeeps(s, w, fills);
    case Claimed(_) => ClaimedKeeps(s, w, fills);
    case Prepending(_, _) => SettleKeeps(s);
    case Settling(_) => SettleKeeps(s);
    case Releasing => SettleKeeps(s);
    case ScratchDone => ScratchDoneKeeps(s, w, fills);
    case ClaimFlush(_) => ClaimFlushKeeps(s, w, fills);
    case InFlush(_) => InFlushKeeps(s, w, fills);
    case Leaving => LeavingKeeps(s, w, fills);
    case _ =>
  }

  // ------------------------------------------------------------- the sender

  lemma SenderAlone(s: State)
    requires Owned(s.ctl, s.send, s.writer, s.turn) && Placed(s.data, s.ctl, s.send, s.turn) && !s.send.Rest?
    ensures !s.turn.Sending? && !s.turn.Suffix? && Hand(s.turn) == [] && s.data.scratch == []
  {
  }

  lemma EnteringKeeps(s: State, how: How)
    requires Inv(s) && s.send.Entering?
    ensures Inv(SenderDo(s, how))
  {
    SenderAlone(s);
  }

  lemma ChoosingDetach(s: State, how: How)
    requires Inv(s) && s.send.Choosing? && how.Detach? && s.data.inflight == [] && s.data.outbound != []
    ensures Inv(SenderDo(s, how))
  {
    SenderAlone(s);
    FiveTwo(s.data.wire, s.data.outbound);
  }

  lemma ChoiceMade(s: State, send: Send)
    requires Inv(s) && s.send.Choosing? && (send.Choosing? || send.Peeked? || send.Detached? || send.Retiring?)
    requires send.Peeked? ==> 0 < send.k <= |s.data.outbound| && s.data.inflight == []
    ensures Inv(s.(send := send))
  {
    SenderAlone(s);
    assert Waiting(s.data, send) == Waiting(s.data, s.send);
  }

  lemma ChoosingKeeps(s: State, how: How)
    requires Inv(s) && s.send.Choosing?
    ensures Inv(SenderDo(s, how))
  {
    if how.Detach? && s.data.inflight == [] && s.data.outbound != [] {
      ChoosingDetach(s, how);
    } else {
      var t := SenderDo(s, how);
      ChoiceMade(s, t.send);
      assert t == s.(send := t.send);
    }
  }

  /** Producers append behind the lent bytes, so what a send took is still the head of outbound. */
  lemma PeekedKeeps(s: State, how: How)
    requires Inv(s) && s.send.Peeked?
    ensures Inv(SenderDo(s, how))
  {
    SenderAlone(s);
    if !s.sock.full && how.Take? {
      var n := Cap(how.w, s.send.k);
      FiveInPlace(s.data.wire, s.data.outbound, n);
    }
  }

  lemma SentKeeps(s: State, how: How)
    requires Inv(s) && s.send.Sent?
    ensures Inv(SenderDo(s, how))
  {
    var t := SenderDo(s, how);
    SenderAlone(s);
    assert t.data == s.data.(outbound := s.data.outbound[s.send.w..]) && t.send == Choosing;
    assert Waiting(t.data, t.send) == Waiting(s.data, s.send);
  }

  lemma DetachedTakes(s: State, how: How)
    requires Inv(s) && s.send.Detached? && s.data.inflight != [] && !s.sock.full && how.Take?
    ensures Inv(SenderDo(s, how))
  {
    SenderAlone(s);
    FiveBatch(s.data.wire, s.data.inflight, [], [], s.data.outbound, Cap(how.w, |s.data.inflight|));
  }

  lemma DetachedKeeps(s: State, how: How)
    requires Inv(s) && s.send.Detached?
    ensures Inv(SenderDo(s, how))
  {
    if s.data.inflight != [] && !s.sock.full && how.Take? {
      DetachedTakes(s, how);
    } else {
      SenderAlone(s);
    }
  }

  lemma RefusedKeeps(s: State, how: How)
    requires Inv(s) && (s.send.Refused? || s.send.BatchRefused?)
    ensures Inv(SenderDo(s, how))
  {
    var t := SenderDo(s, how);
    SenderAlone(s);
    assert Waiting(s.data, t.send) == Waiting(s.data, s.send);
    if s.ctl.edgeFlag {
      assert t == s.(ctl := s.ctl.(edgeFlag := false), send := t.send);
    } else {
      assert t == s.(ctl := s.ctl.(blocked := true), send := Retiring);
    }
  }

  lemma RetiringKeeps(s: State, how: How)
    requires Inv(s) && s.send.Retiring?
    ensures Inv(SenderDo(s, how))
  {
    SenderAlone(s);
  }

  lemma SenderKeeps(s: State, how: How)
    requires Inv(s)
    ensures Inv(SenderDo(s, how))
  {
    match s.send
    case Rest =>
    case Peeked(_) => PeekedKeeps(s, how);
    case Sent(_) => SentKeeps(s, how);
    case Detached => DetachedKeeps(s, how);
    case Choosing => ChoosingKeeps(s, how);
    case Entering => EnteringKeeps(s, how);
    case Retiring => RetiringKeeps(s, how);
    case _ => RefusedKeeps(s, how);
  }

  // --------------------------------------------------------------- every run

  lemma StepKeeps(s: State, step: Step)
    requires Inv(s)
    ensures Inv(Do(s, step))
  {
    if step.Turn? {
      TurnKeeps(s, step.w, step.fills);
    } else if step.Sender? {
      SenderKeeps(s, step.how);
    } else if step.Admit? || step.Append? {
      ProducerKeeps(s, step);
    } else if step.Close? {
      CloseKeeps(s);
    } else if OfToks(step) {
      TokKeeps(s, step);
    } else if OfSock(step) {
      SockKeeps(s, step);
    } else if OfWriter(step) {
      WriterKeeps(s, step);
    } else if step.Write? {
      WriteKeeps(s, step);
    } else if step.Reserve? {
      ReserveKeeps(s, step);
    } else if step.SendScratch? {
      SendScratchKeeps(s, step);
    } else if step.Flush? || step.Finish? {
      FinishKeeps(s, step);
    } else {
      WakingKeeps(s, step);
    }
  }

  lemma {:induction false} Reachable(s: State, steps: seq<Step>)
    requires Init(s)
    ensures Inv(Exec(s, steps))
  {
    if steps == [] {
      FiveTwo([], []);
    } else {
      Reachable(s, steps[..|steps| - 1]);
      StepKeeps(Exec(s, steps[..|steps| - 1]), steps[|steps| - 1]);
    }
  }

  // ----------------------------------------------------------- what is proved

  /** The bytes of a direct send that are not on the wire and not queued yet. */
  function Unsent(t: Turn): seq<byte> {
    match t
    case Sending(data, _) => data
    case Suffix(rest, _, _) => rest
    case Prepending(rest, _) => rest
    case _ => []
  }

  /** In every run: wire, detached batch, direct rest, reply space and outbound, in this order, are
      exactly the accepted writes in acceptance order.  So every write lies whole and in its place on
      the wire, whoever queued meanwhile. */
  lemma {:induction false} BytesInOrder(s: State, steps: seq<Step>)
    requires Init(s)
    ensures var u := Exec(s, steps);
            Flatten(u.data.log)
            == Flatten([u.data.wire, u.data.inflight, Unsent(u.turn), u.data.scratch, Waiting(u.data, u.send)])
  {
    var u := Exec(s, steps);
    Reachable(s, steps);
    if u.turn.Sending? {
      DirectWhole(u.data, u.turn.data, u.turn.at);
      FiveHand(u.data.wire, u.turn.data, u.data.outbound);
    } else if u.turn.Suffix? {
      DirectWhole(u.data, u.turn.rest, u.turn.at);
      FiveHand(u.data.wire, u.turn.rest, u.data.outbound);
    }
  }

  /** In every run: pending is what is queued, in flight and reserved, it never passes
      MaxOutboundBuffered, and when it is zero and no direct send is under way, everything accepted is
      on the wire. */
  lemma {:induction false} PendingExact(s: State, steps: seq<Step>)
    requires Init(s)
    ensures var u := Exec(s, steps);
            && Counted(u.data, u.ctl, u.admitting, u.turn)
            && (u.ctl.limit > 0 ==> u.ctl.pending <= u.ctl.limit)
            && (u.ctl.pending == 0 && Unsent(u.turn) == [] ==> u.data.wire == Flatten(u.data.log))
  {
    var u := Exec(s, steps);
    Reachable(s, steps);
    if u.ctl.pending == 0 && Unsent(u.turn) == [] {
      BytesInOrder(s, steps);
      FiveTwo(u.data.wire, []);
    }
  }

  /** In every run, accepted output is never stranded: on an open, non-closing stream with the claim
      free, pending bytes that are not marked blocked have somebody about to kick a sender or a turn
      about to flush, and bytes that are marked blocked wait for a full socket or an edge not handled
      yet, whatever came between the refused send and its record. */
  lemma {:induction false} NeverStranded(s: State, steps: seq<Step>)
    requires Init(s)
    ensures var u := Exec(s, steps);
            && (Unclaimed(u.ctl) ==> Minded(u.toks, u.admitting, u.turn))
            && (u.ctl.blocked && !u.ctl.closing ==> Armed(u.sock))
  {
    Reachable(s, steps);
  }

  /** Nobody has an operation left for an open stream, and the socket has room. */
  predicate Idle(u: State) {
    && u.ctl.isOpen && !u.ctl.closing && u.turn.Off? && u.ctl.owner == Free && u.admitting == []
    && !Kicked(u.toks) && !u.sock.full && !u.sock.edge && u.sock.poll.NoEdge? && !u.sock.event
  }

  /** At rest, with the socket not full, everything accepted has been sent. */
  lemma {:induction false} AllSentAtRest(s: State, steps: seq<Step>)
    requires Init(s)
    ensures var u := Exec(s, steps); Idle(u) ==> u.data.wire == Flatten(u.data.log)
  {
    Reachable(s, steps);
    PendingExact(s, steps);
  }

  /** What a step may do to what was accepted: append one write, withdraw the unsent rest of the direct
      write it refuses, or leave the accepted writes alone; what is on the wire stays in any case. */
  ghost predicate Keeps(u: State, t: State) {
    && u.data.wire <= t.data.wire
    && (t.data.log == u.data.log
        || (exists bytes :: t.data.log == u.data.log + [bytes])
        || (u.turn.Suffix? && t.data.log == Withdraw(u.data.log, u.turn.at, |u.turn.rest|)))
  }

  lemma TurnWritesKept(u: State, w: nat, fills: bool)
    ensures Keeps(u, TurnDo(u, w, fills))
  {
    var t := TurnDo(u, w, fills);
    match u.turn
    case Claimed(data) => assert t.data.log == u.data.log || t.data.log == u.data.log + [data];
    case Appending(data) => assert t.data.log == u.data.log + [data];
    case PlacingLast(data) => assert t.data.log == u.data.log + [data];
    case Placing(data) => assert t.data.log == u.data.log || t.data.log == u.data.log + [data];
    case _ =>
  }

  lemma SenderWritesKept(u: State, how: How)
    ensures Keeps(u, SenderDo(u, how))
  {
  }

  lemma BeginWritesKept(u: State, step: Step)
    ensures var t := TurnBegin(u, step); t.data.wire == u.data.wire && t.data.log == u.data.log
  {
  }

  lemma ProducerWritesKept(u: State, step: Step)
    requires step.Admit? || step.Append?
    ensures Keeps(u, ProducerDo(u, step))
  {
    if step.Append? && step.i < |u.admitting| {
      assert ProducerDo(u, step).data.log == u.data.log + [u.admitting[step.i]];
    }
  }

  lemma OtherWritesKept(u: State, step: Step)
    ensures TokDo(u, step).data == u.data && SockDo(u, step).data == u.data && WriterDo(u, step).data == u.data
  {
  }

  lemma StepKeepsWrites(u: State, step: Step)
    ensures Keeps(u, Do(u, step))
  {
    if step.Turn? {
      TurnWritesKept(u, step.w, step.fills);
    } else if step.Sender? {
      SenderWritesKept(u, step.how);
    } else if step.Admit? || step.Append? {
      ProducerWritesKept(u, step);
    } else if step.Close? {
    } else if OfToks(step) || OfSock(step) || OfWriter(step) {
      OtherWritesKept(u, step);
    } else {
      BeginWritesKept(u, step);
    }
  }

  predicate InDirect(u: State) { u.turn.Sending? || u.turn.Suffix? }

  /** What became of a direct write that was under way: it stands, or its unsent rest was withdrawn. */
  datatype Fate = Stands | Cut(unsent: nat)

  /** The writes accepted at `u`, with the direct write under way, if there is one, as its fate has it. */
  function Remaining(u: State, fate: Fate): seq<seq<byte>> {
    if fate.Cut? && InDirect(u) then Withdraw(u.data.log, u.turn.at, fate.unsent) else u.data.log
  }

  /** `t` comes after `u`: a direct write under way at `t` is the one of `u`, still standing, or newer. */
  predicate Later(u: State, t: State, fate: Fate) {
    && u.data.wire <= t.data.wire && Remaining(u, fate) <= t.data.log
    && (InDirect(t) ==> t.turn.at >= |Remaining(u, fate)| || (fate.Stands? && InDirect(u) && t.turn.at == u.turn.at))
  }

  lemma BeginDirect(u: State, step: Step)
    ensures var t := TurnBegin(u, step).turn; t == u.turn || !(t.Sending? || t.Suffix?)
  {
  }

  lemma OtherDirect(u: State, step: Step)
    ensures TokDo(u, step).turn == u.turn && SockDo(u, step).turn == u.turn && WriterDo(u, step).turn == u.turn
    ensures step.Admit? || step.Append? ==> ProducerDo(u, step).turn == u.turn
  {
  }

  lemma SenderDirect(u: State, how: How)
    ensures SenderDo(u, how).turn == u.turn
  {
  }

  lemma TurnDirect(u: State, w: nat, fills: bool)
    ensures var t := TurnDo(u, w, fills);
            InDirect(t) ==> (u.turn.Claimed? && t.turn.at == |u.data.log|) || (InDirect(u) && t.turn.at == u.turn.at)
  {
    match u.turn
    case Claimed(_) =>
    case Sending(_, _) =>
    case _ => assert !TurnDo(u, w, fills).turn.Sending? && !TurnDo(u, w, fills).turn.Suffix?;
  }

  /** A direct write under way after a step was under way before it, or was accepted by it. */
  lemma StepDirect(u: State, step: Step)
    ensures var t := Do(u, step);
            InDirect(t) ==> t.turn.at == |u.data.log| || (InDirect(u) && t.turn.at == u.turn.at)
  {
    if step.Turn? {
      TurnDirect(u, step.w, step.fills);
    } else if step.Sender? {
      SenderDirect(u, step.how);
    } else {
      BeginDirect(u, step);
      OtherDirect(u, step);
    }
  }

  lemma WithdrawAhead(log: seq<seq<byte>>, at: nat, unsent: nat, n: nat)
    requires n <= at && n <= |log|
    ensures n <= |Withdraw(log, at, unsent)| && Withdraw(log, at, unsent)[..n] == log[..n]
  {
  }

  lemma WithdrawPrefix(a: seq<seq<byte>>, b: seq<seq<byte>>, at: nat, unsent: nat)
    requires a <= b && at < |a|
    ensures Withdraw(a, at, unsent) <= Withdraw(b, at, unsent)
  {
  }

  lemma LaterStep(u: State, t: State, step: Step, fate: Fate) returns (next: Fate)
    requires Later(u, t, fate) && (InDirect(u) ==> u.turn.at < |u.data.log|)
    ensures Later(u, Do(t, step), next) && (next.Cut? ==> fate.Cut? || InDirect(u))
  {
    var v, base := Do(t, step), Remaining(u, fate);
    StepKeepsWrites(t, step);
    StepDirect(t, step);
    next := fate;
    if t.turn.Suffix? && v.data.log == Withdraw(t.data.log, t.turn.at, |t.turn.rest|) && v.data.log != t.data.log {
      if t.turn.at >= |base| {
        WithdrawAhead(t.data.log, t.turn.at, |t.turn.rest|, |base|);
      } else {
        WithdrawPrefix(u.data.log, t.data.log, u.turn.at, |t.turn.rest|);
        SuffixSettles(t, step);
        next := Cut(|t.turn.rest|);
      }
    }
  }

  /** The step that withdraws a direct write ends it. */
  lemma SuffixSettles(t: State, step: Step)
    requires t.turn.Suffix? && Do(t, step).data.log == Withdraw(t.data.log, t.turn.at, |t.turn.rest|) != t.data.log
    ensures !InDirect(Do(t, step))
  {
  }

  lemma DirectAt(u: State)
    requires Inv(u)
    ensures InDirect(u) ==> u.turn.at < |u.data.log|
  {
  }

  lemma LaterSelf(u: State)
    requires InDirect(u) ==> u.turn.at < |u.data.log|
    ensures Later(u, u, Stands)
  {
  }

  /** Over any stretch of any run, what is on the wire stays, and every accepted write, those accepted
      behind a direct send under way among them, keeps its bytes and its order; only the direct write
      itself may lose its unsent rest. */
  lemma {:induction false} WritesKept(s: State, steps: seq<Step>, k: nat) returns (fate: Fate)
    requires Init(s) && k <= |steps|
    ensures Later(Exec(s, steps[..k]), Exec(s, steps), fate)
    ensures fate.Cut? ==> InDirect(Exec(s, steps[..k]))
  {
    var u := Exec(s, steps[..k]);
    Reachable(s, steps[..k]);
    DirectAt(u);
    if k == |steps| {
      assert steps[..k] == steps;
      LaterSelf(u);
      fate := Stands;
    } else {
      var front := steps[..|steps| - 1];
      assert front[..k] == steps[..k];
      fate := WritesKept(s, front, k);
      fate := LaterStep(u, Exec(s, front), steps[|steps| - 1], fate);
      assert Exec(s, steps) == Do(Exec(s, front), steps[|steps| - 1]);
    }
  }

  // ----------------------------------------------------------- rest is reached

  /** Bytes in the queues that no send has taken. */
  function QueueLeft(d: Data, send: Send): nat {
    |d.inflight| + if send.Sent? && send.w <= |d.outbound| then |d.outbound| - send.w else |d.outbound|
  }

  /** Bytes the turn has still to reserve. */
  function ToReserve(t: Turn): nat {
    match t
    case TryDirect(data) => |data|
    case Claimed(data) => |data|
    case Sending(data, _) => |data|
    case Suffix(rest, _, _) => |rest|
    case Queueing(data, _) => |data|
    case Reserving(data, _, _) => |data|
    case ClaimFlush(next) => NextReserve(next)
    case InFlush(next) => NextReserve(next)
    case _ => 0
  }

  function NextReserve(next: Next): nat {
    match next
    case Requeue(data) => |data|
    case Rereserve(data, _) => |data|
    case _ => 0
  }

  predicate MayUnblock(t: Turn) {
    t.TryDirect? || t.Claimed? || t.Sending? || t.Suffix? || t.Prepending? || t.Settling?
  }

  function One(b: bool): nat { if b then 1 else 0 }

  /** Bytes on their way to the socket, weighed by how far they are from it. */
  function BytesLeft(s: State): nat {
    (if s.ctl.pending > 0 then s.ctl.pending else 0) + 5 * ToReserve(s.turn) + 3 * Reserved(s.turn)
    + 3 * Size(s.admitting) + |s.admitting| + 2 * |s.data.scratch| + QueueLeft(s.data, s.send)
  }

  function EdgesLeft(k: Sock): nat {
    4 * One(k.edge) + 4 * One(!k.poll.NoEdge?) + 4 * One(k.event) + 3 * One(k.taken)
  }

  /** Changes of the flags that the socket's edges and the turn's operations may still make. */
  function FlagsLeft(s: State): nat {
    EdgesLeft(s.sock) + One(s.ctl.edgeFlag) + One(!s.ctl.blocked) + 2 * One(MayUnblock(s.turn)) + One(!s.ctl.closing)
    + One(!s.ctl.isOpen)
  }

  /** What is left to do: no step of the write path's own adds to it. */
  function Progress(s: State): nat { BytesLeft(s) + FlagsLeft(s) }

  predicate Stopped(c: Ctl) { c.blocked || c.closing }

  predicate NoFlush(c: Ctl) { c.pending == 0 || Stopped(c) }

  /** Steps left to goroutines in kickWriter and finishWriteTurn while the flags stay as they are. */
  function ToksWork(k: Toks, c: Ctl): nat {
    14 * k.kick1 + 13 * k.kick2 + 12 * k.kick3
    + if c.pending == 0 then k.fin1 + (if Stopped(c) then k.fin2 else 5 * k.fin2) + 4 * k.fin3
      else if Stopped(c) then 2 * k.fin1 + k.fin2 + 5 * k.fin3
      else 13 * k.fin1 + 12 * k.fin2 + 11 * k.fin3
  }

  /** ... to a write turn that finds no reason to flush, and to one at the head of its loop. */
  function EndWork(c: Ctl): nat { if c.pending == 0 then 2 else if Stopped(c) then 3 else 14 }

  function IdleWork(c: Ctl): nat { if NoFlush(c) then EndWork(c) + 1 else 0 }

  function LoopWork(c: Ctl, left: nat): nat { if NoFlush(c) then EndWork(c) + 1 else if left > 0 then 10 else 0 }

  /** A flush that has sent nothing and will send nothing more. */
  predicate SentNothing(d: Data, c: Ctl, send: Send) {
    send.Rest? || (c.unretired == 0 && (send.Retiring? || (send.Detached? && d.inflight == [])))
  }

  function WriterWork(s: State): nat {
    match s.writer
    case Absent => 0
    case Handed => 11
    case Looping => LoopWork(s.ctl, QueueLeft(s.data, s.send))
    case Flushing =>
      1 + if SentNothing(s.data, s.ctl, s.send) then LoopWork(s.ctl, QueueLeft(s.data, s.send)) else IdleWork(s.ctl)
    case Ending => EndWork(s.ctl)
  }

  function SendWork(send: Send): nat {
    match send
    case Rest => 0
    case Entering => 6
    case Choosing => 5
    case Peeked(_) => 3
    case Sent(_) => 6
    case Refused => 2
    case Detached => 4
    case BatchRefused => 2
    case Retiring => 1
  }

  function NextWork(next: Next, isOpen: bool): nat {
    match next
    case Resume => 38
    case Leave => if isOpen then 15 else 55
    case Requeue(_) => 40
    case Rereserve(_, _) => 53
  }

  function TurnWork(t: Turn, isOpen: bool): nat {
    match t
    case Off => if isOpen then 0 else 39
    case Running => 38
    case TryDirect(_) => 79
    case Claimed(_) => 78
    case Sending(_, _) => 57
    case Suffix(_, _, _) => 56
    case Prepending(_, _) => 55
    case Settling(_) => 54
    case Releasing => 53
    case Queueing(_, tried) => if tried then 40 else 63
    case Appending(_) => 39
    case Reserving(_, _, tried) => if tried then 53 else 76
    case Placing(_) => 40
    case PlacingLast(_) => 39
    case ScratchSend => 41
    case ScratchRefused => 40
    case ScratchDone => 39
    case ClaimFlush(next) => NextWork(next, isOpen) + 22
    case InFlush(next) => NextWork(next, isOpen) + 15
    case Leaving => if isOpen then 15 else 55
  }

  function PollWork(k: Sock): nat {
    4 * One(k.edge) + (match k.poll case NoEdge => 0 case GotEdge => 3 case SawEmpty => 2) + One(k.event)
  }

  /** Steps that can be taken with what is left to do unchanged. */
  function Place(s: State): nat {
    ToksWork(s.toks, s.ctl) + WriterWork(s) + SendWork(s.send) + TurnWork(s.turn, s.ctl.isOpen) + PollWork(s.sock)
  }

  /** Steps that carry on what was begun: producers that reserved, kicks, write turns, the holder's sends, the
      poller, and a turn with a reason to start, its operations and its end.  A write turn that looks at
      empty queues while somebody has reserved and not appended waits. */
  predicate Own(s: State, step: Step) {
    || step.Append? || OfToks(step) || step.Hand? || step.FlushDone? || step.GiveUp?
    || (step.Loop? && (NoFlush(s.ctl) || QueueLeft(s.data, s.send) > 0))
    || step.Poll1? || step.Poll2? || step.Poll3? || step.Note? || step.Open? || step.Finish? || step.Turn?
    || step.Sender? || (step.Start? && (s.sock.event || !s.ctl.isOpen))
  }

  /** Less is left to do, or as much with fewer steps. */
  predicate Ranks(s: State, t: State) {
    t == s || Progress(t) < Progress(s) || (Progress(t) == Progress(s) && Place(t) < Place(s))
  }

  /** What the ranking relies on: bytes sent are still pending, and one holder at a time is in a send. */
  predicate Even(s: State) {
    && s.ctl.unretired <= s.ctl.pending && (s.send.Sent? ==> s.send.w <= |s.data.outbound|)
    && (s.send.Peeked? ==> 0 < s.send.k <= |s.data.outbound|)
    && (s.ctl.owner == Free || s.ctl.held ==> s.writer.Absent?)
    && (s.writer.Flushing? ==> !s.turn.InFlush?)
    && (s.writer.Looping? || (s.writer.Absent? && !s.turn.InFlush?) ==> s.send.Rest?)
    && (s.turn.Off? ==> !s.sock.taken)
  }

  lemma InvEven(s: State)
    requires Inv(s)
    ensures Even(s)
  {
  }

  lemma AppendRanks(s: State, i: nat)
    requires Even(s) && i < |s.admitting|
    ensures Ranks(s, ProducerDo(s, Append(i)))
  {
    var t := ProducerDo(s, Append(i));
    SizeRemove(s.admitting, i);
    assert |t.admitting| == |s.admitting| - 1;
    assert QueueLeft(t.data, t.send) == QueueLeft(s.data, s.send) + |s.admitting[i]|;
    assert BytesLeft(t) < BytesLeft(s) && FlagsLeft(t) == FlagsLeft(s);
  }

  lemma TokensRank(s: State, k: Toks)
    requires k == s.toks || ToksWork(k, s.ctl) < ToksWork(s.toks, s.ctl)
    ensures Ranks(s, s.(toks := k))
  {
    var t := s.(toks := k);
    assert BytesLeft(t) == BytesLeft(s) && FlagsLeft(t) == FlagsLeft(s) && WriterWork(t) == WriterWork(s);
  }

  lemma Kick1Ranks(s: State)
    requires Even(s)
    ensures Ranks(s, TokDo(s, Kick1))
  {
    TokensRank(s, TokDo(s, Kick1).toks);
  }

  lemma Kick2Ranks(s: State)
    requires Even(s)
    ensures Ranks(s, TokDo(s, Kick2))
  {
    TokensRank(s, TokDo(s, Kick2).toks);
  }

  lemma Kick3Ranks(s: State)
    requires Even(s)
    ensures Ranks(s, TokDo(s, Kick3))
  {
  }

  lemma Fin1Lowers(k: Toks, c: Ctl)
    requires k.fin1 > 0
    ensures c.pending == 0 ==> ToksWork(k.(fin1 := k.fin1 - 1), c) < ToksWork(k, c)
    ensures c.pending != 0 ==> ToksWork(k.(fin1 := k.fin1 - 1, fin2 := k.fin2 + 1), c) < ToksWork(k, c)
  {
  }

  lemma Fin1Ranks(s: State)
    requires Even(s)
    ensures Ranks(s, TokDo(s, Fin1))
  {
    var k := s.toks;
    if k.fin1 > 0 {
      Fin1Lowers(k, s.ctl);
      if s.ctl.pending == 0 {
        TokensRank(s, k.(fin1 := k.fin1 - 1));
      } else {
        TokensRank(s, k.(fin1 := k.fin1 - 1, fin2 := k.fin2 + 1));
      }
    }
  }

  lemma Fin2Ranks(s: State)
    requires Even(s)
    ensures Ranks(s, TokDo(s, Fin2))
  {
    TokensRank(s, TokDo(s, Fin2).toks);
  }

  lemma Fin3Ranks(s: State)
    requires Even(s)
    ensures Ranks(s, TokDo(s, Fin3))
  {
  }

  lemma HandRanks(s: State)
    requires Even(s)
    ensures Ranks(s, WriterDo(s, Step.Hand))
  {
  }

  lemma FlushDoneRanks(s: State)
    requires Even(s)
    ensures Ranks(s, WriterDo(s, FlushDone))
  {
  }

  lemma GivesToken(k: Toks, c: Ctl)
    ensures ToksWork(k.(fin1 := k.fin1 + 1), c.(owner := Free)) == ToksWork(k, c) + EndWork(c) - 1
  {
  }

  lemma GiveUpRanks(s: State)
    requires Even(s)
    ensures Ranks(s, WriterDo(s, GiveUp))
  {
    var t := WriterDo(s, GiveUp);
    if s.writer.Ending? {
      GivesToken(s.toks, s.ctl);
      assert WriterWork(t) == 0 && WriterWork(s) == EndWork(s.ctl);
      assert BytesLeft(t) == BytesLeft(s) && FlagsLeft(t) == FlagsLeft(s);
    }
  }

  lemma LoopRanks(s: State, go: bool)
    requires Even(s) && (NoFlush(s.ctl) || QueueLeft(s.data, s.send) > 0)
    ensures Ranks(s, WriterDo(s, Loop(go)))
  {
  }

  lemma OnlySockRanks(s: State, k: Sock)
    requires EdgesLeft(k) < EdgesLeft(s.sock) || (EdgesLeft(k) == EdgesLeft(s.sock) && PollWork(k) < PollWork(s.sock))
    ensures Ranks(s, s.(sock := k))
  {
    var t := s.(sock := k);
    assert BytesLeft(t) == BytesLeft(s) && WriterWork(t) == WriterWork(s);
  }

  lemma PollLowers(s: State, step: Step)
    requires step.Poll1? || step.Poll2? || step.Poll3?
    ensures var k := SockDo(s, step).sock;
            k == s.sock || EdgesLeft(k) < EdgesLeft(s.sock)
            || (EdgesLeft(k) == EdgesLeft(s.sock) && PollWork(k) < PollWork(s.sock))
  {
    match step
    case Poll1 =>
    case Poll2 =>
    case Poll3 =>
  }

  lemma PollRanks(s: State, step: Step)
    requires step.Poll1? || step.Poll2? || step.Poll3?
    ensures Ranks(s, SockDo(s, step))
  {
    var k := SockDo(s, step).sock;
    assert SockDo(s, step) == s.(sock := k);
    if k != s.sock {
      PollLowers(s, step);
      OnlySockRanks(s, k);
    }
  }

  lemma StartRanks(s: State)
    requires Even(s) && (s.sock.event || !s.ctl.isOpen)
    ensures Ranks(s, TurnBegin(s, Start))
  {
  }

  lemma NoteRanks(s: State)
    requires Even(s)
    ensures Ranks(s, TurnBegin(s, Note))
  {
    var t := TurnBegin(s, Note);
    if t != s { assert BytesLeft(t) == BytesLeft(s) && FlagsLeft(t) < FlagsLeft(s); }
  }

  lemma OpenRanks(s: State)
    requires Even(s)
    ensures Ranks(s, TurnBegin(s, Open))
  {
  }

  /** Handing the reply space over brings its bytes nearer to the socket. */
  lemma HandOverLeft(d: Data, send: Send)
    requires send.Sent? ==> send.w <= |d.outbound|
    ensures QueueLeft(HandOver(d), send) == QueueLeft(d, send) + |d.scratch|
  {
  }

  /** ... so a turn that does so and goes to a lower place has made progress. */
  lemma HandOverRanks(s: State, turn: Turn)
    requires Even(s) && ToReserve(turn) == ToReserve(s.turn) && Reserved(turn) == Reserved(s.turn)
    requires !MayUnblock(turn) && TurnWork(turn, s.ctl.isOpen) < TurnWork(s.turn, s.ctl.isOpen)
    ensures Ranks(s, s.(data := HandOver(s.data), turn := turn))
  {
    var t := s.(data := HandOver(s.data), turn := turn);
    HandOverLeft(s.data, s.send);
    assert BytesLeft(t) + |s.data.scratch| == BytesLeft(s) && FlagsLeft(t) <= FlagsLeft(s);
    if s.data.scratch == [] { assert HandOver(s.data).outbound == s.data.outbound; }
  }

  lemma FinishRanks(s: State)
    requires Even(s)
    ensures Ranks(s, TurnBegin(s, Finish))
  {
    var t := TurnBegin(s, Finish);
    if s.turn.Running? && s.ctl.isOpen && !s.sock.taken {
      if s.ctl.closing {
        HandOverRanks(s, Leaving);
      } else if s.ctl.pending != 0 {
        HandOverRanks(s, ClaimFlush(Leave));
      } else {
        OnlyTurnRanks(s, Leaving);
      }
    }
  }

  /** A turn that does nothing but go to a lower place, reserving no more than it would have. */
  lemma OnlyTurnRanks(s: State, turn: Turn)
    requires ToReserve(turn) <= ToReserve(s.turn) && Reserved(turn) == Reserved(s.turn)
    requires (MayUnblock(turn) ==> MayUnblock(s.turn)) && TurnWork(turn, s.ctl.isOpen) < TurnWork(s.turn, s.ctl.isOpen)
    ensures Ranks(s, s.(turn := turn))
  {
    var t := s.(turn := turn);
    assert BytesLeft(t) <= BytesLeft(s) && FlagsLeft(t) <= FlagsLeft(s);
  }

  /** A turn that goes to a lower place, with the queues, the flags and everybody else where they were. */
  lemma LowerRanks(s: State, t: State)
    requires BytesLeft(t) <= BytesLeft(s) && FlagsLeft(t) <= FlagsLeft(s)
    requires t.toks == s.toks && t.writer == s.writer && t.send == s.send && t.ctl == s.ctl
    requires t.data.inflight == s.data.inflight && t.data.outbound == s.data.outbound
    requires PollWork(t.sock) == PollWork(s.sock)
    requires TurnWork(t.turn, t.ctl.isOpen) < TurnWork(s.turn, s.ctl.isOpen)
    ensures Ranks(s, t)
  {
    assert QueueLeft(t.data, t.send) == QueueLeft(s.data, s.send) && WriterWork(t) == WriterWork(s);
  }

  /** A turn that releases the claim and kicks. */
  lemma KickBackRanks(s: State, turn: Turn)
    requires ToReserve(turn) <= ToReserve(s.turn) && Reserved(turn) == Reserved(s.turn)
    requires (MayUnblock(turn) ==> MayUnblock(s.turn))
    requires TurnWork(turn, s.ctl.isOpen) + 14 < TurnWork(s.turn, s.ctl.isOpen)
    ensures Ranks(s, ReleaseAndKick(s).(turn := turn))
  {
    var t := ReleaseAndKick(s).(turn := turn);
    assert BytesLeft(t) <= BytesLeft(s) && FlagsLeft(t) <= FlagsLeft(s) && WriterWork(t) == WriterWork(s);
    assert ToksWork(t.toks, t.ctl) == ToksWork(s.toks, s.ctl) + 14;
  }

  /** Reserving brings bytes nearer to the socket. */
  lemma ReserveRanks(s: State, turn: Turn, n: nat)
    requires Even(s) && ToReserve(s.turn) == n && Reserved(s.turn) == 0 && ToReserve(turn) == 0 && Reserved(turn) == n
    requires (MayUnblock(turn) ==> MayUnblock(s.turn))
    requires TurnWork(turn, s.ctl.isOpen) < TurnWork(s.turn, s.ctl.isOpen)
    ensures Ranks(s, s.(ctl := s.ctl.(pending := s.ctl.pending + n), turn := turn))
  {
    var t := s.(ctl := s.ctl.(pending := s.ctl.pending + n), turn := turn);
    assert FlagsLeft(t) <= FlagsLeft(s) && BytesLeft(t) + n == BytesLeft(s);
    if n == 0 { LowerRanks(s, t); }
  }

  // a direct write

  lemma TryDirectRanks(s: State, w: nat, fills: bool)
    requires Even(s) && s.turn.TryDirect?
    ensures Ranks(s, StartDo(s, w, fills))
  {
  }

  lemma ClaimedRanks(s: State, w: nat, fills: bool)
    requires Even(s) && s.turn.Claimed?
    ensures Ranks(s, StartDo(s, w, fills))
  {
    if s.ctl.pending != 0 {
      KickBackRanks(s, Queueing(s.turn.data, false));
    } else {
      LowerRanks(s, StartDo(s, w, fills));
    }
  }

  lemma SendingRanks(s: State, w: nat, fills: bool)
    requires Even(s) && s.turn.Sending?
    ensures Ranks(s, StartDo(s, w, fills))
  {
    if s.sock.full {
      OnlyTurnRanks(s, Suffix(s.turn.data, s.turn.at, true));
    } else {
      SentRanksOn(s, Cap(w, |s.turn.data|), fills);
    }
  }

  lemma SentRanksOn(s: State, n: nat, fills: bool)
    requires Even(s) && s.turn.Sending? && n <= |s.turn.data|
    ensures Ranks(s, s.(data := s.data.(wire := s.data.wire + s.turn.data[..n]), sock := s.sock.(full := fills),
                        turn := if n == |s.turn.data| then Releasing else Suffix(s.turn.data[n..], s.turn.at, false)))
  {
    var turn := if n == |s.turn.data| then Releasing else Suffix(s.turn.data[n..], s.turn.at, false);
    var t := s.(data := s.data.(wire := s.data.wire + s.turn.data[..n]), sock := s.sock.(full := fills), turn := turn);
    assert ToReserve(turn) <= ToReserve(s.turn) && Reserved(turn) == 0 && FlagsLeft(t) <= FlagsLeft(s);
    LowerRanks(s, t);
  }

  lemma WithdrawRanks(s: State, closing: bool)
    requires Even(s) && s.turn.Suffix? && (s.ctl.closing ==> closing)
    ensures Ranks(s, s.(data := s.data.(log := Withdraw(s.data.log, s.turn.at, |s.turn.rest|)),
                        ctl := s.ctl.(closing := closing), turn := Releasing))
  {
    var t := s.(data := s.data.(log := Withdraw(s.data.log, s.turn.at, |s.turn.rest|)),
                ctl := s.ctl.(closing := closing), turn := Releasing);
    assert BytesLeft(t) <= BytesLeft(s);
    if closing == s.ctl.closing {
      assert FlagsLeft(t) <= FlagsLeft(s);
      LowerRanks(s, t);
    } else {
      assert FlagsLeft(t) < FlagsLeft(s);
    }
  }

  lemma SuffixReserves(s: State)
    requires Even(s) && s.turn.Suffix? && Fits(s.ctl, |s.turn.rest|)
    ensures Ranks(s, SettleDo(s))
  {
    var turn := Prepending(s.turn.rest, s.turn.none);
    assert SettleDo(s) == s.(ctl := s.ctl.(pending := s.ctl.pending + |s.turn.rest|), turn := turn);
    ReserveRanks(s, turn, |s.turn.rest|);
  }

  lemma SuffixRanks(s: State)
    requires Even(s) && s.turn.Suffix?
    ensures Ranks(s, SettleDo(s))
  {
    if Fits(s.ctl, |s.turn.rest|) {
      SuffixReserves(s);
    } else {
      var closing := s.ctl.closing || !s.turn.none;
      assert SettleDo(s) == s.(data := s.data.(log := Withdraw(s.data.log, s.turn.at, |s.turn.rest|)),
                               ctl := s.ctl.(closing := closing), turn := Releasing);
      WithdrawRanks(s, closing);
    }
  }

  lemma PrependingRanks(s: State)
    requires Even(s) && s.turn.Prepending?
    ensures Ranks(s, SettleDo(s))
  {
  }

  lemma SettlingRanks(s: State)
    requires Even(s) && s.turn.Settling?
    ensures Ranks(s, SettleDo(s))
  {
  }

  lemma ReleasingRanks(s: State)
    requires Even(s) && s.turn.Releasing?
    ensures Ranks(s, SettleDo(s))
  {
    KickBackRanks(s, Running);
  }

  // a queued write or a reservation

  lemma QueueingReserves(s: State, fills: bool)
    requires Even(s) && s.turn.Queueing? && Fits(s.ctl, |s.turn.data|)
    ensures Ranks(s, QueueDo(s, fills))
  {
    var turn := Appending(s.turn.data);
    assert QueueDo(s, fills) == s.(ctl := s.ctl.(pending := s.ctl.pending + |s.turn.data|), turn := turn);
    ReserveRanks(s, turn, |s.turn.data|);
  }

  lemma QueueingFlushes(s: State, fills: bool)
    requires Even(s) && s.turn.Queueing? && !s.turn.tried && !Fits(s.ctl, |s.turn.data|)
    requires s.ctl.pending != 0 && !s.ctl.blocked
    ensures Ranks(s, QueueDo(s, fills))
  {
    var turn := ClaimFlush(Requeue(s.turn.data));
    assert QueueDo(s, fills) == s.(data := HandOver(s.data), turn := turn);
    HandOverRanks(s, turn);
  }

  lemma QueueingRanks(s: State, fills: bool)
    requires Even(s) && s.turn.Queueing?
    ensures Ranks(s, QueueDo(s, fills))
  {
    if Fits(s.ctl, |s.turn.data|) {
      QueueingReserves(s, fills);
    } else if s.turn.tried || s.ctl.pending == 0 || s.ctl.blocked {
      assert QueueDo(s, fills) == s.(turn := Running);
      OnlyTurnRanks(s, Running);
    } else {
      QueueingFlushes(s, fills);
    }
  }

  lemma AppendingRanks(s: State, fills: bool)
    requires Even(s) && s.turn.Appending?
    ensures Ranks(s, QueueDo(s, fills))
  {
  }

  lemma ReservingReserves(s: State, fills: bool)
    requires Even(s) && s.turn.Reserving? && Fits(s.ctl, |s.turn.data|)
    ensures Ranks(s, QueueDo(s, fills))
  {
    var turn := Placing(s.turn.data);
    assert QueueDo(s, fills) == s.(ctl := s.ctl.(pending := s.ctl.pending + |s.turn.data|), turn := turn);
    ReserveRanks(s, turn, |s.turn.data|);
  }

  lemma ReservingFlushes(s: State, fills: bool)
    requires Even(s) && s.turn.Reserving? && !s.turn.tried && !Fits(s.ctl, |s.turn.data|)
    requires s.ctl.pending != 0 && !s.ctl.blocked
    ensures Ranks(s, QueueDo(s, fills))
  {
    var turn := ClaimFlush(Rereserve(s.turn.data, s.turn.took));
    assert QueueDo(s, fills) == s.(data := HandOver(s.data), turn := turn);
    HandOverRanks(s, turn);
  }

  lemma ReservingRanks(s: State, fills: bool)
    requires Even(s) && s.turn.Reserving?
    ensures Ranks(s, QueueDo(s, fills))
  {
    if Fits(s.ctl, |s.turn.data|) {
      ReservingReserves(s, fills);
    } else if !s.turn.tried && s.ctl.pending != 0 && !s.ctl.blocked {
      ReservingFlushes(s, fills);
    } else if s.turn.took {
      assert QueueDo(s, fills) == ReleaseAndKick(s).(turn := Running);
      KickBackRanks(s, Running);
    } else {
      assert QueueDo(s, fills) == s.(turn := Running);
      OnlyTurnRanks(s, Running);
    }
  }

  lemma PlacedRanks(s: State)
    requires Even(s) && s.turn.Placing?
    ensures Ranks(s, s.(data := s.data.(scratch := s.data.scratch + s.turn.data, log := s.data.log + [s.turn.data]),
                        turn := Running))
  {
    var t := s.(data := s.data.(scratch := s.data.scratch + s.turn.data, log := s.data.log + [s.turn.data]),
                turn := Running);
    assert BytesLeft(t) + |s.turn.data| == BytesLeft(s) && FlagsLeft(t) <= FlagsLeft(s);
    LowerRanks(s, t);
  }

  lemma PlacingRanks(s: State, fills: bool)
    requires Even(s) && s.turn.Placing?
    ensures Ranks(s, QueueDo(s, fills))
  {
    if s.ctl.pending != |s.data.scratch| + |s.turn.data| {
      OnlyTurnRanks(s, PlacingLast(s.turn.data));
    } else if fills {
      HandOverRanks(s, PlacingLast(s.turn.data));
    } else {
      PlacedRanks(s);
    }
  }

  lemma PlacingLastRanks(s: State, fills: bool)
    requires Even(s) && s.turn.PlacingLast?
    ensures Ranks(s, QueueDo(s, fills))
  {
  }

  // the reply space, a flush, the end

  lemma ScratchSendRanks(s: State, w: nat, fills: bool)
    requires Even(s) && s.turn.ScratchSend?
    ensures Ranks(s, EndDo(s, w, fills))
  {
    if s.data.scratch == [] {
      OnlyTurnRanks(s, ScratchDone);
      assert EndDo(s, w, fills) == s.(turn := ScratchDone);
    } else if s.sock.full {
      OnlyTurnRanks(s, ScratchRefused);
      assert EndDo(s, w, fills) == s.(turn := ScratchRefused);
    } else {
      ScratchSends(s, w, fills);
    }
  }

  lemma ScratchSends(s: State, w: nat, fills: bool)
    requires s.turn.ScratchSend? && s.data.scratch != [] && !s.sock.full
    ensures Progress(EndDo(s, w, fills)) < Progress(s)
  {
    var t := EndDo(s, w, fills);
    assert |t.data.scratch| < |s.data.scratch| && t.turn == s.turn && t.send == s.send && t.admitting == s.admitting;
    assert QueueLeft(t.data, t.send) == QueueLeft(s.data, s.send) && t.ctl.pending == s.ctl.pending;
    assert BytesLeft(t) < BytesLeft(s) && FlagsLeft(t) == FlagsLeft(s);
  }

  lemma ScratchRefusedRanks(s: State, w: nat, fills: bool)
    requires Even(s) && s.turn.ScratchRefused?
    ensures Ranks(s, EndDo(s, w, fills))
  {
    var t := EndDo(s, w, fills);
    if s.ctl.edgeFlag {
      assert BytesLeft(t) == BytesLeft(s) && FlagsLeft(t) < FlagsLeft(s);
    } else if s.ctl.blocked {
      HandOverRanks(s, ScratchDone);
    } else {
      HandOverLeft(s.data, s.send);
      assert BytesLeft(t) <= BytesLeft(s) && FlagsLeft(t) < FlagsLeft(s);
    }
  }

  lemma ScratchDoneRanks(s: State, w: nat, fills: bool)
    requires Even(s) && s.turn.ScratchDone?
    ensures Ranks(s, EndDo(s, w, fills))
  {
  }

  lemma FlushClaimed(s: State, c: Ctl)
    requires Even(s) && s.turn.ClaimFlush? && (s.ctl.held || s.ctl.owner == Free)
    requires c == s.ctl || c == Claim(s.ctl, ByTurn)
    ensures Ranks(s, s.(ctl := c, turn := InFlush(s.turn.next), send := Entering))
  {
    var t := s.(ctl := c, turn := InFlush(s.turn.next), send := Entering);
    assert BytesLeft(t) == BytesLeft(s) && FlagsLeft(t) <= FlagsLeft(s);
    assert WriterWork(t) == 0 && ToksWork(t.toks, t.ctl) == ToksWork(s.toks, s.ctl);
  }

  lemma ClaimFlushRanks(s: State, w: nat, fills: bool)
    requires Even(s) && s.turn.ClaimFlush?
    ensures Ranks(s, EndDo(s, w, fills))
  {
    if s.ctl.held {
      FlushClaimed(s, s.ctl);
    } else if s.ctl.owner == Free {
      FlushClaimed(s, Claim(s.ctl, ByTurn));
    } else {
      OnlyTurnRanks(s, Then(s.turn.next));
    }
  }

  lemma ThenWork(next: Next, isOpen: bool)
    ensures ToReserve(Then(next)) == NextReserve(next) && Reserved(Then(next)) == 0 && !MayUnblock(Then(next))
    ensures TurnWork(Then(next), isOpen) == NextWork(next, isOpen)
  {
  }

  lemma InFlushRanks(s: State, w: nat, fills: bool)
    requires Even(s) && s.turn.InFlush?
    ensures Ranks(s, EndDo(s, w, fills))
  {
    ThenWork(s.turn.next, s.ctl.isOpen);
    if !s.send.Rest? {
      assert EndDo(s, w, fills) == s;
    } else if s.ctl.held {
      OnlyTurnRanks(s, Then(s.turn.next));
      assert EndDo(s, w, fills) == s.(turn := Then(s.turn.next));
    } else {
      KickBackRanks(s, Then(s.turn.next));
      assert EndDo(s, w, fills) == ReleaseAndKick(s).(turn := Then(s.turn.next));
    }
  }

  lemma LeavingRanks(s: State, w: nat, fills: bool)
    requires Even(s) && s.turn.Leaving?
    ensures Ranks(s, EndDo(s, w, fills))
  {
    if s.ctl.held { KickBackRanks(s, Off); } else { OnlyTurnRanks(s, Off); }
  }

  // the holder's sends

  lemma EnteringRanks(s: State, how: How)
    requires Even(s) && s.send.Entering?
    ensures Ranks(s, SenderDo(s, how))
  {
  }

  lemma ChoosingRanks(s: State, how: How)
    requires Even(s) && s.send.Choosing?
    ensures Ranks(s, SenderDo(s, how))
  {
  }

  lemma PeekedRanks(s: State, how: How)
    requires Even(s) && s.send.Peeked?
    ensures Ranks(s, SenderDo(s, how))
  {
    var t := SenderDo(s, how);
    if s.sock.full {
      SendingOn(s, Refused);
    } else if how.Take? {
      assert QueueLeft(t.data, t.send) < QueueLeft(s.data, s.send) && FlagsLeft(t) == FlagsLeft(s);
    }
  }

  /** The holder goes to a lower place in a flush it goes on with. */
  lemma SendingOn(s: State, send: Send)
    requires SendWork(send) < SendWork(s.send) && !s.send.Sent? && !send.Sent?
    requires s.writer.Flushing? && SentNothing(s.data, s.ctl, send) && !SentNothing(s.data, s.ctl, s.send)
             ==> NoFlush(s.ctl) || QueueLeft(s.data, s.send) == 0
    requires s.writer.Flushing? && SentNothing(s.data, s.ctl, s.send) ==> SentNothing(s.data, s.ctl, send)
    requires s.writer.Looping? ==> s.send.Rest?
    ensures Ranks(s, s.(send := send))
  {
    var t := s.(send := send);
    assert QueueLeft(t.data, t.send) == QueueLeft(s.data, s.send) && BytesLeft(t) == BytesLeft(s);
    assert FlagsLeft(t) == FlagsLeft(s);
    assert WriterWork(t) <= WriterWork(s);
  }

  lemma SentRanks(s: State, how: How)
    requires Even(s) && s.send.Sent?
    ensures Ranks(s, SenderDo(s, how))
  {
  }

  lemma RefusedRanks(s: State, how: How)
    requires Even(s) && (s.send.Refused? || s.send.BatchRefused?)
    ensures Ranks(s, SenderDo(s, how))
  {
    var t := SenderDo(s, how);
    if !s.ctl.edgeFlag && s.ctl.blocked {
      SendingOn(s, Retiring);
      assert t == s.(send := Retiring);
    } else {
      assert BytesLeft(t) == BytesLeft(s) && FlagsLeft(t) < FlagsLeft(s);
    }
  }

  lemma BatchSends(s: State, how: How)
    requires s.send.Detached? && s.data.inflight != [] && !s.sock.full && how.Take?
    ensures Progress(SenderDo(s, how)) < Progress(s)
  {
    var t := SenderDo(s, how);
    assert |t.data.inflight| < |s.data.inflight| && t.turn == s.turn && t.send == s.send && t.admitting == s.admitting;
    assert QueueLeft(t.data, t.send) < QueueLeft(s.data, s.send) && t.ctl.pending == s.ctl.pending;
    assert BytesLeft(t) < BytesLeft(s) && FlagsLeft(t) == FlagsLeft(s);
  }

  lemma DetachedRanks(s: State, how: How)
    requires Even(s) && s.send.Detached?
    ensures Ranks(s, SenderDo(s, how))
  {
    if s.data.inflight == [] || (how.Stop? && s.ctl.unretired > 0) {
      SendingOn(s, Retiring);
    } else if s.sock.full {
      SendingOn(s, BatchRefused);
    } else if how.Take? {
      BatchSends(s, how);
    }
  }

  lemma RetiringRanks(s: State, how: How)
    requires Even(s) && s.send.Retiring?
    ensures Ranks(s, SenderDo(s, how))
  {
  }

  // every step

  lemma TokRanks(s: State, step: Step)
    requires Even(s) && OfToks(step)
    ensures Ranks(s, TokDo(s, step))
  {
    match step
    case Kick1 => Kick1Ranks(s);
    case Kick2 => Kick2Ranks(s);
    case Kick3 => Kick3Ranks(s);
    case Fin1 => Fin1Ranks(s);
    case Fin2 => Fin2Ranks(s);
    case Fin3 => Fin3Ranks(s);
  }

  lemma WriterRanks(s: State, step: Step)
    requires Even(s) && OfWriter(step) && Own(s, step)
    ensures Ranks(s, WriterDo(s, step))
  {
    match step
    case Hand => HandRanks(s);
    case Loop(go) => LoopRanks(s, go);
    case FlushDone => FlushDoneRanks(s);
    case GiveUp => GiveUpRanks(s);
  }

  lemma BeginRanks(s: State, step: Step)
    requires Even(s) && (step.Start? || step.Note? || step.Open? || step.Finish?) && Own(s, step)
    ensures Ranks(s, TurnBegin(s, step))
  {
    match step
    case Start => StartRanks(s);
    case Note => NoteRanks(s);
    case Open => OpenRanks(s);
    case Finish => FinishRanks(s);
  }

  lemma DirectRanks(s: State, w: nat, fills: bool)
    requires Even(s) && (StartPc(s.turn) || DirectPc(s.turn))
    ensures Ranks(s, TurnDo(s, w, fills))
  {
    match s.turn
    case TryDirect(_) => TryDirectRanks(s, w, fills);
    case Claimed(_) => ClaimedRanks(s, w, fills);
    case Sending(_, _) => SendingRanks(s, w, fills);
    case Suffix(_, _, _) => SuffixRanks(s);
    case Prepending(_, _) => PrependingRanks(s);
    case Settling(_) => SettlingRanks(s);
    case Releasing => ReleasingRanks(s);
  }

  lemma QueueRanks(s: State, w: nat, fills: bool)
    requires Even(s) && QueuePc(s.turn)
    ensures Ranks(s, TurnDo(s, w, fills))
  {
    match s.turn
    case Queueing(_, _) => QueueingRanks(s, fills);
    case Appending(_) => AppendingRanks(s, fills);
    case Reserving(_, _, _) => ReservingRanks(s, fills);
    case Placing(_) => PlacingRanks(s, fills);
    case PlacingLast(_) => PlacingLastRanks(s, fills);
  }

  lemma TurnRanks(s: State, w: nat, fills: bool)
    requires Even(s)
    ensures Ranks(s, TurnDo(s, w, fills))
  {
    if StartPc(s.turn) || DirectPc(s.turn) {
      DirectRanks(s, w, fills);
    } else if QueuePc(s.turn) {
      QueueRanks(s, w, fills);
    } else {
      match s.turn
      case ScratchSend => ScratchSendRanks(s, w, fills);
      case ScratchRefused => ScratchRefusedRanks(s, w, fills);
      case ScratchDone => ScratchDoneRanks(s, w, fills);
      case ClaimFlush(_) => ClaimFlushRanks(s, w, fills);
      case InFlush(_) => InFlushRanks(s, w, fills);
      case Leaving => LeavingRanks(s, w, fills);
      case _ =>
    }
  }

  lemma SenderRanks(s: State, how: How)
    requires Even(s)
    ensures Ranks(s, SenderDo(s, how))
  {
    match s.send
    case Rest =>
    case Entering => EnteringRanks(s, how);
    case Choosing => ChoosingRanks(s, how);
    case Peeked(_) => PeekedRanks(s, how);
    case Sent(_) => SentRanks(s, how);
    case Refused => RefusedRanks(s, how);
    case Detached => DetachedRanks(s, how);
    case BatchRefused => RefusedRanks(s, how);
    case Retiring => RetiringRanks(s, how);
  }

  lemma ProducerStepRanks(s: State, step: Step)
    requires Even(s) && step.Append?
    ensures Ranks(s, Do(s, step))
  {
    if step.i < |s.admitting| { AppendRanks(s, step.i); }
  }

  lemma TokStepRanks(s: State, step: Step)
    requires Even(s) && OfToks(step)
    ensures Ranks(s, Do(s, step))
  {
    var t := TokDo(s, step);
    assert Do(s, step) == t;
    TokRanks(s, step);
  }

  lemma PollStepRanks(s: State, step: Step)
    requires step.Poll1? || step.Poll2? || step.Poll3?
    ensures Ranks(s, Do(s, step))
  {
    var t := SockDo(s, step);
    assert Do(s, step) == t;
    PollRanks(s, step);
  }

  lemma WriterStepRanks(s: State, step: Step)
    requires Even(s) && Own(s, step) && OfWriter(step)
    ensures Ranks(s, Do(s, step))
  {
    WriterRanks(s, step);
  }

  lemma TurnStepRanks(s: State, step: Step)
    requires Even(s) && Own(s, step) && !step.Append? && !OfToks(step) && !OfSock(step) && !OfWriter(step)
    ensures Ranks(s, Do(s, step))
  {
    if step.Turn? {
      TurnRanks(s, step.w, step.fills);
    } else if step.Sender? {
      SenderRanks(s, step.how);
    } else {
      BeginRanks(s, step);
    }
  }

  /** Every step of the write path's own that does something leaves less to do, or as much with fewer steps,
      whoever takes it. */
  lemma StepRanks(s: State, step: Step)
    requires Even(s) && Own(s, step)
    ensures Ranks(s, Do(s, step))
  {
    if step.Append? {
      ProducerStepRanks(s, step);
    } else if OfToks(step) {
      TokStepRanks(s, step);
    } else if OfSock(step) {
      PollStepRanks(s, step);
    } else if OfWriter(step) {
      WriterStepRanks(s, step);
    } else {
      TurnStepRanks(s, step);
    }
  }

  /** No step of the write path's own does anything. */
  ghost predicate AtRest(s: State) { forall step :: Own(s, step) ==> Do(s, step) == s }

  /** A scheduler that, while something can be done, lets somebody do something. */
  ghost predicate Schedules(pick: State -> Step) {
    forall u :: Inv(u) && !AtRest(u) ==> Own(u, pick(u)) && Do(u, pick(u)) != u
  }

  ghost function SomeStep(u: State): Step {
    if exists step :: Own(u, step) && Do(u, step) != u then
      var step :| Own(u, step) && Do(u, step) != u;
      step
    else Room
  }

  /** There is one. */
  lemma SchedulerExists()
    ensures Schedules(SomeStep)
  {
  }

  /** The state after `n` steps of the scheduler's choice. */
  function Follow(s: State, pick: State -> Step, n: nat): State
    decreases n
  {
    if n == 0 then s else Follow(Do(s, pick(s)), pick, n - 1)
  }

  lemma {:induction false} RestFrom(s: State, pick: State -> Step) returns (n: nat)
    requires Inv(s) && Schedules(pick)
    ensures AtRest(Follow(s, pick, n)) && Inv(Follow(s, pick, n))
    decreases Progress(s), Place(s)
  {
    if AtRest(s) {
      n := 0;
    } else {
      InvEven(s);
      StepRanks(s, pick(s));
      StepKeeps(s, pick(s));
      n := RestFrom(Do(s, pick(s)), pick);
      n := n + 1;
    }
  }

  lemma SendMoves(s: State)
    requires Inv(s) && !s.send.Rest?
    ensures exists how :: SenderDo(s, how).send != s.send || SenderDo(s, how).data != s.data
  {
    match s.send
    case Entering => assert SenderDo(s, Stop).send != s.send;
    case Choosing =>
      if s.data.inflight != [] {
        assert SenderDo(s, Batch).send == Detached;
      } else if s.data.outbound != [] {
        assert SenderDo(s, InPlace(1)).send == Peeked(1);
      } else {
        assert SenderDo(s, Stop).send == Retiring;
      }
    case Peeked(k) => assert SenderDo(s, Take(1, false)).send != s.send;
    case Sent(_) => assert SenderDo(s, Stop).send != s.send;
    case Refused => assert SenderDo(s, Stop).send != s.send;
    case Detached =>
      var t := SenderDo(s, Take(1, false));
      assert t.send != s.send || |t.data.inflight| < |s.data.inflight|;
    case BatchRefused => assert SenderDo(s, Stop).send != s.send;
    case Retiring => assert SenderDo(s, Stop).send != s.send;
  }

  lemma TokMoves(s: State) returns (step: Step)
    requires Kicked(s.toks)
    ensures Own(s, step) && Do(s, step).toks != s.toks
  {
    var k := s.toks;
    if k.kick1 > 0 {
      step := Kick1;
      assert Do(s, step).toks.kick1 == k.kick1 - 1;
    } else if k.kick2 > 0 {
      step := Kick2;
      assert Do(s, step).toks.kick2 == k.kick2 - 1;
    } else if k.kick3 > 0 {
      step := Kick3;
      assert Do(s, step).toks.kick3 == k.kick3 - 1;
    } else if k.fin1 > 0 {
      step := Fin1;
      assert Do(s, step).toks.fin1 == k.fin1 - 1;
    } else if k.fin2 > 0 {
      step := Fin2;
      assert Do(s, step).toks.fin2 == k.fin2 - 1;
    } else {
      step := Fin3;
      assert Do(s, step).toks.fin3 == k.fin3 - 1;
    }
  }

  lemma ToksRest(s: State)
    requires AtRest(s)
    ensures !Kicked(s.toks)
  {
    if Kicked(s.toks) { var step := TokMoves(s); }
  }

  lemma AppendMoves(s: State)
    requires s.admitting != []
    ensures |Do(s, Append(0)).admitting| < |s.admitting|
  {
  }

  lemma ProducersRest(s: State)
    requires AtRest(s)
    ensures s.admitting == []
  {
    if s.admitting != [] { AppendMoves(s); }
  }

  lemma PollMoves(s: State)
    requires s.sock.edge || !s.sock.poll.NoEdge?
    ensures Do(s, Poll1).sock != s.sock || Do(s, Poll2).sock != s.sock || Do(s, Poll3).sock != s.sock
  {
    match s.sock.poll
    case NoEdge => assert !Do(s, Poll1).sock.edge;
    case GotEdge => assert !Do(s, Poll2).sock.poll.GotEdge?;
    case SawEmpty => assert Do(s, Poll3).sock.poll.NoEdge?;
  }

  lemma PollRests(s: State)
    requires AtRest(s)
    ensures !s.sock.edge && s.sock.poll.NoEdge?
  {
    if s.sock.edge || !s.sock.poll.NoEdge? { PollMoves(s); }
  }

  lemma SenderMoves(s: State) returns (how: How)
    requires Inv(s) && !s.send.Rest?
    ensures Do(s, Sender(how)) != s
  {
    SendMoves(s);
    how :| SenderDo(s, how).send != s.send || SenderDo(s, how).data != s.data;
  }

  lemma SendRests(s: State)
    requires Inv(s) && AtRest(s)
    ensures s.send.Rest?
  {
    if !s.send.Rest? { var how := SenderMoves(s); }
  }

  lemma QueueMoves(s: State)
    requires QueuePc(s.turn)
    ensures QueueDo(s, false).turn != s.turn
  {
    match s.turn
    case Queueing(_, _) =>
    case Appending(_) =>
    case Reserving(_, _, _) =>
    case Placing(_) =>
    case PlacingLast(_) =>
  }

  lemma DirectMovesOn(s: State)
    requires StartPc(s.turn) || DirectPc(s.turn)
    ensures TurnDo(s, 0, false).turn != s.turn
  {
    match s.turn
    case TryDirect(_) =>
    case Claimed(_) =>
    case Sending(_, _) =>
    case Suffix(_, _, _) =>
    case Prepending(_, _) =>
    case Settling(_) =>
    case Releasing =>
  }

  /** An operation the turn began can go on. */
  lemma OperationMoves(s: State)
    requires Inv(s) && s.send.Rest? && !s.turn.Off? && !s.turn.Running?
    ensures TurnDo(s, 0, false) != s
  {
    if StartPc(s.turn) || DirectPc(s.turn) {
      DirectMovesOn(s);
    } else if QueuePc(s.turn) {
      QueueMoves(s);
    } else {
      var t := TurnDo(s, 0, false);
      assert t.turn != s.turn || |t.data.scratch| < |s.data.scratch|;
    }
  }

  lemma RunningMoves(s: State)
    requires s.turn.Running?
    ensures Do(s, Note) != s || Do(s, Open) != s || Do(s, Finish) != s
  {
    if s.sock.taken {
      assert !Do(s, Note).sock.taken;
    } else if !s.ctl.isOpen {
      assert Do(s, Open).ctl.isOpen;
    } else {
      assert !Do(s, Finish).turn.Running?;
    }
  }

  lemma TurnMoves(s: State)
    requires Inv(s) && s.send.Rest? && (!s.turn.Off? || s.sock.event || !s.ctl.isOpen)
    ensures (Own(s, Start) && Do(s, Start) != s) || Do(s, Note) != s || Do(s, Open) != s || Do(s, Finish) != s
            || Do(s, Turn(0, false)) != s
  {
    if s.turn.Off? {
      assert Do(s, Start).turn == Running;
    } else if s.turn.Running? {
      RunningMoves(s);
    } else {
      OperationMoves(s);
    }
  }

  lemma TurnRests(s: State)
    requires Inv(s) && AtRest(s)
    ensures s.turn.Off? && !s.sock.event && s.ctl.isOpen
  {
    SendRests(s);
    if !s.turn.Off? || s.sock.event || !s.ctl.isOpen { TurnMoves(s); }
  }

  /** Output that a write turn finds pending, with nobody else about, is in the queues. */
  lemma PendingQueued(s: State)
    requires Inv(s) && s.turn.Off? && s.send.Rest? && s.admitting == []
    ensures s.ctl.pending == QueueLeft(s.data, s.send)
  {
    assert s.data.scratch == [];
  }

  lemma WriterMoves(s: State) returns (step: Step)
    requires Inv(s) && s.turn.Off? && s.send.Rest? && s.admitting == [] && !s.writer.Absent?
    ensures Own(s, step) && Do(s, step) != s
  {
    PendingQueued(s);
    match s.writer
    case Handed =>
      step := Step.Hand;
      assert Do(s, step).writer == Looping;
    case Looping =>
      step := Loop(true);
      assert Do(s, step).writer != Looping;
    case Flushing =>
      step := FlushDone;
      assert Do(s, step).writer == Looping;
    case Ending =>
      step := GiveUp;
      assert Do(s, step).writer == Absent;
  }

  lemma WriterRests(s: State)
    requires Inv(s) && AtRest(s)
    ensures s.writer.Absent? && s.ctl.owner == Free
  {
    SendRests(s);
    TurnRests(s);
    ProducersRest(s);
    if !s.writer.Absent? { var step := WriterMoves(s); }
  }

  /** A write path at rest, with room in the socket, has sent everything. */
  lemma RestSent(s: State)
    requires Inv(s) && AtRest(s) && !s.ctl.closing && !s.sock.full
    ensures s.data.wire == Flatten(s.data.log)
  {
    ToksRest(s);
    ProducersRest(s);
    PollRests(s);
    SendRests(s);
    TurnRests(s);
    WriterRests(s);
    PendingQueued(s);
    assert s.ctl.pending == 0;
    FiveTwo(s.data.wire, []);
  }

  /** From every reachable state, whatever the scheduler: the producers, kicks, write turns, sends, the poller
      and the turn come to rest by themselves, and then, on a stream that is not closing and a socket with
      room, the wire holds every accepted byte. */
  lemma ComesToRest(s: State, steps: seq<Step>, pick: State -> Step) returns (n: nat)
    requires Init(s) && Schedules(pick)
    ensures var v := Follow(Exec(s, steps), pick, n);
            AtRest(v) && (!v.ctl.closing && !v.sock.full ==> v.data.wire == Flatten(v.data.log))
  {
    Reachable(s, steps);
    n := RestFrom(Exec(s, steps), pick);
    var v := Follow(Exec(s, steps), pick, n);
    if !v.ctl.closing && !v.sock.full { RestSent(v); }
  }
}
