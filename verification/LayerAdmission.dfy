/** Admission of the Handler's writes at the top of a layer stack against MaxOutboundBuffered.

    Any number of goroutines write at once.  Each adds its size to the shared reservation, then reads
    the queue below, then is admitted or takes its reservation back; an admitted write reaches the
    queue in pieces and releases its reservation afterwards, while the socket drains the queue.
    Every one of those is a step of its own.  The layers add nothing and hold nothing. */
module LayerAdmission {

  datatype Phase =
    | Pending            // reserved, queue not read yet
    | Refusing           // did not fit; reservation not taken back yet
    | Inside(left: nat)  // admitted; `left` bytes may still reach the queue
    | Released
    | Undone

  /** One write, in the order of the reservations.  `seen` is what the reservation's Add returned. */
  datatype Entry = Entry(size: nat, seen: int, phase: Phase)

  datatype State = State(limit: nat, reserved: int, queued: nat, entries: seq<Entry>)

  ghost predicate Init(s: State) {
    s.limit > 0 && s.reserved == 0 && s.queued == 0 && s.entries == []
  }

  datatype Step =
    | Reserve(size: nat)           // the Add of `reserve`, by a new write
    | Check(i: nat)                // its comparison: the queue is read now, the reservation was read by the Add
    | Undo(i: nat)                 // a refused write takes its reservation back
    | Enqueue(i: nat, m: nat)      // an admitted write's bytes reach the queue
    | Release(i: nat)              // ... and its reservation is released
    | Drain(n: nat)                // the socket takes bytes

  predicate Applies(s: State, step: Step) {
    match step
    case Reserve(_) => true
    case Check(i) => i < |s.entries| && s.entries[i].phase.Pending?
    case Undo(i) => i < |s.entries| && s.entries[i].phase.Refusing?
    case Enqueue(i, m) => i < |s.entries| && s.entries[i].phase.Inside? && m <= s.entries[i].phase.left
    case Release(i) => i < |s.entries| && s.entries[i].phase.Inside?
    case Drain(n) => n <= s.queued
  }

  function To(s: State, i: nat, p: Phase): seq<Entry>
    requires i < |s.entries|
  {
    s.entries[i := s.entries[i].(phase := p)]
  }

  function Do(s: State, step: Step): State {
    if !Applies(s, step) then s
    else match step
      case Reserve(n) =>
        s.(reserved := s.reserved + n, entries := s.entries + [Entry(n, s.reserved + n, Pending)])
      case Check(i) =>
        s.(entries := To(s, i, if s.queued + s.entries[i].seen > s.limit then Refusing
                               else Inside(s.entries[i].size)))
      case Undo(i) => s.(reserved := s.reserved - s.entries[i].size, entries := To(s, i, Undone))
      case Enqueue(i, m) =>
        s.(queued := s.queued + m, entries := To(s, i, Inside(s.entries[i].phase.left - m)))
      case Release(i) => s.(reserved := s.reserved - s.entries[i].size, entries := To(s, i, Released))
      case Drain(n) => s.(queued := s.queued - n)
  }

  /** The state after a run of steps, taken in any order by anyone. */
  function Exec(s: State, steps: seq<Step>): State {
    if steps == [] then s else Do(Exec(s, steps[..|steps| - 1]), steps[|steps| - 1])
  }

  // ------------------------------------------------------------- the argument

  /** What a write still holds of the reservation. */
  function Holds(e: Entry): nat {
    match e.phase
    case Pending => e.size
    case Refusing => e.size
    case Inside(_) => e.size
    case _ => 0
  }

  /** What a write may still put on the queue. */
  function May(e: Entry): nat {
    match e.phase
    case Pending => e.size
    case Inside(left) => left
    case _ => 0
  }

  predicate Passed(e: Entry) { e.phase.Inside? || e.phase.Released? }

  function HoldsSum(es: seq<Entry>): nat {
    if es == [] then 0 else HoldsSum(es[..|es| - 1]) + Holds(es[|es| - 1])
  }

  function MaySum(es: seq<Entry>): nat {
    if es == [] then 0 else MaySum(es[..|es| - 1]) + May(es[|es| - 1])
  }

  ghost predicate EntryOk(s: State, i: nat)
    requires i < |s.entries|
  {
    && (s.entries[i].phase.Inside? ==> s.entries[i].phase.left <= s.entries[i].size)
    && (s.entries[i].phase.Pending? ==> s.entries[i].seen >= MaySum(s.entries[..i + 1]))
    && (Passed(s.entries[i]) ==> s.queued + MaySum(s.entries[..i + 1]) <= s.limit)
  }

  ghost predicate Inv(s: State) {
    && s.reserved == HoldsSum(s.entries)
    && s.queued <= s.limit
    && forall i :: 0 <= i < |s.entries| ==> EntryOk(s, i)
  }

  lemma {:induction false} MayUpdate(es: seq<Entry>, i: nat, e: Entry)
    requires i < |es|
    ensures MaySum(es[i := e]) == MaySum(es) - May(es[i]) + May(e)
  {
    if i < |es| - 1 {
      MayUpdate(es[..|es| - 1], i, e);
      assert es[i := e][..|es| - 1] == es[..|es| - 1][i := e];
    } else {
      assert es[i := e][..|es| - 1] == es[..|es| - 1];
    }
  }

  lemma {:induction false} HoldsUpdate(es: seq<Entry>, i: nat, e: Entry)
    requires i < |es|
    ensures HoldsSum(es[i := e]) == HoldsSum(es) - Holds(es[i]) + Holds(e)
  {
    if i < |es| - 1 {
      HoldsUpdate(es[..|es| - 1], i, e);
      assert es[i := e][..|es| - 1] == es[..|es| - 1][i := e];
    } else {
      assert es[i := e][..|es| - 1] == es[..|es| - 1];
    }
  }

  lemma {:induction false} MayGrows(es: seq<Entry>, i: nat, j: nat)
    requires i <= j <= |es|
    ensures MaySum(es[..i]) <= MaySum(es[..j])
  {
    if i < j {
      MayGrows(es, i, j - 1);
      assert es[..j][..j - 1] == es[..j - 1];
    }
  }

  lemma {:induction false} MayWithinHolds(es: seq<Entry>)
    requires forall i :: 0 <= i < |es| && es[i].phase.Inside? ==> es[i].phase.left <= es[i].size
    ensures MaySum(es) <= HoldsSum(es)
  {
    if es != [] { MayWithinHolds(es[..|es| - 1]); }
  }

  /** What one write's step does to the sum up to entry `j`. */
  lemma PrefixAfter(es: seq<Entry>, i: nat, e: Entry, j: nat)
    requires i < |es| && j < |es|
    ensures MaySum(es[i := e][..j + 1]) == MaySum(es[..j + 1]) + if i <= j then May(e) - May(es[i]) else 0
  {
    if i <= j {
      assert es[i := e][..j + 1] == es[..j + 1][i := e];
      MayUpdate(es[..j + 1], i, e);
    } else {
      assert es[i := e][..j + 1] == es[..j + 1];
    }
  }

  lemma ReserveKeepsEntry(s: State, n: nat, i: nat)
    requires i < |s.entries| && EntryOk(s, i)
    ensures EntryOk(Do(s, Reserve(n)), i)
  {
    assert Do(s, Reserve(n)).entries[..i + 1] == s.entries[..i + 1];
  }

  lemma EntriesFit(s: State)
    requires Inv(s)
    ensures MaySum(s.entries) <= HoldsSum(s.entries)
  {
    forall i | 0 <= i < |s.entries|
      ensures s.entries[i].phase.Inside? ==> s.entries[i].phase.left <= s.entries[i].size
    {
      assert EntryOk(s, i);
    }
    MayWithinHolds(s.entries);
  }

  lemma ReserveKeeps(s: State, n: nat)
    requires Inv(s)
    ensures Inv(Do(s, Reserve(n)))
  {
    var t, k := Do(s, Reserve(n)), |s.entries|;
    assert t.entries[..k] == s.entries && t.entries[..k + 1] == t.entries;
    EntriesFit(s);
    forall i | 0 <= i < |t.entries| ensures EntryOk(t, i) {
      if i < k {
        assert EntryOk(s, i);
        ReserveKeepsEntry(s, n, i);
      }
    }
  }

  predicate OfWrite(step: Step, i: nat) {
    step == Check(i) || step == Undo(i) || (step.Enqueue? && step.i == i) || step == Release(i)
  }

  /** Bytes that enter the queue leave their write's share, so the bound of every write admitted after it
      stands; the bound of an earlier one is covered by this one's. */
  lemma EnqueueKeepsEntry(s: State, i: nat, m: nat, j: nat)
    requires i < |s.entries| && j < |s.entries| && Applies(s, Enqueue(i, m)) && EntryOk(s, i) && EntryOk(s, j)
    ensures |Do(s, Enqueue(i, m)).entries| == |s.entries| && EntryOk(Do(s, Enqueue(i, m)), j)
  {
    var t := Do(s, Enqueue(i, m));
    PrefixAfter(s.entries, i, t.entries[i], j);
    if j < i {
      PrefixAfter(s.entries, i, t.entries[i], i);
      MayGrows(t.entries, j + 1, i + 1);
    }
  }

  /** A write's other steps do not touch the queue and only shrink its share. */
  lemma WriterKeepsEntry(s: State, step: Step, i: nat, j: nat)
    requires i < |s.entries| && j < |s.entries| && Applies(s, step) && OfWrite(step, i)
    requires EntryOk(s, i) && EntryOk(s, j)
    ensures |Do(s, step).entries| == |s.entries| && EntryOk(Do(s, step), j)
  {
    if step.Enqueue? {
      EnqueueKeepsEntry(s, i, step.m, j);
    } else {
      PrefixAfter(s.entries, i, Do(s, step).entries[i], j);
    }
  }

  lemma WriterKeeps(s: State, step: Step, i: nat)
    requires Inv(s) && i < |s.entries| && Applies(s, step) && OfWrite(step, i)
    ensures Inv(Do(s, step))
  {
    var t := Do(s, step);
    HoldsUpdate(s.entries, i, t.entries[i]);
    assert EntryOk(s, i);
    PrefixAfter(s.entries, i, t.entries[i], i);
    forall j | 0 <= j < |t.entries| ensures EntryOk(t, j) {
      assert EntryOk(s, j);
      WriterKeepsEntry(s, step, i, j);
    }
    assert EntryOk(t, i);
  }

  lemma DrainKeeps(s: State, n: nat)
    requires Inv(s)
    ensures Inv(Do(s, Drain(n)))
  {
    var t := Do(s, Drain(n));
    forall i | 0 <= i < |t.entries| ensures EntryOk(t, i) {
      assert EntryOk(s, i);
    }
  }

  lemma StepKeeps(s: State, step: Step)
    requires Inv(s)
    ensures Inv(Do(s, step))
  {
    if Applies(s, step) {
      match step
      case Reserve(n) => ReserveKeeps(s, n);
      case Drain(n) => DrainKeeps(s, n);
      case _ => WriterKeeps(s, step, step.i);
    }
  }

  lemma {:induction false} Reachable(s: State, steps: seq<Step>)
    requires Init(s)
    ensures Inv(Exec(s, steps))
  {
    if steps != [] {
      Reachable(s, steps[..|steps| - 1]);
      StepKeeps(Exec(s, steps[..|steps| - 1]), steps[|steps| - 1]);
    }
  }

  // ----------------------------------------------------------- what is proved

  /** Bytes admitted and not queued yet. */
  function InsideSum(es: seq<Entry>): nat {
    if es == [] then 0
    else
      var last := es[|es| - 1].phase;
      InsideSum(es[..|es| - 1]) + if last.Inside? then last.left else 0
  }

  lemma {:induction false} InsideWithinMay(es: seq<Entry>)
    ensures InsideSum(es) <= MaySum(es)
  {
    if es != [] { InsideWithinMay(es[..|es| - 1]); }
  }

  /** Nothing admitted lies beyond the last write that passed. */
  lemma {:induction false} InsideBounded(s: State, k: nat)
    requires Inv(s) && k <= |s.entries|
    ensures s.queued + InsideSum(s.entries[..k]) <= s.limit
  {
    if k > 0 {
      assert s.entries[..k][..k - 1] == s.entries[..k - 1];
      assert EntryOk(s, k - 1);
      if Passed(s.entries[k - 1]) {
        InsideWithinMay(s.entries[..k]);
      } else {
        InsideBounded(s, k - 1);
      }
    }
  }

  /** In every interleaving, what is queued and what is admitted and not queued yet stay within the
      limit together. */
  lemma {:induction false} LimitHolds(s: State, steps: seq<Step>)
    requires Init(s)
    ensures var u := Exec(s, steps); u.queued + InsideSum(u.entries) <= u.limit
  {
    var u := Exec(s, steps);
    Reachable(s, steps);
    InsideBounded(u, |u.entries|);
    assert u.entries[..|u.entries|] == u.entries;
  }

  lemma {:induction false} NothingHeld(es: seq<Entry>)
    requires forall e :: e in es ==> e.phase.Released? || e.phase.Undone?
    ensures HoldsSum(es) == 0
  {
    if es != [] { NothingHeld(es[..|es| - 1]); }
  }

  /** In every interleaving the reservation is exactly the sizes of the writes that have not released or
      undone it, so it returns to zero when they all have: room is never leaked. */
  lemma {:induction false} ReservationExact(s: State, steps: seq<Step>)
    requires Init(s)
    ensures var u := Exec(s, steps);
            && u.reserved == HoldsSum(u.entries)
            && ((forall e :: e in u.entries ==> e.phase.Released? || e.phase.Undone?) ==> u.reserved == 0)
  {
    var u := Exec(s, steps);
    Reachable(s, steps);
    if forall e :: e in u.entries ==> e.phase.Released? || e.phase.Undone? { NothingHeld(u.entries); }
  }

  lemma {:induction false} MayAtLeast(es: seq<Entry>, i: nat)
    requires i < |es|
    ensures MaySum(es) >= May(es[i])
  {
    if i < |es| - 1 { MayAtLeast(es[..|es| - 1], i); }
  }

  lemma {:induction false} HoldsAtLeast(es: seq<Entry>, i: nat)
    requires i < |es|
    ensures HoldsSum(es) >= Holds(es[i])
  {
    if i < |es| - 1 { HoldsAtLeast(es[..|es| - 1], i); }
  }

  /** The state while a write `i` that reserved first still waits to read the queue: nothing ahead of it
      can reach the queue any more, and it still fits. */
  ghost predicate Ahead(s: State, i: nat, size: nat) {
    && i < |s.entries| && s.entries[i].size == size && s.entries[i].seen == size
    && (forall j :: 0 <= j < i ==> Holds(s.entries[j]) == 0)
    && (s.entries[i].phase.Pending? ==> s.queued + size <= s.limit)
  }

  lemma AheadStarts(s: State, size: nat)
    requires Inv(s) && s.reserved == 0 && s.queued + size <= s.limit
    ensures Ahead(Do(s, Reserve(size)), |s.entries|, size)
  {
    forall j | 0 <= j < |s.entries| ensures Holds(Do(s, Reserve(size)).entries[j]) == 0 {
      HoldsAtLeast(s.entries, j);
    }
  }

  lemma AheadKept(s: State, step: Step, i: nat, size: nat)
    requires Inv(s) && Ahead(s, i, size)
    ensures Ahead(Do(s, step), i, size)
  {
    if Applies(s, step) && step.Enqueue? {
      var t, j := Do(s, step), step.i;
      assert EntryOk(s, j);
      if j > i && t.entries[i].phase.Pending? {
        StepKeeps(s, step);
        assert EntryOk(t, j);
        MayAtLeast(t.entries[..j + 1], i);
      }
    }
  }

  lemma {:induction false} StaysAhead(s: State, more: seq<Step>, i: nat, size: nat)
    requires Inv(s) && Ahead(s, i, size)
    ensures Inv(Exec(s, more)) && Ahead(Exec(s, more), i, size)
  {
    if more != [] {
      StaysAhead(s, more[..|more| - 1], i, size);
      StepKeeps(Exec(s, more[..|more| - 1]), more[|more| - 1]);
      AheadKept(Exec(s, more[..|more| - 1]), more[|more| - 1], i, size);
    }
  }

  /** A write that finds no reservation outstanding and fits is admitted, however many writers reserve,
      pass and queue before it reads the queue itself: of two writers that fit apart but not together, the
      first to reserve is not refused, if nothing was reserved when it did.  One that does not fit is
      refused if nothing drains first. */
  lemma {:induction false} FirstIsAdmitted(s: State, steps: seq<Step>, size: nat, more: seq<Step>)
    requires Init(s) && Exec(s, steps).reserved == 0
    ensures var u := Exec(s, steps);
            var i := |u.entries|;
            var v := Exec(Do(u, Reserve(size)), more);
            && (u.queued + size <= u.limit && i < |v.entries| && v.entries[i].phase.Pending?
                ==> Do(v, Check(i)).entries[i].phase == Inside(size))
            && (u.queued + size > u.limit && more == []
                ==> Do(v, Check(i)).entries[i].phase == Refusing)
  {
    var u := Exec(s, steps);
    Reachable(s, steps);
    if u.queued + size <= u.limit {
      AheadStarts(u, size);
      StepKeeps(u, Reserve(size));
      StaysAhead(Do(u, Reserve(size)), more, |u.entries|, size);
    }
  }

  /** A write keeps its size and what its reservation returned, whatever happens after. */
  lemma SeenKept(s: State, step: Step, i: nat)
    requires i < |s.entries|
    ensures var t := Do(s, step);
            && t.limit == s.limit && i < |t.entries|
            && t.entries[i].size == s.entries[i].size && t.entries[i].seen == s.entries[i].seen
  {
  }

  lemma {:induction false} SeenStays(s: State, more: seq<Step>, i: nat)
    requires i < |s.entries|
    ensures var t := Exec(s, more);
            && t.limit == s.limit && i < |t.entries|
            && t.entries[i].size == s.entries[i].size && t.entries[i].seen == s.entries[i].seen
  {
    if more != [] {
      SeenStays(s, more[..|more| - 1], i);
      SeenKept(Exec(s, more[..|more| - 1]), more[|more| - 1], i);
    }
  }

  /** Exactly which writes are refused: those for which what is queued when they look, what other writes
      held of the reservation when they reserved, and their own size pass the limit.  A write that is
      queued and has not released is in both of the first two. */
  lemma {:induction false} RefusedExactly(s: State, steps: seq<Step>, size: nat, more: seq<Step>)
    requires Init(s)
    ensures var u := Exec(s, steps);
            var i := |u.entries|;
            var v := Exec(Do(u, Reserve(size)), more);
            && i < |v.entries|
            && (v.entries[i].phase.Pending? ==>
                  Do(v, Check(i)).entries[i].phase
                  == if v.queued + HoldsSum(u.entries) + size > s.limit then Refusing else Inside(size))
  {
    Reachable(s, steps);
    LimitStays(s, steps);
    SeenStays(Do(Exec(s, steps), Reserve(size)), more, |Exec(s, steps).entries|);
  }

  lemma {:induction false} LimitStays(s: State, steps: seq<Step>)
    ensures Exec(s, steps).limit == s.limit
  {
    if steps != [] { LimitStays(s, steps[..|steps| - 1]); }
  }

  /** Some run leads from `s` to `t`. */
  ghost predicate Leads(s: State, t: State) { exists run :: Exec(s, run) == t }

  lemma LeadsSelf(s: State)
    ensures Leads(s, s)
  {
    assert Exec(s, []) == s;
  }

  lemma LeadsOn(s: State, t: State, step: Step, u: State)
    requires Leads(s, t) && Do(t, step) == u
    ensures Leads(s, u)
  {
    var run :| Exec(s, run) == t;
    assert (run + [step])[..|run|] == run;
    assert Exec(s, run + [step]) == u;
  }

  /** Two writes reserve, look and are refused. */
  lemma TwoRefused(s: State, u: State, size1: nat, size2: nat) returns (v: State)
    requires Leads(s, u) && |u.entries| == 1 && u.reserved >= 0 && u.queued + u.reserved + size1 > u.limit
    ensures Leads(s, v)
    ensures v == State(u.limit, u.reserved + size1 + size2, u.queued,
                       [u.entries[0], Entry(size1, u.reserved + size1, Refusing),
                        Entry(size2, u.reserved + size1 + size2, Refusing)])
  {
    var first, r1, r2 := u.entries[0], u.reserved + size1, u.reserved + size1 + size2;
    var a := State(u.limit, r1, u.queued, [first, Entry(size1, r1, Pending)]);
    assert u.entries + [Entry(size1, r1, Pending)] == a.entries;
    LeadsOn(s, u, Reserve(size1), a);
    var b := State(u.limit, r2, u.queued, [first, Entry(size1, r1, Pending), Entry(size2, r2, Pending)]);
    assert a.entries + [Entry(size2, r2, Pending)] == b.entries;
    LeadsOn(s, a, Reserve(size2), b);
    var c := State(u.limit, r2, u.queued, [first, Entry(size1, r1, Refusing), Entry(size2, r2, Pending)]);
    assert b.entries[1 := Entry(size1, r1, Refusing)] == c.entries;
    LeadsOn(s, b, Check(1), c);
    v := State(u.limit, r2, u.queued, [first, Entry(size1, r1, Refusing), Entry(size2, r2, Refusing)]);
    assert c.entries[2 := Entry(size2, r2, Refusing)] == v.entries;
    LeadsOn(s, c, Check(2), v);
  }

  /** Of two writes that fit apart but not together both are refused while a third, which will be refused
      itself, still has its reservation ... */
  lemma BothRefused(s: State, size1: nat, size2: nat) returns (v: State)
    requires Init(s)
    ensures Leads(s, v) && |v.entries| == 3 && v.entries[1].phase == Refusing && v.entries[2].phase == Refusing
    ensures v.entries[1].size == size1 && v.entries[2].size == size2 && v.queued == 0
  {
    var big := s.limit + 1;
    var u := State(s.limit, big, 0, [Entry(big, big, Pending)]);
    LeadsSelf(s);
    LeadsOn(s, s, Reserve(big), u);
    v := TwoRefused(s, u, size1, size2);
  }

  /** ... or while one that was admitted and queued has not released it yet and is counted twice. */
  lemma CountedTwice(s: State, first: nat, size: nat) returns (v: State)
    requires Init(s) && first + size <= s.limit < first + first + size
    ensures Leads(s, v) && |v.entries| == 3 && v.entries[1].phase == Refusing && v.entries[2].phase == Refusing
    ensures v.entries[0] == Entry(first, first, Inside(0)) && v.entries[1].size == v.entries[2].size == size
    ensures v.queued == first
  {
    var a := State(s.limit, first, 0, [Entry(first, first, Pending)]);
    LeadsSelf(s);
    LeadsOn(s, s, Reserve(first), a);
    var b := State(s.limit, first, 0, [Entry(first, first, Inside(first))]);
    LeadsOn(s, a, Check(0), b);
    var u := State(s.limit, first, first, [Entry(first, first, Inside(0))]);
    LeadsOn(s, b, Enqueue(0, first), u);
    v := TwoRefused(s, u, size, size);
  }
}
