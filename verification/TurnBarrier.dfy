/** The striped turn count of an event loop and the shutdown barrier built on it.

    Every goroutine is an actor that runs `acquireIO`, a turn, `releaseIO` or `stopIO`, one atomic
    operation per step.  A turn may be counted on one stripe and uncounted on another, and the count
    is summed one stripe at a time while other actors go on counting. */
module TurnBarrier {
  import opened Sums

  const STRIPES: nat := 16

  datatype Pc =
    | Outside                                   // between operations
    | Counted(stripe: nat)                      // acquireIO: added one, stop flag not loaded yet
    | Holding                                   // admitted: a turn is queued or running
    | GivingBack(stripe: nat)                   // acquireIO saw the stop flag; same goroutine, same stripe
    | Uncounted                                 // releaseIO: subtracted one, stop flag not loaded yet
    | Summing(k: nat, acc: int, joining: bool)  // ioTurnCount read the first k stripes
    | Waiting                                   // stopIO blocks on the idle channel
    | Joined                                    // stopIO returned

  datatype State = State(stripes: seq<int>, stop: bool, idle: bool, actors: seq<Pc>)

  ghost predicate Init(s: State) {
    && |s.stripes| == STRIPES
    && (forall i :: 0 <= i < STRIPES ==> s.stripes[i] == 0)
    && !s.stop && !s.idle
    && forall a :: 0 <= a < |s.actors| ==> s.actors[a] == Outside
  }

  /** One atomic operation of actor `a`, whose goroutine id picks stripe `j` for the counts it makes.
      Between operations the actor starts a turn, or `stopIO` when `stops`. */
  datatype Step = Step(a: nat, j: nat, stops: bool)

  predicate Applies(s: State, step: Step) { step.a < |s.actors| && step.j < |s.stripes| }

  function Add(s: State, j: nat, d: int): seq<int>
    requires j < |s.stripes|
  {
    s.stripes[j := s.stripes[j] + d]
  }

  function Do(s: State, step: Step): State {
    if !Applies(s, step) then s
    else
      var a, j := step.a, step.j;
      match s.actors[a]
      case Outside =>
        if step.stops then s.(stop := true, actors := s.actors[a := Summing(0, 0, true)])
        else s.(stripes := Add(s, j, 1), actors := s.actors[a := Counted(j)])
      case Counted(c) => s.(actors := s.actors[a := if s.stop then GivingBack(c) else Holding])
      case Holding => s.(stripes := Add(s, j, -1), actors := s.actors[a := Uncounted])
      case GivingBack(c) =>
        if c < |s.stripes| then s.(stripes := Add(s, c, -1), actors := s.actors[a := Uncounted]) else s
      case Uncounted => s.(actors := s.actors[a := if s.stop then Summing(0, 0, false) else Outside])
      case Summing(k, acc, joining) =>
        if k < |s.stripes| then s.(actors := s.actors[a := Summing(k + 1, acc + s.stripes[k], joining)])
        else s.(idle := s.idle || acc == 0, actors := s.actors[a := if joining then Waiting else Outside])
      case Waiting => if s.idle then s.(actors := s.actors[a := Joined]) else s
      case Joined => s
  }

  /** The state after a run of steps, taken in any order by anyone. */
  function Exec(s: State, steps: seq<Step>): State {
    if steps == [] then s else Do(Exec(s, steps[..|steps| - 1]), steps[|steps| - 1])
  }

  // ------------------------------------------------------------- the argument

  /** What `p` contributes to the stripes from `k` on once every ended turn is set off: a turn counts
      wherever it was counted, a count about to be given back only on its own stripe. */
  function Weight(p: Pc, k: nat): nat {
    match p
    case Holding => 1
    case Counted(c) => if c >= k then 1 else 0
    case GivingBack(c) => if c >= k then 1 else 0
    case _ => 0
  }

  function Total(actors: seq<Pc>, k: nat): nat {
    if actors == [] then 0 else Weight(actors[0], k) + Total(actors[1..], k)
  }

  /** Still obliged to look at the sum: it will uncount, or it has, or its sum is up to date. */
  ghost predicate Owes(p: Pc, stripes: seq<int>) {
    match p
    case Counted(_) => true
    case Holding => true
    case GivingBack(_) => true
    case Uncounted => true
    case Summing(k, acc, _) => k <= |stripes| && acc == Sum(stripes[..k])
    case _ => false
  }

  ghost predicate SumOk(s: State, p: Pc) {
    match p
    case Counted(c) => c < STRIPES
    case GivingBack(c) => c < STRIPES && s.stop
    case Summing(k, acc, _) => s.stop && k <= |s.stripes| && acc + Sum(s.stripes[k..]) >= Total(s.actors, k)
    case Waiting => s.stop
    case Joined => s.idle
    case _ => true
  }

  ghost predicate Inv(s: State) {
    && |s.stripes| == STRIPES
    && Sum(s.stripes) == Total(s.actors, 0)
    && (forall a :: 0 <= a < |s.actors| ==> SumOk(s, s.actors[a]))
    && (s.idle ==> s.stop && forall a :: 0 <= a < |s.actors| ==> !s.actors[a].Holding?)
    && (s.stop && !s.idle ==> exists a :: 0 <= a < |s.actors| && Owes(s.actors[a], s.stripes))
  }

  /** A write to stripe `j` moves the part of the sum it lies in and nothing else. */
  lemma SumAfterWrite(xs: seq<int>, j: nat, d: int, k: nat)
    requires j < |xs| && k <= |xs|
    ensures Sum(xs[j := xs[j] + d][k..]) == Sum(xs[k..]) + if j >= k then d else 0
  {
    var ys := xs[j := xs[j] + d];
    if j >= k {
      assert ys[k..] == xs[k..][j - k := xs[j] + d];
      SumUpdate(xs[k..], j - k, xs[j] + d);
    } else {
      assert ys[k..] == xs[k..];
    }
  }

  lemma SumStep(xs: seq<int>, k: nat)
    requires k < |xs|
    ensures Sum(xs[k..]) == xs[k] + Sum(xs[k + 1..])
    ensures Sum(xs[..k + 1]) == Sum(xs[..k]) + xs[k]
  {
    assert xs[k..][1..] == xs[k + 1..];
    SumSplit(xs[..k + 1], k);
    assert xs[..k + 1][..k] == xs[..k];
    assert xs[..k + 1][k..] == [xs[k]];
    assert Sum([xs[k]]) == xs[k];
  }

  lemma {:induction false} TotalUpdate(actors: seq<Pc>, a: nat, p: Pc, k: nat)
    requires a < |actors|
    ensures Total(actors[a := p], k) == Total(actors, k) - Weight(actors[a], k) + Weight(p, k)
  {
    if a > 0 {
      TotalUpdate(actors[1..], a - 1, p, k);
      assert actors[a := p][1..] == actors[1..][a - 1 := p];
    } else {
      assert actors[0 := p][1..] == actors[1..];
    }
  }

  lemma {:induction false} TotalFalls(actors: seq<Pc>, k: nat)
    ensures Total(actors, k + 1) <= Total(actors, k)
  {
    if actors != [] { TotalFalls(actors[1..], k); }
  }

  lemma {:induction false} TotalZero(actors: seq<Pc>, k: nat, a: nat)
    requires a < |actors| && Total(actors, k) == 0
    ensures Weight(actors[a], k) == 0
  {
    if a > 0 { TotalZero(actors[1..], k, a - 1); }
  }

  lemma {:induction false} TotalWitness(actors: seq<Pc>, k: nat) returns (a: nat)
    requires Total(actors, k) > 0
    ensures a < |actors| && Weight(actors[a], k) > 0
  {
    if Weight(actors[0], k) > 0 {
      a := 0;
    } else {
      var b := TotalWitness(actors[1..], k);
      a := b + 1;
    }
  }

  /** A scan in progress stays an upper bound when an actor moves to `p` and adds `d` to stripe `j`, as
      long as the actor's weight falls with the stripe. */
  lemma ScanBound(s: State, k: nat, acc: int, a: nat, p: Pc, j: nat, d: int)
    requires k <= |s.stripes| && j < |s.stripes| && a < |s.actors|
    requires acc + Sum(s.stripes[k..]) >= Total(s.actors, k)
    requires Weight(p, k) - Weight(s.actors[a], k) <= if j >= k then d else 0
    ensures acc + Sum(s.stripes[j := s.stripes[j] + d][k..]) >= Total(s.actors[a := p], k)
  {
    SumAfterWrite(s.stripes, j, d, k);
    TotalUpdate(s.actors, a, p, k);
  }

  /** Every step moves one actor and one stripe.  A turn that ends takes at most one off the weight, and
      a count that is given back leaves the weight exactly when its stripe is still ahead. */
  lemma StepShape(s: State, step: Step, k: nat) returns (p: Pc, j: nat, d: int)
    requires Applies(s, step) && s.stop
    ensures j < |s.stripes| && Weight(p, k) - Weight(s.actors[step.a], k) <= if j >= k then d else 0
    ensures Do(s, step).actors == s.actors[step.a := p]
    ensures Do(s, step).stripes == s.stripes[j := s.stripes[j] + d]
  {
    p, j, d := Do(s, step).actors[step.a], step.j, 0;
    match s.actors[step.a]
    case Outside => if !step.stops { d := 1; }
    case Holding => d := -1;
    case GivingBack(c) => if c < |s.stripes| { j, d := c, -1; }
    case _ =>
  }

  lemma ScanKept(s: State, step: Step, k: nat, acc: int)
    requires Applies(s, step)
    requires s.stop && k <= |s.stripes| && acc + Sum(s.stripes[k..]) >= Total(s.actors, k)
    ensures var t := Do(s, step); |t.stripes| == |s.stripes| && acc + Sum(t.stripes[k..]) >= Total(t.actors, k)
  {
    var p, j, d := StepShape(s, step, k);
    ScanBound(s, k, acc, step.a, p, j, d);
  }

  lemma ScanOwn(s: State, step: Step)
    requires Inv(s) && Applies(s, step)
    ensures var t := Do(s, step); SumOk(t, t.actors[step.a])
  {
    var a := step.a;
    var p := Do(s, step).actors[a];
    assert SumOk(s, s.actors[a]);
    assert s.stripes[0..] == s.stripes;
    match s.actors[a]
    case Outside =>
      if step.stops { TotalUpdate(s.actors, a, p, 0); }
    case Uncounted =>
      if s.stop { TotalUpdate(s.actors, a, p, 0); }
    case Summing(k, acc, joining) =>
      if k < STRIPES {
        SumStep(s.stripes, k);
        TotalUpdate(s.actors, a, p, k);
        TotalFalls(Do(s, step).actors, k);
      }
    case _ =>
  }

  lemma TotalKept(s: State, step: Step)
    requires Inv(s) && Applies(s, step)
    ensures var t := Do(s, step); |t.stripes| == STRIPES && Sum(t.stripes) == Total(t.actors, 0)
  {
    var a, j := step.a, step.j;
    TotalUpdate(s.actors, a, Do(s, step).actors[a], 0);
    assert SumOk(s, s.actors[a]);
    match s.actors[a]
    case Outside => if !step.stops { SumUpdate(s.stripes, j, s.stripes[j] + 1); }
    case Holding => SumUpdate(s.stripes, j, s.stripes[j] - 1);
    case GivingBack(c) => SumUpdate(s.stripes, c, s.stripes[c] - 1);
    case _ =>
  }

  /** A zero sum proves that every admitted turn ended, and no turn is admitted after it. */
  lemma IdleKept(s: State, step: Step)
    requires Inv(s) && Applies(s, step)
    ensures var t := Do(s, step);
            t.idle ==> t.stop && forall b :: 0 <= b < |t.actors| ==> !t.actors[b].Holding?
  {
    var t := Do(s, step);
    if t.idle && !s.idle {
      assert SumOk(s, s.actors[step.a]);
      assert s.stripes[STRIPES..] == [];
      forall b | 0 <= b < |t.actors| ensures !t.actors[b].Holding? {
        if b != step.a { TotalZero(s.actors, STRIPES, b); }
      }
    }
  }

  /** Whoever changes a stripe still has to look at the sum afterwards; an up-to-date sum that is not
      zero proves that somebody else does. */
  lemma WitnessKept(s: State, step: Step)
    requires Inv(s) && Applies(s, step)
    ensures var t := Do(s, step);
            t.stop && !t.idle ==> exists b :: 0 <= b < |t.actors| && Owes(t.actors[b], t.stripes)
  {
    var t, a := Do(s, step), step.a;
    assert SumOk(s, s.actors[a]);
    if t.stop && !t.idle && !Owes(t.actors[a], t.stripes) {
      if s.actors[a].Summing? && s.actors[a].k < STRIPES { SumStep(s.stripes, s.actors[a].k); }
      var w :| 0 <= w < |s.actors| && Owes(s.actors[w], s.stripes);
      if w != a {
        assert Owes(t.actors[w], t.stripes);
      } else {
        assert s.stripes[..STRIPES] == s.stripes;
        var b := TotalWitness(s.actors, 0);
        assert Owes(t.actors[b], t.stripes);
      }
    }
  }

  lemma StepKeeps(s: State, step: Step)
    requires Inv(s)
    ensures Inv(Do(s, step))
  {
    if Applies(s, step) {
      var t, a := Do(s, step), step.a;
      TotalKept(s, step);
      IdleKept(s, step);
      WitnessKept(s, step);
      forall b | 0 <= b < |t.actors| ensures SumOk(t, t.actors[b]) {
        if b == a {
          ScanOwn(s, step);
        } else {
          assert t.actors[b] == s.actors[b] && SumOk(s, s.actors[b]);
          if s.actors[b].Summing? { ScanKept(s, step, s.actors[b].k, s.actors[b].acc); }
        }
      }
    }
  }

  lemma {:induction false} TotalOutside(actors: seq<Pc>)
    requires forall a :: 0 <= a < |actors| ==> actors[a] == Outside
    ensures Total(actors, 0) == 0
  {
    if actors != [] { TotalOutside(actors[1..]); }
  }

  lemma {:induction false} Reachable(s: State, steps: seq<Step>)
    requires Init(s)
    ensures Inv(Exec(s, steps))
  {
    if steps == [] {
      SumOfZeros(s.stripes);
      TotalOutside(s.actors);
    } else {
      Reachable(s, steps[..|steps| - 1]);
      StepKeeps(Exec(s, steps[..|steps| - 1]), steps[|steps| - 1]);
    }
  }

  // ----------------------------------------------------------- what is proved

  /** In every run: once `stopIO` has returned, or the idle channel is closed at all, no admitted turn
      is queued or running. */
  lemma {:induction false} BarrierSound(s: State, steps: seq<Step>, a: nat)
    requires Init(s) && a < |Exec(s, steps).actors|
    ensures var u := Exec(s, steps);
            && (u.idle ==> u.actors[a] != Holding)
            && (u.actors[a].Joined? ==> forall b :: 0 <= b < |u.actors| ==> u.actors[b] != Holding)
  {
    Reachable(s, steps);
    assert SumOk(Exec(s, steps), Exec(s, steps).actors[a]);
  }

  /** In every run: once the loop is stopped and every actor has finished its operation, the waiter
      has been released, whatever stripes the turns were counted and uncounted on. */
  lemma {:induction false} WaiterReleased(s: State, steps: seq<Step>)
    requires Init(s) && Exec(s, steps).stop
    requires forall p :: p in Exec(s, steps).actors ==> p.Outside? || p.Waiting? || p.Joined?
    ensures Exec(s, steps).idle
  {
    Reachable(s, steps);
  }

  /** After the stop flag no turn is admitted any more, in any continuation of the run. */
  lemma {:induction false} NoAdmissionAfterStop(s: State, more: seq<Step>, a: nat)
    requires s.stop && a < |s.actors|
    ensures var t := Exec(s, more);
            |t.actors| == |s.actors| && t.stop && (t.actors[a].Holding? ==> s.actors[a].Holding?)
  {
    if more != [] { NoAdmissionAfterStop(s, more[..|more| - 1], a); }
  }
}
