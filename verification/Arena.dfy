/** A stream's unread receive queue, on the memory the source uses: Go slices over shared arrays.  A
    borrowed run aliases the transport's buffer; an owned run lives in an arena that is compacted, reused
    and grown.  The queue is a plain byte FIFO, and a slice lent to a writer keeps its bytes. */
module Arena {
  import opened Bytes

  /** A Go slice: a window into an array, with the capacity append may use. */
  datatype Slice = Nil | Slice(arr: array<byte>, lo: nat, size: nat, room: nat)

  function Len(s: Slice): nat { if s.Nil? then 0 else s.size }

  function Cap(s: Slice): nat { if s.Nil? then 0 else s.room }

  predicate Ok(s: Slice) { s.Slice? ==> s.size <= s.room && s.lo + s.room <= s.arr.Length }

  function Memory(s: Slice): set<object> { if s.Nil? then {} else {s.arr} }

  function Data(s: Slice): seq<byte>
    requires Ok(s)
    reads Memory(s)
  {
    if s.Nil? then [] else s.arr[s.lo..s.lo + s.size]
  }

  /** s[n:] */
  function From(s: Slice, n: nat): Slice
    requires Ok(s) && n <= Len(s)
  {
    if s.Nil? then s else Slice(s.arr, s.lo + n, s.size - n, s.room - n)
  }

  /** s[:n] */
  function Upto(s: Slice, n: nat): Slice
    requires Ok(s) && n <= Cap(s)
  {
    if s.Nil? then s else Slice(s.arr, s.lo, n, s.room)
  }

  lemma FromData(s: Slice, n: nat)
    requires Ok(s) && n <= Len(s)
    ensures Ok(From(s, n)) && Data(From(s, n)) == Data(s)[n..]
  {
  }

  predicate Apart(s: Slice, t: Slice) { Memory(s) !! Memory(t) }

  /** Copies bytes into an array at a position. */
  method WriteAt(a: array<byte>, at: nat, bytes: seq<byte>)
    requires at + |bytes| <= a.Length
    modifies a
    ensures a[at..at + |bytes|] == bytes
    ensures forall i :: 0 <= i < a.Length && !(at <= i < at + |bytes|) ==> a[i] == old(a[i])
  {
    var k := 0;
    while k < |bytes|
      invariant k <= |bytes| && a[at..at + k] == bytes[..k]
      invariant forall i :: 0 <= i < a.Length && !(at <= i < at + k) ==> a[i] == old(a[i])
    {
      a[at + k] := bytes[k];
      k := k + 1;
    }
    assert bytes[..k] == bytes;
  }

  /** Go's append when the capacity suffices: the bytes are written behind the slice, and a slice that
      ends no later, `keep`, is not touched. */
  method AppendInPlace(s: Slice, bytes: seq<byte>, ghost keep: Slice) returns (t: Slice)
    requires Ok(s) && Len(s) + |bytes| <= Cap(s) && Ok(keep)
    requires s.Slice? && keep.Slice? && s.arr == keep.arr ==> keep.lo + keep.size <= s.lo + s.size
    modifies Memory(s)
    ensures Ok(t) && t == Upto(s, Len(s) + |bytes|) && Data(t) == old(Data(s)) + bytes
    ensures Data(keep) == old(Data(keep))
  {
    t := Upto(s, Len(s) + |bytes|);
    if s.Slice? {
      var a, at := s.arr, s.lo + s.size;
      WriteAt(a, at, bytes);
      assert a[s.lo..at] == old(a[s.lo..at]);
      assert a[s.lo..at + |bytes|] == a[s.lo..at] + a[at..at + |bytes|];
    }
  }

  /** A fresh array that starts with the given bytes; `room` is its capacity. */
  method Copied(bytes: seq<byte>, room: nat) returns (t: Slice)
    requires |bytes| <= room
    ensures Ok(t) && t.Slice? && fresh(t.arr) && t.lo == 0 && t.size == |bytes| && t.room == room && Data(t) == bytes
  {
    var a := new byte[room];
    WriteAt(a, 0, bytes);
    t := Slice(a, 0, |bytes|, room);
  }

  /** What may happen to a stream's queue while a writer holds a slice of it: a payload arrives, still in the
      transport's memory or copied out of it, or the stream is reset. */
  datatype Event = Payload(bytes: seq<byte>, inTransport: bool) | Reset

  function After(queue: seq<byte>, event: Event): seq<byte> { if event.Reset? then [] else queue + event.bytes }

  /** The queue after a sequence of events, as a byte FIFO. */
  function AfterAll(queue: seq<byte>, events: seq<Event>): seq<byte>
    decreases |events|
  {
    if events == [] then queue else AfterAll(After(queue, events[0]), events[1..])
  }

  class Inbound {
    var run: Slice
    var borrowed: bool
    var arena: Slice
    var off: nat
    var borrows: nat
    ghost var lent: Slice          // what a writer holds while borrows is not zero
    ghost var lentBytes: seq<byte>

    /** An owned run is arena[off:]; an empty owned queue has given its arena back; a borrowed run lies in
        memory of the transport's, with the arena empty beside it. */
    ghost predicate Valid()
      reads this, Memory(run), Memory(arena), Memory(lent)
    {
      && Ok(run) && Ok(arena) && Ok(lent)
      && (if borrowed then off == 0 && Len(arena) == 0 && Apart(run, arena) && Apart(run, lent)
          else off <= Len(arena) && run == From(arena, off))
      && (!borrowed && Len(run) == 0 ==> off == 0)
      && Loan()
    }

    /** A lent slice has the bytes it was lent with, and lies ahead of where the arena is written. */
    ghost predicate Loan()
      requires Ok(arena) && Ok(lent)
      reads this, Memory(arena), Memory(lent)
    {
      borrows > 0 ==>
        && lent.Slice? && Data(lent) == lentBytes
        && (arena.Slice? && arena.arr == lent.arr ==> lent.lo + lent.size <= arena.lo + arena.size)
    }

    /** The queue as a byte FIFO. */
    ghost function Contents(): seq<byte>
      requires Ok(run)
      reads this, Memory(run)
    {
      Data(run)
    }

    constructor ()
      ensures Valid() && Contents() == [] && borrows == 0 && !borrowed && arena.Nil? && lent.Nil?
    {
      run, borrowed, arena, off, borrows, lent, lentBytes := Nil, false, Nil, 0, 0, Nil, [];
    }

    /** Points the empty queue at a run that aliases the transport's buffer. */
    method SetBorrowed(p: Slice)
      requires Valid() && Contents() == [] && Ok(p) && Apart(p, arena) && Apart(p, lent)
      modifies this`run, this`borrowed
      ensures Valid() && Contents() == Data(p) && borrowed
    {
      run, borrowed := p, true;
    }

    /** Points the queue at a run it owns outright. */
    method SetOwned(p: Slice)
      requires Valid() && Ok(p) && Apart(p, lent) && Len(p) > 0
      modifies this`run, this`borrowed, this`arena, this`off
      ensures Valid() && Contents() == Data(p) && !borrowed && arena == p && off == 0
    {
      borrowed, arena, off, run := false, p, 0, p;
      assert From(p, 0) == p;
    }

    /** A borrowed run is copied into the arena there is. */
    method OwnInPlace()
      requires Valid() && borrowed && borrows == 0 && Len(run) <= Cap(arena)
      modifies this`run, this`borrowed, this`arena, this`off, Memory(arena)
      ensures Valid() && !borrowed && Contents() == old(Contents()) && Memory(arena) == old(Memory(arena))
    {
      var next := AppendInPlace(Upto(arena, 0), Data(run), Nil);
      assert From(next, 0) == next;
      borrowed, off, arena, run := false, 0, next, next;
    }

    /** A borrowed run is copied into an arena of its own. */
    method OwnCopy(extra: nat)
      requires Valid() && borrowed
      modifies this`run, this`borrowed, this`arena, this`off
      ensures Valid() && !borrowed && Contents() == old(Contents()) && fresh(Memory(arena))
    {
      var next := Copied(Data(run), Len(run) + extra);
      assert From(next, 0) == next;
      borrowed, off, arena, run := false, 0, next, next;
    }

    /** Copies a borrowed run into the arena, which is reused only while no writer holds a slice of it.
        `extra` is the spare capacity a new array happens to get. */
    method Own(extra: nat)
      requires Valid()
      modifies this`run, this`borrowed, this`arena, this`off, Memory(arena)
      ensures Valid() && !borrowed && Contents() == old(Contents())
      ensures fresh(Memory(arena) - old(Memory(arena)))
    {
      if !borrowed { return; }
      if borrows == 0 && Len(run) <= Cap(arena) {
        OwnInPlace();
      } else {
        OwnCopy(extra);
      }
    }

    /** Drops bytes from the front.  One reader consumes at a time, so none holds a slice meanwhile. */
    method Consume(n: nat)
      requires Valid() && n <= Len(run) && borrows == 0
      modifies this`run, this`arena, this`off
      ensures Valid() && Contents() == old(Contents())[n..] && borrowed == old(borrowed)
    {
      var rest := From(run, n);
      FromData(run, n);
      if borrowed {
        run := rest;
      } else if Len(rest) == 0 {
        off, arena := 0, Upto(arena, 0);
        run := arena;
        assert From(arena, 0) == arena;
      } else {
        assert rest == From(arena, off + n);
        off, run := off + n, rest;
      }
    }

    /** Releases the queue and its arena. */
    method Drop()
      requires Valid()
      modifies this`run, this`arena, this`borrowed, this`off
      ensures Valid() && Contents() == [] && !borrowed && arena == Nil
    {
      run, arena, borrowed, off := Nil, Nil, false, 0;
    }

    /** Moves the run to the front of its arena. */
    method Compact()
      requires Valid() && !borrowed && borrows == 0
      modifies this`run, this`arena, this`off, Memory(arena)
      ensures Valid() && Contents() == old(Contents()) && off == 0
      ensures Memory(arena) == old(Memory(arena)) && Cap(arena) == old(Cap(arena))
    {
      if arena.Nil? { return; }
      var bytes := Data(run);
      WriteAt(arena.arr, arena.lo, bytes);
      arena, off := Upto(arena, |bytes|), 0;
      run := arena;
      assert From(arena, 0) == arena;
    }

    /** Moves the run to a larger arena. */
    method Grow(need: nat)
      requires Valid() && !borrowed && Len(run) <= need && need > 0
      modifies this`run, this`arena, this`off
      ensures Valid() && Contents() == old(Contents()) && off == 0
      ensures fresh(Memory(arena)) && Cap(arena) >= need
    {
      var size := 2 * Cap(arena);
      if size < need { size := need; }
      var next := Copied(Data(run), size);
      arena, off, run := next, 0, next;
      assert From(arena, 0) == arena;
    }

    /** Writes behind the run, in an arena with room. */
    method Extend(bytes: seq<byte>)
      requires Valid() && !borrowed && off + Len(run) + |bytes| <= Cap(arena) && |bytes| > 0
      modifies this`run, this`arena, Memory(arena)
      ensures Valid() && Contents() == old(Contents()) + bytes && Memory(arena) == old(Memory(arena))
    {
      ghost var before := Data(arena);
      FromData(arena, off);
      var longer := AppendInPlace(arena, bytes, if borrows > 0 then lent else Nil);
      FromData(longer, off);
      assert (before + bytes)[off..] == before[off..] + bytes;
      arena, run := longer, From(longer, off);
      assert Data(run) == before[off..] + bytes && Loan();
    }

    /** Room for n more bytes behind the run: compacted in place while no writer holds a slice of the
        arena, moved to a larger one otherwise. */
    method MakeRoom(n: nat)
      requires Valid() && !borrowed && n > 0
      modifies this`run, this`arena, this`off, Memory(arena)
      ensures Valid() && Contents() == old(Contents()) && off + Len(run) + n <= Cap(arena)
      ensures fresh(Memory(arena) - old(Memory(arena)))
    {
      var need := off + Len(run) + n;
      if need > Cap(arena) {
        if borrows == 0 && off > 0 && Len(run) + n <= Cap(arena) {
          Compact();
        } else {
          Grow(need);
        }
      }
    }

    /** Appends to an owned queue, which adopts the bytes when it has no arena yet. */
    method AppendOwned(p: Slice)
      requires Valid() && !borrowed && Ok(p) && Len(p) > 0 && Apart(p, arena) && Apart(p, lent)
      modifies this`run, this`borrowed, this`arena, this`off, Memory(arena)
      ensures Valid() && !borrowed && Contents() == old(Contents()) + old(Data(p))
      ensures fresh(Memory(arena) - old(Memory(arena)) - Memory(p))
      ensures old(Len(run)) > 0 ==> fresh(Memory(arena) - old(Memory(arena)))
    {
      if Len(run) == 0 && off == 0 && Cap(arena) == 0 {
        SetOwned(p);
      } else {
        var bytes := Data(p);
        MakeRoom(|bytes|);
        Extend(bytes);
      }
    }

    /** Copies bytes onto the queue, owning a borrowed run first. */
    method Append(p: Slice, extra: nat)
      requires Valid() && Ok(p) && Len(p) > 0 && Apart(p, arena) && Apart(p, lent)
      modifies this`run, this`borrowed, this`arena, this`off, Memory(arena)
      ensures Valid() && !borrowed && Contents() == old(Contents()) + old(Data(p))
      ensures fresh(Memory(arena) - old(Memory(arena)) - Memory(p))
      ensures old(Len(run)) > 0 ==> fresh(Memory(arena) - old(Memory(arena)))
    {
      Own(extra);
      AppendOwned(p);
    }

    /** pushData's arrival: a payload that still lies in the transport's memory is borrowed by an empty
        queue and copied by any other, so the arena, which is written to, is never that memory. */
    method Push(p: Slice, inTransport: bool, extra: nat)
      requires Valid() && Ok(p) && Len(p) > 0 && Apart(p, arena) && Apart(p, lent)
      modifies this`run, this`borrowed, this`arena, this`off, Memory(arena)
      ensures Valid() && Contents() == old(Contents()) + old(Data(p))
      ensures inTransport ==> Apart(p, arena)
      ensures borrowed ==> inTransport
      ensures fresh(Memory(arena) - old(Memory(arena)) - Memory(p))
    {
      if Len(run) == 0 && inTransport {
        SetBorrowed(p);
      } else {
        Append(p, extra);
      }
    }

    /** A payload arrives, in memory of its own. */
    method Arrive(bytes: seq<byte>, inTransport: bool, extra: nat)
      requires Valid() && bytes != []
      modifies this`run, this`borrowed, this`arena, this`off, Memory(arena)
      ensures Valid() && Contents() == old(Contents()) + bytes
      ensures fresh(Memory(arena) - old(Memory(arena)))
    {
      var p := Copied(bytes, |bytes|);
      assert Valid() && Contents() == old(Contents()) && Len(p) > 0 && Apart(p, arena) && Apart(p, lent);
      ghost var before := Memory(arena);
      Push(p, inTransport, extra);
      assert Memory(arena) - before <= (Memory(arena) - before - Memory(p)) + Memory(p);
    }

    method Meet(event: Event, extra: nat)
      requires Valid() && (event.Payload? ==> event.bytes != [])
      modifies this`run, this`borrowed, this`arena, this`off, Memory(arena)
      ensures Valid() && Contents() == After(old(Contents()), event)
      ensures fresh(Memory(arena) - old(Memory(arena)))
    {
      match event
      case Reset => Drop();
      case Payload(bytes, inTransport) => Arrive(bytes, inTransport, extra);
    }

    /** Any number of events, one after the other. */
    method MeetAll(events: seq<Event>, extra: nat)
      requires Valid() && forall i :: 0 <= i < |events| && events[i].Payload? ==> events[i].bytes != []
      modifies this`run, this`borrowed, this`arena, this`off, Memory(arena)
      ensures Valid() && Contents() == AfterAll(old(Contents()), events)
      ensures fresh(Memory(arena) - old(Memory(arena)))
      decreases |events|
    {
      if events == [] { return; }
      Meet(events[0], extra);
      MeetAll(events[1..], extra);
    }

    /** WriteTo hands out the whole run, in memory the queue owns. */
    method Lend(extra: nat) returns (buf: Slice)
      requires Valid() && borrows == 0
      modifies this`run, this`borrowed, this`arena, this`off, this`borrows, this`lent, this`lentBytes, Memory(arena)
      ensures Valid() && Contents() == old(Contents()) && Ok(buf) && Data(buf) == Contents()
      ensures Len(buf) > 0 ==> borrows == 1 && lent == buf && lentBytes == Contents()
      ensures Len(buf) == 0 ==> borrows == 0
      ensures !borrowed && fresh(Memory(arena) - old(Memory(arena))) && Memory(buf) <= Memory(arena)
    {
      if borrowed { Own(extra); }
      buf := run;
      if Len(buf) == 0 { return; }
      borrows, lent, lentBytes := borrows + 1, buf, Data(buf);
    }

    /** The writer returns the slice: its bytes are those it was handed. */
    method GiveBack()
      requires Valid() && borrows == 1
      modifies this`borrows
      ensures Valid() && borrows == 0 && Contents() == old(Contents()) && Ok(lent) && Data(lent) == lentBytes
    {
      borrows := borrows - 1;
    }
  }

  /** A writer holds the queue's bytes through any number of arrivals, borrowed or copied, and resets: what
      it was handed does not change, and the queue is the FIFO of what came since. */
  method HoldThrough(q: Inbound, events: seq<Event>, extra: nat) returns (buf: Slice)
    requires q.Valid() && q.borrows == 0 && q.Contents() != []
    requires forall i :: 0 <= i < |events| && events[i].Payload? ==> events[i].bytes != []
    modifies q, Memory(q.arena)
    ensures q.Valid() && q.borrows == 0 && Ok(buf) && Data(buf) == old(q.Contents())
    ensures q.Contents() == AfterAll(old(q.Contents()), events)
  {
    buf := q.Lend(extra);
    q.MeetAll(events, extra);
    q.GiveBack();
  }
}
