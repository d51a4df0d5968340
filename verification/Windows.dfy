/** The two flow-control windows of a stream: the credit a sender spends, and a receiver's account of
    what it holds and owes back.  The classes update their fields as the session does; the functions on
    values say what each update computes, and the stream machine runs on those. */
module Windows {

  /** The yamux v1 initial stream window, which every configured window is at least. */
  const MIN_WINDOW: nat := 0x4_0000

  datatype Send = Send(avail: int, max: int)

  datatype Recv = Recv(size: int, buffered: int, consumed: int, grant: int)

  function Min(a: int, b: int): int { if a < b then a else b }

  /** A quarter of the smaller window, and at least one byte. */
  function Threshold(small: int): int { if small / 4 < 1 then 1 else small / 4 }

  function Retuned(w: Recv, peerWindow: int): Recv { w.(grant := Threshold(Min(w.size, peerWindow))) }

  function Fresh(size: int): Recv { Retuned(Recv(size, 0, 0, 0), size) }

  function Granted(w: Send, delta: int): Send {
    if delta > 0 && w.avail + delta <= w.max then w.(avail := w.avail + delta) else w
  }

  predicate Grantable(w: Send, delta: int) { delta > 0 && w.avail + delta <= w.max }

  /** The bytes are accounted for even when they break the window. */
  function Arrived(w: Recv, n: int): Recv { if n < 0 then w else w.(buffered := w.buffered + n) }

  predicate Holds(w: Recv, n: int) { n >= 0 && w.buffered + n <= w.size }

  /** Consumption, and what is granted back with it: all of it, once it reaches the threshold. */
  function Consumed(w: Recv, n: int): (Recv, int) {
    if n <= 0 || n > w.buffered then (w, 0)
    else
      var all := w.consumed + n;
      if all >= (if w.grant <= 0 then 1 else w.grant) then (w.(buffered := w.buffered - n, consumed := 0), all)
      else (w.(buffered := w.buffered - n, consumed := all), 0)
  }

  /** No byte is lost between unread, consumed and granted; what stays ungranted is under the threshold. */
  lemma ConsumedExact(w: Recv, n: int)
    requires 0 <= w.consumed && (n > 0 ==> n <= w.buffered)
    ensures var (v, granted) := Consumed(w, n);
            && v.buffered + v.consumed + granted == w.buffered + w.consumed
            && granted >= 0 && v.consumed >= 0
            && v.size == w.size && v.grant == w.grant
            && (n > 0 ==> v.buffered == w.buffered - n && v.consumed < (if w.grant <= 0 then 1 else w.grant))
            && (n > 0 && granted > 0 ==> v.consumed == 0 && granted >= w.grant)
  {
  }

  class SendWindow {
    var avail: int
    var max: int

    function Value(): Send
      reads this
    {
      Send(avail, max)
    }

    constructor (size: int)
      ensures Value() == Send(size, size)
    {
      avail, max := size, size;
    }

    method Reset(size: int)
      modifies this
      ensures Value() == Send(size, size)
    {
      avail, max := size, size;
    }

    /** Spends credit it has, and nothing otherwise. */
    method Take(n: int) returns (ok: bool)
      modifies this`avail
      ensures ok <==> 0 <= n <= old(avail)
      ensures avail == if ok then old(avail) - n else old(avail)
    {
      if n < 0 || n > avail { return false; }
      avail := avail - n;
      return true;
    }

    /** Adds credit that stays within the window. */
    method Grant(delta: int) returns (ok: bool)
      modifies this`avail
      ensures ok <==> Grantable(old(Value()), delta)
      ensures Value() == Granted(old(Value()), delta)
    {
      if delta <= 0 { return false; }
      if avail + delta > max { return false; }
      avail := avail + delta;
      return true;
    }
  }

  class RecvWindow {
    var size: int
    var buffered: int
    var consumed: int
    var grant: int

    function Value(): Recv
      reads this
    {
      Recv(size, buffered, consumed, grant)
    }

    constructor (size: int)
      ensures Value() == Fresh(size)
    {
      this.size, buffered, consumed, grant := size, 0, 0, 0;
      new;
      Retune(size);
    }

    method Retune(peerWindow: int)
      modifies this`grant
      ensures Value() == Retuned(old(Value()), peerWindow)
    {
      var small := size;
      if peerWindow < small { small := peerWindow; }
      var t := small / 4;
      if t < 1 { t := 1; }
      grant := t;
    }

    method OnData(n: int) returns (ok: bool)
      modifies this`buffered
      ensures ok <==> Holds(old(Value()), n)
      ensures Value() == Arrived(old(Value()), n)
    {
      if n < 0 { return false; }
      buffered := buffered + n;
      return buffered <= size;
    }

    method Consume(n: int) returns (granted: int)
      modifies this`buffered, this`consumed
      ensures (Value(), granted) == Consumed(old(Value()), n)
    {
      granted := 0;
      if n <= 0 || n > buffered { return; }
      buffered := buffered - n;
      consumed := consumed + n;
      var threshold := grant;
      if threshold <= 0 { threshold := 1; }
      if consumed >= threshold {
        granted := consumed;
        consumed := 0;
      }
    }
  }
}
