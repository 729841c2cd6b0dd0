/** Reading a response: short reads, would-block results and requeues never disturb the bytes. */
module Responses {

  /** What the network does at one read: offer some bytes, nothing yet, an error, or the end. */
  datatype Offer = Bytes(count: nat) | Nothing | Failure | End

  /** The result of read(2): a byte count, zero at the end, or -1 with or without EAGAIN. */
  datatype ReadResult = ReadResult(bytes: int, again: bool)

  /** What a read loop comes to: how much it got, whether it saw the connection closed, and what
      the network has left to do. */
  datatype Drained = Drained(got: nat, closed: bool, rest: seq<Offer>)

  function Least(a: nat, b: nat, c: nat): nat {
    if a <= b && a <= c then a else if b <= c then b else c
  }

  /** The read loop as a function of the network's offers, the bytes the server has left and the
      room in the buffer. */
  function Drains(offers: seq<Offer>, left: nat, room: nat): (d: Drained)
    ensures d.got <= room && d.got <= left
    decreases offers
  {
    if room == 0 then Drained(0, true, offers)
    else if offers == [] then Drained(0, false, [])
    else
      match offers[0]
      case End => Drained(0, true, offers[1..])
      case Failure => Drained(0, true, offers[1..])
      case Nothing => Drained(0, false, offers[1..])
      case Bytes(count) =>
        var k := Least(count, room, left);
        if k == 0 then Drained(0, false, offers[1..])
        else
          var d := Drains(offers[1..], left - k, room - k);
          d.(got := k + d.got)
  }

  /** The first offer that brings no bytes. */
  function FirstStop(offers: seq<Offer>): (f: nat)
    ensures f <= |offers|
  {
    if offers == [] || !offers[0].Bytes? || offers[0].count == 0 then 0 else 1 + FirstStop(offers[1..])
  }

  /** Every offer before `f` brings something. */
  predicate Reaches(offers: seq<Offer>, left: nat, f: nat)
    requires f <= |offers|
  {
    f == 0 || Supply(offers[..f - 1]) < left
  }

  lemma SupplyPrefix(offers: seq<Offer>, f: nat)
    requires 0 < f <= |offers| && offers[0].Bytes?
    ensures Supply(offers[..f]) == offers[0].count + Supply(offers[1..][..f - 1])
  {
    assert offers[..f][0] == offers[0] && offers[..f][1..] == offers[1..][..f - 1];
  }

  /** What a read loop comes to, outright.  It gets the bytes offered before the first offer that
      brings none, as far as there is room and the server has them.  It reports the connection closed
      exactly if the buffer is then full, or if it comes to an offer that fails or ends; nothing offered
      is not closing. */
  lemma {:induction false} DrainsExactly(offers: seq<Offer>, left: nat, room: nat)
    ensures var d, f := Drains(offers, left, room), FirstStop(offers);
            && d.got == Least(Supply(offers[..f]), room, left)
            && (d.closed <==> d.got == room || (Reaches(offers, left, f) && f < |offers| && (offers[f].Failure? || offers[f].End?)))
    decreases offers
  {
    var f := FirstStop(offers);
    if f > 0 {
      SupplyPrefix(offers, f);
      if f > 1 {
        SupplyPrefix(offers, f - 1);
      }
      var k := Least(offers[0].count, room, left);
      if k > 0 {
        DrainsExactly(offers[1..], left - k, room - k);
      }
    }
  }

  /** How much `n` rounds get, one read loop each, requeued until the connection closes. */
  function RoundsGet(offers: seq<Offer>, left: nat, room: nat, n: nat): (got: nat)
    ensures got <= room && got <= left
    decreases n
  {
    if n == 0 || room == 0 then 0
    else
      var d := Drains(offers, left, room);
      if d.closed then d.got else d.got + RoundsGet(d.rest, left - d.got, room - d.got, n - 1)
  }

  predicate Healthy(offers: seq<Offer>) {
    forall o <- offers :: o.Bytes? || o.Nothing?
  }

  function Supply(offers: seq<Offer>): nat {
    if offers == [] then 0 else (if offers[0].Bytes? then offers[0].count else 0) + Supply(offers[1..])
  }

  /** Without a failure a read loop fills the buffer, or waits with enough still to come. */
  lemma {:induction false} DrainsOrWaits(offers: seq<Offer>, left: nat, room: nat)
    requires Healthy(offers) && room <= Supply(offers) && room <= left
    ensures var d := Drains(offers, left, room);
            || d.got == room
            || (!d.closed && Healthy(d.rest) && |d.rest| < |offers| && room - d.got <= Supply(d.rest))
    decreases offers
  {
    if room > 0 && offers != [] && offers[0].Bytes? {
      var k := Least(offers[0].count, room, left);
      if k > 0 {
        DrainsOrWaits(offers[1..], left - k, room - k);
      }
    }
  }

  /** Any split into short reads and would-block results, and any number of requeues: if the
      network offers the bytes and never fails, they all arrive. */
  lemma {:induction false} RoundsComplete(offers: seq<Offer>, left: nat, room: nat, n: nat)
    requires Healthy(offers) && room <= Supply(offers) && room <= left && |offers| < n
    ensures RoundsGet(offers, left, room, n) == room
    decreases n
  {
    if room > 0 {
      DrainsOrWaits(offers, left, room);
      var d := Drains(offers, left, room);
      if d.got < room {
        RoundsComplete(d.rest, left - d.got, room - d.got, n - 1);
      } else {
        assert d.closed || RoundsGet(d.rest, left - d.got, 0, n - 1) == 0;
      }
    }
  }

  class Socket {
    const stream: seq<int>  // every byte the server will ever send
    var pos: nat            // how many of them have been read
    var offers: seq<Offer>  // what the network will do; once exhausted, nothing more comes

    ghost predicate Valid()
      reads this
    {
      pos <= |stream|
    }

    constructor (stream: seq<int>, offers: seq<Offer>)
      ensures Valid() && this.stream == stream && this.offers == offers && pos == 0
    {
      this.stream, this.offers, this.pos := stream, offers, 0;
    }

    ghost function Left(): nat
      requires Valid()
      reads this
    {
      |stream| - pos
    }

    /** At most `n` bytes go to `buf` from `at` on; asking for none yields zero.  A read loop that
        goes on after this read comes to the same as one begun before it. */
    method Read(buf: array<int>, at: nat, n: nat) returns (r: ReadResult)
      requires Valid() && at + n <= buf.Length
      modifies this, buf
      ensures Valid() && -1 <= r.bytes <= n && (n == 0 ==> r.bytes == 0)
      ensures pos == old(pos) + if r.bytes > 0 then r.bytes else 0
      ensures r.bytes > 0 ==> buf[at..at + r.bytes] == stream[old(pos)..pos]
      ensures forall k :: 0 <= k < buf.Length && !(at <= k < at + r.bytes) ==> buf[k] == old(buf[k])
      ensures old(Drains(offers, Left(), n)) ==
              if r.bytes <= 0 then Drained(0, r.bytes == 0 || !r.again, offers)
              else var d := Drains(offers, Left(), n - r.bytes); d.(got := r.bytes + d.got)
    {
      if n == 0 {
        return ReadResult(0, false);
      }
      var offer := if offers == [] then Nothing else offers[0];
      if offers != [] {
        offers := offers[1..];
      }
      match offer
      case End => return ReadResult(0, false);
      case Failure => return ReadResult(-1, false);
      case Nothing => return ReadResult(-1, true);
      case Bytes(count) =>
        var left := |stream| - pos;
        var k := if count < n then count else n;
        k := if k < left then k else left;
        if k == 0 {
          return ReadResult(-1, true);
        }
        forall i | 0 <= i < k {
          buf[at + i] := stream[pos + i];
        }
        pos := pos + k;
        return ReadResult(k, false);
    }
  }

  /** A response job: the buffer being filled and how far it is filled. */
  class Response {
    const soc: Socket
    const buffer: array<int>
    var index: nat
    ghost const start: nat   // the start index the server announced
    ghost const header: nat  // where the buffer's bytes begin in the stream

    /** The filled part of the buffer is the part of the stream read so far. */
    ghost predicate Valid()
      reads this, soc, buffer
    {
      && soc.Valid()
      && start <= index <= buffer.Length && header <= soc.pos
      && index - start == soc.pos - header
      && buffer[start..index] == soc.stream[header..soc.pos]
    }

    /** After the header has been read: a fresh buffer, filled from the announced index. */
    constructor (soc: Socket, size: nat, startIndex: nat)
      requires soc.Valid() && 0 < size && startIndex <= size
      ensures Valid() && fresh(buffer) && this.soc == soc && buffer.Length == size
      ensures index == startIndex == start && header == soc.pos
    {
      this.soc := soc;
      buffer := new int[size](_ => 0);
      index, start, header := startIndex, startIndex, soc.pos;
    }

    /** One read into the free part of the buffer. */
    method ReadMore() returns (r: ReadResult)
      requires Valid()
      modifies this, soc, buffer
      ensures Valid() && -1 <= r.bytes && index == old(index) + if r.bytes > 0 then r.bytes else 0
      ensures forall k :: 0 <= k < old(index) || index <= k < buffer.Length ==> buffer[k] == old(buffer[k])
      ensures old(Drains(soc.offers, soc.Left(), buffer.Length - index)) ==
              if r.bytes <= 0 then Drained(0, r.bytes == 0 || !r.again, soc.offers)
              else var d := Drains(soc.offers, soc.Left(), buffer.Length - index); d.(got := r.bytes + d.got)
    {
      r := soc.Read(buffer, index, buffer.Length - index);
      if r.bytes > 0 {
        assert buffer[start..index] == old(buffer[start..index]);
        index := index + r.bytes;
        assert buffer[start..index] == buffer[start..old(index)] + buffer[old(index)..index];
      } else {
        assert buffer[start..index] == old(buffer[start..index]);
      }
    }

    /** The inner read loop.  It ends, stays within the buffer, only appends, and gets exactly what
        the network offers before a would-block result, the end of the buffer or a closed
        connection. */
    method Drain() returns (closed: bool)
      requires Valid()
      modifies this, soc, buffer
      ensures Valid() && old(index) <= index
      ensures forall k :: 0 <= k < old(index) || index <= k < buffer.Length ==> buffer[k] == old(buffer[k])
      ensures Drained(index - old(index), closed, soc.offers) ==
              old(Drains(soc.offers, soc.Left(), buffer.Length - index))
    {
      ghost var all := Drains(soc.offers, soc.Left(), buffer.Length - index);
      closed := false;
      while true
        invariant Valid() && old(index) <= index && !closed
        invariant forall k :: 0 <= k < old(index) || index <= k < buffer.Length ==> buffer[k] == old(buffer[k])
        invariant var d := Drains(soc.offers, soc.Left(), buffer.Length - index);
                  all == d.(got := index - old(index) + d.got)
        decreases buffer.Length - index
      {
        var r := ReadMore();
        if r.bytes == -1 {
          closed := !r.again;
          break;
        } else if r.bytes == 0 {
          closed := true;
          break;
        }
      }
    }

    /** Any number of requeues: the callback hands buffer and index to the next round unchanged. */
    method Rounds(n: nat) returns (complete: bool)
      requires Valid()
      modifies this, soc, buffer
      ensures Valid() && old(index) <= index
      ensures complete <==> index == buffer.Length
      ensures index == old(index) + old(RoundsGet(soc.offers, soc.Left(), buffer.Length - index, n))
      ensures complete ==> buffer[start..] == soc.stream[header..soc.pos] && |soc.stream| >= header + buffer.Length - start
    {
      ghost var all := RoundsGet(soc.offers, soc.Left(), buffer.Length - index, n);
      complete := index == buffer.Length;
      var i := 0;
      while i < n && !complete
        invariant i <= n && Valid() && old(index) <= index && (complete <==> index == buffer.Length)
        invariant all == index - old(index) + RoundsGet(soc.offers, soc.Left(), buffer.Length - index, n - i)
      {
        ghost var was := index;
        ghost var d := Drains(soc.offers, soc.Left(), buffer.Length - index);
        var closed := Drain();
        assert d == Drained(index - was, closed, soc.offers);
        complete := index == buffer.Length;
        i := if closed then n else i + 1;
      }
      if complete {
        assert buffer[start..] == buffer[start..index];
      }
    }
  }
}
