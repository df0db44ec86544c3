/**
 * The socket object itself, method by method, as each runs when no other goroutine interferes; the
 * interleavings are the step machine's business.  The methods that hold the lock are proved to perform
 * exactly the operations of the atomic machine, the write loop and the read step to be the fragment loop
 * and the passes that every writer and reader of the step machine is proved to consist of.
 */
module SocketObject {
  import opened Basics
  import opened SocketMachine
  import opened LockMachine
  import opened Fragments
  import opened ReadPasses

  datatype ConnectResult = Opened | ResolveFailed | DialFailed | HandshakeFailed | DeadlineFailed
  datatype WriteResult = Written | NoConnection | WriteFailed(done: nat) | ZeroWritten(done: nat)

  /** Samples pushed so far. */
  datatype Samples = Samples(tcpErrors: nat, tcpReads: nat, tcpWrites: nat,
                           tcpPartialWrites: nat, tcpSockets: nat, tcpDuration: nat)

  /** A network connection; what its calls answer is not determined. */
  class Conn {
    const id: ConnId
    var wire: seq<byte>
    var answers: seq<Answer>
    var results: seq<ReadResult>
    var deadline: bool
    var closes: nat

    constructor (id: ConnId)
      ensures this.id == id && wire == [] && answers == [] && results == [] && !deadline && closes == 0
    {
      this.id := id;
      wire, answers, results, deadline, closes := [], [], [], false, 0;
    }

    method Write(p: seq<byte>) returns (n: nat, ok: bool)
      modifies this`wire, this`answers
      ensures n <= |p| && wire == old(wire) + p[..n] && answers == old(answers) + [Answer(n, ok)]
    {
      n :| 0 <= n <= |p|;
      ok := *;
      wire, answers := wire + p[..n], answers + [Answer(n, ok)];
    }

    /** Fills the front of `p`; the rest of `p` may be used as scratch space. */
    method Read(p: array<byte>) returns (n: nat, err: ReadErr)
      modifies this`results, p
      ensures n <= p.Length && results == old(results) + [ReadResult(p[..n], err)]
      ensures err.TimedOut? ==> deadline
    {
      n :| 0 <= n <= p.Length;
      err := *;
      if !deadline && err.TimedOut? { err := NoErr; }
      for i := 0 to p.Length
        modifies p
      {
        p[i] := *;
      }
      results := results + [ReadResult(p[..n], err)];
    }

    method SetReadDeadline(on: bool) returns (ok: bool)
      modifies this`deadline
      ensures deadline == if ok then on else old(deadline)
    {
      ok := *;
      if ok { deadline := on; }
    }

    method Close()
      modifies this`closes
      ensures closes == old(closes) + 1
    {
      closes := closes + 1;
    }
  }

  const EVENTS: set<Event> := {Connect, Data, Close, Error, Timeout}

  function NameOf(e: Event): string {
    match e
    case Connect => "connect"
    case Data => "data"
    case Close => "close"
    case Error => "error"
    case Timeout => "timeout"
  }

  /** Those of the events that are listened to. */
  function Heard(events: seq<Event>, listening: set<Event>): seq<Event> {
    if events == [] then []
    else (if events[0] in listening then [events[0]] else []) + Heard(events[1..], listening)
  }

  lemma HeardOne(e: Event, listening: set<Event>)
    ensures Heard([e], listening) == if e in listening then [e] else []
  {
    assert [e][1..] == [];
  }

  /** The bytes of a pass come before what its error causes. */
  lemma HeardOfPass(r: ReadResult, open: bool, listening: set<Event>)
    ensures Heard(EventsOf(Pass(r, open)), listening) ==
              (if r.chunk != [] && Data in listening then [Data] else []) +
              Heard(EventsOf(Pass(ReadResult([], r.err), open)), listening)
  {
    var rest := EventsOf(Pass(ReadResult([], r.err), open));
    if r.chunk != [] {
      assert EventsOf(Pass(r, open)) == [Data] + rest;
      assert ([Data] + rest)[1..] == rest;
    } else {
      assert EventsOf(Pass(r, open)) == rest;
    }
  }

  lemma SameVerdict(r: ReadResult, open: bool)
    ensures GoesOn(Pass(ReadResult([], r.err), open)) <==> GoesOn(Pass(r, open))
  {}

  /** A pooled buffer. */
  class Buffer {
    var bytes: seq<byte>

    constructor ()
      ensures bytes == []
    {
      bytes := [];
    }

    method Reset()
      modifies this
      ensures bytes == []
    {
      bytes := [];
    }

    method Write(p: seq<byte>)
      modifies this
      ensures bytes == old(bytes) + p
    {
      bytes := bytes + p;
    }
  }

  predicate Distinct<T(==)>(s: seq<T>) { forall i, j :: 0 <= i < j < |s| ==> s[i] != s[j] }

  lemma Rotated<T>(a: seq<T>, b: seq<T>, x: T)
    requires Distinct(a + b + [x])
    ensures Distinct(a + [x] + b)
  {
    var s, r := a + b + [x], a + [x] + b;
    forall i, j | 0 <= i < j < |r| ensures r[i] != r[j] {
      var i' := if i < |a| then i else if i == |a| then |s| - 1 else i - 1;
      var j' := if j < |a| then j else if j == |a| then |s| - 1 else j - 1;
      assert r[i] == s[i'] && r[j] == s[j'] && i' != j';
    }
  }

  class Socket {
    var state: SockState
    var conn: Conn?
    var timeout: int
    var connected: bool            // connectTime has been set
    var destroyed: bool            // destroyOnce has run
    var cancelled: bool
    var live: bool                 // the VU context is not done
    var handlers: set<Event>
    var fired: seq<Event>          // events handed to their handlers' queue
    var totalRead: nat
    var totalWritten: nat
    var samples: Samples
    const readBuf: array<byte>
    var pool: seq<Buffer>
    var readers: nat               // read loops started
    var pending: seq<Buffer>       // buffers of data events whose handler has not returned
    ghost var owed: seq<seq<byte>> // what those handlers must be given

    /** Each pending buffer still holds what its own Read returned, and no buffer is in two places. */
    ghost predicate Valid()
      reads this, pending
    {
      && readBuf.Length == READ_BUFFER_SIZE
      && |pending| == |owed|
      && (forall i :: 0 <= i < |pending| ==> pending[i].bytes == owed[i])
      && Distinct(pool + pending)
    }

    /** The fields guarded by the lock. */
    function Guarded(): Core
      reads this
    {
      Core(state, if conn == null then None else Some(conn.id), timeout, connected)
    }

    /** The connection, if there is one, as a frame. */
    function Current(): set<Conn?>
      reads this
    {
      if conn == null then {} else {conn}
    }

    constructor ()
      ensures Valid() && Guarded() == START && fresh(readBuf)
      ensures !destroyed && !cancelled && live && handlers == {} && fired == [] && pool == [] && pending == []
      ensures readers == 0 && totalRead == 0 && totalWritten == 0 && samples == Samples(0, 0, 0, 0, 0, 0)
    {
      state, conn, timeout, connected := Disconnected, null, 0, false;
      destroyed, cancelled, live, handlers, fired := false, false, true, {}, [];
      readers, totalRead, totalWritten, samples := 0, 0, 0, Samples(0, 0, 0, 0, 0, 0);
      readBuf := new byte[READ_BUFFER_SIZE](_ => 0);
      pool, pending, owed := [], [], [];
    }

    /** Unknown event names are ignored. */
    method On(name: string)
      modifies this`handlers
      ensures handlers == old(handlers) + set e | e in EVENTS && NameOf(e) == name
    {
      if e :| e in EVENTS && NameOf(e) == name { handlers := handlers + {e}; }
    }

    /** Reports whether the event was queued. */
    method Fire(event: Event) returns (queued: bool)
      modifies this`fired
      ensures queued <==> live && event in handlers
      ensures fired == if queued then old(fired) + [event] else old(fired)
    {
      queued := live && event in handlers;
      if queued { fired := fired + [event]; }
    }

    method HandleError() returns (handled: bool)
      modifies this`fired, this`samples
      ensures handled <==> live && Error in handlers
      ensures fired == if handled then old(fired) + [Error] else old(fired)
      ensures samples == old(samples).(tcpErrors := old(samples).tcpErrors + if live then 1 else 0)
    {
      if live { samples := samples.(tcpErrors := samples.tcpErrors + 1); }
      handled := Fire(Error);
    }

    /** connect, once its goroutine runs: the outcome is announced as `connect` or reported as `error`. */
    method Connect(tls: bool, id: ConnId) returns (result: ConnectResult, dialled: Conn?)
      modifies this`state, this`conn, this`connected, this`fired, this`samples, this`readers
      ensures Guarded() == Do(old(Guarded()), match result
                                              case Opened => Connected(id)
                                              case DeadlineFailed => ArmingFailed(id)
                                              case _ => ConnectFailed)
      ensures dialled != null ==> fresh(dialled) && dialled.closes == if result.HandshakeFailed? then 1 else 0
      ensures var announced := if result.Opened? then Event.Connect else Event.Error;
              fired == if live && announced in handlers then old(fired) + [announced] else old(fired)
      ensures samples == if !live then old(samples)
                         else if result.Opened? then old(samples).(tcpSockets := old(samples).tcpSockets + 1)
                         else old(samples).(tcpErrors := old(samples).tcpErrors + 1)
      ensures readers == old(readers) + if result.Opened? then 1 else 0
    {
      result, dialled := ConnectExecute(tls, id);
      if result.Opened? {
        var _ := Fire(Event.Connect);
        readers := readers + 1;
        if live { samples := samples.(tcpSockets := samples.tcpSockets + 1); }
      } else {
        var _ := HandleError();
      }
    }

    // -------------------------------------------------------------- connecting

    /** wrapTLS: on failure the raw connection is closed here. */
    method WrapTLS(raw: Conn) returns (ok: bool)
      modifies raw`closes
      ensures raw.closes == old(raw.closes) + if ok then 0 else 1
    {
      ok := *;
      if !ok { raw.Close(); }
    }

    /** dial: the connection is published before its deadline is armed. */
    method Dial(tls: bool, id: ConnId) returns (result: ConnectResult, dialled: Conn?)
      modifies this`state, this`conn, this`connected
      ensures !result.ResolveFailed?
      ensures dialled != null <==> !result.DialFailed?
      ensures dialled != null ==>
                && fresh(dialled) && dialled.id == id && dialled.closes == (if result.HandshakeFailed? then 1 else 0)
                && (dialled.deadline <==> result.Opened? && timeout > 0)
      ensures result.HandshakeFailed? ==> tls
      ensures result.DeadlineFailed? ==> timeout > 0
      ensures if result.Opened? || result.DeadlineFailed? then state == Open && conn == dialled && connected
              else state == old(state) && conn == old(conn) && connected == old(connected)
    {
      var answered := *;
      if !answered { return DialFailed, null; }
      dialled := new Conn(id);
      if tls {
        var ok := WrapTLS(dialled);
        if !ok { return HandshakeFailed, dialled; }
      }
      state, conn, connected := Open, dialled, true;
      if timeout > 0 {
        var ok := dialled.SetReadDeadline(true);
        if !ok { return DeadlineFailed, dialled; }
      }
      return Opened, dialled;
    }

    /** connectExecute up to the release of the lock: one atomic operation, and no
        connection left open unless published. */
    method ConnectExecute(tls: bool, id: ConnId) returns (result: ConnectResult, dialled: Conn?)
      modifies this`state, this`conn, this`connected
      ensures Guarded() == Do(old(Guarded()), match result
                                              case Opened => Connected(id)
                                              case DeadlineFailed => ArmingFailed(id)
                                              case _ => ConnectFailed)
      ensures result.Opened? || result.DeadlineFailed? ==> conn == dialled
      ensures dialled != null ==>
                fresh(dialled) && dialled.id == id && dialled.closes == if result.HandshakeFailed? then 1 else 0
      ensures result.Opened? ==> dialled != null && (dialled.deadline <==> timeout > 0)
    {
      state := Opening;
      var resolved := *;
      if !resolved {
        state := Disconnected;
        return ResolveFailed, null;
      }
      result, dialled := Dial(tls, id);
      if !result.Opened? { state := Disconnected; }
    }

    // -------------------------------------------------------------- destroy

    /** The first call tears down, every later call does nothing. */
    method Destroy()
      modifies this`state, this`conn, this`destroyed, this`cancelled, this`fired, this`samples, Current()`closes
      ensures destroyed
      ensures old(destroyed) ==>
                && Guarded() == old(Guarded()) && cancelled == old(cancelled)
                && fired == old(fired) && samples == old(samples)
                && conn == old(conn) && (conn != null ==> conn.closes == old(conn.closes))
      ensures !old(destroyed) ==>
                && Guarded() == Do(old(Guarded()), TornDown) && cancelled
                && fired == (if live && Close in handlers then old(fired) + [Close] else old(fired))
                && (old(conn) != null ==> old(conn).closes == old(conn.closes) + 1)
                && samples == old(samples).(tcpDuration := old(samples).tcpDuration +
                                          if live && old(conn) != null then 1 else 0)
    {
      if destroyed { return; }
      state := Destroyed;
      var taken := conn;
      conn := null;
      if taken != null {
        taken.Close();
        if live { samples := samples.(tcpDuration := samples.tcpDuration + 1); }
      }
      var _ := Fire(Close);
      cancelled, destroyed := true, true;
    }

    // -------------------------------------------------------------- setTimeout

    /** The timeout is stored even when the connection refuses the new deadline. */
    method SetTimeout(ms: int) returns (ok: bool)
      modifies this`timeout, Current()`deadline
      ensures Guarded() == Do(old(Guarded()), TimeoutSet(ms))
      ensures conn == null ==> ok
      ensures conn != null ==> (conn.deadline <==> if ok then timeout > 0 else old(conn.deadline))
    {
      timeout := if ms <= 0 then 0 else Wrap64(ms * NANOS_PER_MILLI);
      ok := true;
      if conn != null { ok := conn.SetReadDeadline(timeout > 0); }
    }

    // -------------------------------------------------------------- the write loop

    /** How a stopped loop reports its last answer. */
    function FailureOf(mine: seq<Answer>): WriteResult
      requires Stopped(mine)
    {
      if mine[|mine| - 1].ok then ZeroWritten(Counted(mine)) else WriteFailed(Counted(mine))
    }

    /** The fragments of one write; ends with the bytes left. */
    method WriteFragments(c: Conn, data: seq<byte>) returns (result: WriteResult, ghost mine: seq<Answer>)
      modifies this`totalWritten, c`wire, c`answers
      ensures c.answers == old(c.answers) + mine && Admissible(|data|, mine) && Ended(|data|, mine)
      ensures Carried(mine) <= |data| && c.wire == old(c.wire) + data[..Carried(mine)]
      ensures totalWritten == old(totalWritten) + Counted(mine)
      ensures Stopped(mine) ==> result == FailureOf(mine)
      ensures !Stopped(mine) ==> result == Written
    {
      hide Admissible, Counted, Carried, Stopped;
      result, mine := Written, [];
      var total := 0;
      NoneYet(|data|);
      while total < |data|
        invariant c.answers == old(c.answers) + mine
        invariant Admissible(|data|, mine) && total == Counted(mine) == Carried(mine) <= |data| && !Stopped(mine)
        invariant c.wire == old(c.wire) + data[..total]
        invariant totalWritten == old(totalWritten) + total && result == Written
      {
        var n, ok := c.Write(data[total..]);
        OneMore(|data|, mine, Answer(n, ok));
        mine := mine + [Answer(n, ok)];
        assert data[..total] + data[total..][..n] == data[..total + n];
        if !ok { return WriteFailed(total), mine; }
        if n == 0 { return ZeroWritten(total), mine; }
        total := total + n;
        totalWritten := totalWritten + n;
      }
    }

    /** What one write does to the connection and the counters, given the answers its calls got. */
    ghost predicate Wrote(c: Conn, data: seq<byte>, result: WriteResult, wire: seq<byte>, mine: seq<Answer>)
      reads c`wire
    {
      && Admissible(|data|, mine)
      && Carried(mine) <= |data| && c.wire == wire + data[..Carried(mine)]
      && (result.Written? <==> Counted(mine) == |data|)
      && (result.Written? ==> c.wire == wire + data)
      && (!result.Written? ==> Stopped(mine) && result == FailureOf(mine))
    }

    /**
     * Success puts exactly `data` on the wire; on failure the counted bytes are a strict prefix, short
     * of the wire by what the failing call took.
     */
    method WriteExecute(data: seq<byte>) returns (result: WriteResult, ghost mine: seq<Answer>)
      modifies this`totalWritten, this`samples, Current()`wire, Current()`answers
      ensures conn == null ==> result == NoConnection && mine == [] && samples == old(samples)
      ensures conn != null ==>
                && conn.answers == old(conn.answers) + mine
                && Wrote(conn, data, result, old(conn.wire), mine)
                && samples == old(samples).(
                     tcpWrites := old(samples).tcpWrites + (if live then 1 else 0),
                     tcpPartialWrites := old(samples).tcpPartialWrites +
                       (if live && 0 < Counted(mine) < |data| then 1 else 0))
      ensures totalWritten == old(totalWritten) + Counted(mine)
    {
      if conn == null { return NoConnection, []; }
      var before := totalWritten;
      result, mine := WriteFragments(conn, data);
      SuccessIsComplete(|data|, mine);
      assert data[..|data|] == data;
      var total := totalWritten - before;
      if !result.Written? && 0 < total < |data| && live {
        samples := samples.(tcpPartialWrites := samples.tcpPartialWrites + 1);
      }
      if live { samples := samples.(tcpWrites := samples.tcpWrites + 1); }
    }

    // -------------------------------------------------------------- the read step

    /** Take a buffer from the pool, or a new one. */
    method GetBuffer() returns (buf: Buffer)
      requires Valid()
      modifies this`pool
      ensures Valid() && (buf in old(pool) || fresh(buf)) && buf !in pool && buf !in pending
      ensures forall b :: b in pool ==> b in old(pool)
      ensures Distinct(pool + pending + [buf])
    {
      if pool == [] {
        buf := new Buffer();
      } else {
        buf := pool[|pool| - 1];
        pool := pool[..|pool| - 1];
        assert forall i :: 0 <= i < |pool| ==> (old(pool) + pending)[i] == pool[i];
        assert forall i :: 0 <= i < |pending| ==> (old(pool) + pending)[|old(pool)| + i] == pending[i];
        assert (old(pool) + pending)[|old(pool)| - 1] == buf;
      }
    }

    /** The cleanup of a `data` event, run when its handler has returned. */
    method HandlerReturned(i: nat)
      requires Valid() && i < |pending|
      modifies this`pool, this`pending, this`owed
      ensures Valid() && pool == old(pool) + [old(pending)[i]]
      ensures pending == old(pending)[..i] + old(pending)[i + 1..] && owed == old(owed)[..i] + old(owed)[i + 1..]
    {
      var all := pool + pending;
      assert forall k :: 0 <= k < |pending| ==> all[|pool| + k] == pending[k];
      assert forall k :: 0 <= k < |pool| ==> all[k] == pool[k];
      pool := pool + [pending[i]];
      pending, owed := pending[..i] + pending[i + 1..], owed[..i] + owed[i + 1..];
    }

    /** Count `n` bytes read and offer a copy of them to the `data` handler. */
    method Deliver(n: nat)
      requires Valid() && 0 < n <= readBuf.Length
      modifies this`totalRead, this`samples, this`fired, this`pool, this`pending, this`owed, set b | b in pool
      ensures Valid() && totalRead == old(totalRead) + n
      ensures samples == old(samples).(tcpReads := old(samples).tcpReads + if live then 1 else 0)
      ensures forall b :: b in pool ==> b in old(pool) || fresh(b)
      ensures if live && Data in handlers
              then fired == old(fired) + [Data] && |pending| == |old(pending)| + 1
                   && pending[..|old(pending)|] == old(pending)
                   && owed == old(owed) + [readBuf[..n]]
              else fired == old(fired) && pending == old(pending) && owed == old(owed)
    {
      hide Distinct;
      if live { samples := samples.(tcpReads := samples.tcpReads + 1); }
      totalRead := totalRead + n;
      PoolApart();
      var buf := GetBuffer();
      buf.Reset();
      buf.Write(readBuf[..n]);
      var queued := Fire(Data);
      if queued {
        pending, owed := pending + [buf], owed + [readBuf[..n]];
        assert pool + pending == pool + old(pending) + [buf];
      } else {
        Rotated(pool, pending, buf);
        pool := pool + [buf];
      }
    }

    lemma PoolApart()
      requires Valid()
      ensures forall b :: b in pool ==> b !in pending
    {
      forall i, j | 0 <= i < |pool| && 0 <= j < |pending| ensures pool[i] != pending[j] {
        assert (pool + pending)[i] == pool[i] && (pool + pending)[|pool| + j] == pending[j];
      }
    }

    /** The events that reach a handler. */
    function Listening(): set<Event>
      reads this
    {
      if live then handlers else {}
    }

    /** Between Read and the re-check another goroutine may have changed the state. */
    method OthersRun()
      modifies this`state
    {
      state := *;
    }

    /** Between Read and the copy the Read of another reader may overwrite the shared buffer. */
    method OthersRead() returns (overwritten: bool)
      modifies readBuf
      ensures !overwritten ==> readBuf[..] == old(readBuf[..])
    {
      overwritten := *;
      if overwritten {
        for i := 0 to readBuf.Length
          modifies readBuf
        {
          readBuf[i] := *;
        }
      }
    }

    /** Arm the deadline if the snapshot asks for it, and read. */
    method Receive(c: Conn, to: int) returns (n: nat, err: ReadErr, overwritten: bool)
      modifies c`deadline, c`results, readBuf
      ensures n <= readBuf.Length && |c.results| == |old(c.results)| + 1
      ensures c.results[..|old(c.results)|] == old(c.results)
      ensures var r := c.results[|old(c.results)|];
              |r.chunk| == n && r.err == err && (!overwritten ==> readBuf[..n] == r.chunk)
      ensures (err.TimedOut? ==> c.deadline) && (to <= 0 ==> c.deadline == old(c.deadline))
    {
      if to > 0 { var _ := c.SetReadDeadline(true); }
      n, err := c.Read(readBuf);
      ghost var was := readBuf[..];
      overwritten := OthersRead();
      assert !overwritten ==> readBuf[..n] == was[..n];
    }

    /** What the loop does once the bytes of a read are delivered. */
    method Conclude(err: ReadErr) returns (again: bool)
      modifies this`fired, this`samples
      ensures again <==> GoesOn(Pass(ReadResult([], err), state.Open?))
      ensures fired == old(fired) + Heard(EventsOf(Pass(ReadResult([], err), state.Open?)), Listening())
      ensures samples == old(samples).(tcpErrors := old(samples).tcpErrors +
                                                    if state.Open? && err.Fatal? && live then 1 else 0)
    {
      HeardOne(Timeout, Listening());
      HeardOne(Error, Listening());
      if !state.Open? || err.Eof? { return false; }
      if err.NoErr? { return true; }
      if err.TimedOut? {
        var _ := Fire(Timeout);
        return true;
      }
      var _ := HandleError();
      return false;
    }

    /**
     * One pass of the read loop, whatever the state has become by the re-check.  Every byte read is
     * counted; what is in the buffer at the copy, which is what was read unless another reader has
     * overwritten it, is owed to the handler, if there is one; the buffers already pending are left alone
     * although `readBuf` is overwritten.
     */
    method ReadLoopStep(c: Conn, to: int) returns (again: bool, ghost copied: seq<byte>, ghost overwritten: bool)
      requires Valid()
      modifies this`state, this`totalRead, this`samples, this`fired, this`pool, this`pending, this`owed
      modifies c`deadline, c`results, readBuf, set b | b in pool
      ensures Valid()
      ensures |c.results| == |old(c.results)| + 1 && c.results[..|old(c.results)|] == old(c.results)
      ensures to <= 0 ==> c.deadline == old(c.deadline)
      ensures var r := c.results[|old(c.results)|];
              && |r.chunk| <= READ_BUFFER_SIZE && (r.err.TimedOut? ==> c.deadline)
              && (again <==> GoesOn(Pass(r, state.Open?)))
              && totalRead == old(totalRead) + |r.chunk|
              && old(pending) <= pending
              && |copied| == |r.chunk| && (!overwritten ==> copied == r.chunk)
              && owed == (if r.chunk != [] && live && Data in handlers then old(owed) + [copied] else old(owed))
              && fired == old(fired) + Heard(EventsOf(Pass(r, state.Open?)), Listening())
              && samples == old(samples).(
                   tcpReads := old(samples).tcpReads + (if r.chunk != [] && live then 1 else 0),
                   tcpErrors := old(samples).tcpErrors + (if state.Open? && r.err.Fatal? && live then 1 else 0))
    {
      hide Heard, EventsOf, GoesOn;
      var n, err, touched := Receive(c, to);
      ghost var r := c.results[|c.results| - 1];
      copied, overwritten := readBuf[..n], touched;
      if n > 0 { Deliver(n); }
      OthersRun();
      again := Conclude(err);
      HeardOfPass(r, state.Open?, Listening());
      SameVerdict(r, state.Open?);
    }
  }
}
