/**
 * The read stream, reader by reader, from Read to handler.  As long as no Read overwrites a result that
 * another reader has not copied, the payloads accepted as `data` are an in-order subsequence of what the
 * reads returned; with a data handler registered before the reader started and a live VU context nothing
 * is skipped, and the handlers started so far were given, in order, a prefix of the reader's chunks.
 */
module Streams {
  import opened Basics
  import opened SocketMachine
  import opened Runs
  import Footprint
  import Exclusion
  import EventOrder
  import Payloads

  /** The payloads among these calls that thread `t` sent as `data`, in order. */
  function Delivered(acc: seq<Task>, t: Tid): seq<seq<byte>> {
    if acc == [] then []
    else
      var last := acc[|acc| - 1];
      Delivered(acc[..|acc| - 1], t) + if last.sender == t && last.call.OnData? then [last.call.payload] else []
  }

  /** What its Reads had returned for them. */
  function Claimed(acc: seq<Task>, t: Tid): seq<seq<byte>> {
    if acc == [] then []
    else
      var last := acc[|acc| - 1];
      Claimed(acc[..|acc| - 1], t) + if last.sender == t && last.call.OnData? then [last.call.chunk] else []
  }

  lemma ClaimedAppend(acc: seq<Task>, task: Task, t: Tid)
    ensures Claimed(acc + [task], t) ==
              if task.sender == t && task.call.OnData? then Claimed(acc, t) + [task.call.chunk] else Claimed(acc, t)
  {
    assert (acc + [task])[..|acc|] == acc;
  }

  /** `a` can be obtained from `b` by leaving elements out. */
  predicate Subsequence<T(==)>(a: seq<T>, b: seq<T>) {
    a == [] ||
    (b != [] && ((a[|a| - 1] == b[|b| - 1] && Subsequence(a[..|a| - 1], b[..|b| - 1])) || Subsequence(a, b[..|b| - 1])))
  }

  lemma SubsequenceSkips<T>(a: seq<T>, b: seq<T>, x: T)
    requires Subsequence(a, b)
    ensures Subsequence(a, b + [x])
  {
    assert (b + [x])[..|b|] == b;
  }

  lemma SubsequenceTakes<T>(a: seq<T>, b: seq<T>, x: T)
    requires Subsequence(a, b)
    ensures Subsequence(a + [x], b + [x])
  {
    assert (b + [x])[..|b|] == b && (a + [x])[..|a|] == a;
  }

  function Bytes(chunks: seq<seq<byte>>): nat {
    if chunks == [] then 0 else Bytes(chunks[..|chunks| - 1]) + |chunks[|chunks| - 1]|
  }

  lemma BytesAppend(chunks: seq<seq<byte>>, chunk: seq<byte>)
    ensures Bytes(chunks + [chunk]) == Bytes(chunks) + |chunk|
  {
    assert (chunks + [chunk])[..|chunks|] == chunks;
  }

  /** The reader has a chunk it has not handed over, skipped or dropped yet. */
  predicate Pending(pc: Pc) {
    (pc.Reading? && (pc.r.PushRead? || pc.r.AddRead? || pc.r.CopyRead?)) || (pc.Firing? && pc.call.OnData?)
  }

  function InHand(pc: Pc): seq<byte>
    requires Pending(pc)
  {
    if pc.Reading? then pc.r.chunk else pc.call.chunk
  }

  /** Bytes of the pending chunk not yet added to the shared total. */
  function Uncounted(pc: Pc): nat {
    if pc.Reading? && (pc.r.PushRead? || pc.r.AddRead?) then |pc.r.chunk| else 0
  }

  /** The chunks the reader is done with. */
  function Handled(th: Thread): seq<seq<byte>> {
    if Pending(th.pc) && th.chunks != [] then th.chunks[..|th.chunks| - 1] else th.chunks
  }

  ghost predicate L(g: Globals, t: Tid, th: Thread) {
    th.role.ReaderRole? ==>
      && (Pending(th.pc) ==> th.chunks != [] && th.chunks[|th.chunks| - 1] == InHand(th.pc))
      && (forall i :: 0 <= i < |th.chunks| ==> 0 < |th.chunks[i]| <= READ_BUFFER_SIZE)
      && th.added + Uncounted(th.pc) == Bytes(th.chunks)
      && Subsequence(Claimed(g.ev.accepted, t), Handled(th))
      && (th.ready ==> Data in g.ev.handlers)
      && (th.ready && !g.vuDone ==> Claimed(g.ev.accepted, t) == Handled(th))
  }

  ghost predicate G(g: Globals, n: nat) {
    forall i :: 0 <= i < |g.ev.accepted| ==> g.ev.accepted[i].sender < n
  }

  ghost predicate Inv(s: Sys) {
    Exclusion.Inv(s) && G(s.g, |s.ts|) && forall t :: 0 <= t < |s.ts| ==> L(s.g, t, s.ts[t])
  }

  ghost predicate Frame(g: Globals, h: Globals, t: Tid) {
    && (h.ev.accepted == g.ev.accepted ||
        (h.ev.accepted != [] && h.ev.accepted[..|h.ev.accepted| - 1] == g.ev.accepted &&
         h.ev.accepted[|h.ev.accepted| - 1].sender == t))
    && g.ev.handlers <= h.ev.handlers
    && (g.vuDone ==> h.vuDone)
  }

  ghost predicate Kept(g: Globals, t: Tid, o: Outcome) { o.Moved? ==> L(o.g, t, o.th) && Frame(g, o.g, t) }

  ghost predicate Pre(g: Globals, n: nat, t: Tid, th: Thread) { Exclusion.Pre(g, n, t, th) && L(g, t, th) }

  /** A reader done with its pending chunk: handed over, or skipped where that is allowed. */
  lemma ChunkDone(g: Globals, h: Globals, t: Tid, th: Thread, th': Thread)
    requires L(g, t, th) && th.role.ReaderRole? && th.pc.Firing? && th.pc.call.OnData?
    requires !Pending(th'.pc) && Uncounted(th'.pc) == 0
    requires th'.role == th.role && th'.chunks == th.chunks && th'.added == th.added && th'.ready == th.ready
    requires g.ev.handlers <= h.ev.handlers && (g.vuDone ==> h.vuDone)
    requires Claimed(h.ev.accepted, t) == Claimed(g.ev.accepted, t) + [th.pc.call.chunk] ||
             (Claimed(h.ev.accepted, t) == Claimed(g.ev.accepted, t) && (th.ready ==> h.vuDone))
    ensures L(h, t, th')
  {
    hide Claimed, Bytes, Subsequence;
    assert th.chunks == Handled(th) + [th.pc.call.chunk];
    SubsequenceSkips(Claimed(g.ev.accepted, t), Handled(th), th.pc.call.chunk);
    SubsequenceTakes(Claimed(g.ev.accepted, t), Handled(th), th.pc.call.chunk);
  }

  lemma OwnLookup(g: Globals, n: nat, t: Tid, th: Thread, a: Action)
    requires Pre(g, n, t, th) && th.pc.Firing?
    ensures Kept(g, t, LookupStep(g, th, th.pc.call, a))
  {
    hide Claimed, Bytes, Exclusion.Pre, Subsequence;
    var o := LookupStep(g, th, th.pc.call, a);
    if o.Moved? && th.role.ReaderRole? && th.pc.call.OnData? && Data !in g.ev.handlers {
      ChunkDone(g, o.g, t, th, o.th);
    } else {
      match th.pc.call
      case OnConnect => case OnData(_, _, _, _, _) => case OnTimeout(_) => case OnClose(_) => case OnError(_) =>
    }
  }

  lemma OwnSendData(g: Globals, n: nat, t: Tid, th: Thread, a: Action)
    requires Pre(g, n, t, th) && th.pc.Firing? && th.pc.call.OnData?
    ensures Kept(g, t, SendStep(g, t, th, th.pc.call, a))
  {
    hide Claimed, Bytes, Subsequence, L;
    assert th.role.ReaderRole? by { OnlyReadersSendData(g, n, t, th); }
    var o := SendStep(g, t, th, th.pc.call, a);
    if o.Moved? {
      var task := Task(t, th.parent, th.pc.call);
      ClaimedAppend(g.ev.accepted, task, t);
      assert (g.ev.accepted + [task])[..|g.ev.accepted|] == g.ev.accepted;
      ChunkDone(g, o.g, t, th, o.th);
    }
  }

  lemma OnlyReadersSendData(g: Globals, n: nat, t: Tid, th: Thread)
    requires Exclusion.Pre(g, n, t, th) && th.pc.Firing? && th.pc.call.OnData?
    ensures th.role.ReaderRole?
  {}

  lemma OwnSend(g: Globals, n: nat, t: Tid, th: Thread, a: Action)
    requires Pre(g, n, t, th) && th.pc.Firing? && !th.pc.call.OnData?
    ensures Kept(g, t, SendStep(g, t, th, th.pc.call, a))
  {
    hide Claimed, Bytes, Exclusion.Pre, Subsequence;
    var acc, k := g.ev.accepted, th.pc.call;
    var task := Task(t, th.parent, k);
    ClaimedAppend(acc, task, t);
    assert (acc + [task])[..|acc|] == acc;
    match k
    case OnConnect => case OnData(_, _, _, _, _) => case OnTimeout(_) => case OnClose(_) => case OnError(_) =>
  }

  lemma OwnCall(g: Globals, n: nat, t: Tid, th: Thread, a: Action)
    requires Pre(g, n, t, th) && th.pc.Reading? && th.pc.r.CallRead?
    ensures Kept(g, t, ReadStep(g, t, th, th.pc.r, a))
  {
    hide Claimed, Bytes, Subsequence, Exclusion.Pre;
    if a.ReadReturned? {
      BytesAppend(th.chunks, a.chunk);
      assert (th.chunks + [a.chunk])[..|th.chunks|] == th.chunks;
    }
  }

  lemma OwnCount(g: Globals, n: nat, t: Tid, th: Thread, a: Action)
    requires Pre(g, n, t, th) && th.pc.Reading? && Pending(th.pc)
    ensures Kept(g, t, ReadStep(g, t, th, th.pc.r, a))
  {
    hide Claimed, Bytes, Subsequence, Exclusion.Pre;
    match th.pc.r case PushRead(_, _, _) => case AddRead(_, _, _) => case CopyRead(_, _, _) => case _ =>
  }

  lemma OwnRead(g: Globals, n: nat, t: Tid, th: Thread, a: Action)
    requires Pre(g, n, t, th) && th.pc.Reading? && !th.pc.r.CallRead? && !Pending(th.pc)
    ensures Kept(g, t, ReadStep(g, t, th, th.pc.r, a))
  {
    hide Claimed, Bytes, Subsequence, Exclusion.Pre;
    match th.pc.r case Head => case Snap => case ArmRead(_, _) => case Test(_, _) => case _ =>
  }

  lemma OwnOther(g: Globals, n: nat, t: Tid, th: Thread, a: Action)
    requires Pre(g, n, t, th) && !th.pc.Firing? && !th.pc.Reading?
    ensures Kept(g, t, Local(g, t, th, a))
  {
    hide ConnectStep, LookupStep, SendStep, ReadStep, DestroyStep, WriteStep, ScriptStep, TimeoutStep, ObserveStep,
      ReportStep, Claimed, Bytes;
    Footprint.Of(g, t, th, a);
    if th.pc.Script? && a.Invoke? && ScriptStep(g, th, a.op).Moved? { Footprint.ScriptEvents(g, th, a.op); }
  }

  lemma Own(g: Globals, n: nat, t: Tid, th: Thread, a: Action)
    requires Pre(g, n, t, th)
    ensures Kept(g, t, Local(g, t, th, a))
  {
    hide ConnectStep, LookupStep, SendStep, ReadStep, DestroyStep, WriteStep, ScriptStep, TimeoutStep, ObserveStep,
      ReportStep, Kept;
    if th.pc.Firing? {
      if !th.pc.sending { OwnLookup(g, n, t, th, a); }
      else if th.pc.call.OnData? { OwnSendData(g, n, t, th, a); }
      else { OwnSend(g, n, t, th, a); }
    } else if th.pc.Reading? {
      if th.pc.r.CallRead? { OwnCall(g, n, t, th, a); }
      else if Pending(th.pc) { OwnCount(g, n, t, th, a); }
      else { OwnRead(g, n, t, th, a); }
    } else {
      OwnOther(g, n, t, th, a);
    }
  }

  lemma Others(g: Globals, h: Globals, t: Tid, u: Tid, th: Thread)
    requires Frame(g, h, t) && u != t && L(g, u, th)
    ensures L(h, u, th)
  {
    hide Bytes;
    if h.ev.accepted != g.ev.accepted {
      ClaimedAppend(g.ev.accepted, h.ev.accepted[|h.ev.accepted| - 1], u);
      assert h.ev.accepted == g.ev.accepted + [h.ev.accepted[|h.ev.accepted| - 1]];
    }
  }

  /** A thread that has sent nothing has delivered nothing. */
  lemma {:induction false} NothingFrom(acc: seq<Task>, t: Tid)
    requires forall i :: 0 <= i < |acc| ==> acc[i].sender != t
    ensures Claimed(acc, t) == []
  {
    if acc != [] { NothingFrom(acc[..|acc| - 1], t); }
  }

  lemma Preserved(s: Sys, e: Step)
    requires Inv(s) && Enabled(s, e)
    ensures Inv(Apply(s, e))
  {
    hide Local, L, Exclusion.L;
    var s' := Apply(s, e);
    Exclusion.Preserved(s, e);
    match e
    case ThreadStep(t, a) =>
      assert L(s.g, t, s.ts[t]) && Exclusion.L(s.g, t, s.ts[t]);
      Own(s.g, |s.ts|, t, s.ts[t], a);
      Actor(s, t, a);
      forall u | 0 <= u < |s'.ts| ensures L(s'.g, u, s'.ts[u]) {
        if u < |s.ts| && u != t { Others(s.g, s'.g, t, u, s.ts[u]); }
      }
    case EnvStep(_) =>
      forall u | 0 <= u < |s'.ts| ensures L(s'.g, u, s'.ts[u]) { Others(s.g, s'.g, u + 1, u, s.ts[u]); }
  }

  lemma Actor(s: Sys, t: Tid, a: Action)
    requires Inv(s) && t < |s.ts| && Local(s.g, t, s.ts[t], a).Moved? && Kept(s.g, t, Local(s.g, t, s.ts[t], a))
    ensures var s' := Apply(s, ThreadStep(t, a));
            && G(s'.g, |s'.ts|) && L(s'.g, t, s'.ts[t]) && Frame(s.g, s'.g, t)
            && (|s'.ts| > |s.ts| ==> L(s'.g, |s.ts|, s'.ts[|s.ts|]))
  {
    hide Local, Exclusion.L;
    var o := Local(s.g, t, s.ts[t], a);
    Footprint.Of(s.g, t, s.ts[t], a);
    if o.spawn.Some? {
      NothingFrom(o.g.ev.accepted, |s.ts|);
      SpawnedReady(s.g, t, s.ts[t], a);
    }
  }

  lemma SpawnedReady(g: Globals, t: Tid, th: Thread, a: Action)
    requires Local(g, t, th, a).Moved? && Local(g, t, th, a).spawn.Some?
    ensures Local(g, t, th, a).spawn.value.ready ==> Data in Local(g, t, th, a).g.ev.handlers
  {
    hide LookupStep, SendStep, ReadStep, DestroyStep, WriteStep, TimeoutStep, ObserveStep, ReportStep;
    Footprint.Of(g, t, th, a);
  }

  lemma {:induction false} Always(tr: seq<Step>)
    requires IsRun(tr)
    ensures Inv(Exec(tr))
  {
    hide Local;
    if tr == [] {
      Exclusion.Always(tr);
    } else {
      Always(tr[..|tr| - 1]);
      Preserved(Exec(tr[..|tr| - 1]), tr[|tr| - 1]);
    }
  }

  // ---------------------------------------------------------------- what the handlers get

  /** Every payload of thread `t` is what its Read returned. */
  ghost predicate Intact(acc: seq<Task>, t: Tid) {
    forall x :: 0 <= x < |acc| && acc[x].sender == t && acc[x].call.OnData? ==> acc[x].call.payload == acc[x].call.chunk
  }

  lemma IntactAppend(acc: seq<Task>, task: Task, t: Tid)
    ensures Intact(acc + [task], t) <==>
            Intact(acc, t) && (task.sender == t && task.call.OnData? ==> task.call.payload == task.call.chunk)
  {
    var all := acc + [task];
    assert all[|acc|] == task;
    if Intact(all, t) {
      forall x | 0 <= x < |acc| && acc[x].sender == t && acc[x].call.OnData?
        ensures acc[x].call.payload == acc[x].call.chunk
      {
        assert all[x] == acc[x];
      }
    }
  }

  lemma DeliveredAppend(acc: seq<Task>, task: Task, t: Tid)
    ensures Delivered(acc + [task], t) ==
              Delivered(acc, t) + if task.sender == t && task.call.OnData? then [task.call.payload] else []
  {
    assert (acc + [task])[..|acc|] == acc;
  }

  lemma SameLast<T>(a: seq<T>, x: T, b: seq<T>, y: T)
    requires |a| == |b|
    ensures a + [x] == b + [y] <==> a == b && x == y
  {
    assert (a + [x])[..|a|] == a && (b + [y])[..|b|] == b && (a + [x])[|a|] == x && (b + [y])[|b|] == y;
  }

  lemma NothingToSpoil(t: Tid)
    ensures Intact([], t)
  {}

  /** Position by position, delivered and claimed agree exactly when all payloads are intact. */
  lemma {:induction false} DeliveredIffIntact(acc: seq<Task>, t: Tid)
    ensures |Delivered(acc, t)| == |Claimed(acc, t)|
    ensures Delivered(acc, t) == Claimed(acc, t) <==> Intact(acc, t)
  {
    hide Intact;
    if acc == [] {
      NothingToSpoil(t);
    } else {
      var p, last := acc[..|acc| - 1], acc[|acc| - 1];
      assert acc == p + [last];
      DeliveredIffIntact(p, t);
      IntactAppend(p, last, t);
      ClaimedAppend(p, last, t);
      DeliveredAppend(p, last, t);
      if last.sender == t && last.call.OnData? {
        SameLast(Delivered(p, t), last.call.payload, Claimed(p, t), last.call.chunk);
      }
    }
  }

  /** No accepted payload of thread `t` comes from a copy that Reads of others had spoilt. */
  ghost predicate NoneSpoilt(tr: seq<Step>, t: Tid)
    requires IsRun(tr)
  {
    var acc := Exec(tr).g.ev.accepted;
    forall n, x ::
      (0 <= n < |tr| && 0 <= x < |acc| && acc[x].sender == t && acc[x].call.OnData? &&
       Payloads.Copies(tr, n, t, acc[x].call)) ==> !Payloads.Spoilt(tr, n)
  }

  lemma {:induction false} IntactIffNoneSpoilt(tr: seq<Step>, t: Tid)
    requires IsRun(tr)
    ensures Intact(Exec(tr).g.ev.accepted, t) <==> NoneSpoilt(tr, t)
  {
    hide Local, Exec, Payloads.Spoilt;
    var acc := Exec(tr).g.ev.accepted;
    if NoneSpoilt(tr, t) {
      forall x | 0 <= x < |acc| && acc[x].sender == t && acc[x].call.OnData?
        ensures acc[x].call.payload == acc[x].call.chunk
      {
        var n := Payloads.AcceptedWasCopied(tr, x);
        Payloads.SpoiltIff(tr, n, acc[x].call);
      }
    }
    if Intact(acc, t) {
      forall n, x | 0 <= n < |tr| && 0 <= x < |acc| && acc[x].sender == t && acc[x].call.OnData? &&
                    Payloads.Copies(tr, n, t, acc[x].call)
        ensures !Payloads.Spoilt(tr, n)
      {
        Payloads.SpoiltIff(tr, n, acc[x].call);
      }
    }
  }

  lemma {:induction false} AllIntact(tr: seq<Step>, t: Tid)
    requires IsRun(tr) && !SomeStep(tr, Payloads.Overwrites)
    ensures Intact(Exec(tr).g.ev.accepted, t)
    ensures Delivered(Exec(tr).g.ev.accepted, t) == Claimed(Exec(tr).g.ev.accepted, t)
  {
    hide Local, Exec, SomeStep;
    var acc := Exec(tr).g.ev.accepted;
    forall x | 0 <= x < |acc| && acc[x].sender == t && acc[x].call.OnData?
      ensures acc[x].call.payload == acc[x].call.chunk
    {
      Payloads.PayloadIsWhatWasRead(tr, x);
    }
    DeliveredIffIntact(acc, t);
  }

  /** Accepted `data` payloads of a reader are an in-order subsequence of its chunks. */
  lemma {:induction false} InOrder(tr: seq<Step>, t: Tid)
    requires IsRun(tr) && !SomeStep(tr, Payloads.Overwrites)
    requires t < |Exec(tr).ts| && Exec(tr).ts[t].role.ReaderRole?
    ensures Subsequence(Delivered(Exec(tr).g.ev.accepted, t), Handled(Exec(tr).ts[t]))
  {
    hide Local, SomeStep;
    Always(tr);
    AllIntact(tr, t);
    assert L(Exec(tr).g, t, Exec(tr).ts[t]);
  }

  /** Whatever is overwritten, the reads behind the accepted calls are an in-order subsequence of all reads. */
  lemma {:induction false} ReadsInOrder(tr: seq<Step>, t: Tid)
    requires IsRun(tr) && t < |Exec(tr).ts| && Exec(tr).ts[t].role.ReaderRole?
    ensures Subsequence(Claimed(Exec(tr).g.ev.accepted, t), Handled(Exec(tr).ts[t]))
    ensures |Delivered(Exec(tr).g.ev.accepted, t)| == |Claimed(Exec(tr).g.ev.accepted, t)|
  {
    hide Local;
    Always(tr);
    DeliveredIffIntact(Exec(tr).g.ev.accepted, t);
    assert L(Exec(tr).g, t, Exec(tr).ts[t]);
  }

  /** The chunk a reader is working on right now, if any. */
  function OnHand(pc: Pc): seq<seq<byte>> { if Pending(pc) then [InHand(pc)] else [] }

  /**
   * If a data handler was registered when step `i` started the reader and the VU context is live, then
   * the accepted payloads, with the chunk it is working on, are all the reader ever read if and only if
   * none of them comes from a copy that Reads of others had spoilt.
   */
  lemma {:induction false} NothingSkippedIff(tr: seq<Step>, i: nat, t: Tid)
    requires IsRun(tr) && Starts(tr, i, t) && Data in At(tr, i).g.ev.handlers && !Exec(tr).g.vuDone
    ensures t < |Exec(tr).ts|
    ensures Exec(tr).ts[t].role.ReaderRole? ==>
              (Delivered(Exec(tr).g.ev.accepted, t) + OnHand(Exec(tr).ts[t].pc) == Exec(tr).ts[t].chunks
               <==> NoneSpoilt(tr, t))
  {
    hide Local, Starts, NoneSpoilt, Intact;
    ReadyMeans(tr, i, t);
    Always(tr);
    IntactIffNoneSpoilt(tr, t);
    var th, acc := Exec(tr).ts[t], Exec(tr).g.ev.accepted;
    if th.role.ReaderRole? {
      assert L(Exec(tr).g, t, th);
      DeliveredIffIntact(acc, t);
      assert Claimed(acc, t) + OnHand(th.pc) == th.chunks;
      SameTail(Delivered(acc, t), Claimed(acc, t), OnHand(th.pc));
    }
  }

  lemma SameTail<T>(a: seq<T>, b: seq<T>, c: seq<T>)
    requires |a| == |b|
    ensures a + c == b + c <==> a == b
  {
    assert (a + c)[..|a|] == a && (b + c)[..|b|] == b;
  }

  /** Without overwriting, nothing the reader read is skipped and nothing is changed. */
  lemma {:induction false} NothingSkipped(tr: seq<Step>, i: nat, t: Tid)
    requires IsRun(tr) && Starts(tr, i, t) && Data in At(tr, i).g.ev.handlers && !Exec(tr).g.vuDone
    requires !SomeStep(tr, Payloads.Overwrites)
    ensures t < |Exec(tr).ts|
    ensures Exec(tr).ts[t].role.ReaderRole? ==>
              Delivered(Exec(tr).g.ev.accepted, t) + OnHand(Exec(tr).ts[t].pc) == Exec(tr).ts[t].chunks
  {
    hide Local, Starts, SomeStep, Exec, NoneSpoilt, Intact;
    NothingSkippedIff(tr, i, t);
    AllIntact(tr, t);
    IntactIffNoneSpoilt(tr, t);
  }

  lemma {:induction false} DeliveredConcat(a: seq<Task>, b: seq<Task>, t: Tid)
    ensures Delivered(a + b, t) == Delivered(a, t) + Delivered(b, t)
  {
    if b == [] {
      assert a + b == a;
    } else {
      var q, last := b[..|b| - 1], b[|b| - 1];
      DeliveredConcat(a, q, t);
      DeliveredAppend(a + q, last, t);
      DeliveredAppend(q, last, t);
      assert b == q + [last] && a + b == (a + q) + [last];
    }
  }

  /**
   * From Read to handler: the payloads given to the handlers started so far, then those queued, then the
   * one in the loop's hand, then the chunk the reader is working on, are what the reader read, in order.
   * In particular the handlers were given a prefix of the stream.
   */
  lemma {:induction false} HandlersGetTheStream(tr: seq<Step>, i: nat, t: Tid)
    requires IsRun(tr) && Starts(tr, i, t) && Data in At(tr, i).g.ev.handlers && !Exec(tr).g.vuDone
    requires !SomeStep(tr, Payloads.Overwrites)
    ensures t < |Exec(tr).ts|
    ensures Exec(tr).ts[t].role.ReaderRole? ==>
              var g, th := Exec(tr).g, Exec(tr).ts[t];
              && Delivered(g.ev.started, t) + Delivered(g.ev.queue, t) + Delivered(EventOrder.AtHand(g.loop), t)
                 + OnHand(th.pc) == th.chunks
              && Delivered(g.ev.started, t) <= th.chunks
  {
    hide Local, Starts, SomeStep, Exec;
    NothingSkipped(tr, i, t);
    EventOrder.HandledInAcceptanceOrder(tr);
    var g := Exec(tr).g;
    DeliveredConcat(g.ev.started, g.ev.queue, t);
    DeliveredConcat(g.ev.started + g.ev.queue, EventOrder.AtHand(g.loop), t);
  }

  /** A reader's share of totalRead is the length of its chunks, less the one not yet added. */
  lemma {:induction false} ShareOfTotal(tr: seq<Step>, t: Tid)
    requires IsRun(tr) && t < |Exec(tr).ts| && Exec(tr).ts[t].role.ReaderRole?
    ensures var th := Exec(tr).ts[t]; th.added == Bytes(th.chunks) - Uncounted(th.pc)
  {
    hide Local;
    Always(tr);
    assert L(Exec(tr).g, t, Exec(tr).ts[t]);
  }
}
