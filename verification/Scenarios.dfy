/** Concrete runs showing that the hypotheses of the run theorems are needed. */
module Scenarios {
  import opened Basics
  import opened SocketMachine

  lemma Starts()
    ensures IsRun([]) && Exec([]) == Init()
  {}

  lemma Then(tr: seq<Step>, s: Sys, e: Step) returns (tr': seq<Step>, s': Sys)
    requires IsRun(tr) && Exec(tr) == s && Enabled(s, e)
    ensures IsRun(tr') && Exec(tr') == s' && s' == Apply(s, e)
  {
    hide Local;
    tr' := tr + [e];
    s' := Apply(s, e);
    assert tr'[..|tr'| - 1] == tr;
  }

  // ---------------------------------------------------------------- whole operations, run without interruption

  /** The end of destroy() by the script, from its `close` on, without a close handler. */
  lemma EndDestroy(tr: seq<Step>, s: Sys) returns (tr': seq<Step>, s': Sys)
    requires IsRun(tr) && Exec(tr) == s && |s.ts| > 0 && s.ts[0].pc == Firing(OnClose(ToScript), false)
    requires Close !in s.g.ev.handlers
    ensures IsRun(tr') && Exec(tr') == s' && s'.ts == s.ts[0 := s.ts[0].(pc := Script)]
    ensures s'.g == s.g.(once := Done, cancelled := true, ev := s.g.ev.(closeSkipped := true))
  {
    hide ConnectStep, SendStep, ReadStep, WriteStep, ScriptStep, TimeoutStep, ObserveStep, ReportStep, IsRun, Exec;
    tr', s' := Then(tr, s, ThreadStep(0, Tau));
    tr', s' := Then(tr', s', ThreadStep(0, Tau));
    tr', s' := Then(tr', s', ThreadStep(0, Tau));
  }

  /** destroy() by the script, before any connection and without a close handler. */
  lemma Destroy(tr: seq<Step>, s: Sys) returns (tr': seq<Step>, s': Sys)
    requires IsRun(tr) && Exec(tr) == s && |s.ts| > 0 && s.ts[0].pc.Script?
    requires LockFree(s.g) && s.g.once.Fresh? && s.g.core.conn.None? && Close !in s.g.ev.handlers
    ensures IsRun(tr') && Exec(tr') == s' && s'.ts == s.ts
    ensures s'.g == s.g.(core := s.g.core.(st := Destroyed), once := Done, cancelled := true,
                         life := s.g.life.(swapped := true), ev := s.g.ev.(closeSkipped := true),
                         log := s.g.log.(destroys := s.g.log.destroys + 1))
  {
    hide ConnectStep, LookupStep, SendStep, ReadStep, WriteStep, TimeoutStep, ObserveStep, ReportStep, IsRun, Exec;
    tr', s' := Then(tr, s, ThreadStep(0, Invoke(DoDestroy)));
    tr', s' := Then(tr', s', ThreadStep(0, Tau));
    tr', s' := Then(tr', s', ThreadStep(0, Tau));
    tr', s' := EndDestroy(tr', s');
  }

  /** destroy() by the script up to the close of connection `c`, which other threads may hold. */
  lemma TakeDown(tr: seq<Step>, s: Sys, c: ConnId) returns (tr': seq<Step>, s': Sys)
    requires IsRun(tr) && Exec(tr) == s && |s.ts| > 0 && s.ts[0].pc.Script?
    requires LockFree(s.g) && s.g.once.Fresh? && s.g.core.conn == Some(c) && c < |s.g.net.conns|
    ensures IsRun(tr') && Exec(tr') == s' && s'.ts == s.ts[0 := s.ts[0].(pc := Destroying(ToScript, PushDuration))]
    ensures var k := s.g.net.conns[c].(closes := s.g.net.conns[c].closes + 1, loc := Closed);
            s'.g == s.g.(core := s.g.core.(st := Destroyed, conn := None), once := Running(0),
                         net := s.g.net.(conns := s.g.net.conns[c := k]),
                         life := s.g.life.(swapped := true), log := s.g.log.(destroys := s.g.log.destroys + 1))
  {
    hide ConnectStep, LookupStep, SendStep, ReadStep, WriteStep, TimeoutStep, ObserveStep, ReportStep, IsRun, Exec;
    tr', s' := Then(tr, s, ThreadStep(0, Invoke(DoDestroy)));
    tr', s' := Then(tr', s', ThreadStep(0, Tau));
    tr', s' := Then(tr', s', ThreadStep(0, Tau));
    tr', s' := Then(tr', s', ThreadStep(0, Tau));
  }

  /** setTimeout(ms) while no connection is set. */
  lemma SetTimeout(tr: seq<Step>, s: Sys, ms: int) returns (tr': seq<Step>, s': Sys)
    requires IsRun(tr) && Exec(tr) == s && |s.ts| > 0 && s.ts[0].pc.Script? && LockFree(s.g) && s.g.core.conn.None?
    ensures IsRun(tr') && Exec(tr') == s' && s'.ts == s.ts
    ensures s'.g == s.g.(core := s.g.core.(timeout := TimeoutFor(ms)), lock := Lock(None, s.g.core),
                         life := s.g.life.(positive := s.g.life.positive || TimeoutFor(ms) > 0))
  {
    hide ConnectStep, LookupStep, SendStep, ReadStep, WriteStep, DestroyStep, ObserveStep, ReportStep, IsRun, Exec,
      TimeoutFor;
    tr', s' := Then(tr, s, ThreadStep(0, Invoke(DoSetTimeout(ms))));
    tr', s' := Then(tr', s', ThreadStep(0, Tau));
    tr', s' := Then(tr', s', ThreadStep(0, Tau));
  }

  /** The current connection, if any, is one of those dialled. */
  predicate Dialled(g: Globals) { g.core.conn.Some? ==> g.core.conn.value < |g.net.conns| }

  /** The connections once another one has been published over the current one. */
  function Shelved(g: Globals): (conns: seq<Conn>)
    requires Dialled(g)
    ensures |conns| == |g.net.conns|
  {
    if g.core.conn.None? then g.net.conns
    else g.net.conns[g.core.conn.value := g.net.conns[g.core.conn.value].(loc := Lost)]
  }

  /** The history once a connect has taken the lock, and once it has published. */
  function Started(g: Globals): Life {
    g.life.(revived := g.life.revived || g.core.st.Destroyed?, overlapped := g.life.overlapped || g.core.conn.Some?)
  }

  function Succeeded(g: Globals): Life {
    Started(g).(leaks := g.life.leaks || g.core.conn.Some? || g.life.swapped)
  }

  /** connectExecute up to the dialled connection. */
  lemma Dials(tr: seq<Step>, s: Sys, t: Tid) returns (tr': seq<Step>, s': Sys)
    requires IsRun(tr) && Exec(tr) == s && t < |s.ts| && s.ts[t].pc == Connecting(Begin(false))
    requires LockFree(s.g) && Dialled(s.g)
    ensures IsRun(tr') && Exec(tr') == s' && s'.ts == s.ts[t := s.ts[t].(pc := Connecting(Publish(|s.g.net.conns|)))]
    ensures s'.g == s.g.(core := s.g.core.(st := Opening), lock := Lock(Some(t), s.g.core),
                         net := s.g.net.(conns := s.g.net.conns + [Conn(0, false, false, false, InFlight(t))]),
                         life := Started(s.g))
  {
    hide ScriptStep, LookupStep, SendStep, ReadStep, WriteStep, DestroyStep, TimeoutStep, ObserveStep, ReportStep,
      IsRun, Exec;
    tr', s' := Then(tr, s, ThreadStep(t, Tau));
    tr', s' := Then(tr', s', ThreadStep(t, Returned(true)));
    tr', s' := Then(tr', s', ThreadStep(t, Returned(true)));
  }

  /** connectExecute up to the published connection, lock still held. */
  lemma Publishes(tr: seq<Step>, s: Sys, t: Tid) returns (tr': seq<Step>, s': Sys)
    requires IsRun(tr) && Exec(tr) == s && t < |s.ts| && s.ts[t].pc == Connecting(Begin(false))
    requires LockFree(s.g) && Dialled(s.g)
    ensures IsRun(tr') && Exec(tr') == s' && s'.ts == s.ts[t := s.ts[t].(pc := Connecting(Arm(|s.g.net.conns|)))]
    ensures s'.g == s.g.(core := Core(Open, Some(|s.g.net.conns|), s.g.core.timeout, true),
                         lock := Lock(Some(t), s.g.core),
                         net := s.g.net.(conns := Shelved(s.g) + [Conn(0, false, false, false, Current)]),
                         life := Succeeded(s.g))
  {
    hide ScriptStep, LookupStep, SendStep, ReadStep, WriteStep, DestroyStep, TimeoutStep, ObserveStep, ReportStep,
      IsRun, Exec;
    tr', s' := Dials(tr, s, t);
    tr', s' := Then(tr', s', ThreadStep(t, Tau));
    assert s'.g.net.conns == Shelved(s.g) + [Conn(0, false, false, false, Current)];
  }

  /** connectExecute from publication to the release of the lock. */
  lemma Releases(tr: seq<Step>, s: Sys, t: Tid, c: ConnId) returns (tr': seq<Step>, s': Sys)
    requires IsRun(tr) && Exec(tr) == s && t < |s.ts| && s.ts[t].pc == Connecting(Arm(c)) && c < |s.g.net.conns|
    requires s.g.net.conns[c] == Conn(0, false, false, false, Current)
    ensures IsRun(tr') && Exec(tr') == s' && s'.ts == s.ts[t := s.ts[t].(pc := Firing(OnConnect, false))]
    ensures s'.g == s.g.(lock := s.g.lock.(holder := None),
                         net := SetConn(s.g.net, c, Conn(0, s.g.core.timeout > 0, false, true, Current)))
  {
    hide ScriptStep, LookupStep, SendStep, ReadStep, WriteStep, DestroyStep, TimeoutStep, ObserveStep, ReportStep,
      IsRun, Exec;
    tr', s' := Then(tr, s, ThreadStep(t, if s.g.core.timeout <= 0 then Tau else Returned(true)));
    tr', s' := Then(tr', s', ThreadStep(t, Tau));
  }

  /** The script starts a connect, which succeeds and gives the lock back. */
  lemma ConnectOk(tr: seq<Step>, s: Sys) returns (tr': seq<Step>, s': Sys)
    requires IsRun(tr) && Exec(tr) == s && |s.ts| > 0 && s.ts[0].pc.Script? && LockFree(s.g) && Dialled(s.g)
    ensures IsRun(tr') && Exec(tr') == s'
    ensures s'.ts == s.ts + [NewThread(ConnectRole, Firing(OnConnect, false), 0, false)]
    ensures s'.g == s.g.(core := Core(Open, Some(|s.g.net.conns|), s.g.core.timeout, true),
                         lock := Lock(None, s.g.core),
                         net := s.g.net.(conns := Shelved(s.g) + [Conn(0, s.g.core.timeout > 0, false, true, Current)]),
                         life := Succeeded(s.g))
  {
    hide ConnectStep, LookupStep, SendStep, ReadStep, WriteStep, DestroyStep, TimeoutStep, ObserveStep, ReportStep,
      IsRun, Exec;
    var t := |s.ts|;
    tr', s' := Then(tr, s, ThreadStep(0, Invoke(DoConnect(false))));
    tr', s' := Publishes(tr', s', t);
    assert s'.ts[t].pc == Connecting(Arm(|s.g.net.conns|));
    tr', s' := Releases(tr', s', t, |s.g.net.conns|);
    assert s'.g.net.conns == Shelved(s.g) + [Conn(0, s.g.core.timeout > 0, false, true, Current)];
  }

  /** Without a connect handler the connect goroutine goes on to start its reader. */
  lemma ReaderStarts(tr: seq<Step>, s: Sys, t: Tid) returns (tr': seq<Step>, s': Sys)
    requires IsRun(tr) && Exec(tr) == s && t < |s.ts| && s.ts[t].pc == Firing(OnConnect, false)
    requires Connect !in s.g.ev.handlers
    ensures IsRun(tr') && Exec(tr') == s'
    ensures s'.ts == s.ts[t := s.ts[t].(pc := Connecting(Count))] +
                     [NewThread(ReaderRole, Reading(Head), t, Data in s.g.ev.handlers)]
    ensures s'.g == s.g.(spawned := s.g.spawned + {t})
  {
    hide ReadStep, ScriptStep, SendStep, WriteStep, DestroyStep, TimeoutStep, ObserveStep, ReportStep, IsRun, Exec;
    tr', s' := Then(tr, s, ThreadStep(t, Tau));
    assert s'.g == s.g;
    tr', s' := Then(tr', s', ThreadStep(t, Tau));
  }

  /** A reader at the head of its loop finds the socket open and takes its snapshot. */
  lemma TakesSnapshot(tr: seq<Step>, s: Sys, t: Tid, c: ConnId) returns (tr': seq<Step>, s': Sys)
    requires IsRun(tr) && Exec(tr) == s && t < |s.ts| && s.ts[t].pc == Reading(Head)
    requires LockFree(s.g) && s.g.core.st.Open? && s.g.core.conn == Some(c)
    ensures IsRun(tr') && Exec(tr') == s' && s'.g == s.g
    ensures s'.ts == s.ts[t := s.ts[t].(pc := Reading(ArmRead(c, s.g.core.timeout)))]
  {
    hide ConnectStep, LookupStep, ScriptStep, SendStep, WriteStep, DestroyStep, TimeoutStep, ObserveStep, ReportStep,
      IsRun, Exec;
    tr', s' := Then(tr, s, ThreadStep(t, Tau));
    tr', s' := Then(tr', s', ThreadStep(t, Tau));
  }

  // ---------------------------------------------------------------- the runs

  /** A connect after destroy reopens the socket, with the teardown already spent. */
  lemma ReopensAfterDestroy() returns (tr: seq<Step>, s: Sys)
    ensures IsRun(tr) && Exec(tr) == s
    ensures s.g.once.Done? && LockFree(s.g) && s.g.core.st.Open? && s.g.core.conn == Some(0) && |s.g.net.conns| == 1
    ensures s.g.net.conns[0].closes == 0
  {
    hide ConnectStep, LookupStep, SendStep, ReadStep, DestroyStep, WriteStep, ScriptStep, TimeoutStep, ObserveStep,
      ReportStep, IsRun, Exec;
    Starts();
    tr, s := Destroy([], Init());
    tr, s := ConnectOk(tr, s);
  }

  /** When SetReadDeadline fails in dial, the state is `disconnected` with the connection still set. */
  lemma DisconnectedWithConnection() returns (tr: seq<Step>, s: Sys)
    ensures IsRun(tr) && Exec(tr) == s
    ensures LockFree(s.g) && s.g.core.st.Disconnected? && s.g.core.conn == Some(0)
    ensures |s.g.net.conns| == 1 && s.g.net.conns[0].closes == 0
  {
    hide LookupStep, SendStep, ReadStep, DestroyStep, WriteStep, TimeoutStep, ObserveStep, ReportStep, IsRun, Exec;
    Starts();
    tr, s := SetTimeout([], Init(), 1000);
    tr, s := Then(tr, s, ThreadStep(0, Invoke(DoConnect(false))));
    tr, s := Publishes(tr, s, 1);
    tr, s := Then(tr, s, ThreadStep(1, Returned(false)));
    tr, s := Then(tr, s, ThreadStep(1, Tau));
  }

  /**
   * setTimeout(0) between the reader's snapshot and its SetReadDeadline: the timeout is disabled, the
   * deadline is armed all the same, and the next Read that times out makes the reader fire `timeout`.
   */
  lemma TimesOutWhenDisabled() returns (tr: seq<Step>, s: Sys)
    ensures IsRun(tr) && Exec(tr) == s
    ensures LockFree(s.g) && s.g.core.timeout == 0 && s.g.core.st.Open? && !s.g.net.armFailed
    ensures |s.ts| == 3 && s.ts[2].pc == Firing(OnTimeout(false), false)
  {
    hide ConnectStep, LookupStep, SendStep, ReadStep, DestroyStep, WriteStep, ScriptStep, TimeoutStep, ObserveStep,
      ReportStep, IsRun, Exec;
    Starts();
    tr, s := SetTimeout([], Init(), 1000);
    tr, s := ConnectOk(tr, s);
    tr, s := ReaderStarts(tr, s, 1);
    tr, s := TakesSnapshot(tr, s, 2, 0);
    tr, s := ClearTimeout(tr, s, 0);
    tr, s := ArmsAnyway(tr, s, 2, 0);
  }

  /** The reader arms the deadline from its snapshot; its Read then times out. */
  lemma ArmsAnyway(tr: seq<Step>, s: Sys, t: Tid, c: ConnId) returns (tr': seq<Step>, s': Sys)
    requires IsRun(tr) && Exec(tr) == s && t < |s.ts| && LockFree(s.g) && s.g.core.st.Open? && c < |s.g.net.conns|
    requires s.ts[t].pc.Reading? && s.ts[t].pc.r.ArmRead? && s.ts[t].pc.r.c == c && s.ts[t].pc.r.to > 0
    requires s.g.net.conns[c].closes == 0
    ensures IsRun(tr') && Exec(tr') == s' && |s'.ts| == |s.ts| && s'.ts[t].pc == Firing(OnTimeout(false), false)
    ensures s'.g.core == s.g.core && s'.g.lock == s.g.lock && s'.g.net.armFailed == s.g.net.armFailed
  {
    hide ConnectStep, LookupStep, SendStep, DestroyStep, WriteStep, ScriptStep, TimeoutStep, ObserveStep, ReportStep,
      IsRun, Exec;
    tr', s' := Then(tr, s, ThreadStep(t, Returned(true)));
    tr', s' := Then(tr', s', ThreadStep(t, ReadReturned([], TimedOut)));
    tr', s' := Then(tr', s', ThreadStep(t, Tau));
  }

  /** setTimeout(0) on an open socket. */
  lemma ClearTimeout(tr: seq<Step>, s: Sys, c: ConnId) returns (tr': seq<Step>, s': Sys)
    requires IsRun(tr) && Exec(tr) == s && |s.ts| > 0 && s.ts[0].pc.Script? && LockFree(s.g)
    requires s.g.core.conn == Some(c) && c < |s.g.net.conns|
    ensures IsRun(tr') && Exec(tr') == s' && s'.ts == s.ts
    ensures s'.g == s.g.(core := s.g.core.(timeout := 0), lock := Lock(None, s.g.core),
                         net := SetConn(s.g.net, c, s.g.net.conns[c].(deadline := false, stale := false)))
  {
    hide ConnectStep, LookupStep, SendStep, ReadStep, WriteStep, DestroyStep, ObserveStep, ReportStep, IsRun, Exec;
    tr', s' := Then(tr, s, ThreadStep(0, Invoke(DoSetTimeout(0))));
    tr', s' := Then(tr', s', ThreadStep(0, Tau));
    tr', s' := Then(tr', s', ThreadStep(0, Returned(true)));
    tr', s' := Then(tr', s', ThreadStep(0, Tau));
  }

  /** A read failing because destroy closed its connection is reported once another connect has reopened the socket. */
  lemma ReportsTeardownWhenReopened() returns (tr: seq<Step>, s: Sys)
    ensures IsRun(tr) && Exec(tr) == s
    ensures s.g.reports.errors == 1 && s.g.reports.dead == 1
    ensures |s.ts| == 4 && s.ts[2].pc == Firing(OnError(FromRead(true)), false)
  {
    hide ConnectStep, LookupStep, SendStep, DestroyStep, WriteStep, ScriptStep, TimeoutStep, ObserveStep, IsRun, Exec;
    tr, s := ReaderWaits();
    tr, s := TakeDown(tr, s, 0);
    tr, s := FinishDestroy(tr, s);
    tr, s := ConnectOk(tr, s);
    assert s.ts[2].pc == Reading(CallRead(0)) && s.g.net.conns[0].closes == 1;
    tr, s := Then(tr, s, ThreadStep(2, ReadReturned([], Fatal)));
    tr, s := Then(tr, s, ThreadStep(2, Tau));
    tr, s := Then(tr, s, ThreadStep(2, Tau));
  }

  /** An open socket whose reader is inside Read. */
  lemma ReaderWaits() returns (tr: seq<Step>, s: Sys)
    ensures IsRun(tr) && Exec(tr) == s && |s.ts| == 3 && s.ts[0] == Init().ts[0] && s.ts[2].pc == Reading(CallRead(0))
    ensures s.g == Init().g.(core := Core(Open, Some(0), 0, true),
                         net := Net([Conn(0, false, false, true, Current)], false),
                             spawned := {1})
  {
    hide ConnectStep, LookupStep, SendStep, DestroyStep, WriteStep, ScriptStep, TimeoutStep, ObserveStep, ReportStep,
      IsRun, Exec;
    Starts();
    tr, s := ConnectOk([], Init());
    tr, s := ReaderStarts(tr, s, 1);
    tr, s := TakesSnapshot(tr, s, 2, 0);
    tr, s := Then(tr, s, ThreadStep(2, Tau));
  }

  /** The rest of destroy() once the connection is closed, without a close handler. */
  lemma FinishDestroy(tr: seq<Step>, s: Sys) returns (tr': seq<Step>, s': Sys)
    requires IsRun(tr) && Exec(tr) == s && |s.ts| > 0 && s.ts[0].pc == Destroying(ToScript, PushDuration)
    requires !s.g.vuDone && Close !in s.g.ev.handlers
    ensures IsRun(tr') && Exec(tr') == s' && s'.ts == s.ts[0 := s.ts[0].(pc := Script)]
    ensures s'.g == s.g.(once := Done, cancelled := true, durations := s.g.durations + 1,
                     ev := s.g.ev.(closeSkipped := true))
  {
    hide ConnectStep, LookupStep, SendStep, ReadStep, WriteStep, ScriptStep, TimeoutStep, ObserveStep, ReportStep,
      IsRun, Exec;
    tr', s' := Then(tr, s, ThreadStep(0, Tau));
    tr', s' := EndDestroy(tr', s');
  }

  /** After destroy the loop has exited; a failing write leaves the script itself waiting to send `error`. */
  lemma ScriptIsOrphaned() returns (tr: seq<Step>, s: Sys)
    ensures IsRun(tr) && Exec(tr) == s
    ensures s.g.once.Done? && s.g.loop.Exited? && !s.g.vuDone
    ensures |s.ts| == 1 && s.ts[0].pc == Firing(OnError(FromPrepare), true)
  {
    hide ConnectStep, SendStep, ReadStep, DestroyStep, WriteStep, TimeoutStep, ObserveStep, IsRun, Exec;
    Starts();
    tr, s := Then([], Init(), ThreadStep(0, Invoke(DoOn(Error))));
    tr, s := Destroy(tr, s);
    tr, s := Then(tr, s, EnvStep(LoopExits));
    tr, s := Then(tr, s, ThreadStep(0, Invoke(DoBadWrite)));
    tr, s := Then(tr, s, ThreadStep(0, Tau));
    tr, s := Then(tr, s, ThreadStep(0, Tau));
  }

  /** An explicit destroy() overtakes the connect goroutine: `close` is accepted before `connect`. */
  lemma CloseBeforeConnect() returns (tr: seq<Step>, s: Sys)
    ensures IsRun(tr) && Exec(tr) == s
    ensures s.g.ev.accepted == [Task(0, 0, OnClose(ToScript)), Task(1, 0, OnConnect)]
  {
    hide ConnectStep, ReadStep, DestroyStep, WriteStep, ScriptStep, TimeoutStep, ObserveStep, ReportStep, IsRun, Exec;
    tr, s := BothHandlers();
    tr, s := ConnectOk(tr, s);
    tr, s := Then(tr, s, ThreadStep(1, Tau));
    assert s.ts[1].pc == Firing(OnConnect, true);
    tr, s := TakeDown(tr, s, 0);
    tr, s := SendClose(tr, s);
    tr, s := Then(tr, s, EnvStep(LoopQueues));
    tr, s := Then(tr, s, ThreadStep(1, HandOff));
  }

  lemma BothHandlers() returns (tr: seq<Step>, s: Sys)
    ensures IsRun(tr) && Exec(tr) == s && s.ts == Init().ts
    ensures s.g == Init().g.(ev := Init().g.ev.(handlers := {Connect, Close}))
  {
    hide ConnectStep, LookupStep, SendStep, ReadStep, DestroyStep, WriteStep, TimeoutStep, ObserveStep, ReportStep,
      IsRun, Exec;
    Starts();
    tr, s := Then([], Init(), ThreadStep(0, Invoke(DoOn(Connect))));
    tr, s := Then(tr, s, ThreadStep(0, Invoke(DoOn(Close))));
  }

  lemma SendClose(tr: seq<Step>, s: Sys) returns (tr': seq<Step>, s': Sys)
    requires IsRun(tr) && Exec(tr) == s && |s.ts| > 0 && s.ts[0].pc == Destroying(ToScript, PushDuration)
    requires s.ts[0].parent == 0 && s.g.loop.Select? && !s.g.vuDone && Close in s.g.ev.handlers
    ensures IsRun(tr') && Exec(tr') == s' && |s'.ts| == |s.ts| && forall t :: 0 < t < |s.ts| ==> s'.ts[t] == s.ts[t]
    ensures var task := Task(0, 0, OnClose(ToScript));
            s'.g == s.g.(durations := s.g.durations + 1, loop := Holding(task),
                         ev := s.g.ev.(accepted := s.g.ev.accepted + [task]))
  {
    hide ConnectStep, ReadStep, WriteStep, ScriptStep, TimeoutStep, ObserveStep, ReportStep, IsRun, Exec;
    tr', s' := Then(tr, s, ThreadStep(0, Tau));
    tr', s' := Then(tr', s', ThreadStep(0, Tau));
    tr', s' := Then(tr', s', ThreadStep(0, HandOff));
  }

  /** The script starts a connect, whose resolution fails: its lock section leaves `disconnected` behind. */
  lemma ConnectFails(tr: seq<Step>, s: Sys) returns (tr': seq<Step>, s': Sys)
    requires IsRun(tr) && Exec(tr) == s && |s.ts| > 0 && s.ts[0].pc.Script? && LockFree(s.g)
    ensures IsRun(tr') && Exec(tr') == s'
    ensures s'.ts == s.ts + [NewThread(ConnectRole, Reporting(FromConnect), 0, false)]
    ensures s'.g == s.g.(core := s.g.core.(st := Disconnected), lock := Lock(None, s.g.core),
                         life := Started(s.g).(failedConnects := s.g.life.failedConnects + 1))
  {
    hide LookupStep, SendStep, ReadStep, WriteStep, DestroyStep, TimeoutStep, ObserveStep, ReportStep, IsRun, Exec;
    var t := |s.ts|;
    tr', s' := Then(tr, s, ThreadStep(0, Invoke(DoConnect(false))));
    tr', s' := Then(tr', s', ThreadStep(t, Tau));
    tr', s' := Then(tr', s', ThreadStep(t, Returned(false)));
    tr', s' := Then(tr', s', ThreadStep(t, Tau));
  }

  /** A connect that fails while a connection is set leaves the socket `disconnected` with that connection. */
  lemma DisconnectedByFailedReconnect() returns (tr: seq<Step>, s: Sys)
    ensures IsRun(tr) && Exec(tr) == s && LockFree(s.g) && !s.g.net.armFailed
    ensures s.g.core.st.Disconnected? && s.g.core.conn == Some(0)
    ensures |s.g.net.conns| == 1 && s.g.net.conns[0].closes == 0
    ensures |s.ts| == 4 && s.ts[2].pc == Reading(Head)
    ensures s.g.once.Fresh? && s.g.log.destroys == 0 && s.g.rx.endings == 0
  {
    hide ConnectStep, LookupStep, SendStep, ReadStep, DestroyStep, WriteStep, ScriptStep, TimeoutStep, ObserveStep,
      ReportStep, IsRun, Exec;
    Starts();
    tr, s := ConnectOk([], Init());
    tr, s := ReaderStarts(tr, s, 1);
    tr, s := ConnectFails(tr, s);
  }

  /**
   * The reader of the earlier connection then destroys the socket, although destroy() was never called
   * and no read ended the stream.
   */
  lemma DestroyedByFailedReconnect() returns (tr: seq<Step>, s: Sys)
    ensures IsRun(tr) && Exec(tr) == s
    ensures s.g.core.st.Destroyed? && s.g.log.destroys == 0 && s.g.rx.endings == 0
  {
    hide ConnectStep, LookupStep, SendStep, WriteStep, ScriptStep, TimeoutStep, ObserveStep, ReportStep, IsRun, Exec;
    tr, s := DisconnectedByFailedReconnect();
    tr, s := Then(tr, s, ThreadStep(2, Tau));
    tr, s := Then(tr, s, ThreadStep(2, Tau));
    tr, s := Then(tr, s, ThreadStep(2, Tau));
  }

  /** A Read of `chunk` by a reader at its call. */
  lemma ReadsInto(tr: seq<Step>, s: Sys, t: Tid, chunk: seq<byte>) returns (tr': seq<Step>, s': Sys)
    requires IsRun(tr) && Exec(tr) == s && t < |s.ts| && s.ts[t].pc.Reading? && s.ts[t].pc.r.ArmRead?
    requires s.ts[t].pc.r.to == 0 && s.ts[t].pc.r.c < |s.g.net.conns| && s.g.net.conns[s.ts[t].pc.r.c].closes == 0
    requires 0 < |chunk| <= READ_BUFFER_SIZE
    ensures IsRun(tr') && Exec(tr') == s'
    ensures s'.ts == s.ts[t := s.ts[t].(pc := Reading(PushRead(chunk, NoErr, false)),
                chunks := s.ts[t].chunks + [chunk])]
    ensures s'.g == s.g.(mem := s.g.mem.(readBuf := Overwrite(s.g.mem.readBuf, chunk)))
  {
    hide ConnectStep, LookupStep, SendStep, DestroyStep, WriteStep, ScriptStep, TimeoutStep, ObserveStep, ReportStep,
      IsRun, Exec, Overwrite;
    tr', s' := Then(tr, s, ThreadStep(t, Tau));
    tr', s' := Then(tr', s', ThreadStep(t, ReadReturned(chunk, NoErr)));
  }

  /** A reader counts its chunk, copies the front of the buffer into a new pooled one and hands it over. */
  lemma HandsOver(tr: seq<Step>, s: Sys, t: Tid, chunk: seq<byte>) returns (tr': seq<Step>, s': Sys)
    requires IsRun(tr) && Exec(tr) == s && t < |s.ts| && s.ts[t].pc == Reading(PushRead(chunk, NoErr, false))
    requires |chunk| <= |s.g.mem.readBuf| && Data in s.g.ev.handlers && s.g.loop.Select? && s.g.ev.accepted == []
    ensures IsRun(tr') && Exec(tr') == s' && |s'.ts| == |s.ts| && s'.ts[t].chunks == s.ts[t].chunks
    ensures s'.g.ev.accepted ==
              [Task(t, s.ts[t].parent, OnData(|s.g.mem.bufs|, chunk, s.g.mem.readBuf[..|chunk|], NoErr, false))]
  {
    hide ConnectStep, LookupStep, SendStep, DestroyStep, WriteStep, ScriptStep, TimeoutStep, ObserveStep, ReportStep,
      IsRun, Exec;
    tr', s' := Then(tr, s, ThreadStep(t, Tau));
    tr', s' := Then(tr', s', ThreadStep(t, Tau));
    tr', s' := Then(tr', s', ThreadStep(t, GotBuffer(|s.g.mem.bufs|)));
    tr', s' := Sends(tr', s', t);
  }

  /** A thread about to fire a handled event hands its call to the waiting loop. */
  lemma Sends(tr: seq<Step>, s: Sys, t: Tid) returns (tr': seq<Step>, s': Sys)
    requires IsRun(tr) && Exec(tr) == s && t < |s.ts| && s.ts[t].pc.Firing? && !s.ts[t].pc.sending
    requires EventOf(s.ts[t].pc.call) in s.g.ev.handlers && s.g.loop.Select?
    ensures IsRun(tr') && Exec(tr') == s' && |s'.ts| == |s.ts| && s'.ts[t].chunks == s.ts[t].chunks
    ensures s'.g.ev.accepted == s.g.ev.accepted + [Task(t, s.ts[t].parent, s.ts[t].pc.call)]
  {
    hide ConnectStep, ReadStep, DestroyStep, WriteStep, ScriptStep, TimeoutStep, ObserveStep, ReportStep, IsRun, Exec;
    tr', s' := Then(tr, s, ThreadStep(t, Tau));
    tr', s' := Then(tr', s', ThreadStep(t, HandOff));
  }

  /** Two connects give two readers and one buffer: the second Read replaces what the first had not copied. */
  lemma PayloadIsOverwritten() returns (tr: seq<Step>, s: Sys)
    ensures IsRun(tr) && Exec(tr) == s
    ensures s.g.ev.accepted == [Task(2, 1, OnData(0, [1], [2], NoErr, false))]
    ensures |s.ts| == 5 && s.ts[2].chunks == [[1]]
  {
    hide ConnectStep, LookupStep, SendStep, ReadStep, DestroyStep, WriteStep, TimeoutStep, ObserveStep, ReportStep,
      IsRun, Exec;
    Starts();
    tr, s := Then([], Init(), ThreadStep(0, Invoke(DoOn(Data))));
    tr, s := ConnectOk(tr, s);
    tr, s := ReaderStarts(tr, s, 1);
    tr, s := TakesSnapshot(tr, s, 2, 0);
    tr, s := ReadsInto(tr, s, 2, [1]);
    tr, s := ConnectOk(tr, s);
    tr, s := ReaderStarts(tr, s, 3);
    tr, s := TakesSnapshot(tr, s, 4, 1);
    tr, s := ReadsInto(tr, s, 4, [2]);
    assert s.ts[2].pc == Reading(PushRead([1], NoErr, false)) && s.ts[2].chunks == [[1]];
    assert s.g.mem.readBuf[..1] == [2];
    tr, s := HandsOver(tr, s, 2, [1]);
  }
}
