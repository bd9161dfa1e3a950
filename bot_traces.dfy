/**
 * Runs of the server: any interleaving of operator requests, session events, timer firings and
 * reconnects, applied one at a time (each handler is atomic). The lemmas here are about every
 * run: what every reachable state satisfies, that the logs only grow, and how the recurring job
 * behaves over many ticks.
 */
module BotTraces {
  import opened Options
  import opened BotSpec

  /** One thing that can happen to the server. */
  datatype Op =
    | OpConnect
    | OpDisconnect(logoutResolves: bool)
    | OpListGroups(chats: seq<Group>)
    | OpSelectGroup(id: Option<string>)
    | OpSend(message: string)
    | OpStart(message: string, minutes: Option<int>)
    | OpStop
    | OpTick(handle: nat)
    | OpUpdate(update: Update)
    | OpFireReconnect

  /** The logs of `r` extend those of `s` and no counter went down. */
  predicate Extends(s: State, r: State) {
    && s.sent <= r.sent
    && s.signals <= r.signals
    && s.configWrites <= r.configWrites
    && s.snapshots <= r.snapshots
    && s.logouts <= r.logouts
    && s.sessionsOpened <= r.sessionsOpened
  }

  /** The state after one operation. Every operation keeps the invariant and only appends to the logs. */
  function Apply(s: State, op: Op): (r: State)
    ensures Inv(s) ==> Inv(r)
    ensures Extends(s, r)
  {
    match op
    case OpConnect => Connect(s).next
    case OpDisconnect(ok) => Disconnect(s, ok).next
    case OpListGroups(_) => s
    case OpSelectGroup(id) => SelectGroup(s, id).next
    case OpSend(message) => Send(s, message).next
    case OpStart(message, minutes) => StartSignals(s, message, minutes).next
    case OpStop => StopSignals(s)
    case OpTick(h) => Tick(s, h)
    case OpUpdate(u) => HandleUpdate(s, u)
    case OpFireReconnect => FireReconnect(s)
  }

  /** The state after a sequence of operations, first to last. */
  function Run(s: State, ops: seq<Op>): State
    decreases |ops|
  {
    if ops == [] then s else Run(Apply(s, ops[0]), ops[1..])
  }

  /** Running two sequences one after the other is running their concatenation. */
  lemma {:induction false} RunConcat(s: State, a: seq<Op>, b: seq<Op>)
    ensures Run(s, a + b) == Run(Run(s, a), b)
    decreases |a|
  {
    if a != [] {
      assert (a + b)[0] == a[0] && (a + b)[1..] == a[1..] + b;
      RunConcat(Apply(s, a[0]), a[1..], b);
    } else {
      assert a + b == b;
    }
  }

  /** `n` copies of `x`. */
  function Repeat<T>(x: T, n: nat): (r: seq<T>)
    ensures |r| == n
    ensures forall i :: 0 <= i < n ==> r[i] == x
  {
    if n == 0 then [] else [x] + Repeat(x, n - 1)
  }

  /** Every run keeps the invariant. */
  lemma {:induction false} RunPreservesInv(s: State, ops: seq<Op>)
    requires Inv(s)
    ensures Inv(Run(s, ops))
    decreases |ops|
  {
    if ops != [] {
      RunPreservesInv(Apply(s, ops[0]), ops[1..]);
    }
  }

  /**
   * Every state reachable from start-up satisfies the invariant; in particular at most one
   * interval is ever live, it is the one the server holds, and it exists only while a socket does.
   */
  lemma ReachableStatesSatisfyInv(ops: seq<Op>)
    ensures Inv(Run(Initial(), ops))
    ensures var r := Run(Initial(), ops);
      && |r.timers| <= 1
      && (r.signalInterval.None? ==> r.timers == map[])
      && (r.signalInterval.Some? ==> r.hasSocket && ActiveJob(r).Some? && r.timers.Keys == {r.signalInterval.value})
  {
    RunPreservesInv(Initial(), ops);
    var r := Run(Initial(), ops);
    assert |r.timers| == |r.timers.Keys|;
    if r.signalInterval.None? {
      assert r.timers.Keys == {};
    }
  }

  /** Records are never changed or removed: every run only appends to the logs. */
  lemma {:induction false} RunOnlyAppends(s: State, ops: seq<Op>)
    ensures Extends(s, Run(s, ops))
    decreases |ops|
  {
    if ops != [] {
      var t := Apply(s, ops[0]);
      RunOnlyAppends(t, ops[1..]);
      assert Extends(s, t);
    }
  }

  /** With no live interval, no number of ticks changes anything. */
  lemma {:induction false} TicksWithoutTimersAreSilent(s: State, ops: seq<Op>)
    requires s.timers.Keys == {}
    requires forall i :: 0 <= i < |ops| ==> ops[i].OpTick?
    ensures Run(s, ops) == s
    decreases |ops|
  {
    if ops != [] {
      assert ops[0].handle !in s.timers;
      TicksWithoutTimersAreSilent(s, ops[1..]);
    }
  }

  /** After a stop, no tick of any interval sends anything or stores anything. */
  lemma TicksAfterStopAreSilent(s: State, ops: seq<Op>)
    requires Inv(s)
    requires forall i :: 0 <= i < |ops| ==> ops[i].OpTick?
    ensures Run(StopSignals(s), ops) == StopSignals(s)
  {
    TicksWithoutTimersAreSilent(StopSignals(s), ops);
  }

  /**
   * `n` firings of a live interval send the message it captured `n` times, to the group as it
   * is now, and store `n` automatic signals; nothing else changes.
   */
  lemma {:induction false} TicksRepeatCapturedMessage(s: State, h: nat, n: nat)
    requires s.hasSocket && h in s.timers
    ensures Run(s, Repeat(OpTick(h), n)) ==
      s.(sent := s.sent + Repeat(Delivery(s.groupId, s.timers[h].message), n),
         signals := s.signals + Repeat(Signal(s.timers[h].message, Automatica), n))
    decreases n
  {
    var d := Delivery(s.groupId, s.timers[h].message);
    var g := Signal(s.timers[h].message, Automatica);
    if n == 0 {
      assert s.sent + [] == s.sent && s.signals + [] == s.signals;
    } else {
      var ops := Repeat(OpTick(h), n);
      assert ops[0] == OpTick(h) && ops[1..] == Repeat(OpTick(h), n - 1);
      var t := Tick(s, h);
      TicksRepeatCapturedMessage(t, h, n - 1);
      assert t.sent + Repeat(d, n - 1) == s.sent + Repeat(d, n) by {
        assert t.sent == s.sent + [d];
      }
      assert t.signals + Repeat(g, n - 1) == s.signals + Repeat(g, n) by {
        assert t.signals == s.signals + [g];
      }
    }
  }

  /**
   * Starting twice leaves exactly one live interval, the second one, holding the second
   * message; the first can no longer fire.
   */
  lemma StartTwiceKeepsOneTimer(s: State, m1: string, p1: Option<int>, m2: string, p2: Option<int>)
    requires Inv(s) && Ready(s) && Truthy(s.groupId)
    ensures var first := StartSignals(s, m1, p1);
      var second := StartSignals(first.next, m2, p2);
      && first.outcome == Ok && second.outcome == Ok
      && second.next.timers == map[s.nextTimer + 1 := Job(m2, PeriodMs(p2))]
      && second.next.signalInterval == Some(s.nextTimer + 1)
      && Tick(second.next, s.nextTimer) == second.next
  {
  }

  /**
   * Unlike a disconnect, a close event leaves both the socket handle and the recurring job in
   * place: the next tick still hands its message to the session.
   */
  lemma CloseKeepsRecurringJob(s: State, code: Option<int>, h: nat)
    requires s.hasSocket && h in s.timers
    ensures var closed := HandleUpdate(s, Update(Close(code), None));
      && closed.status == Desconectado && closed.hasSocket && closed.timers == s.timers
      && Tick(closed, h).sent == s.sent + [Delivery(s.groupId, s.timers[h].message)]
  {
  }

  /**
   * Connect, open event, select "G1", send "hi": the bot is connected, one status snapshot was
   * written, and exactly one message and one manual signal with "hi" went out, to "G1".
   */
  lemma ManualSendScenario()
    ensures var r := Run(Initial(), [OpConnect, OpUpdate(Update(Open, None)), OpSelectGroup(Some("G1")), OpSend("hi")]);
      && r.status == Conectado && r.snapshots == 1 && r.sessionsOpened == 1
      && r.sent == [Delivery(Some("G1"), "hi")]
      && r.signals == [Signal("hi", Manual)]
  {
  }

  /**
   * With a ready bot and a group set: start "ping" every minute, two ticks, stop, one more
   * tick. Exactly two messages and two automatic signals with "ping" go out, and no interval
   * is left.
   */
  lemma RecurringScenario(s: State)
    requires Inv(s) && Ready(s) && Truthy(s.groupId)
    ensures var h := s.nextTimer;
      var r := Run(s, [OpStart("ping", Some(1)), OpTick(h), OpTick(h), OpStop, OpTick(h)]);
      && r.sent == s.sent + [Delivery(s.groupId, "ping"), Delivery(s.groupId, "ping")]
      && r.signals == s.signals + [Signal("ping", Automatica), Signal("ping", Automatica)]
      && r.timers == map[] && r.signalInterval.None?
  {
    var h := s.nextTimer;
    var ops := [OpStart("ping", Some(1)), OpTick(h), OpTick(h), OpStop, OpTick(h)];
    var ticks := Repeat(OpTick(h), 2);
    assert ops == [ops[0]] + (ticks + ops[3..]);
    RunConcat(s, [ops[0]], ticks + ops[3..]);
    RunSingle(s, ops[0]);
    var started := Apply(s, ops[0]);
    RunConcat(started, ticks, ops[3..]);
    TicksRepeatCapturedMessage(started, h, 2);
    var ticked := Run(started, ticks);
    var d := Delivery(s.groupId, "ping");
    var g := Signal("ping", Automatica);
    assert started.timers[h].message == "ping";
    assert Repeat(d, 2) == [d, d] && Repeat(g, 2) == [g, g];
    assert ticked.sent == s.sent + [d, d] && ticked.signals == s.signals + [g, g];
    RunPreservesInv(started, ticks);
    StoppedThenTicked(ticked, h);
    assert Run(s, ops) == StopSignals(ticked);
  }

  /** Running one operation is applying it. */
  lemma RunSingle(s: State, op: Op)
    ensures Run(s, [op]) == Apply(s, op)
  {
  }

  /** The tail of the recurring scenario: a stop, then one more tick, which does nothing. */
  lemma StoppedThenTicked(s: State, h: nat)
    requires Inv(s)
    ensures Run(s, [OpStop, OpTick(h)]) == StopSignals(s)
    ensures StopSignals(s).timers == map[]
  {
    assert [OpStop, OpTick(h)][1..] == [OpTick(h)];
    TicksAfterStopAreSilent(s, [OpTick(h)]);
    assert StopSignals(s).timers.Keys == {};
  }

  /**
   * A close event reporting a logout schedules nothing, so a later reconnect firing opens no
   * session; any other close schedules exactly one reconnect, which opens exactly one session.
   */
  lemma CloseReconnectScenario(s: State, code: Option<int>)
    requires s.pendingReconnects == 0
    ensures var r := Run(s, [OpUpdate(Update(Close(code), None)), OpFireReconnect]);
      && r.status == Desconectado && r.pendingReconnects == 0
      && r.sessionsOpened == s.sessionsOpened + (if code == Some(LoggedOut) then 0 else 1)
  {
    var ops := [OpUpdate(Update(Close(code), None)), OpFireReconnect];
    var s1 := Apply(s, ops[0]);
    var s2 := Apply(s1, ops[1]);
    assert Run(s2, ops[2..]) == s2;
    assert Run(s1, ops[1..]) == s2;
  }
}
