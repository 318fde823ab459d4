/**
 * The whole server: every open connection's closure and the one usage file
 * they all share. Connections open and take turns in any order, one event at
 * a time, and the daily budget is proved for all of them together.
 */
module Sessions {
  import opened Ledger
  import opened Turn

  /** One connection's own state: its closure (`turn`, `history`) and what it has emitted. */
  datatype Session = Session(turn: nat, history: seq<Message>, outbox: seq<Event>)

  /** Every connection opened so far, in order of opening, and the shared usage file. */
  datatype Server = Server(sessions: seq<Session>, stored: Option<UsageRecord>)

  /** What can happen next: a viewer connects, or a connection's `start`/`next` fires. */
  datatype ServerEvent =
    | Connect(today: Date)
    | Trigger(on: nat, call: Call)

  /** The number of replies recorded over all connections. */
  function TotalReplies(sessions: seq<Session>): nat
    decreases |sessions|
  {
    if sessions == [] then 0
    else TotalReplies(sessions[..|sessions| - 1]) + |sessions[|sessions| - 1].history|
  }

  /**
   * One event. A connection opens as `Opened` and adds its session; a
   * trigger runs `Step` on its connection against the shared file. Only an
   * open connection can fire a trigger, so one naming no connection changes nothing.
   */
  function Serve(srv: Server, e: ServerEvent): Server
  {
    match e
    case Connect(today) =>
      var o := Opened(srv.stored, today);
      Server(srv.sessions + [Session(o.turn, o.history, o.outbox)], srv.stored)
    case Trigger(on, call) =>
      if on < |srv.sessions| then
        var x := srv.sessions[on];
        var r := Step(State(x.turn, x.history, x.outbox, srv.stored), call);
        Server(srv.sessions[on := Session(r.turn, r.history, r.outbox)], r.stored)
      else srv
  }

  /** Events served one after another, in the order they happen. */
  function ServeAll(srv: Server, events: seq<ServerEvent>): Server
    decreases |events|
  {
    if events == [] then srv else ServeAll(Serve(srv, events[0]), events[1..])
  }

  /** Every connection keeps the connection invariant. */
  ghost predicate AllCoherent(sessions: seq<Session>) {
    forall i :: 0 <= i < |sessions| ==> Coherent(sessions[i].turn, sessions[i].history, sessions[i].outbox)
  }

  /** Replacing one connection's session changes the total by the difference in its replies. */
  lemma {:induction false} TotalRepliesUpdate(sessions: seq<Session>, i: nat, x: Session)
    requires i < |sessions|
    ensures TotalReplies(sessions[i := x]) == TotalReplies(sessions) - |sessions[i].history| + |x.history|
    decreases |sessions|
  {
    var n := |sessions| - 1;
    var updated := sessions[i := x];
    if i == n {
      assert updated[..n] == sessions[..n];
    } else {
      assert updated[..n] == sessions[..n][i := x];
      TotalRepliesUpdate(sessions[..n], i, x);
    }
  }

  /** A new connection adds no replies. */
  lemma TotalRepliesConnect(sessions: seq<Session>, x: Session)
    requires x.history == []
    ensures TotalReplies(sessions + [x]) == TotalReplies(sessions)
  {
    assert (sessions + [x])[..|sessions|] == sessions;
  }

  /** The stored count never exceeds `DAILY_LIMIT`, whatever the connections do and in whatever order. */
  lemma {:induction false} ServeKeepsCap(srv: Server, events: seq<ServerEvent>)
    requires Capped(srv.stored)
    ensures Capped(ServeAll(srv, events).stored)
    decreases |events|
  {
    if events != [] {
      var e := events[0];
      if e.Trigger? && e.on < |srv.sessions| {
        var x := srv.sessions[e.on];
        StepKeepsCap(State(x.turn, x.history, x.outbox, srv.stored), e.call);
      }
      ServeKeepsCap(Serve(srv, events[0]), events[1..]);
    }
  }

  /** A trigger touches only its own connection: every other connection's session is kept as it was. */
  lemma TriggerKeepsOtherSessions(srv: Server, on: nat, call: Call, i: nat)
    requires i < |srv.sessions| && i != on
    ensures Serve(srv, Trigger(on, call)).sessions[i] == srv.sessions[i]
  {
  }

  /** A new connection starts a session of its own and leaves the open ones as they were. */
  lemma ConnectKeepsSessions(srv: Server, today: Date)
    ensures var next := Serve(srv, Connect(today));
      |next.sessions| == |srv.sessions| + 1 && next.sessions[..|srv.sessions|] == srv.sessions &&
      next.sessions[|srv.sessions|].turn == 0 && next.sessions[|srv.sessions|].history == [] &&
      next.stored == srv.stored
  {
    assert (srv.sessions + [Session(0, [], [StatusNotice(ReadUsage(srv.stored, today).count)])])[..|srv.sessions|] == srv.sessions;
  }

  /** Every connection stays coherent, however the events of different connections interleave. */
  lemma {:induction false} ServeKeepsCoherent(srv: Server, events: seq<ServerEvent>)
    requires AllCoherent(srv.sessions)
    ensures AllCoherent(ServeAll(srv, events).sessions)
    decreases |events|
  {
    if events != [] {
      var e, next := events[0], Serve(srv, events[0]);
      if e.Connect? {
        OpenedIsCoherent(srv.stored, e.today);
      } else if e.on < |srv.sessions| {
        var x := srv.sessions[e.on];
        StepKeepsCoherent(State(x.turn, x.history, x.outbox, srv.stored), e.call);
      }
      ServeKeepsCoherent(next, events[1..]);
    }
  }

  /** A trigger fires on `day` and both of its ledger writes land; a connection may open on any day. */
  predicate LandsOn(e: ServerEvent, day: Date) {
    e.Trigger? ==> e.call.today == day && e.call.charge == Landed && e.call.rollback == Landed
  }

  predicate AllLandOn(events: seq<ServerEvent>, day: Date) {
    forall i :: 0 <= i < |events| ==> LandsOn(events[i], day)
  }

  /** One event on `day` with its writes landing charges the file exactly the replies it adds. */
  lemma ServeChargesEachReply(srv: Server, e: ServerEvent, day: Date)
    requires LandsOn(e, day)
    ensures var next := Serve(srv, e);
      TotalReplies(srv.sessions) <= TotalReplies(next.sessions) &&
      ReadUsage(next.stored, day).count == ReadUsage(srv.stored, day).count + (TotalReplies(next.sessions) - TotalReplies(srv.sessions))
  {
    match e
    case Connect(today) =>
      var o := Opened(srv.stored, today);
      TotalRepliesConnect(srv.sessions, Session(o.turn, o.history, o.outbox));
    case Trigger(on, call) =>
      if on < |srv.sessions| {
        var x := srv.sessions[on];
        var s := State(x.turn, x.history, x.outbox, srv.stored);
        assert SameDayAllLanded([call], day);
        RunChargesEachReply(s, [call], day);
        assert Run(s, [call]) == Step(s, call) by {
          assert [call][1..] == [];
        }
        var r := Step(s, call);
        TotalRepliesUpdate(srv.sessions, on, Session(r.turn, r.history, r.outbox));
      }
  }

  /**
   * On one day with every write landing, the shared file grows by exactly
   * the number of replies added over all connections together.
   */
  lemma {:induction false} ServeAllChargesEachReply(srv: Server, events: seq<ServerEvent>, day: Date)
    requires AllLandOn(events, day)
    ensures var last := ServeAll(srv, events);
      TotalReplies(srv.sessions) <= TotalReplies(last.sessions) &&
      ReadUsage(last.stored, day).count == ReadUsage(srv.stored, day).count + (TotalReplies(last.sessions) - TotalReplies(srv.sessions))
    decreases |events|
  {
    if events != [] {
      ServeChargesEachReply(srv, events[0], day);
      assert AllLandOn(events[1..], day) by {
        forall i | 0 <= i < |events[1..]| ensures events[1..][i] == events[i + 1] { }
      }
      ServeAllChargesEachReply(Serve(srv, events[0]), events[1..], day);
    }
  }

  /** On one day, the count read for that day stays within the limit whatever the connections do. */
  lemma {:induction false} ServeKeepsDayCap(srv: Server, events: seq<ServerEvent>, day: Date)
    requires forall i :: 0 <= i < |events| && events[i].Trigger? ==> events[i].call.today == day
    requires ReadUsage(srv.stored, day).count <= DAILY_LIMIT
    ensures ReadUsage(ServeAll(srv, events).stored, day).count <= DAILY_LIMIT
    decreases |events|
  {
    if events != [] {
      var e := events[0];
      if e.Trigger? && e.on < |srv.sessions| {
        var x := srv.sessions[e.on];
        StepKeepsDayCap(State(x.turn, x.history, x.outbox, srv.stored), e.call);
      }
      assert forall i :: 0 <= i < |events[1..]| ==> events[1..][i] == events[i + 1];
      ServeKeepsDayCap(Serve(srv, events[0]), events[1..], day);
    }
  }

  /**
   * The global daily budget: on one day with every write landing, all
   * connections together add at most `DAILY_LIMIT - c` replies, `c` being the
   * count at the start, however many viewers connect and however their
   * triggers interleave.
   */
  lemma ServerDailyReplyBudget(srv: Server, events: seq<ServerEvent>, day: Date)
    requires AllLandOn(events, day)
    requires ReadUsage(srv.stored, day).count <= DAILY_LIMIT
    ensures TotalReplies(ServeAll(srv, events).sessions) - TotalReplies(srv.sessions) <= DAILY_LIMIT - ReadUsage(srv.stored, day).count
  {
    ServeAllChargesEachReply(srv, events, day);
    ServeKeepsDayCap(srv, events, day);
  }
}
