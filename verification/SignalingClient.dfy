// The reconnecting signaling socket: one retry at a time, growing delays, and an outbound queue
// that loses nothing. Sockets, timers and failing writes are events.

module SignalingClient {
  import opened Model

  type SocketId = nat

  /** `Gone` covers both closing and closed: no longer open, whether or not `onclose` has fired. */
  datatype ReadyState = Connecting | Open | Gone

  datatype SignalingStatus = Closed | Trying | Opened | Retrying

  datatype Frame = Frame(content: nat) | Heartbeat

  const DELAYS: seq<nat> := [1000, 2000, 4000, 8000, 16000, 30000]

  /** The entry at the number of closes since the last open, or the last entry. */
  function Delay(attempt: nat): (d: nat)
    ensures d == DELAYS[if attempt < 6 then attempt else 5]
  {
    DELAYS[if attempt < |DELAYS| - 1 then attempt else |DELAYS| - 1]
  }

  /**
   * The client's fields, then the world's: the state of each socket ever made, those whose handlers are
   * attached and whose `onclose` has not fired, and the frames submitted, written to an open socket,
   * and swallowed by a socket that was not there to take them.
   */
  datatype Client = Client(
    socket: Option<SocketId>,
    queue: seq<Frame>,
    attempt: nat,
    timer: Option<nat>,
    heartbeat: bool,
    closedByCaller: bool,
    status: SignalingStatus,
    ready: map<SocketId, ReadyState>,
    live: set<SocketId>,
    submitted: seq<Frame>,
    written: seq<Frame>,
    lost: seq<Frame>,
    next: SocketId)

  const START: Client := Client(None, [], 0, None, false, false, Closed, map[], {}, [], [], [], 0)

  /** `fails` are the writes that throw. */
  datatype Event =
    | Connects
    | Submits(frame: Frame, fails: bool)
    | Closes
    | SocketOpens(s: SocketId, throwing: seq<bool>)
    | SocketDrops(s: SocketId)
    | SocketCloses(s: SocketId)
    | TimerFires
    | HeartbeatTicks(fails: bool)

  function Ready(c: Client, s: SocketId): ReadyState {
    if s in c.ready then c.ready[s] else Gone
  }

  predicate IsOpen(c: Client) {
    c.socket.Some? && Ready(c, c.socket.value).Open?
  }

  // --- The methods ---------------------------------------------------------------------------

  function OpenSocket(c: Client): Client {
    c.(status := if c.attempt == 0 then Trying else Retrying,
       socket := Some(c.next),
       ready := c.ready[c.next := Connecting],
       live := c.live + {c.next},
       next := c.next + 1)
  }

  function Connect(c: Client): Client {
    OpenSocket(c.(closedByCaller := false))
  }

  /** A socket still connecting throws; one that is gone swallows the frame; so does none at all. */
  function Write(c: Client, f: Frame, fails: bool): Client {
    if c.socket.None? then c.(lost := c.lost + [f])
    else
      match Ready(c, c.socket.value)
      case Connecting => c.(queue := c.queue + [f])
      case Open => if fails then c.(queue := c.queue + [f]) else c.(written := c.written + [f])
      case Gone => c.(lost := c.lost + [f])
  }

  function Send(c: Client, f: Frame, fails: bool): Client {
    var s := c.(submitted := c.submitted + [f]);
    if IsOpen(c) then Write(s, f, fails) else s.(queue := s.queue + [f])
  }

  function Close(c: Client): Client {
    c.(closedByCaller := true, timer := None, attempt := 0, heartbeat := false,
       socket := None, live := if c.socket.Some? then c.live - {c.socket.value} else c.live,
       ready := if c.socket.Some? then c.ready[c.socket.value := Gone] else c.ready,
       status := Closed)
  }

  predicate Fails(fails: seq<bool>, i: nat) {
    i < |fails| && fails[i]
  }

  /** The frames at `i` and after are written in turn. */
  function WriteAll(c: Client, pending: seq<Frame>, i: nat, fails: seq<bool>): Client
    requires i <= |pending|
    decreases |pending| - i
  {
    if i == |pending| then c else WriteAll(Write(c, pending[i], Fails(fails, i)), pending, i + 1, fails)
  }

  function Flush(c: Client, fails: seq<bool>): Client {
    WriteAll(c.(queue := []), c.queue, 0, fails)
  }

  function OnOpen(c: Client, s: SocketId, fails: seq<bool>): Client {
    Flush(c.(ready := c.ready[s := Open], attempt := 0, status := Opened), fails).(heartbeat := true)
  }

  function ScheduleReconnect(c: Client): Client {
    if c.timer.Some? then c
    else c.(timer := Some(Delay(c.attempt)), attempt := c.attempt + 1, status := Retrying)
  }

  function OnClose(c: Client, s: SocketId): Client {
    var gone := c.(ready := c.ready[s := Gone], live := c.live - {s}, heartbeat := false);
    if c.closedByCaller then gone else ScheduleReconnect(gone)
  }

  function Beat(c: Client, fails: bool): Client {
    if IsOpen(c) then Write(c.(submitted := c.submitted + [Heartbeat]), Heartbeat, fails) else c
  }

  /** An event that cannot happen in a state leaves it alone. */
  function Happen(c: Client, e: Event): Client {
    match e
    case Connects => Connect(c)
    case Submits(f, fails) => Send(c, f, fails)
    case Closes => Close(c)
    case SocketOpens(s, fails) => if s in c.live && Ready(c, s).Connecting? then OnOpen(c, s, fails) else c
    case SocketDrops(s) => if s in c.live then c.(ready := c.ready[s := Gone]) else c
    case SocketCloses(s) => if s in c.live then OnClose(c, s) else c
    case TimerFires => if c.timer.Some? then OpenSocket(c.(timer := None)) else c
    case HeartbeatTicks(fails) => if c.heartbeat then Beat(c, fails) else c
  }

  function Run(events: seq<Event>): Client {
    if events == [] then START else Happen(Run(events[..|events| - 1]), events[|events| - 1])
  }

  /** The caller connects only a client whose status is closed. */
  ghost predicate Disciplined(events: seq<Event>) {
    forall i :: 0 <= i < |events| && events[i].Connects? ==> Run(events[..i]).status == Closed
  }

  lemma DisciplinedBefore(events: seq<Event>)
    requires events != [] && Disciplined(events)
    ensures var n := |events| - 1;
            && Disciplined(events[..n])
            && (events[n].Connects? ==> Run(events[..n]).status == Closed)
  {
    var n := |events| - 1;
    forall i | 0 <= i < n && events[..n][i].Connects? ensures Run(events[..n][..i]).status == Closed {
      assert events[..n][..i] == events[..i];
    }
  }

  // --- Never wedged, never doubled --------------------------------------------------------------

  /** A socket whose `onclose` is still to come, or an armed retry timer: one of them, and not both. */
  ghost predicate ExactlyOne(c: Client) {
    if c.timer.Some? then c.live == {} else c.socket.Some? && c.live == {c.socket.value}
  }

  ghost predicate Steady(c: Client) {
    && c.live <= c.ready.Keys && (forall s :: s in c.ready ==> s < c.next)
    && (c.socket.Some? ==> c.socket.value in c.ready)
    && (c.status == Closed ==>
          c.socket.None? && c.live == {} && c.timer.None? && !c.heartbeat && c.attempt == 0)
    && (c.status != Closed ==> ExactlyOne(c) && !c.closedByCaller)
    && (c.status == Opened ==> c.timer.None? && c.attempt == 0)
    && (c.heartbeat ==> c.live != {} && c.status == Opened)
    && (IsOpen(c) ==> c.socket.value in c.live)
    && (c.timer.Some? ==> c.attempt > 0 && c.timer.value == Delay(c.attempt - 1))
  }

  /** Writing touches the frame logs only. */
  ghost predicate OnlyLogs(c: Client, d: Client) {
    d == c.(queue := d.queue, written := d.written, lost := d.lost)
  }

  lemma {:induction false} WriteAllTouchesLogs(c: Client, pending: seq<Frame>, i: nat, fails: seq<bool>)
    requires i <= |pending|
    ensures OnlyLogs(c, WriteAll(c, pending, i, fails))
    decreases |pending| - i
  {
    if i < |pending| {
      WriteAllTouchesLogs(Write(c, pending[i], Fails(fails, i)), pending, i + 1, fails);
    }
  }

  lemma HappenKeepsSteady(c: Client, e: Event)
    requires Steady(c) && (e.Connects? ==> c.status == Closed)
    ensures Steady(Happen(c, e))
  {
    hide WriteAll;
    if e.SocketOpens? && e.s in c.live && Ready(c, e.s).Connecting? {
      var opening := c.(ready := c.ready[e.s := Open], attempt := 0, status := Opened, queue := []);
      WriteAllTouchesLogs(opening, c.queue, 0, e.throwing);
    }
  }

  /**
   * Reconnecting neither wedges nor doubles: while not closed there is either one live socket or one
   * armed retry, never both and never neither; once closed there is no timer of either kind.
   */
  lemma {:induction false} ReconnectNeverWedgesOrDoubles(events: seq<Event>)
    requires Disciplined(events)
    ensures var c := Run(events);
            && Steady(c)
            && (c.status != Closed ==> ExactlyOne(c))
            && (c.status == Closed ==> c.live == {} && c.timer.None? && !c.heartbeat)
  {
    hide Happen;
    if events != [] {
      DisciplinedBefore(events);
      ReconnectNeverWedgesOrDoubles(events[..|events| - 1]);
      HappenKeepsSteady(Run(events[..|events| - 1]), events[|events| - 1]);
    }
  }

  /** Connecting a client that is not closed is what makes two: the discipline cannot be dropped. */
  lemma {:induction false} ConnectingTwiceDoubles(events: seq<Event>)
    requires Disciplined(events)
    ensures ExactlyOne(Happen(Run(events), Connects)) <==> Run(events).status == Closed
  {
    var c := Run(events);
    ReconnectNeverWedgesOrDoubles(events);
    var d := Happen(c, Connects);
    if c.status != Closed {
      assert c.next in d.live;
      if c.timer.None? { assert c.socket.value in d.live; }
    }
  }

  // --- Delays --------------------------------------------------------------------------------------

  /** How often a socket has closed since one last opened, or since the caller last closed. */
  function ClosesSinceOpen(events: seq<Event>): nat {
    if events == [] then 0
    else
      var n := |events| - 1;
      var c, e := Run(events[..n]), events[n];
      if e.Closes? || (e.SocketOpens? && e.s in c.live && Ready(c, e.s).Connecting?) then 0
      else ClosesSinceOpen(events[..n]) + if e.SocketCloses? && e.s in c.live then 1 else 0
  }

  lemma AttemptStep(c: Client, e: Event)
    requires Steady(c) && (e.Connects? ==> c.status == Closed)
    ensures Happen(c, e).attempt
         == if e.Closes? || (e.SocketOpens? && e.s in c.live && Ready(c, e.s).Connecting?) then 0
            else c.attempt + if e.SocketCloses? && e.s in c.live then 1 else 0
  {
    hide WriteAll;
    if e.SocketOpens? && e.s in c.live && Ready(c, e.s).Connecting? {
      WriteAllTouchesLogs(c.(ready := c.ready[e.s := Open], attempt := 0, status := Opened, queue := []),
          c.queue, 0, e.throwing);
    }
  }

  /** The attempt counter counts closes, and an armed timer waits for the entry one close earlier. */
  lemma {:induction false} AttemptCountsCloses(events: seq<Event>)
    requires Disciplined(events)
    ensures Run(events).attempt == ClosesSinceOpen(events)
    ensures Run(events).timer.Some? ==>
              ClosesSinceOpen(events) > 0 && Run(events).timer.value == Delay(ClosesSinceOpen(events) - 1)
  {
    hide Happen;
    ReconnectNeverWedgesOrDoubles(events);
    if events != [] {
      var n := |events| - 1;
      DisciplinedBefore(events);
      AttemptCountsCloses(events[..n]);
      ReconnectNeverWedgesOrDoubles(events[..n]);
      AttemptStep(Run(events[..n]), events[n]);
    }
  }

  /** Delays start at a second, double up to sixteen, are half a minute after that, and never shrink. */
  lemma {:induction false} DelaysGrowToTheCap(i: nat, j: nat)
    requires i <= j
    ensures 1000 == Delay(0) <= Delay(i) <= Delay(j) <= 30000
    ensures Delay(i + 1) == if Delay(i) < 16000 then 2 * Delay(i) else 30000
  {
    assert DELAYS == [1000, 2000, 4000, 8000, 16000, 30000];
  }

  /** Every socket that closes on a running client arms the next delay of the table. */
  lemma {:induction false} CloseArmsTheNextDelay(events: seq<Event>, s: SocketId)
    requires Disciplined(events) && s in Run(events).live && Run(events).status != Closed
    ensures var c := Run(events + [SocketCloses(s)]);
            c.timer == Some(Delay(ClosesSinceOpen(events))) && c.live == {} && c.status == Retrying
  {
    assert (events + [SocketCloses(s)])[..|events|] == events;
    AttemptCountsCloses(events);
    ReconnectNeverWedgesOrDoubles(events);
  }

  // --- The client's fields ------------------------------------------------------------------------------

  /** The event is one that can happen in this state. */
  predicate TakesEffect(c: Client, e: Event) {
    match e
    case SocketOpens(s, _) => s in c.live && Ready(c, s).Connecting?
    case SocketCloses(s) => s in c.live
    case TimerFires => c.timer.Some?
    case HeartbeatTicks(_) => c.heartbeat && IsOpen(c)
    case _ => true
  }

  /** A close nobody asked for, with no retry under way. */
  predicate Retries(c: Client, e: Event) {
    e.SocketCloses? && TakesEffect(c, e) && !c.closedByCaller && c.timer.None?
  }

  predicate Tries(c: Client, e: Event) {
    e.Connects? || (e.TimerFires? && TakesEffect(c, e))
  }

  /** Which events write each field of the client, and what. */
  lemma EventWrites(c: Client, e: Event)
    ensures var d, opens := Happen(c, e), e.SocketOpens? && TakesEffect(c, e);
            && d.status == (if Tries(c, e) then (if c.attempt == 0 then Trying else Retrying)
                            else if opens then Opened else if Retries(c, e) then Retrying
                            else if e.Closes? then Closed else c.status)
            && d.attempt == (if opens || e.Closes? then 0 else if Retries(c, e) then c.attempt + 1 else c.attempt)
            && d.timer == (if e.Closes? || (e.TimerFires? && TakesEffect(c, e)) then None
                           else if Retries(c, e) then Some(Delay(c.attempt)) else c.timer)
            && d.heartbeat == (opens || (c.heartbeat && !e.Closes? && !(e.SocketCloses? && TakesEffect(c, e))))
            && d.closedByCaller == (e.Closes? || (c.closedByCaller && !e.Connects?))
            && d.socket == (if Tries(c, e) then Some(c.next) else if e.Closes? then None else c.socket)
            && d.submitted == c.submitted + (if e.Submits? then [e.frame]
                                             else if e.HeartbeatTicks? && TakesEffect(c, e) then [Heartbeat] else [])
  {
    assert c.submitted + [] == c.submitted;
    if e.SocketOpens? && TakesEffect(c, e) {
      var opening := c.(ready := c.ready[e.s := Open], attempt := 0, status := Opened, queue := []);
      WriteAllTouchesLogs(opening, c.queue, 0, e.throwing);
      hide WriteAll;
    }
  }

  // --- Nothing is lost -------------------------------------------------------------------------------

  /** Every frame submitted has been written or is still queued, once. */
  ghost predicate Conserved(c: Client) {
    c.lost == [] && multiset(c.submitted) == multiset(c.written) + multiset(c.queue)
  }

  /** One write: a frame is lost exactly where no socket or a dead one takes it, and kept where it throws. */
  lemma WriteLosesIff(c: Client, f: Frame, fails: bool)
    ensures var d := Write(c, f, fails);
            && (d.lost == c.lost + [f] <==> c.socket.None? || Ready(c, c.socket.value).Gone?)
            && (d.queue == c.queue + [f] <==>
                  c.socket.Some? && (Ready(c, c.socket.value).Connecting? || (IsOpen(c) && fails)))
            && (d.written == c.written + [f] <==> IsOpen(c) && !fails)
  {
  }

  lemma WriteConserves(c: Client, f: Frame, fails: bool)
    requires IsOpen(c) && c.lost == []
    ensures var d := Write(c, f, fails);
            && IsOpen(d) && d.lost == [] && d.submitted == c.submitted
            && multiset(d.written) + multiset(d.queue) == multiset(c.written) + multiset(c.queue) + multiset{f}
  {
    assert multiset(c.queue + [f]) == multiset(c.queue) + multiset{f};
    assert multiset(c.written + [f]) == multiset(c.written) + multiset{f};
  }

  lemma {:induction false} WriteAllConserves(c: Client, pending: seq<Frame>, i: nat, fails: seq<bool>)
    requires i <= |pending| && IsOpen(c) && c.lost == []
    ensures var d := WriteAll(c, pending, i, fails);
            && d.lost == [] && d.submitted == c.submitted
            && multiset(d.written) + multiset(d.queue) ==
                multiset(c.written) + multiset(c.queue) + multiset(pending[i..])
    decreases |pending| - i
  {
    if i == |pending| {
      assert pending[i..] == [];
    } else {
      hide Write;
      WriteAllConserves(Write(c, pending[i], Fails(fails, i)), pending, i + 1, fails);
      assert pending[i..] == [pending[i]] + pending[i + 1..];
      assert multiset(pending[i..]) == multiset{pending[i]} + multiset(pending[i + 1..]);
    }
  }

  lemma SendConserves(c: Client, f: Frame, fails: bool)
    requires Conserved(c)
    ensures Conserved(Send(c, f, fails))
  {
    hide Write;
    assert multiset(c.submitted + [f]) == multiset(c.submitted) + multiset{f};
    assert multiset(c.queue + [f]) == multiset(c.queue) + multiset{f};
    if IsOpen(c) { WriteConserves(c.(submitted := c.submitted + [f]), f, fails); }
  }

  lemma BeatConserves(c: Client, fails: bool)
    requires Conserved(c)
    ensures Conserved(Beat(c, fails))
  {
    hide Write;
    assert multiset(c.submitted + [Heartbeat]) == multiset(c.submitted) + multiset{Heartbeat};
    if IsOpen(c) { WriteConserves(c.(submitted := c.submitted + [Heartbeat]), Heartbeat, fails); }
  }

  lemma HappenConserves(c: Client, e: Event)
    requires Steady(c) && Conserved(c)
    ensures Conserved(Happen(c, e))
  {
    hide WriteAll;
    hide Send;
    hide Beat;
    match e {
      case Submits(f, fails) => SendConserves(c, f, fails);
      case HeartbeatTicks(fails) => BeatConserves(c, fails);
      case SocketOpens(s, fails) =>
        if s in c.live && Ready(c, s).Connecting? {
          assert c.socket == Some(s);
          var opening := c.(ready := c.ready[s := Open], attempt := 0, status := Opened, queue := []);
          assert c.queue[0..] == c.queue;
          WriteAllConserves(opening, c.queue, 0, fails);
        }
      case _ =>
    }
  }

  /** Outbound conservation: whatever drops, reconnects and failing writes a run brings. */
  lemma {:induction false} EveryFrameIsWrittenOrQueued(events: seq<Event>)
    requires Disciplined(events)
    ensures Conserved(Run(events))
  {
    hide Happen;
    if events != [] {
      DisciplinedBefore(events);
      EveryFrameIsWrittenOrQueued(events[..|events| - 1]);
      ReconnectNeverWedgesOrDoubles(events[..|events| - 1]);
      HappenConserves(Run(events[..|events| - 1]), events[|events| - 1]);
    }
  }

  // --- In order ------------------------------------------------------------------------------------------

  ghost predicate InOrder(c: Client) {
    c.written + c.queue == c.submitted && (IsOpen(c) ==> c.queue == [])
  }

  /** A throw that matters: of a frame actually written, to a socket that is open or opening. */
  ghost predicate ThrowsInEffect(c: Client, e: Event) {
    match e
    case Submits(_, fails) => fails && IsOpen(c)
    case HeartbeatTicks(fails) => fails && c.heartbeat && IsOpen(c)
    case SocketOpens(s, throwing) =>
      s in c.live && Ready(c, s).Connecting? && exists i: nat :: i < |c.queue| && Fails(throwing, i)
    case _ => false
  }

  lemma {:induction false} WriteAllInOrder(c: Client, pending: seq<Frame>, i: nat, fails: seq<bool>)
    requires i <= |pending| && IsOpen(c) && forall j: nat :: i <= j < |pending| ==> !Fails(fails, j)
    ensures WriteAll(c, pending, i, fails) == c.(written := c.written + pending[i..])
    decreases |pending| - i
  {
    if i == |pending| {
      assert c.written + pending[i..] == c.written;
    } else {
      WriteAllInOrder(Write(c, pending[i], Fails(fails, i)), pending, i + 1, fails);
      assert c.written + [pending[i]] + pending[i + 1..] == c.written + pending[i..];
    }
  }

  /** A flush in which a write throws leaves something queued on the open socket. */
  lemma {:induction false} WriteAllQueues(c: Client, pending: seq<Frame>, i: nat, fails: seq<bool>)
    requires i <= |pending| && IsOpen(c)
    ensures |WriteAll(c, pending, i, fails).queue| >= |c.queue|
    ensures (exists j: nat :: i <= j < |pending| && Fails(fails, j)) ==> WriteAll(c, pending, i, fails).queue != []
    decreases |pending| - i
  {
    if i < |pending| {
      WriteAllQueues(Write(c, pending[i], Fails(fails, i)), pending, i + 1, fails);
    }
  }

  lemma OpeningKeepsOrderIff(c: Client, s: SocketId, throwing: seq<bool>)
    requires Steady(c) && InOrder(c) && s in c.live && Ready(c, s).Connecting?
    ensures InOrder(OnOpen(c, s, throwing)) <==> !ThrowsInEffect(c, SocketOpens(s, throwing))
  {
    hide WriteAll;
    assert c.socket == Some(s);
    var opening := c.(ready := c.ready[s := Open], attempt := 0, status := Opened, queue := []);
    WriteAllTouchesLogs(opening, c.queue, 0, throwing);
    WriteAllQueues(opening, c.queue, 0, throwing);
    if !ThrowsInEffect(c, SocketOpens(s, throwing)) {
      WriteAllInOrder(opening, c.queue, 0, throwing);
      assert c.queue[0..] == c.queue;
    }
  }

  /** An event keeps the order exactly when nothing it writes throws. */
  lemma HappenKeepsOrderIff(c: Client, e: Event)
    requires Steady(c) && InOrder(c)
    ensures InOrder(Happen(c, e)) <==> !ThrowsInEffect(c, e)
  {
    hide OnOpen;
    if e.SocketOpens? && e.s in c.live && Ready(c, e.s).Connecting? {
      OpeningKeepsOrderIff(c, e.s, e.throwing);
    }
  }

  ghost predicate OrderedThroughout(events: seq<Event>) {
    forall k :: 0 <= k <= |events| ==> InOrder(Run(events[..k]))
  }

  ghost predicate NothingThrows(events: seq<Event>) {
    forall k :: 0 <= k < |events| ==> !ThrowsInEffect(Run(events[..k]), events[k])
  }

  lemma {:induction false} OrderedOneFurther(events: seq<Event>)
    requires events != []
    ensures OrderedThroughout(events) <==> OrderedThroughout(events[..|events| - 1]) && InOrder(Run(events))
    ensures OrderedThroughout(events[..|events| - 1]) ==> InOrder(Run(events[..|events| - 1]))
  {
    hide InOrder;
    hide Run;
    var front := events[..|events| - 1];
    assert forall k :: 0 <= k <= |front| ==> front[..k] == events[..k];
    assert events[..|events|] == events && front[..|front|] == front;
  }

  lemma NothingThrowsFurther(events: seq<Event>)
    requires events != []
    ensures var front := events[..|events| - 1];
            NothingThrows(events) <==> NothingThrows(front) && !ThrowsInEffect(Run(front), events[|front|])
  {
    hide ThrowsInEffect;
    hide Run;
    var front := events[..|events| - 1];
    assert forall k :: 0 <= k <= |front| ==> front[..k] == events[..k];
  }

  /**
   * What was written across all sockets, then what is queued, is what was submitted, in order, and nothing
   * is queued while a socket is open: this holds at every point of a run exactly when no write of the run
   * throws. A failing flag on a socket that is not open does no harm.
   */
  lemma {:induction false} FramesStayInOrderIff(events: seq<Event>)
    requires Disciplined(events)
    ensures OrderedThroughout(events) <==> NothingThrows(events)
  {
    hide Happen;
    hide InOrder;
    hide ThrowsInEffect;
    hide OrderedThroughout;
    hide NothingThrows;
    if events == [] {
      NothingIsInOrder();
    } else {
      var front := events[..|events| - 1];
      DisciplinedBefore(events);
      FramesStayInOrderIff(front);
      ReconnectNeverWedgesOrDoubles(front);
      OrderedOneFurther(events);
      NothingThrowsFurther(events);
      if InOrder(Run(front)) { HappenKeepsOrderIff(Run(front), events[|front|]); }
    }
  }

  lemma NothingIsInOrder()
    ensures OrderedThroughout([]) && NothingThrows([])
  {
  }

  /** The order a throw breaks: the next frame overtakes the requeued one, unless they are equal. */
  lemma ThrowingWriteIsOvertaken(c: Client, f: Frame, g: Frame)
    requires IsOpen(c) && InOrder(c)
    ensures var d := Send(Send(c, f, true), g, false);
            && IsOpen(d) && d.queue == [f] && d.written == c.written + [g]
            && (d.written + d.queue == d.submitted <==> f == g)
  {
    var d := Send(Send(c, f, true), g, false);
    assert d.submitted == c.written + [f] + [g];
    assert d.written + d.queue == c.written + [g] + [f];
    assert d.submitted[|c.written|] == f && (d.written + d.queue)[|c.written|] == g;
  }
}
