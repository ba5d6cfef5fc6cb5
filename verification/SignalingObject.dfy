// The signaling client as the object the room component holds. The methods are those of the
// source; the callbacks of sockets and timers are methods the world calls.

module SignalingObject {
  import opened Model
  import opened SignalingClient

  class ReconnectingClient {
    var socket: Option<SocketId>
    var queue: seq<Frame>
    var attempt: nat
    var timer: Option<nat>
    var heartbeat: bool
    var closedByCaller: bool
    var status: SignalingStatus
    // The world.
    var ready: map<SocketId, ReadyState>
    var live: set<SocketId>
    var submitted: seq<Frame>
    var written: seq<Frame>
    var lost: seq<Frame>
    var next: SocketId

    constructor ()
      ensures View() == START
    {
      socket, queue, attempt, timer, heartbeat, closedByCaller, status := None, [], 0, None, false, false, Closed;
      ready, live, submitted, written, lost, next := map[], {}, [], [], [], 0;
    }

    function View(): Client
      reads this
    {
      Client(socket, queue, attempt, timer, heartbeat, closedByCaller, status, ready,
          live, submitted, written, lost, next)
    }

    method Connect()
      modifies this
      ensures View() == SignalingClient.Connect(old(View()))
    {
      closedByCaller := false;
      OpenSocket();
    }

    method OpenSocket()
      modifies this
      ensures View() == SignalingClient.OpenSocket(old(View()))
    {
      status := if attempt == 0 then Trying else Retrying;
      ready := ready[next := Connecting];
      live := live + {next};
      socket := Some(next);
      next := next + 1;
    }

    /** One attempt to put a frame on the current socket; a throw puts it back in the queue. */
    method Write(f: Frame, fails: bool)
      modifies this`queue, this`written, this`lost
      ensures View() == SignalingClient.Write(old(View()), f, fails)
    {
      if socket.None? || Ready(View(), socket.value).Gone? {
        lost := lost + [f];
      } else if fails || Ready(View(), socket.value).Connecting? {
        queue := queue + [f];
      } else {
        written := written + [f];
      }
    }

    method Send(f: Frame, fails: bool)
      modifies this`queue, this`written, this`lost, this`submitted
      ensures View() == SignalingClient.Send(old(View()), f, fails)
    {
      var open := IsOpen(View());
      submitted := submitted + [f];
      if open {
        Write(f, fails);
        return;
      }
      queue := queue + [f];
    }

    method ClearReconnect()
      modifies this`timer, this`attempt
      ensures timer.None? && attempt == 0
    {
      timer, attempt := None, 0;
    }

    method Close()
      modifies this
      ensures View() == SignalingClient.Close(old(View()))
    {
      closedByCaller := true;
      ClearReconnect();
      heartbeat := false;
      if socket.Some? {
        live := live - {socket.value};
        ready := ready[socket.value := Gone];
      }
      socket := None;
      status := Closed;
    }

    method Flush(fails: seq<bool>)
      modifies this`queue, this`written, this`lost
      ensures View() == SignalingClient.Flush(old(View()), fails)
    {
      var pending := queue;
      queue := [];
      for i := 0 to |pending|
        invariant WriteAll(View(), pending, i, fails) == SignalingClient.Flush(old(View()), fails)
      {
        Write(pending[i], Fails(fails, i));
      }
    }

    method OnOpen(s: SocketId, fails: seq<bool>)
      modifies this
      ensures View() == SignalingClient.OnOpen(old(View()), s, fails)
    {
      ready := ready[s := Open];
      attempt := 0;
      status := Opened;
      Flush(fails);
      heartbeat := true;
    }

    method ScheduleReconnect()
      modifies this
      ensures View() == SignalingClient.ScheduleReconnect(old(View()))
    {
      if timer.Some? { return; }
      var delay := Delay(attempt);
      attempt := attempt + 1;
      status := Retrying;
      timer := Some(delay);
    }

    method OnClose(s: SocketId)
      modifies this
      ensures View() == SignalingClient.OnClose(old(View()), s)
    {
      ready := ready[s := Gone];
      live := live - {s};
      heartbeat := false;
      if closedByCaller { return; }
      ScheduleReconnect();
    }

    method OnHeartbeat(fails: bool)
      modifies this
      ensures View() == Beat(old(View()), fails)
    {
      if IsOpen(View()) {
        submitted := submitted + [Heartbeat];
        Write(Heartbeat, fails);
      }
    }

    /** Whatever the world does next. */
    method Dispatch(e: Event)
      modifies this
      ensures View() == Happen(old(View()), e)
    {
      match e {
        case Connects => Connect();
        case Submits(f, fails) => Send(f, fails);
        case Closes => Close();
        case SocketOpens(s, throwing) => if s in live && Ready(View(), s).Connecting? { OnOpen(s, throwing); }
        case SocketDrops(s) => if s in live { ready := ready[s := Gone]; }
        case SocketCloses(s) => if s in live { OnClose(s); }
        case TimerFires =>
          if timer.Some? {
            timer := None;
            OpenSocket();
          }
        case HeartbeatTicks(fails) => if heartbeat { OnHeartbeat(fails); }
      }
    }
  }
}
