/**
 * client/src/hooks/useChat.ts: the chat session of one mounted chat view.
 * The inbound socket events and the passing of time are methods the
 * environment calls; every outbound event lands in the socket's outbox.
 */
module UseChat {
  import opened Options
  import opened ChatEvents
  import opened SocketService

  /** The delay of the `stop_typing` timer, in milliseconds. */
  const TypingIdleMs: nat := 1500

  /** An armed `setTimeout` that will emit `stop_typing` for `room` at `deadline`. */
  datatype PendingStop = PendingStop(deadline: nat, room: string)

  /** The client clock and the `typingTimeoutRef` slot. */
  datatype TimerState = TimerState(now: nat, pending: Option<PendingStop>)

  /** A pending stop lies in the future: due timers have already fired. */
  predicate TimerValid(t: TimerState) {
    t.pending.Some? ==> t.pending.value.deadline > t.now
  }

  /** `clearTimeout` of the pending stop, then `setTimeout(..., 1500)` for `room`. */
  function Arm(t: TimerState, room: string): (r: TimerState)
    ensures TimerValid(r) && r.now == t.now
    ensures r.pending.Some? && r.pending.value.room == room && r.pending.value.deadline == t.now + TypingIdleMs
  {
    TimerState(t.now, Some(PendingStop(t.now + TypingIdleMs, room)))
  }

  /**
   * The clock moves on to `to`. The pending stop fires, emitting one
   * `stop_typing` for the room it was armed for, exactly when it is due by then.
   */
  function Advance(t: TimerState, to: nat): (r: (TimerState, seq<Outbound>))
    requires t.now <= to
    ensures r.0.now == to
    ensures r.1 != [] <==> t.pending.Some? && t.pending.value.deadline <= to
    ensures r.1 != [] ==> r.1 == [StopTyping(t.pending.value.room)] && r.0.pending.None?
    ensures r.1 == [] ==> r.0.pending == t.pending
    ensures TimerValid(r.0)
  {
    match t.pending
    case Some(p) =>
      if p.deadline <= to then (TimerState(to, None), [StopTyping(p.room)])
      else (TimerState(to, t.pending), [])
    case None => (TimerState(to, None), [])
  }

  predicate Ascending(times: seq<nat>) {
    forall i, j :: 0 <= i < j < |times| ==> times[i] <= times[j]
  }

  /** Consecutive times are less than the idle delay apart. */
  predicate Close(times: seq<nat>) {
    forall i :: 0 <= i < |times| - 1 ==> times[i + 1] < times[i] + TypingIdleMs
  }

  function Repeat(e: Outbound, n: nat): (r: seq<Outbound>)
    ensures |r| == n && forall i :: 0 <= i < n ==> r[i] == e
  {
    if n == 0 then [] else [e] + Repeat(e, n - 1)
  }

  /**
   * A burst of keystrokes at the given times: before each one the clock moves
   * on to it (firing a due stop), then `emitTyping` emits `typing` and re-arms.
   */
  function Burst(t: TimerState, times: seq<nat>, room: string, user: string): (r: (TimerState, seq<Outbound>))
    requires Ascending(times) && (times != [] ==> t.now <= times[0])
    ensures times == [] ==> r == (t, [])
    ensures times != [] ==> r.0.now == times[|times| - 1]
    decreases |times|
  {
    if times == [] then (t, [])
    else
      var step := Advance(t, times[0]);
      var rest := Burst(Arm(step.0, room), times[1..], room, user);
      (rest.0, step.1 + [Typing(room, user)] + rest.1)
  }

  /**
   * Keystrokes each less than 1500 ms apart, with no stop due before the
   * first, emit one `typing` each and no `stop_typing`; afterwards the stop is
   * armed for 1500 ms after the last keystroke.
   */
  lemma {:induction false} BurstEmitsOnlyTyping(t: TimerState, times: seq<nat>, room: string, user: string)
    requires times != [] && Ascending(times) && Close(times) && t.now <= times[0]
    requires t.pending.None? || t.pending.value.deadline > times[0]
    decreases |times|
    ensures Burst(t, times, room, user).1 == Repeat(Typing(room, user), |times|)
    ensures Burst(t, times, room, user).0
      == TimerState(times[|times| - 1], Some(PendingStop(times[|times| - 1] + TypingIdleMs, room)))
  {
    var step := Advance(t, times[0]);
    assert step.1 == [];
    var armed := Arm(step.0, room);
    if |times| == 1 {
      assert Burst(armed, times[1..], room, user) == (armed, []);
    } else {
      assert times[1] < times[0] + TypingIdleMs;
      BurstEmitsOnlyTyping(armed, times[1..], room, user);
      assert [Typing(room, user)] + Repeat(Typing(room, user), |times| - 1)
        == Repeat(Typing(room, user), |times|);
    }
  }

  /**
   * k keystrokes each less than 1500 ms apart, then the clock moving on to
   * `to`: exactly one `stop_typing`, emitted last, and only once `to` reaches
   * 1500 ms after the last keystroke.
   */
  lemma TypingDebounce(t: TimerState, times: seq<nat>, room: string, user: string, to: nat)
    requires times != [] && Ascending(times) && Close(times) && t.now <= times[0]
    requires t.pending.None? || t.pending.value.deadline > times[0]
    requires times[|times| - 1] <= to
    ensures var b := Burst(t, times, room, user);
      b.1 + Advance(b.0, to).1
      == Repeat(Typing(room, user), |times|)
         + (if to >= times[|times| - 1] + TypingIdleMs then [StopTyping(room)] else [])
  {
    BurstEmitsOnlyTyping(t, times, room, user);
  }

  /** Two keystrokes separated by a quiet period of 1500 ms or more: the stop fires in between. */
  lemma QuietPeriodEndsWithStop(t: TimerState, a: nat, b: nat, room: string, user: string)
    requires t.now <= a && a + TypingIdleMs <= b
    requires t.pending.None? || t.pending.value.deadline > a
    ensures Burst(t, [a, b], room, user).1 == [Typing(room, user), StopTyping(room), Typing(room, user)]
  {
    var s1 := Advance(t, a);
    assert s1.1 == [];
    var armed := Arm(s1.0, room);
    var s2 := Advance(armed, b);
    assert s2.1 == [StopTyping(room)];
    assert [a, b][1..] == [b];
    assert Burst(armed, [b], room, user).1 == [StopTyping(room), Typing(room, user)] by {
      assert [b][1..] == [];
    }
  }

  /**
   * The state of `useChat` for one mounted chat view: the `messages`,
   * `connected` and `typingUser` state, the arguments of the latest render,
   * whether the effect's listeners are attached, and the typing timer.
   */
  class ChatSession {
    const socket: Socket
    var room: string
    var userName: string
    var userRole: string
    var messages: seq<ChatMessage>
    var connected: bool
    var typingUser: Option<string>
    var subscribed: bool
    var timer: TimerState

    ghost predicate Valid()
      reads this
    {
      TimerValid(timer)
    }

    /**
     * Mounting: `useRef(connectSocket())` takes the tab's socket (creating it
     * only if the slot is empty), then the effect emits `join_room` and copies
     * the socket's connected flag.
     */
    constructor (slot: SocketSlot, room: string, userName: string, userRole: string, now: nat)
      modifies slot, slot.socket
      ensures Valid() && subscribed && slot.socket == socket
      ensures this.room == room && this.userName == userName && this.userRole == userRole
      ensures messages == [] && typingUser.None? && timer == TimerState(now, None)
      ensures connected == socket.connected
      ensures old(slot.socket) != null ==>
        (socket == old(slot.socket) && socket.outbox == old(slot.socket.outbox) + [JoinRoom(room)]
         && socket.connected == old(slot.socket.connected))
      ensures old(slot.socket) == null ==> (fresh(socket) && socket.outbox == [JoinRoom(room)] && !connected)
    {
      var s := slot.Connect();
      socket := s;
      this.room := room;
      this.userName := userName;
      this.userRole := userRole;
      messages := [];
      typingUser := None;
      timer := TimerState(now, None);
      connected := s.connected;
      subscribed := true;
      new;
      socket.Emit(JoinRoom(room));
    }

    /**
     * A re-render with new arguments. The effect depends on `room` only: when
     * it changed, the cleanup emits `leave_room` for the old room strictly
     * before the new effect emits `join_room`; the message list is kept.
     */
    method Render(newRoom: string, newUserName: string, newUserRole: string)
      requires Valid() && subscribed
      modifies this, socket
      ensures Valid() && subscribed
      ensures room == newRoom && userName == newUserName && userRole == newUserRole
      ensures messages == old(messages) && typingUser == old(typingUser) && timer == old(timer)
      ensures socket.connected == old(socket.connected)
      ensures newRoom == old(room) ==> socket.outbox == old(socket.outbox) && connected == old(connected)
      ensures newRoom != old(room) ==>
        (socket.outbox == old(socket.outbox) + [LeaveRoom(old(room)), JoinRoom(newRoom)]
         && connected == socket.connected)
    {
      if newRoom != room {
        socket.Emit(LeaveRoom(room));
        socket.Emit(JoinRoom(newRoom));
        connected := socket.connected;
      }
      room, userName, userRole := newRoom, newUserName, newUserRole;
    }

    /** The cleanup on unmount: `leave_room` and the listeners detached; the stop timer is NOT cleared. */
    method Unmount()
      requires Valid() && subscribed
      modifies this, socket
      ensures Valid() && !subscribed
      ensures socket.outbox == old(socket.outbox) + [LeaveRoom(room)]
      ensures timer == old(timer) && room == old(room) && messages == old(messages)
      ensures connected == old(connected) && typingUser == old(typingUser)
      ensures userName == old(userName) && userRole == old(userRole)
      ensures socket.connected == old(socket.connected)
    {
      socket.Emit(LeaveRoom(room));
      subscribed := false;
    }

    /** The transport comes up (first connect or a reconnection): only the flag changes; no `join_room`. */
    method TransportConnected()
      requires Valid()
      modifies this, socket
      ensures Valid() && socket.connected
      ensures connected == (if subscribed then true else old(connected))
      ensures socket.outbox == old(socket.outbox) && subscribed == old(subscribed)
      ensures room == old(room) && messages == old(messages) && typingUser == old(typingUser) && timer == old(timer)
      ensures userName == old(userName) && userRole == old(userRole)
    {
      socket.connected := true;
      if subscribed {
        connected := true;
      }
    }

    /** The transport goes down: only the flag changes. */
    method TransportDisconnected()
      requires Valid()
      modifies this, socket
      ensures Valid() && !socket.connected
      ensures connected == (if subscribed then false else old(connected))
      ensures socket.outbox == old(socket.outbox) && subscribed == old(subscribed)
      ensures room == old(room) && messages == old(messages) && typingUser == old(typingUser) && timer == old(timer)
      ensures userName == old(userName) && userRole == old(userRole)
    {
      socket.connected := false;
      if subscribed {
        connected := false;
      }
    }

    /** `receive_message`: appended at the end, no de-duplication, no cap. */
    method ReceiveMessage(m: ChatMessage)
      requires Valid()
      modifies this
      ensures Valid()
      ensures messages == if subscribed then old(messages) + [m] else old(messages)
      ensures connected == old(connected) && typingUser == old(typingUser) && timer == old(timer)
      ensures room == old(room) && userName == old(userName) && userRole == old(userRole)
      ensures subscribed == old(subscribed)
    {
      if subscribed {
        messages := messages + [m];
      }
    }

    /** `user_typing`: the single slot takes the latest name. */
    method UserTyping(name: string)
      requires Valid()
      modifies this
      ensures Valid()
      ensures typingUser == if subscribed then Some(name) else old(typingUser)
      ensures messages == old(messages) && connected == old(connected) && timer == old(timer)
      ensures room == old(room) && userName == old(userName) && userRole == old(userRole)
      ensures subscribed == old(subscribed)
    {
      if subscribed {
        typingUser := Some(name);
      }
    }

    /** `user_stop_typing`: the slot is cleared, whoever stopped. */
    method UserStopTyping()
      requires Valid()
      modifies this
      ensures Valid()
      ensures typingUser == if subscribed then None else old(typingUser)
      ensures messages == old(messages) && connected == old(connected) && timer == old(timer)
      ensures room == old(room) && userName == old(userName) && userRole == old(userRole)
      ensures subscribed == old(subscribed)
    {
      if subscribed {
        typingUser := None;
      }
    }

    /** `sendMessage(text)`: one `send_message` with the current room and identity and `text` verbatim. */
    method SendMessage(text: string)
      requires Valid()
      modifies socket
      ensures socket.outbox == old(socket.outbox) + [Outbound.SendMessage(room, text, userName, userRole, timer.now)]
      ensures socket.connected == old(socket.connected)
    {
      socket.Emit(Outbound.SendMessage(room, text, userName, userRole, timer.now));
    }

    /** `emitTyping()`: `typing` now, and the stop re-armed for 1500 ms later, replacing any pending one. */
    method EmitTyping()
      requires Valid()
      modifies this, socket
      ensures Valid()
      ensures socket.outbox == old(socket.outbox) + [Typing(room, userName)]
      ensures timer == Arm(old(timer), room)
      ensures timer.pending == Some(PendingStop(old(timer.now) + TypingIdleMs, room))
      ensures messages == old(messages) && connected == old(connected) && typingUser == old(typingUser)
      ensures room == old(room) && userName == old(userName) && userRole == old(userRole)
      ensures subscribed == old(subscribed) && socket.connected == old(socket.connected)
    {
      socket.Emit(Typing(room, userName));
      timer := Arm(timer, room);
    }

    /** Time passes until `to`; a due stop timer emits `stop_typing`, mounted or not. */
    method Tick(to: nat)
      requires Valid() && timer.now <= to
      modifies this, socket
      ensures Valid()
      ensures timer == Advance(old(timer), to).0
      ensures socket.outbox == old(socket.outbox) + Advance(old(timer), to).1
      ensures messages == old(messages) && connected == old(connected) && typingUser == old(typingUser)
      ensures room == old(room) && userName == old(userName) && userRole == old(userRole)
      ensures subscribed == old(subscribed) && socket.connected == old(socket.connected)
    {
      var step := Advance(timer, to);
      timer := step.0;
      if step.1 != [] {
        socket.Emit(step.1[0]);
      }
    }
  }

  /** Mount on `r`, re-render on `s`: the outbox reads join r, leave r, join s. */
  method SwitchRooms(r: string, s: string) returns (out: seq<Outbound>)
    requires r != s
    ensures out == [JoinRoom(r), LeaveRoom(r), JoinRoom(s)]
  {
    var slot := new SocketSlot(None);
    var chat := new ChatSession(slot, r, "Asha", "farmer", 0);
    chat.Render(s, "Asha", "farmer");
    out := chat.socket.outbox;
  }

  /** A drop and a reconnection set `connected` back to true but never re-join the room. */
  method ReconnectDoesNotRejoin(r: string) returns (out: seq<Outbound>, connected: bool)
    ensures out == [JoinRoom(r)] && connected
  {
    var slot := new SocketSlot(None);
    var chat := new ChatSession(slot, r, "Asha", "farmer", 0);
    chat.TransportConnected();
    chat.TransportDisconnected();
    chat.TransportConnected();
    out := chat.socket.outbox;
    connected := chat.connected;
  }

  /** Typing, then leaving the view: the un-cleared timer still emits `stop_typing` after `leave_room`. */
  method StopTypingAfterLeave(r: string, name: string) returns (out: seq<Outbound>)
    ensures out == [JoinRoom(r), Typing(r, name), LeaveRoom(r), StopTyping(r)]
  {
    var slot := new SocketSlot(None);
    var chat := new ChatSession(slot, r, name, "farmer", 0);
    chat.EmitTyping();
    chat.Unmount();
    chat.Tick(TypingIdleMs);
    out := chat.socket.outbox;
  }

  /** Messages received while mounted are kept in arrival order, duplicates included; none after unmount. */
  method ReceiveOrder(r: string, m1: ChatMessage, m2: ChatMessage) returns (shown: seq<ChatMessage>)
    ensures shown == [m1, m2, m1]
  {
    var slot := new SocketSlot(None);
    var chat := new ChatSession(slot, r, "Asha", "farmer", 0);
    chat.ReceiveMessage(m1);
    chat.ReceiveMessage(m2);
    chat.ReceiveMessage(m1);
    chat.Unmount();
    chat.ReceiveMessage(m2);
    shown := chat.messages;
  }
}
