/**
 * client/src/pages/Chat.tsx: the chat view around `useChat`, with the text
 * input, the send guard and the identity defaults.
 */
module ChatPage {
  import opened Options
  import opened Text
  import opened Schemas
  import opened ChatEvents
  import opened SocketService
  import opened UseChat

  const DefaultRoom: string := "general"
  const DefaultName: string := "Anonymous"

  /** `room || 'general'`: the route parameter unless it is absent or empty. */
  function RoomOrDefault(param: Option<string>): (r: string)
    ensures r != ""
    ensures param.Some? && param.value != "" ==> r == param.value
    ensures param.None? || param.value == "" ==> r == DefaultRoom
  {
    if param.Some? && param.value != "" then param.value else DefaultRoom
  }

  /** `user?.name || 'Anonymous'`: a logged-out or nameless user chats as `Anonymous`. */
  function NameOrDefault(user: Option<Account>): (r: string)
    ensures r != ""
    ensures user.Some? && user.value.name != "" ==> r == user.value.name
    ensures user.None? ==> r == DefaultName
  {
    if user.Some? && user.value.name != "" then user.value.name else DefaultName
  }

  /** `user?.role || 'farmer'`: always one of the two role spellings, the user's own when logged in. */
  function RoleOrDefault(user: Option<Account>): (r: string)
    ensures ParseRole(r).Some?
    ensures user.Some? ==> ParseRole(r) == Some(user.value.role)
    ensures user.None? ==> ParseRole(r) == Some(DefaultRole)
  {
    match user
    case Some(u) => RoleName(u.role)
    case None => RoleName(DefaultRole)
  }

  /** `userName === user?.name`: never true when logged out. */
  function IsMyMessage(user: Option<Account>, name: string): (r: bool)
    ensures user.None? ==> !r
    ensures r ==> name == user.value.name
    ensures user.Some? && name == user.value.name ==> r
  {
    match user
    case Some(u) => name == u.name
    case None => false
  }

  /** `!input.trim() || !connected`: disabled exactly on blank input or a dropped connection. */
  function SendDisabled(input: string, connected: bool): (r: bool)
    ensures r <==> AllSpace(input) || !connected
  {
    Trim(input) == "" || !connected
  }

  /**
   * The chat page: its text input and the `useChat` session it drives. The
   * textarea and the send button are drawn only for a logged-in user (a
   * logged-out visitor sees a login prompt instead), so the input events
   * require `user.Some?`.
   */
  class ChatView {
    const user: Option<Account>
    const session: ChatSession
    var input: string

    ghost predicate Valid()
      reads this, session
    {
      session.Valid()
    }

    /** Mounting the page: the hook is called with the defaulted room and identity. */
    constructor (slot: SocketSlot, roomParam: Option<string>, user: Option<Account>, now: nat)
      modifies slot, slot.socket
      ensures Valid() && input == "" && this.user == user
      ensures session.room == RoomOrDefault(roomParam) && session.subscribed
      ensures session.userName == NameOrDefault(user) && session.userRole == RoleOrDefault(user)
      ensures session.timer == TimerState(now, None) && session.messages == [] && session.typingUser.None?
      ensures old(slot.socket) == null ==>
        (fresh(session.socket) && session.socket.outbox == [JoinRoom(RoomOrDefault(roomParam))] && !session.connected)
    {
      this.user := user;
      input := "";
      session := new ChatSession(slot, RoomOrDefault(roomParam), NameOrDefault(user), RoleOrDefault(user), now);
    }

    /** The textarea's `onChange`: the new text, and one `emitTyping` per change. */
    method ChangeInput(value: string)
      requires Valid() && user.Some?
      modifies this, session, session.socket
      ensures Valid() && input == value
      ensures session.socket.outbox == old(session.socket.outbox) + [Typing(session.room, session.userName)]
      ensures session.timer == Arm(old(session.timer), session.room)
      ensures session.room == old(session.room) && session.userName == old(session.userName)
      ensures session.userRole == old(session.userRole) && session.connected == old(session.connected)
      ensures session.messages == old(session.messages) && session.typingUser == old(session.typingUser)
      ensures session.subscribed == old(session.subscribed)
      ensures session.socket.connected == old(session.socket.connected)
    {
      input := value;
      session.EmitTyping();
    }

    /**
     * `handleSend`: blank input sends nothing and stays as it is; otherwise the
     * trimmed text is sent once and the input is cleared.
     */
    method HandleSend()
      requires Valid() && user.Some?
      modifies this, session.socket
      ensures Valid() && session.socket.connected == old(session.socket.connected)
      ensures AllSpace(old(input)) ==> input == old(input) && session.socket.outbox == old(session.socket.outbox)
      ensures !AllSpace(old(input)) ==>
        (input == "" && session.socket.outbox == old(session.socket.outbox)
          + [Outbound.SendMessage(session.room, Trim(old(input)), session.userName, session.userRole, session.timer.now)])
    {
      var text := Trim(input);
      if text == "" {
        return;
      }
      session.SendMessage(text);
      input := "";
    }

    /** `handleKeyDown`: Enter without Shift takes the send path, whatever the connection. */
    method KeyDown(key: string, shift: bool)
      requires Valid() && user.Some?
      modifies this, session.socket
      ensures Valid() && session.socket.connected == old(session.socket.connected)
      ensures !(key == "Enter" && !shift) ==> input == old(input) && session.socket.outbox == old(session.socket.outbox)
      ensures key == "Enter" && !shift && !AllSpace(old(input)) ==>
        (input == "" && session.socket.outbox == old(session.socket.outbox)
          + [Outbound.SendMessage(session.room, Trim(old(input)), session.userName, session.userRole, session.timer.now)])
      ensures key == "Enter" && !shift && AllSpace(old(input)) ==>
        input == old(input) && session.socket.outbox == old(session.socket.outbox)
    {
      if key == "Enter" && !shift {
        HandleSend();
      }
    }

    /** A click on the send button, which does nothing while the button is disabled. */
    method ClickSend()
      requires Valid() && user.Some?
      modifies this, session.socket
      ensures Valid() && session.socket.connected == old(session.socket.connected)
      ensures SendDisabled(old(input), session.connected) ==>
        input == old(input) && session.socket.outbox == old(session.socket.outbox)
      ensures !SendDisabled(old(input), session.connected) ==>
        (input == "" && session.socket.outbox == old(session.socket.outbox)
          + [Outbound.SendMessage(session.room, Trim(old(input)), session.userName, session.userRole, session.timer.now)])
    {
      if !SendDisabled(input, session.connected) {
        HandleSend();
      }
    }
  }

  lemma TrimPadded()
    ensures Trim(" hi ") == "hi"
  {
    var padded, inner := " hi ", "hi ";
    assert IsSpace(padded[0]) && padded[1..] == inner;
    assert !IsSpace(inner[0]);
    assert TrimStart(inner) == inner;
    assert TrimStart(padded) == inner;
    assert IsSpace(inner[2]) && inner[..2] == "hi";
    assert !IsSpace("hi"[1]);
    assert TrimEnd("hi") == "hi";
    assert TrimEnd(inner) == "hi";
  }

  /**
   * A logged-in user types " hi " while the socket has not connected: the
   * button stays disabled, yet Enter sends the trimmed text.
   */
  method EnterSendsWhileDisconnected(u: Account) returns (out: seq<Outbound>, disabled: bool, input: string)
    requires u.name != ""
    ensures disabled && input == ""
    ensures out == [JoinRoom(DefaultRoom), Typing(DefaultRoom, u.name),
                    Outbound.SendMessage(DefaultRoom, "hi", u.name, RoleName(u.role), 0)]
  {
    var slot := new SocketSlot(None);
    var view := new ChatView(slot, None, Some(u), 0);
    assert view.session.room == DefaultRoom && view.session.userName == u.name;
    assert !view.session.connected && view.session.socket.outbox == [JoinRoom(DefaultRoom)];
    view.ChangeInput(" hi ");
    assert view.session.socket.outbox == [JoinRoom(DefaultRoom), Typing(DefaultRoom, u.name)];
    assert view.session.timer.now == 0;
    disabled := SendDisabled(view.input, view.session.connected);
    TrimPadded();
    assert !AllSpace(" hi ") by { assert !IsSpace(" hi "[1]); }
    view.KeyDown("Enter", false);
    out := view.session.socket.outbox;
    input := view.input;
  }
}
