/**
 * client/src/services/socketService.ts: one lazily created socket per browser
 * tab, held in a module-level slot.
 */
module SocketService {
  import opened Options
  import opened Text
  import opened ChatEvents

  const DefaultSocketUrl: string := "http://localhost:8000"
  const ApiPath: string := "/api"

  datatype Transport = WebSocket | Polling

  /**
   * A socket.io client socket: its construction options, whether the transport
   * is up, and every event handed to `emit`, in order.
   */
  class Socket {
    const url: string
    const withCredentials: bool
    const transports: seq<Transport>
    const reconnection: bool
    const reconnectionAttempts: nat
    const reconnectionDelay: nat
    var connected: bool
    var active: bool
    var outbox: seq<Outbound>

    /** `io(url, {...})` with the options `connectSocket` passes; the connection comes up later. */
    constructor (url: string)
      ensures this.url == url && withCredentials && transports == [WebSocket, Polling]
      ensures reconnection && reconnectionAttempts == 5 && reconnectionDelay == 1000
      ensures !connected && active && outbox == []
    {
      this.url := url;
      withCredentials := true;
      transports := [WebSocket, Polling];
      reconnection := true;
      reconnectionAttempts := 5;
      reconnectionDelay := 1000;
      connected := false;
      active := true;
      outbox := [];
    }

    method Emit(e: Outbound)
      modifies this
      ensures outbox == old(outbox) + [e]
      ensures connected == old(connected) && active == old(active)
    {
      outbox := outbox + [e];
    }

    /** `socket.disconnect()`: closes the transport for good (no reconnection). */
    method Disconnect()
      modifies this
      ensures !connected && !active && outbox == old(outbox)
    {
      connected := false;
      active := false;
    }
  }

  /**
   * `SOCKET_URL` as the source computes it: `VITE_API_URL?.replace('/api', '')`,
   * falling back to the default when the variable is absent or the result is empty.
   * `replace` with a string pattern removes the FIRST occurrence of `/api`,
   * wherever it is.
   */
  function SocketUrlAsWritten(apiUrl: Option<string>): (u: string)
    ensures u != ""
    ensures apiUrl.None? ==> u == DefaultSocketUrl
  {
    match apiUrl
    case None => DefaultSocketUrl
    case Some(a) =>
      var r := RemoveFirst(a, ApiPath);
      if r == "" then DefaultSocketUrl else r
  }

  /**
   * The socket URL the derivation is meant to give: the API URL without its
   * trailing `/api` path, with the same fallback.
   */
  function SocketUrl(apiUrl: Option<string>): (u: string)
    ensures u != ""
    ensures apiUrl.None? ==> u == DefaultSocketUrl
    ensures apiUrl.Some? && !EndsWith(apiUrl.value, ApiPath) && apiUrl.value != "" ==> u == apiUrl.value
  {
    match apiUrl
    case None => DefaultSocketUrl
    case Some(a) =>
      var r := if EndsWith(a, ApiPath) then a[..|a| - |ApiPath|] else a;
      if r == "" then DefaultSocketUrl else r
  }

  /** The corrected derivation gives back the server base of every API URL `base + "/api"`. */
  lemma SocketUrlOfApiBase(base: string)
    requires base != ""
    ensures SocketUrl(Some(base + ApiPath)) == base
  {
    var a := base + ApiPath;
    assert a[|a| - |ApiPath|..] == ApiPath;
    assert a[..|a| - |ApiPath|] == base;
  }

  /**
   * The source's derivation agrees with the intended one when `/api` does not
   * already occur inside the base: `/api` cannot overlap itself, so its first
   * occurrence is then the trailing one.
   */
  lemma {:induction false} SocketUrlAsWrittenOfPlainBase(base: string)
    requires base != ""
    requires forall j :: !OccursAt(base, ApiPath, j)
    ensures SocketUrlAsWritten(Some(base + ApiPath)) == base
  {
    var a := base + ApiPath;
    var n := |base|;
    assert OccursAt(a, ApiPath, n) by { assert a[n..n + 4] == ApiPath; }
    forall j | 0 <= j < n ensures !OccursAt(a, ApiPath, j) {
      if j + 4 <= n {
        assert a[j..j + 4] == base[j..j + 4];
        assert !OccursAt(base, ApiPath, j);
      } else {
        // an occurrence straddling the end of `base` would need a second `/` in `/api`
        assert a[n] == '/';
      }
    }
    assert a[..n] + a[n + 4..] == base;
  }

  /** A host beginning with `api.` is mangled: the first `/api` is inside `//api.`. */
  lemma SocketUrlAsWrittenMangles()
    ensures SocketUrlAsWritten(Some("https://api.in/api")) == "https:/.in/api"
    ensures SocketUrl(Some("https://api.in/api")) == "https://api.in"
  {
    var a := "https://api.in/api";
    assert OccursAt(a, ApiPath, 7);
    forall j | 0 <= j < 7 ensures !OccursAt(a, ApiPath, j) {
      assert a[j..j + 4][0] == a[j] && a[j..j + 4][1] == a[j + 1];
    }
    assert a[..7] + a[11..] == "https:/.in/api";
    SocketUrlOfApiBase("https://api.in");
    assert "https://api.in" + ApiPath == a;
  }

  /** The module-level `socket` variable and the functions that manage it. */
  class SocketSlot {
    const apiUrl: Option<string>
    var socket: Socket?

    constructor (apiUrl: Option<string>)
      ensures this.apiUrl == apiUrl && socket == null
    {
      this.apiUrl := apiUrl;
      socket := null;
    }

    /**
     * `connectSocket()`: the socket in the slot if there is one (nothing is
     * created), otherwise a fresh socket to `SocketUrl(apiUrl)` stored in the slot.
     */
    method Connect() returns (s: Socket)
      modifies this
      ensures socket == s
      ensures old(socket) != null ==> s == old(socket)
      ensures old(socket) == null ==>
        (fresh(s) && s.url == SocketUrl(apiUrl)
         && s.reconnection && s.reconnectionAttempts == 5 && s.reconnectionDelay == 1000
         && !s.connected && s.active && s.outbox == [])
    {
      if socket == null {
        socket := new Socket(SocketUrl(apiUrl));
      }
      s := socket;
    }

    /** `getSocket()`: the slot as it is; nothing is created. */
    method Get() returns (s: Socket?)
      ensures s == socket
    {
      s := socket;
    }

    /** `disconnectSocket()`: disconnects and empties the slot; a no-op on an empty slot. */
    method Disconnect()
      modifies this, socket
      ensures socket == null
      ensures old(socket) != null ==>
        (!old(socket).connected && !old(socket).active && old(socket).outbox == old(socket.outbox))
    {
      if socket != null {
        socket.Disconnect();
        socket := null;
      }
    }
  }

  /** Connecting twice yields one socket; after a disconnect the next connect creates a new one. */
  method ConnectDisconnectConnect(apiUrl: Option<string>) returns (same: bool, renewed: bool)
    ensures same && renewed
  {
    var slot := new SocketSlot(apiUrl);
    var a := slot.Connect();
    var b := slot.Connect();
    same := a == b;
    slot.Disconnect();
    var c := slot.Connect();
    renewed := c != a;
  }
}
