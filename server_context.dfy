/**
 * The connection and session bookkeeping of the dashboard's server context
 * (frontend/src/context/ServerContext.js): the list of known servers, the
 * local-versus-remote decision, the WebSocket connection (a mock one for a
 * local server), the TCP-style session established over HTTP with its
 * simulated fallback, and disconnection.
 *
 * The provider's React state (servers, currentServer, isConnected, socket,
 * sessionId) is a class whose methods update it step by step; each method is
 * proved against a function on the `Session` value, and the lemmas are about
 * those functions.  The page's host name, the clock and the outcome of the
 * HTTP request are parameters; the WebSocket's own events (open, close, the
 * 5-second timeout) are separate operations.
 */
module ServerContext {
  import opened Common

  datatype Server = Server(id: string, name: string, ip: Option<string>, port: string, isSimulated: bool)

  /** What `addServer` is given: the form's fields, possibly with an id of its own. */
  datatype ServerData = ServerData(id: Option<string>, name: string, ip: Option<string>, port: string)

  /** The servers offered when nothing is saved in the browser's storage. */
  const DefaultServers: seq<Server> := [
    Server("local-auto", "Локальный сервер", Some("localhost"), "8000", false),
    Server("local-ip", "Локальный IP", Some("127.0.0.1"), "8000", false),
    Server("emulator", "Эмулятор МЧС", Some("192.168.0.100"), "8000", false),
    Server("test-server", "Тестовый сервер МЧС", Some("192.168.1.50"), "5000", false)
  ]

  const LocalSessionId := "local-session-123"
  const SimulatedSuffix := " (симуляция)"
  const ConnectedStatus := "connected"

  // ---------------------------------------------------------------------------
  // Local-mode classification
  // ---------------------------------------------------------------------------

  /** The narrower test the server-list view applies before it connects; it never accepts a 10.x.x.x address. */
  function ListedAsLocal(ip: string): (b: bool)
    ensures b ==> ip != "" && !StartsWith(ip, "10.")
  {
    assert StartsWith(ip, "10.") ==> ip[1] == '0';
    assert "localhost"[1] == 'o' && "127.0.0.1"[1] == '2' && "192.168."[1] == '9';
    ip == "localhost" || ip == "127.0.0.1" || StartsWith(ip, "192.168.")
  }

  /**
   * The context's test: loopback names, the 192.168.x.x and 10.x.x.x ranges,
   * or the page's own host; that is, the server list's test widened by the
   * 10.x.x.x range and the page's host.
   */
  function IsLocalMode(ip: string, hostname: string): (b: bool)
    ensures b <==> ListedAsLocal(ip) || StartsWith(ip, "10.") || ip == hostname
  {
    || ip == "localhost" || ip == "127.0.0.1"
    || StartsWith(ip, "192.168.") || StartsWith(ip, "10.")
    || ip == hostname
  }

  /** Whatever the server list treats as local, the context does too ... */
  lemma ListedLocalIsLocal(ip: string, hostname: string)
    requires ListedAsLocal(ip)
    ensures IsLocalMode(ip, hostname)
  {
  }

  /** ... but not the other way round: a 10.x.x.x address is local only for the context. */
  lemma TenNetworkIsLocalOnlyInContext(hostname: string)
    ensures IsLocalMode("10.0.0.1", hostname)
    ensures !ListedAsLocal("10.0.0.1")
  {
    assert StartsWith("10.0.0.1", "10.");
    assert "10.0.0.1"[..8][1] != "192.168."[1];
  }

  /** Every default server is local, so connecting to one never opens a real WebSocket. */
  lemma DefaultServersAreLocal(hostname: string)
    ensures forall i :: 0 <= i < |DefaultServers| ==>
      DefaultServers[i].ip.Some? && IsLocalMode(DefaultServers[i].ip.value, hostname)
  {
    assert StartsWith("192.168.0.100", "192.168.");
    assert StartsWith("192.168.1.50", "192.168.");
  }

  // ---------------------------------------------------------------------------
  // The provider's state as a value
  // ---------------------------------------------------------------------------

  /** The connecting, open and closing states of a browser WebSocket. */
  datatype ReadyState = Connecting | Open | Closing

  /**
   * The `socket` state: the mock object installed for a local server (whose
   * `close` also clears its timers), or a real WebSocket opened to `server`.
   */
  datatype Socket = LocalMock(closed: bool) | WebSocket(server: Server, readyState: ReadyState)

  datatype Session = Session(
    servers: seq<Server>,
    current: Option<Server>,    // currentServer
    connected: bool,            // isConnected
    socket: Option<Socket>,
    sessionId: Option<string>)

  /**
   * `socket.close()` when there is a socket: the mock drops `isConnected` at
   * once; a real WebSocket only starts closing, and its `onclose` comes later.
   */
  function CloseSocket(s: Session): (r: Session)
    ensures r.servers == s.servers && r.current == s.current && r.sessionId == s.sessionId
    ensures r.socket.Some? <==> s.socket.Some?
    ensures s.socket.Some? && s.socket.value.LocalMock? ==> !r.connected && r.socket == Some(LocalMock(true))
    ensures s.socket.Some? && s.socket.value.WebSocket? ==>
      r.connected == s.connected && r.socket == Some(WebSocket(s.socket.value.server, Closing))
    ensures s.socket.None? ==> r == s
  {
    match s.socket
    case None => s
    case Some(LocalMock(_)) => s.(connected := false, socket := Some(LocalMock(true)))
    case Some(WebSocket(server, _)) => s.(socket := Some(WebSocket(server, Closing)))
  }

  /** Closing twice is closing once. */
  lemma CloseSocketIdempotent(s: Session)
    ensures CloseSocket(CloseSocket(s)) == CloseSocket(s)
  {
  }

  /**
   * `connectToServer(server)`: the previous socket is closed first; a missing
   * ip makes the local-mode test throw, which is caught and reported as false;
   * a local server is connected at once through the mock socket; a remote one
   * gets a WebSocket that is still connecting, and true is returned either way.
   */
  function Connect(s: Session, server: Server, hostname: string): (r: (Session, bool))
    ensures r.1 <==> server.ip.Some?
    ensures r.0.servers == s.servers && r.0.sessionId == s.sessionId
    ensures server.ip.None? ==> r.0 == CloseSocket(s)
    ensures server.ip.Some? && IsLocalMode(server.ip.value, hostname) ==>
      r.0.connected && r.0.current == Some(server) && r.0.socket == Some(LocalMock(false))
    ensures server.ip.Some? && !IsLocalMode(server.ip.value, hostname) ==>
      && r.0.connected == CloseSocket(s).connected && r.0.current == s.current
      && r.0.socket == Some(WebSocket(server, Connecting))
  {
    var closed := CloseSocket(s);
    if server.ip.None? then (closed, false)
    else if IsLocalMode(server.ip.value, hostname) then
      (closed.(connected := true, current := Some(server), socket := Some(LocalMock(false))), true)
    else
      (closed.(socket := Some(WebSocket(server, Connecting))), true)
  }

  /** `ws.onopen`: a connecting WebSocket becomes the connection to its server. */
  function SocketOpened(s: Session): (r: Session)
    ensures s.socket.Some? && s.socket.value.WebSocket? && s.socket.value.readyState == Connecting ==>
      && r.connected && r.current == Some(s.socket.value.server)
      && r.socket == Some(WebSocket(s.socket.value.server, Open))
      && r.servers == s.servers && r.sessionId == s.sessionId
    ensures !(s.socket.Some? && s.socket.value.WebSocket? && s.socket.value.readyState == Connecting) ==> r == s
  {
    match s.socket
    case Some(WebSocket(server, Connecting)) =>
      s.(connected := true, current := Some(server), socket := Some(WebSocket(server, Open)))
    case _ => s
  }

  /** `ws.onclose`: the connection is down and the socket forgotten. */
  function SocketClosed(s: Session): (r: Session)
    ensures s.socket.Some? && s.socket.value.WebSocket? ==>
      !r.connected && r.socket.None? && r.current == s.current && r.servers == s.servers && r.sessionId == s.sessionId
    ensures !(s.socket.Some? && s.socket.value.WebSocket?) ==> r == s
  {
    match s.socket
    case Some(WebSocket(_, _)) => s.(connected := false, socket := None)
    case _ => s
  }

  /** The 5-second timer: a WebSocket that is not open by then is closed. */
  function ConnectTimeout(s: Session): (r: Session)
    ensures s.socket.Some? && s.socket.value.WebSocket? && s.socket.value.readyState != Open ==> r == CloseSocket(s)
    ensures !(s.socket.Some? && s.socket.value.WebSocket? && s.socket.value.readyState != Open) ==> r == s
  {
    match s.socket
    case Some(WebSocket(_, state)) => if state != Open then CloseSocket(s) else s
    case _ => s
  }

  /** A remote server becomes the connected one only once its WebSocket opens. */
  lemma RemoteConnectThenOpen(s: Session, server: Server, hostname: string)
    requires server.ip.Some? && !IsLocalMode(server.ip.value, hostname)
    ensures Connect(s, server, hostname).1
    ensures SocketOpened(Connect(s, server, hostname).0).connected
    ensures SocketOpened(Connect(s, server, hostname).0).current == Some(server)
  {
  }

  /**
   * A remote server that never answers: connectToServer has already returned
   * true, the timeout closes the socket and its close event leaves the context
   * disconnected with no socket; nothing falls back to simulation here.
   */
  lemma RemoteTimeoutLeavesDisconnected(s: Session, server: Server, hostname: string)
    requires server.ip.Some? && !IsLocalMode(server.ip.value, hostname)
    ensures Connect(s, server, hostname).1
    ensures var r := SocketClosed(ConnectTimeout(Connect(s, server, hostname).0));
      !r.connected && r.socket.None? && r.sessionId == s.sessionId && r.current == s.current
  {
  }

  // ---------------------------------------------------------------------------
  // connectTcpToServer
  // ---------------------------------------------------------------------------

  /**
   * How the `/api/connect` request ended: a parsed reply, or a failure of the
   * request or of parsing its body (an abort after 5 seconds among them).
   */
  datatype TcpOutcome = Reply(status: string, sessionId: Option<string>) | FetchFailed

  /** `simulated-${Date.now()}`. */
  function SimulatedSessionId(now: nat): (id: string)
    ensures StartsWith(id, "simulated-") && |id| > |"simulated-"|
  {
    var id := "simulated-" + NatToString(now);
    assert id[..10] == "simulated-";
    id
  }

  /** The server as shown while its session is simulated. */
  function SimulatedServer(server: Server): (r: Server)
    ensures r.id == server.id && r.ip == server.ip && r.port == server.port
    ensures r.isSimulated && r.name == server.name + SimulatedSuffix
  {
    server.(name := server.name + SimulatedSuffix, isSimulated := true)
  }

  /**
   * `connectTcpToServer(server)`: a missing ip throws in the local-mode test and
   * the outer handler falls back to a simulated session; a local server gets the
   * fixed local session; otherwise the request's outcome decides.
   */
  function ConnectTcp(s: Session, server: Server, hostname: string, outcome: TcpOutcome, now: nat): (r: (Session, bool))
    // a failed session attempt changes nothing
    ensures !r.1 ==> r.0 == s
    // only the session id and the current server are ever written
    ensures r.0 == s.(sessionId := r.0.sessionId, current := r.0.current)
  {
    if server.ip.None? then (s.(sessionId := Some(SimulatedSessionId(now))), true)
    else if IsLocalMode(server.ip.value, hostname) then (s.(sessionId := Some(LocalSessionId)), true)
    else match outcome
      case Reply(status, id) =>
        if status == ConnectedStatus then (s.(sessionId := id), true) else (s, false)
      case FetchFailed =>
        (s.(sessionId := Some(SimulatedSessionId(now)), current := Some(SimulatedServer(server))), true)
  }

  /**
   * The request is the only thing that can fail, and only by a reply whose
   * status is not 'connected'; then nothing changes.
   */
  lemma ConnectTcpFailsOnlyOnRefusal(s: Session, server: Server, hostname: string, outcome: TcpOutcome, now: nat)
    ensures var r := ConnectTcp(s, server, hostname, outcome, now);
      !r.1 <==> server.ip.Some? && !IsLocalMode(server.ip.value, hostname) && outcome.Reply? && outcome.status != ConnectedStatus
    ensures !ConnectTcp(s, server, hostname, outcome, now).1 ==> ConnectTcp(s, server, hostname, outcome, now).0 == s
  {
  }

  /**
   * Establishing a session never touches the connection flag, the socket or the
   * server list, and renames the current server only on a failed request.
   */
  lemma ConnectTcpFrame(s: Session, server: Server, hostname: string, outcome: TcpOutcome, now: nat)
    ensures var r := ConnectTcp(s, server, hostname, outcome, now).0;
      r.connected == s.connected && r.socket == s.socket && r.servers == s.servers
    ensures var r := ConnectTcp(s, server, hostname, outcome, now).0;
      r.current != s.current ==>
        server.ip.Some? && !IsLocalMode(server.ip.value, hostname) && outcome.FetchFailed?
        && r.current == Some(SimulatedServer(server))
  {
  }

  /**
   * One outcome per case: a missing address falls back to a simulated id; a
   * local server gets the fixed local id; a 'connected' reply stores the
   * reply's id; a failed or aborted request stores a simulated id and shows
   * the server renamed as simulated. Only the last case renames the server.
   */
  lemma ConnectTcpSessionIds(s: Session, server: Server, hostname: string, outcome: TcpOutcome, now: nat)
    ensures var r := ConnectTcp(s, server, hostname, outcome, now);
      server.ip.None? ==>
        r.1 && r.0.sessionId == Some(SimulatedSessionId(now)) && r.0.current == s.current
    ensures var r := ConnectTcp(s, server, hostname, outcome, now);
      server.ip.Some? && IsLocalMode(server.ip.value, hostname) ==>
        r.1 && r.0.sessionId == Some(LocalSessionId) && r.0.current == s.current
    ensures var r := ConnectTcp(s, server, hostname, outcome, now);
      server.ip.Some? && !IsLocalMode(server.ip.value, hostname) && outcome.Reply? && outcome.status == ConnectedStatus ==>
        r.1 && r.0.sessionId == outcome.sessionId && r.0.current == s.current
    ensures var r := ConnectTcp(s, server, hostname, outcome, now);
      server.ip.Some? && !IsLocalMode(server.ip.value, hostname) && outcome.FetchFailed? ==>
        r.1 && r.0.sessionId == Some(SimulatedSessionId(now)) && r.0.current == Some(SimulatedServer(server))
  {
  }

  // ---------------------------------------------------------------------------
  // disconnectFromServer, addServer, removeServer
  // ---------------------------------------------------------------------------

  /**
   * `disconnectFromServer()`: closes the socket if there is one (the socket
   * itself stays in the state) and clears the connection, server and session.
   */
  function Disconnect(s: Session): (r: Session)
    ensures !r.connected && r.current.None? && r.sessionId.None?
    ensures r.servers == s.servers
    ensures r.socket == CloseSocket(s).socket
  {
    CloseSocket(s).(connected := false, current := None, sessionId := None)
  }

  /** A second disconnection changes nothing. */
  lemma {:induction false} DisconnectIdempotent(s: Session)
    ensures Disconnect(Disconnect(s)) == Disconnect(s)
  {
    CloseSocketIdempotent(s);
  }

  /** `servers.filter(server => server.id !== id)`. */
  function WithoutServer(servers: seq<Server>, id: string): (r: seq<Server>)
    ensures |r| <= |servers|
    ensures forall x :: x in r <==> x in servers && x.id != id
  {
    if servers == [] then []
    else (if servers[0].id != id then [servers[0]] else []) + WithoutServer(servers[1..], id)
  }

  /** The filter keeps the survivors in their order: it distributes over concatenation. */
  lemma {:induction false} WithoutServerAppend(a: seq<Server>, b: seq<Server>, id: string)
    ensures WithoutServer(a + b, id) == WithoutServer(a, id) + WithoutServer(b, id)
    decreases |a|
  {
    if a != [] {
      assert (a + b)[0] == a[0];
      assert (a + b)[1..] == a[1..] + b;
      WithoutServerAppend(a[1..], b, id);
    } else {
      assert a + b == b;
    }
  }

  /** Removing an id nobody has leaves the list as it was. */
  lemma {:induction false} WithoutAbsentServer(servers: seq<Server>, id: string)
    requires forall i :: 0 <= i < |servers| ==> servers[i].id != id
    ensures WithoutServer(servers, id) == servers
    decreases |servers|
  {
    if servers != [] {
      WithoutAbsentServer(servers[1..], id);
    }
  }

  /** `removeServer(id)`: filter the list, and disconnect when the current server had that id. */
  function ServerRemoved(s: Session, id: string): (r: Session)
    ensures r.servers == WithoutServer(s.servers, id)
    ensures s.current.Some? && s.current.value.id == id ==> r == Disconnect(s.(servers := r.servers))
    ensures !(s.current.Some? && s.current.value.id == id) ==> r == s.(servers := r.servers)
  {
    var filtered := s.(servers := WithoutServer(s.servers, id));
    if s.current.Some? && s.current.value.id == id then Disconnect(filtered) else filtered
  }

  /** The server `addServer` builds: the form's fields over an id taken from the clock. */
  function NewServer(data: ServerData, now: nat): (server: Server)
    ensures server.id == (if data.id.Some? then data.id.value else NatToString(now))
    ensures server.name == data.name && server.ip == data.ip && server.port == data.port && !server.isSimulated
  {
    Server(data.id.GetOr(NatToString(now)), data.name, data.ip, data.port, false)
  }

  /** `addServer(data)`: exactly one server is appended; nothing else changes. */
  function ServerAdded(s: Session, data: ServerData, now: nat): (r: (Session, Server))
    ensures r.1 == NewServer(data, now)
    ensures r.0 == s.(servers := s.servers + [r.1])
  {
    var server := NewServer(data, now);
    (s.(servers := s.servers + [server]), server)
  }

  /** Adding a server with a fresh id and removing it again restores the list. */
  lemma AddThenRemove(s: Session, data: ServerData, now: nat)
    requires forall i :: 0 <= i < |s.servers| ==> s.servers[i].id != NewServer(data, now).id
    ensures ServerRemoved(ServerAdded(s, data, now).0, NewServer(data, now).id).servers == s.servers
  {
    var server := NewServer(data, now);
    WithoutServerAppend(s.servers, [server], server.id);
    WithoutAbsentServer(s.servers, server.id);
    assert WithoutServer([server], server.id) == [];
  }

  // ---------------------------------------------------------------------------
  // The provider
  // ---------------------------------------------------------------------------

  class ServerProvider {
    var servers: seq<Server>
    var currentServer: Option<Server>
    var isConnected: bool
    var socket: Option<Socket>
    var sessionId: Option<string>

    function State(): Session
      reads this
    {
      Session(servers, currentServer, isConnected, socket, sessionId)
    }

    /**
     * Mounting the provider: the saved server list or the defaults, and the
     * saved current server; nothing is connected yet.
     */
    constructor (saved: Option<seq<Server>>, lastServer: Option<Server>)
      ensures State() == Session(saved.GetOr(DefaultServers), lastServer, false, None, None)
    {
      servers := saved.GetOr(DefaultServers);
      currentServer := lastServer;
      isConnected := false;
      socket := None;
      sessionId := None;
    }

    /** `if (socket) socket.close()`. */
    method CloseSocketIfAny()
      modifies this
      ensures State() == CloseSocket(old(State()))
    {
      if socket.Some? {
        match socket.value
        case LocalMock(_) =>
          isConnected := false;
          socket := Some(LocalMock(true));
        case WebSocket(server, _) =>
          socket := Some(WebSocket(server, Closing));
      }
    }

    method ConnectToServer(server: Server, hostname: string) returns (ok: bool)
      modifies this
      ensures (State(), ok) == Connect(old(State()), server, hostname)
    {
      CloseSocketIfAny();
      if server.ip.None? {
        return false;
      }
      if IsLocalMode(server.ip.value, hostname) {
        isConnected := true;
        currentServer := Some(server);
        socket := Some(LocalMock(false));
        return true;
      }
      socket := Some(WebSocket(server, Connecting));
      return true;
    }

    method OnOpen()
      modifies this
      ensures State() == SocketOpened(old(State()))
    {
      if socket.Some? && socket.value.WebSocket? && socket.value.readyState == Connecting {
        var server := socket.value.server;
        isConnected := true;
        currentServer := Some(server);
        socket := Some(WebSocket(server, Open));
      }
    }

    method OnClose()
      modifies this
      ensures State() == SocketClosed(old(State()))
    {
      if socket.Some? && socket.value.WebSocket? {
        isConnected := false;
        socket := None;
      }
    }

    method OnConnectTimeout()
      modifies this
      ensures State() == ConnectTimeout(old(State()))
    {
      if socket.Some? && socket.value.WebSocket? && socket.value.readyState != Open {
        CloseSocketIfAny();
      }
    }

    method ConnectTcpToServer(server: Server, hostname: string, outcome: TcpOutcome, now: nat) returns (ok: bool)
      modifies this
      ensures (State(), ok) == ConnectTcp(old(State()), server, hostname, outcome, now)
    {
      if server.ip.None? {
        sessionId := Some(SimulatedSessionId(now));
        return true;
      }
      if IsLocalMode(server.ip.value, hostname) {
        sessionId := Some(LocalSessionId);
        return true;
      }
      match outcome
      case Reply(status, id) =>
        if status == ConnectedStatus {
          sessionId := id;
          return true;
        }
        return false;
      case FetchFailed =>
        sessionId := Some(SimulatedSessionId(now));
        currentServer := Some(SimulatedServer(server));
        return true;
    }

    method DisconnectFromServer()
      modifies this
      ensures State() == Disconnect(old(State()))
    {
      CloseSocketIfAny();
      isConnected := false;
      currentServer := None;
      sessionId := None;
    }

    method AddServer(data: ServerData, now: nat) returns (server: Server)
      modifies this
      ensures (State(), server) == ServerAdded(old(State()), data, now)
    {
      server := NewServer(data, now);
      servers := servers + [server];
    }

    method RemoveServer(id: string)
      modifies this
      ensures State() == ServerRemoved(old(State()), id)
    {
      servers := WithoutServer(servers, id);
      if currentServer.Some? && currentServer.value.id == id {
        DisconnectFromServer();
      }
    }
  }
}
