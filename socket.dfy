/**
 * The connection lifecycle of `SocketProvider`: one nullable handle
 * (`socketRef.current`) and one flag (`isConnected`).
 *
 * A `Transport` stands for a socket.io client socket and records only what
 * the provider does to it: how it was created, how often it was told to
 * connect and to disconnect. The transport's own `connect`/`disconnect`
 * events are methods of the provider (the listeners it registered), so any
 * interleaving of events the network produces can be played against it.
 */
module Socket {
  import opened Js

  const DefaultEndpoint: string := "http://localhost:3000"

  /**
   * `customUrl || url || import.meta.env.VITE_API_URL || 'http://localhost:3000'`:
   * the first candidate that is present and non-empty, never the empty string.
   */
  function Endpoint(customUrl: Option<string>, url: Option<string>, envUrl: Option<string>): (e: string)
    ensures e != ""
    ensures NonEmpty(customUrl) ==> e == customUrl.value
    ensures !NonEmpty(customUrl) && NonEmpty(url) ==> e == url.value
    ensures !NonEmpty(customUrl) && !NonEmpty(url) && NonEmpty(envUrl) ==> e == envUrl.value
    ensures !NonEmpty(customUrl) && !NonEmpty(url) && !NonEmpty(envUrl) ==> e == DefaultEndpoint
  {
    var c := [customUrl, url, envUrl];
    var e := FirstNonEmpty(c, DefaultEndpoint);
    assert e == if NonEmpty(customUrl) then customUrl.value
                else if NonEmpty(url) then url.value
                else if NonEmpty(envUrl) then envUrl.value
                else DefaultEndpoint by {
      if NonEmpty(customUrl) {
        FirstNonEmptyPicksFirst(c, DefaultEndpoint, 0);
      } else if NonEmpty(url) {
        FirstNonEmptyPicksFirst(c, DefaultEndpoint, 1);
      } else if NonEmpty(envUrl) {
        FirstNonEmptyPicksFirst(c, DefaultEndpoint, 2);
      } else {
        FirstNonEmptyAllEmpty(c, DefaultEndpoint);
      }
    }
    e
  }

  /** A socket.io client socket, as created by `io(endpoint, options)`. */
  class Transport {
    const endpoint: string
    const token: string               // `auth: { token }`
    const transports: seq<string>    // `transports: ['websocket']`
    const withCredentials: bool
    const autoConnect: bool
    var connectCalls: nat             // calls of `s.connect()`
    var disconnectCalls: nat          // calls of `s.disconnect()`

    /** `io(endpoint, { transports: ['websocket'], withCredentials: false, autoConnect: false, auth: { token } })` */
    constructor (endpoint: string, token: string)
      ensures this.endpoint == endpoint && this.token == token
      ensures transports == ["websocket"] && !withCredentials && !autoConnect
      ensures connectCalls == 0 && disconnectCalls == 0
    {
      this.endpoint := endpoint;
      this.token := token;
      transports := ["websocket"];
      withCredentials := false;
      autoConnect := false;
      connectCalls := 0;
      disconnectCalls := 0;
    }

    /** `s.connect()` */
    method Connect()
      modifies this`connectCalls
      ensures connectCalls == old(connectCalls) + 1
    {
      connectCalls := connectCalls + 1;
    }

    /** `s.disconnect()` */
    method Disconnect()
      modifies this`disconnectCalls
      ensures disconnectCalls == old(disconnectCalls) + 1
    {
      disconnectCalls := disconnectCalls + 1;
    }
  }

  /** `SocketProvider({ url })` */
  class SocketProvider {
    const url: Option<string>         // the provider's `url` prop
    const envUrl: Option<string>      // `import.meta.env.VITE_API_URL`
    var socket: Transport?            // `socketRef.current`
    var isConnected: bool
    /** Every handle `connect` created, oldest first; each carries this provider's listeners. */
    ghost var handles: seq<Transport>

    /**
     * Every handle was created without auto-connect and told to connect
     * exactly once, the current handle is the newest one, and every older
     * handle has been told to disconnect: no handle leaks.
     */
    ghost predicate Valid()
      reads this, handles
    {
      && (forall i :: 0 <= i < |handles| ==> !handles[i].autoConnect && handles[i].connectCalls == 1)
      && (socket != null ==> |handles| > 0 && socket == handles[|handles| - 1] && socket.disconnectCalls == 0)
      && (forall i :: 0 <= i < |handles| && handles[i] != socket ==> handles[i].disconnectCalls > 0)
      && (forall i, j :: 0 <= i < j < |handles| ==> handles[i] != handles[j])
    }

    constructor (url: Option<string>, envUrl: Option<string>)
      ensures Valid()
      ensures this.url == url && this.envUrl == envUrl
      ensures socket == null && !isConnected && handles == []
    {
      this.url := url;
      this.envUrl := envUrl;
      socket := null;
      isConnected := false;
      handles := [];
    }

    /**
     * `connect({ token, url: customUrl })`: tears down the current handle,
     * then creates a handle for the chosen endpoint with the token in its
     * handshake, starts it once and makes it current. The flag is left as it
     * was: only the transport's events change it.
     */
    method Connect(token: string, customUrl: Option<string>)
      requires Valid()
      modifies this, socket
      ensures Valid()
      ensures socket != null && fresh(socket)
      ensures socket.endpoint == Endpoint(customUrl, url, envUrl) && socket.token == token
      ensures socket.transports == ["websocket"] && !socket.withCredentials && !socket.autoConnect
      ensures socket.connectCalls == 1 && socket.disconnectCalls == 0
      ensures handles == old(handles) + [socket]
      ensures old(socket) != null ==> old(socket).disconnectCalls == old(socket.disconnectCalls) + 1
      ensures isConnected == old(isConnected)
    {
      var endpoint := Endpoint(customUrl, url, envUrl);
      if socket != null {
        socket.Disconnect();
        socket := null;
      }
      var s := new Transport(endpoint, token);
      handles := handles + [s];
      s.Connect();
      socket := s;
    }

    /** The `disconnect()` the provider exposes. */
    method Disconnect()
      requires Valid()
      modifies this, socket
      ensures Valid()
      ensures socket == null && handles == old(handles)
      ensures old(socket) != null ==> old(socket).disconnectCalls == old(socket.disconnectCalls) + 1 && !isConnected
      ensures old(socket) == null ==> isConnected == old(isConnected)
    {
      if socket != null {
        socket.Disconnect();
        socket := null;
        isConnected := false;
      }
    }

    /** The unmount cleanup: disconnects the current handle, if any, and clears nothing. */
    method Unmount()
      requires Valid()
      modifies socket
      ensures forall i :: 0 <= i < |handles| ==> handles[i].disconnectCalls > 0
      ensures old(socket) != null ==> socket.disconnectCalls == old(socket.disconnectCalls) + 1
    {
      if socket != null {
        socket.Disconnect();
      }
    }

    /** The `'connect'` listener registered on handle `h`: `setIsConnected(true)`. */
    method OnConnectEvent(h: Transport)
      requires Valid() && h in handles
      modifies this`isConnected
      ensures Valid() && isConnected
    {
      isConnected := true;
    }

    /** The `'disconnect'` listener registered on handle `h`: `setIsConnected(false)`. */
    method OnDisconnectEvent(h: Transport)
      requires Valid() && h in handles
      modifies this`isConnected
      ensures Valid() && !isConnected
    {
      isConnected := false;
    }
  }

  /** `disconnect()` twice in a row leaves the state a single call leaves. */
  method DisconnectTwice(p: SocketProvider)
    requires p.Valid()
    modifies p, p.socket
    ensures p.Valid() && p.socket == null && p.handles == old(p.handles)
    ensures old(p.socket) != null ==> old(p.socket).disconnectCalls == old(p.socket.disconnectCalls) + 1 && !p.isConnected
    ensures old(p.socket) == null ==> p.isConnected == old(p.isConnected)
  {
    p.Disconnect();
    p.Disconnect();
  }

  /**
   * Listeners are never removed and events carry no generation: after a
   * second `connect`, a late `'connect'` event of the first handle still
   * sets the flag, though the current handle has not connected.
   */
  method StaleHandleStillSetsFlag(p: SocketProvider)
    requires p.Valid() && p.socket == null && !p.isConnected
    modifies p, p.handles
    ensures p.Valid() && p.isConnected && p.socket != null
    ensures |p.handles| >= 2 && p.handles[|p.handles| - 2] != p.socket
  {
    p.Connect("first", None);
    var first := p.socket;
    p.Connect("second", None);
    assert first == p.handles[|p.handles| - 2];
    p.OnConnectEvent(first);
  }

  /** What the context publishes. */
  datatype ContextValue = ContextValue(socket: Transport?, isConnected: bool)

  const OutsideProvider: string := "useSocket must be used within SocketProvider"

  /** `useSocket()`: the context value, or an error when there is no provider above. */
  function UseSocket(ctx: Option<ContextValue>): (r: Result<ContextValue, string>)
    ensures r.Err? <==> ctx.None?
    ensures r.Err? ==> r.error == OutsideProvider
    ensures ctx.Some? ==> r == Ok(ctx.value)
  {
    if ctx.None? then Err(OutsideProvider) else Ok(ctx.value)
  }
}
