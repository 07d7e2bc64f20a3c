/**
 * The browser refresh server of `dotnet watch`: one WebSocket slot, the web
 * host that accepts into it, and the one-shot signal that lets the accepting
 * request handler finish. The watch loop pushes the text commands "Reload"
 * and "Wait" to whichever browser is connected, on a best-effort basis.
 */
module RefreshServer {
  import opened Wrappers
  import opened Utf8
  import Endpoint

  /** `WebSocketCloseStatus.NormalClosure`: status code 1000 of RFC 6455 section 7.4.1. */
  const NormalClosure: nat := 1000

  /** The UTF-8 bytes of the two commands of the protocol. */
  const ReloadMessage: seq<byte> := EncodeAscii("Reload")
  const WaitMessage: seq<byte> := EncodeAscii("Wait")

  /** The two commands, as bytes on the wire and as the text a browser decodes. */
  lemma CommandBytes()
    ensures ReloadMessage == [0x52, 0x65, 0x6C, 0x6F, 0x61, 0x64]
    ensures WaitMessage == [0x57, 0x61, 0x69, 0x74]
    ensures DecodeAscii(ReloadMessage) == Some("Reload")
    ensures DecodeAscii(WaitMessage) == Some("Wait")
  {
    var r := ReloadMessage;
    assert |r| == 6;
    assert r[0] == 0x52 && r[1] == 0x65 && r[2] == 0x6C && r[3] == 0x6F && r[4] == 0x61 && r[5] == 0x64;
    var w := WaitMessage;
    assert |w| == 4;
    assert w[0] == 0x57 && w[1] == 0x61 && w[2] == 0x69 && w[3] == 0x74;
    AsciiRoundTrip("Reload");
    AsciiRoundTrip("Wait");
  }

  datatype MessageType = Text | Binary

  /** A frame written to a connection: a data frame (RFC 6455 section 5.6) or the Close control frame (section 5.5.1). */
  datatype Frame =
    | Data(messageType: MessageType, payload: seq<byte>, endOfMessage: bool)
    | Close(status: nat, description: Option<string>)

  /** Why a socket operation throws. */
  datatype SocketError =
    | InvalidState             // the socket is disposed, or has already sent its Close frame
    | Transport(reason: string) // the connection failed, or the write was cancelled

  /** A diagnostic written through `IReporter.Verbose`; only the exception it reports is modelled. */
  datatype LogEntry = VerboseEntry(error: SocketError)

  /** The task the request handler returns: finished, or suspended until the shutdown signal fires. */
  datatype RequestTask = Completed | AwaitingShutdown

  datatype StartError =
    | BindFailed(reason: string) // the host could not claim its endpoint
    | NoServerAddress            // `Addresses.First()` on an empty list

  /** An accepted server-side WebSocket, reduced to what the refresh server can observe and cause. */
  class WebSocket {
    /** `CloseStatus`: the status of the Close frame read from the peer, once one has been read. */
    var closeStatus: Option<nat>
    /** The Close frame has been sent (`CloseOutputAsync` went through). */
    var outputClosed: bool
    var disposed: bool
    /** Every frame written to the connection, in order. */
    var sentFrames: seq<Frame>

    /** Section 5.5.1 of RFC 6455: nothing follows the Close frame, and it is there exactly when the output is closed. */
    ghost predicate Valid()
      reads this
    {
      && (forall i :: 0 <= i < |sentFrames| && sentFrames[i].Close? ==> i == |sentFrames| - 1)
      && (outputClosed <==> sentFrames != [] && sentFrames[|sentFrames| - 1].Close?)
    }

    /** The socket `AcceptWebSocketAsync` hands over: open, nothing sent. */
    constructor Accept()
      ensures Valid()
      ensures closeStatus == None && !outputClosed && !disposed && sentFrames == []
    {
      closeStatus := None;
      outputClosed := false;
      disposed := false;
      sentFrames := [];
    }

    /**
     * The exception a write raises now: a disposed or output-closed socket
     * refuses every write; otherwise `fault` is what the transport raises
     * (`None` when it delivers).
     */
    function WriteError(fault: Option<string>): (error: Option<SocketError>)
      reads this
      ensures (disposed || outputClosed) ==> error == Some(InvalidState)
      ensures error.None? <==> !disposed && !outputClosed && fault.None?
    {
      if disposed || outputClosed then Some(InvalidState)
      else if fault.Some? then Some(Transport(fault.value))
      else None
    }

    /** `SendAsync(payload, messageType, endOfMessage, token)`: one data frame, or an exception and nothing sent. */
    method SendAsync(payload: seq<byte>, messageType: MessageType, endOfMessage: bool, fault: Option<string>)
      returns (error: Option<SocketError>)
      requires Valid()
      modifies this
      ensures Valid()
      ensures error == old(WriteError(fault))
      ensures error.None? ==> sentFrames == old(sentFrames) + [Data(messageType, payload, endOfMessage)]
      ensures error.Some? ==> sentFrames == old(sentFrames)
      ensures closeStatus == old(closeStatus) && outputClosed == old(outputClosed) && disposed == old(disposed)
    {
      error := WriteError(fault);
      if error.None? {
        sentFrames := sentFrames + [Data(messageType, payload, endOfMessage)];
      }
    }

    /** `CloseOutputAsync(status, description, token)`: the Close frame, after which the output side is closed. */
    method CloseOutputAsync(status: nat, description: Option<string>, fault: Option<string>)
      returns (error: Option<SocketError>)
      requires Valid()
      modifies this
      ensures Valid()
      ensures error == old(WriteError(fault))
      ensures error.None? ==> sentFrames == old(sentFrames) + [Close(status, description)] && outputClosed
      ensures error.Some? ==> unchanged(this)
      ensures closeStatus == old(closeStatus) && disposed == old(disposed)
    {
      error := WriteError(fault);
      if error.None? {
        sentFrames := sentFrames + [Close(status, description)];
        outputClosed := true;
      }
    }

    /**
     * An environment step, not a server operation: it stands for a receive
     * that reads the peer's Close frame, the only way `CloseStatus` gets a
     * value. The refresh server never receives, so in the program the
     * `CloseStatus` test of `SendMessage` never fires: after a browser
     * closes, sends are still attempted and their failures are logged. The
     * step exists so that scenarios can reach a socket with `CloseStatus` set.
     */
    method ReceiveCloseFrame(status: nat)
      requires Valid()
      modifies this
      ensures Valid()
      ensures closeStatus == Some(status)
      ensures outputClosed == old(outputClosed) && disposed == old(disposed) && sentFrames == old(sentFrames)
    {
      closeStatus := Some(status);
    }

    method Dispose()
      requires Valid()
      modifies this
      ensures Valid()
      ensures disposed
      ensures closeStatus == old(closeStatus) && outputClosed == old(outputClosed) && sentFrames == old(sentFrames)
    {
      disposed := true;
    }
  }

  /** The web host (`IHost`) serving the upgrade endpoint. */
  class Host {
    /** The URL given to `UseUrls`. */
    const url: string
    var started: bool
    var disposed: bool
    /** `IServerAddressesFeature.Addresses`: what the server actually bound. */
    var addresses: seq<string>

    constructor Build(url: string)
      ensures this.url == url && !started && !disposed && addresses == []
    {
      this.url := url;
      started := false;
      disposed := false;
      addresses := [];
    }

    /**
     * `StartAsync(token)`: binds and starts serving; `bindFault` is the error
     * the binding raises, `boundAddresses` what it bound otherwise.
     */
    method StartAsync(bindFault: Option<string>, boundAddresses: seq<string>) returns (error: Option<string>)
      modifies this
      ensures error == bindFault
      ensures started == (bindFault.None? || old(started))
      ensures addresses == if bindFault.None? then boundAddresses else old(addresses)
      ensures disposed == old(disposed)
    {
      error := bindFault;
      if bindFault.None? {
        started := true;
        addresses := boundAddresses;
      }
    }

    method Dispose()
      modifies this
      ensures disposed
      ensures started == old(started) && addresses == old(addresses)
    {
      disposed := true;
    }
  }

  /** The part of an `HttpContext` the request handler reads and writes. */
  class HttpContext {
    /** `WebSockets.IsWebSocketRequest` */
    const isWebSocketRequest: bool
    /** `Response.StatusCode` */
    var statusCode: int

    constructor(isWebSocketRequest: bool)
      ensures this.isWebSocketRequest == isWebSocketRequest && statusCode == 200
    {
      this.isWebSocketRequest := isWebSocketRequest;
      statusCode := 200;
    }

    /**
     * `WebSockets.AcceptWebSocketAsync()`: completes the HTTP/1.1 upgrade
     * handshake, answering 101 Switching Protocols, and hands back a new
     * open socket.
     */
    method AcceptWebSocketAsync() returns (socket: WebSocket)
      requires isWebSocketRequest
      modifies this
      ensures statusCode == 101
      ensures fresh(socket) && socket.Valid()
      ensures socket.closeStatus == None && !socket.outputClosed && !socket.disposed
      ensures socket.sentFrames == []
    {
      statusCode := 101;
      socket := new WebSocket.Accept();
    }
  }

  /** The `IReporter` the server logs to. */
  class Reporter {
    var entries: seq<LogEntry>

    constructor()
      ensures entries == []
    {
      entries := [];
    }

    method Verbose(error: SocketError)
      modifies this
      ensures entries == old(entries) + [VerboseEntry(error)]
    {
      entries := entries + [VerboseEntry(error)];
    }
  }

  /** A `TaskCompletionSource` without a result: fires once, later attempts change nothing. */
  class CompletionSignal {
    var completed: bool

    constructor()
      ensures !completed
    {
      completed := false;
    }

    /** `TrySetResult()`: completes the task and says whether this call was the one that did. */
    method TrySetResult() returns (fired: bool)
      modifies this
      ensures completed
      ensures fired == !old(completed)
    {
      fired := !completed;
      completed := true;
    }
  }

  class BrowserRefreshServer {
    const reporter: Reporter
    /** `_taskCompletionSource`: the signal the accepting request handler waits on. */
    const taskCompletionSource: CompletionSignal
    /** `_refreshServer` */
    var refreshServer: Host?
    /** `_webSocket`: the one connection slot. */
    var webSocket: WebSocket?

    ghost predicate Valid()
      reads this, webSocket
    {
      webSocket != null ==> webSocket.Valid()
    }

    constructor(reporter: Reporter)
      ensures Valid()
      ensures this.reporter == reporter && refreshServer == null && webSocket == null
      ensures fresh(taskCompletionSource) && !taskCompletionSource.completed
    {
      this.reporter := reporter;
      taskCompletionSource := new CompletionSignal();
      refreshServer := null;
      webSocket := null;
    }

    /**
     * `StartAsync`: builds a host bound to `GetAutoReloadUrl(configuredEnv)`,
     * starts it and reports the first bound address rewritten for the
     * browser. The host is stored before it starts, so a host whose binding
     * failed is still disposed by `DisposeAsync`.
     */
    method StartAsync(configuredEnv: Option<string>, tryCreate: Endpoint.UriParser,
                      bindFault: Option<string>, boundAddresses: seq<string>)
      returns (result: Result<string, StartError>)
      requires Valid()
      modifies this
      ensures Valid() && webSocket == old(webSocket)
      ensures refreshServer != null && fresh(refreshServer) && !refreshServer.disposed
      ensures refreshServer.url == Endpoint.GetAutoReloadUrl(configuredEnv, tryCreate)
      ensures bindFault.Some? ==> !refreshServer.started && result == Failure(BindFailed(bindFault.value))
      ensures bindFault.None? ==> refreshServer.started && refreshServer.addresses == boundAddresses
      ensures bindFault.None? && boundAddresses == [] ==> result == Failure(NoServerAddress)
      ensures bindFault.None? && boundAddresses != [] ==>
                result == Success(Endpoint.ClientUrl(boundAddresses[0]))
    {
      var url := Endpoint.GetAutoReloadUrl(configuredEnv, tryCreate);
      var host := new Host.Build(url);
      refreshServer := host;
      var error := host.StartAsync(bindFault, boundAddresses);
      if error.Some? {
        return Failure(BindFailed(error.value));
      }
      if host.addresses == [] {
        return Failure(NoServerAddress);
      }
      result := Success(Endpoint.ClientUrl(host.addresses[0]));
    }

    /**
     * `WebSocketRequest`: a request that is not a WebSocket upgrade gets
     * status 400; an upgrade is answered with 101 and accepted into the slot, replacing whatever
     * socket was there without closing it, and the handler then waits for
     * the shutdown signal.
     */
    method WebSocketRequest(context: HttpContext) returns (task: RequestTask)
      requires Valid()
      modifies this`webSocket, context
      ensures Valid()
      ensures !context.isWebSocketRequest ==>
                context.statusCode == 400 && webSocket == old(webSocket) && task == Completed
      ensures context.isWebSocketRequest ==>
                && context.statusCode == 101
                && webSocket != null && fresh(webSocket)
                && webSocket.closeStatus == None && !webSocket.outputClosed && !webSocket.disposed
                && webSocket.sentFrames == []
                && task == (if taskCompletionSource.completed then Completed else AwaitingShutdown)
      ensures old(webSocket) != null ==> unchanged(old(webSocket))
    {
      if !context.isWebSocketRequest {
        context.statusCode := 400;
        return Completed;
      }
      webSocket := context.AcceptWebSocketAsync();
      task := if taskCompletionSource.completed then Completed else AwaitingShutdown;
    }

    /**
     * What `SendMessage(messageBytes)` does: nothing without an open socket;
     * otherwise one final text frame holding exactly `messageBytes`, or, when
     * the write throws, nothing sent and the exception logged.
     */
    twostate predicate SendEffect(messageBytes: seq<byte>, fault: Option<string>)
      reads this, webSocket, reporter
    {
      && webSocket == old(webSocket)
      && (webSocket == null || old(webSocket.closeStatus).Some? ==>
            && reporter.entries == old(reporter.entries)
            && (webSocket != null ==> unchanged(webSocket)))
      && (webSocket != null && old(webSocket.closeStatus).None? ==>
            && webSocket.closeStatus == old(webSocket.closeStatus)
            && webSocket.outputClosed == old(webSocket.outputClosed)
            && webSocket.disposed == old(webSocket.disposed)
            && (old(webSocket.WriteError(fault)).None? ==>
                  && webSocket.sentFrames == old(webSocket.sentFrames) + [Data(Text, messageBytes, true)]
                  && reporter.entries == old(reporter.entries))
            && (old(webSocket.WriteError(fault)).Some? ==>
                  && webSocket.sentFrames == old(webSocket.sentFrames)
                  && reporter.entries == old(reporter.entries) + [VerboseEntry(old(webSocket.WriteError(fault)).value)]))
    }

    /** `SendMessage`: best effort; it never throws. */
    method SendMessage(messageBytes: seq<byte>, fault: Option<string>)
      requires Valid()
      modifies webSocket, reporter
      ensures Valid()
      ensures SendEffect(messageBytes, fault)
    {
      if webSocket == null || webSocket.closeStatus.Some? {
        return;
      }
      var error := webSocket.SendAsync(messageBytes, Text, true, fault);
      if error.Some? {
        reporter.Verbose(error.value);
      }
    }

    /** `ReloadAsync`: sends the bytes of "Reload". */
    method ReloadAsync(fault: Option<string>)
      requires Valid()
      modifies webSocket, reporter
      ensures Valid()
      ensures SendEffect(ReloadMessage, fault)
    {
      SendMessage(ReloadMessage, fault);
    }

    /** `SendWaitMessageAsync`: sends the bytes of "Wait". */
    method SendWaitMessageAsync(fault: Option<string>)
      requires Valid()
      modifies webSocket, reporter
      ensures Valid()
      ensures SendEffect(WaitMessage, fault)
    {
      SendMessage(WaitMessage, fault);
    }

    /**
     * `DisposeAsync`: closes the socket in the slot with a Normal Closure
     * and disposes it, disposes the host, and fires the shutdown signal.
     * The slot keeps its socket. A close that throws (`closeFault`, or a
     * socket already closed or disposed) leaves the method at once: nothing
     * after it happens and the exception reaches the caller.
     */
    method DisposeAsync(closeFault: Option<string>) returns (error: Option<SocketError>)
      requires Valid()
      modifies webSocket, refreshServer, taskCompletionSource
      ensures Valid()
      ensures webSocket == old(webSocket) && refreshServer == old(refreshServer)
      ensures webSocket != null && old(webSocket.WriteError(closeFault)).Some? ==>
                && error == old(webSocket.WriteError(closeFault))
                && unchanged(webSocket) && unchanged(taskCompletionSource)
                && (refreshServer != null ==> unchanged(refreshServer))
      ensures webSocket == null || old(webSocket.WriteError(closeFault)).None? ==>
                && error == None
                && (webSocket != null ==>
                      && webSocket.sentFrames == old(webSocket.sentFrames) + [Close(NormalClosure, None)]
                      && webSocket.outputClosed && webSocket.disposed
                      && webSocket.closeStatus == old(webSocket.closeStatus))
                && (refreshServer != null ==>
                      && refreshServer.disposed
                      && refreshServer.started == old(refreshServer.started)
                      && refreshServer.addresses == old(refreshServer.addresses))
                && taskCompletionSource.completed
    {
      if webSocket != null {
        error := webSocket.CloseOutputAsync(NormalClosure, None, closeFault);
        if error.Some? {
          return;
        }
        webSocket.Dispose();
      }
      error := None;
      if refreshServer != null {
        refreshServer.Dispose();
      }
      var _ := taskCompletionSource.TrySetResult();
    }
  }

  /**
   * A browser connects, one reload is pushed, the server is disposed, a wait
   * message is attempted afterwards and the server is disposed once more:
   * the browser sees the reload and the Close frame; the late message is
   * dropped with a log entry; the second dispose throws.
   */
  method ConnectReloadDispose()
    returns (frames: seq<Frame>, log: seq<LogEntry>, firstDispose: Option<SocketError>, secondDispose: Option<SocketError>)
    ensures frames == [Data(Text, ReloadMessage, true), Close(NormalClosure, None)]
    ensures log == [VerboseEntry(InvalidState)]
    ensures firstDispose == None && secondDispose == Some(InvalidState)
  {
    var reporter := new Reporter();
    var server := new BrowserRefreshServer(reporter);
    var request := new HttpContext(true);
    var _ := server.WebSocketRequest(request);
    server.ReloadAsync(None);
    firstDispose := server.DisposeAsync(None);
    server.SendWaitMessageAsync(None);
    secondDispose := server.DisposeAsync(None);
    frames := server.webSocket.sentFrames;
    log := reporter.entries;
  }

  /**
   * Messages pushed while no browser is connected, or to a socket whose
   * `CloseStatus` is set, are dropped: nothing is sent and nothing is
   * logged, even when the transport would have failed.
   */
  method SendsWithoutOpenSocketAreDropped() returns (frames: seq<Frame>, log: seq<LogEntry>)
    ensures frames == [] && log == []
  {
    var reporter := new Reporter();
    var server := new BrowserRefreshServer(reporter);
    server.ReloadAsync(None);
    var request := new HttpContext(true);
    var _ := server.WebSocketRequest(request);
    var socket := server.webSocket;
    socket.ReceiveCloseFrame(NormalClosure);
    server.SendWaitMessageAsync(Some("connection reset"));
    server.ReloadAsync(None);
    frames := socket.sentFrames;
    log := reporter.entries;
  }
}
