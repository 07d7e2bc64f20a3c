# Browser refresh server of `dotnet watch`, modelled in Dafny

`BrowserRefreshServer` is the small server that `dotnet watch` uses to tell a
browser page to reload. It starts a web host on a loopback endpoint. It accepts
one WebSocket into a single slot. It then pushes the text commands `"Reload"`
and `"Wait"` to that socket on a best-effort basis. A message goes nowhere when
no socket is open, and a failed write is logged and swallowed. `DisposeAsync`
closes the socket with a Normal Closure, disposes the host and fires the
one-shot signal that the accepting request handler waits on.

The project has five modules:

- `wrappers.dfy` (`Wrappers`): `Option` stands for a C# `null` or a failed `TryX`. `Result` stands for an operation that may throw.
- `text.dfy` (`Text`): the .NET string operations the code relies on. These are `String.Replace(string, string)`, modelled as a left-to-right, non-overlapping replace-all, and the decimal text of an `int` as string interpolation writes it. It also holds the lemmas about them. The ordinal search (`IndexOf`, `LastIndexOf`) and the integer parser there serve only `SplitOrigin`, the reader used to state properties of the formatted URL. The code itself never searches or parses.
- `endpoint.dfy` (`Endpoint`): `GetAutoReloadUrl` and the `http://` to `ws://` rewrite at the end of `StartAsync`, as pure functions. It also holds `SplitOrigin`, which reads `scheme://host:port` back and serves as the inverse of the formatting.
- `utf8.dfy` (`Utf8`): the ASCII part of UTF-8, which is all the two commands need, with its decoder.
- `refresh_server.dfy` (`RefreshServer`): the imperative part. Its classes are `BrowserRefreshServer` (the fields `_refreshServer`, `_webSocket` and `_taskCompletionSource`) and the objects it drives: `WebSocket`, `Host`, `HttpContext`, `Reporter` and `CompletionSignal`.

Every input from outside the code is a parameter:

- The environment variable `DOTNET_WATCH_AUTO_RELOAD_WS_HOSTNAME` is an `Option<string>`.
- `Uri.TryCreate` is a parameter of type `string -> Option<Uri>`.
- The outcome of binding, and the bound addresses, are parameters.
- The exception a transport write would raise is an `Option<string>`. A cancelled write is represented only by its fault.

The `WebSocket` object follows a few rules of `System.Net.WebSockets`:

- A write or a close on a socket that is disposed, or that has already sent its Close frame, throws. The model names this `InvalidState`.
- Otherwise the frame is written unless the transport fails.
- Section 5.5.1 of RFC 6455 requires that nothing is sent after the Close frame. This is the `WebSocket.Valid()` invariant, and every operation preserves it.

Two properties of the code worth knowing:

- Dispose is not idempotent in the code. `DisposeAsync` does not clear `_webSocket`. A second call therefore calls `CloseOutputAsync` again on the disposed socket, which throws, and the exception reaches the caller. The model follows the code. `ConnectReloadDispose` proves this outcome.
- An `https://` address does not become `wss://`. Line 79 replaces only `http://`, so an HTTPS address is handed out unchanged (`HttpsAddressUnchanged`). On the configuration side, line 42 replaces every `ws://`, not only a leading one.

## Model

| member | source | states |
|---|---|---|
| `Text.ReplaceAll` | src/BuiltInTools/dotnet-watch/BrowserRefreshServer.cs:42 | `String.Replace`: a string with no occurrence of the pattern comes back unchanged (proved from the recursive calls' contracts) |
| `Text.ReplaceLeavesNoOccurrence` | src/BuiltInTools/dotnet-watch/BrowserRefreshServer.cs:79 | if neither string begins with a character of the other, replace-all leaves no occurrence of the pattern behind |
| `Text.ReplaceRoundTrip` | src/BuiltInTools/dotnet-watch/BrowserRefreshServer.cs:79 | replacing `a` by `b` and then `b` by `a` restores any string that held no `b` (when `b` does not repeat its first character) |
| `Text.IntText` | src/BuiltInTools/dotnet-watch/BrowserRefreshServer.cs:44 | the port as invariant-culture interpolation writes it; the text never holds `:` |
| `Text.IntTextRoundTrip` | src/BuiltInTools/dotnet-watch/BrowserRefreshServer.cs:44 | the decimal text of any port, negative included, reads back as that port |
| `Endpoint.Normalise` | src/BuiltInTools/dotnet-watch/BrowserRefreshServer.cs:42 | the text handed to `Uri.TryCreate` contains no `ws://` at all, and a value without `ws://` is passed on unchanged |
| `Endpoint.ConfiguredUri` | src/BuiltInTools/dotnet-watch/BrowserRefreshServer.cs:42 | a null configuration is never parsed; a value without `ws://` is parsed exactly as given |
| `Endpoint.OriginText` | src/BuiltInTools/dotnet-watch/BrowserRefreshServer.cs:44 | `scheme://host:port` reads back as the scheme, host and port it was written from, for any host and any scheme without `:` |
| `Endpoint.GetAutoReloadUrl` | src/BuiltInTools/dotnet-watch/BrowserRefreshServer.cs:37-48 | a null or unparsable configuration gives the default URL, with no error; a configuration that parses gives a URL that reads back as that URI's scheme, host and port (for any scheme without `:`) |
| `Endpoint.ClientUrl` | src/BuiltInTools/dotnet-watch/BrowserRefreshServer.cs:79 | the URL handed to the browser contains no `http://` at all, and an address without `http://` is handed out unchanged |
| `Endpoint.HttpAddressBecomesWs` | src/BuiltInTools/dotnet-watch/BrowserRefreshServer.cs:79 | `http://rest` is handed out as `ws://rest` |
| `Endpoint.HttpsAddressUnchanged` | src/BuiltInTools/dotnet-watch/BrowserRefreshServer.cs:79 | `https://rest` is handed out unchanged |
| `Endpoint.ClientUrlConfiguredBack` | src/BuiltInTools/dotnet-watch/BrowserRefreshServer.cs:79 | configuring the reported `ws://` URL makes the parser see the bound address again (line 42 undoes line 79), so the same target is bound |
| `Utf8.EncodeAscii` | src/BuiltInTools/dotnet-watch/BrowserRefreshServer.cs:24-25 | UTF-8 of ASCII text: one byte per character, equal to its code, every byte below 0x80 |
| `Utf8.AsciiRoundTrip` | src/BuiltInTools/dotnet-watch/BrowserRefreshServer.cs:24-25 | a UTF-8 decoder gives the ASCII text back from its bytes |
| `RefreshServer.CommandBytes` | src/BuiltInTools/dotnet-watch/BrowserRefreshServer.cs:24-25 | `ReloadMessage` and `WaitMessage` are the bytes `52 65 6C 6F 61 64` and `57 61 69 74`, which decode to `"Reload"` and `"Wait"` |
| `RefreshServer.WebSocket.Accept` | src/BuiltInTools/dotnet-watch/BrowserRefreshServer.cs:90 | an accepted socket is open, not disposed, has no close status and has sent nothing |
| `RefreshServer.HttpContext.AcceptWebSocketAsync` | src/BuiltInTools/dotnet-watch/BrowserRefreshServer.cs:90 | the upgrade handshake answers 101 and yields a new open socket that has sent nothing |
| `RefreshServer.WebSocket.SendAsync` | src/BuiltInTools/dotnet-watch/BrowserRefreshServer.cs:103 | either exactly one data frame with the given type, payload and end-of-message flag is appended, or the write throws and nothing is sent |
| `RefreshServer.WebSocket.CloseOutputAsync` | src/BuiltInTools/dotnet-watch/BrowserRefreshServer.cs:115 | either the Close frame is appended and the output side closes, or it throws and the socket is unchanged; a disposed or already-closed socket throws |
| `RefreshServer.WebSocket.ReceiveCloseFrame` | src/BuiltInTools/dotnet-watch/BrowserRefreshServer.cs:96 | an environment step the server never takes: it stands for a receive of the peer's Close frame, which the program never performs; it sets only the `CloseStatus` that line 96 tests. In the program that test never fires, so after a browser closes, sends are still attempted and their failures logged |
| `RefreshServer.WebSocket.Dispose` | src/BuiltInTools/dotnet-watch/BrowserRefreshServer.cs:116 | marks the socket disposed and keeps its frames |
| `RefreshServer.Host.Build` | src/BuiltInTools/dotnet-watch/BrowserRefreshServer.cs:56-68 | a new host bound to the given URL, not yet started |
| `RefreshServer.Host.StartAsync` | src/BuiltInTools/dotnet-watch/BrowserRefreshServer.cs:70 | a bind error is raised as given; otherwise the host is started and its addresses are those bound |
| `RefreshServer.Host.Dispose` | src/BuiltInTools/dotnet-watch/BrowserRefreshServer.cs:121 | marks the host disposed |
| `RefreshServer.Reporter.Verbose` | src/BuiltInTools/dotnet-watch/BrowserRefreshServer.cs:107 | appends exactly one verbose entry for the exception |
| `RefreshServer.CompletionSignal.TrySetResult` | src/BuiltInTools/dotnet-watch/BrowserRefreshServer.cs:124 | afterwards the signal is complete; only the first call reports that it fired it |
| `RefreshServer.BrowserRefreshServer.constructor` | src/BuiltInTools/dotnet-watch/BrowserRefreshServer.cs:31-35 | empty slot, no host, a fresh signal that has not fired |
| `RefreshServer.BrowserRefreshServer.StartAsync` | src/BuiltInTools/dotnet-watch/BrowserRefreshServer.cs:50-80 | stores a fresh host bound to `GetAutoReloadUrl(configured)`, even if binding then fails; fails on a bind error or an empty address list; otherwise returns the first address rewritten by line 79; the slot is untouched |
| `RefreshServer.BrowserRefreshServer.WebSocketRequest` | src/BuiltInTools/dotnet-watch/BrowserRefreshServer.cs:82-92 | a non-upgrade request gets status 400 and the slot is untouched; an upgrade is answered 101 and stores a freshly accepted socket, leaves any previous socket exactly as it was (not closed), and the handler waits until the signal fires |
| `RefreshServer.BrowserRefreshServer.SendMessage` | src/BuiltInTools/dotnet-watch/BrowserRefreshServer.cs:94-109 | with an empty slot, or a socket whose `CloseStatus` has a value, nothing is sent or logged; otherwise exactly one final text frame carrying the given bytes is appended, or, if the write throws, nothing is sent, one verbose entry is logged and the caller sees no error |
| `RefreshServer.BrowserRefreshServer.ReloadAsync` | src/BuiltInTools/dotnet-watch/BrowserRefreshServer.cs:127 | `SendMessage`'s effect with the bytes of `"Reload"` |
| `RefreshServer.BrowserRefreshServer.SendWaitMessageAsync` | src/BuiltInTools/dotnet-watch/BrowserRefreshServer.cs:129 | `SendMessage`'s effect with the bytes of `"Wait"` |
| `RefreshServer.BrowserRefreshServer.DisposeAsync` | src/BuiltInTools/dotnet-watch/BrowserRefreshServer.cs:111-125 | sends Close(1000) then disposes the socket, disposes the host, fires the signal, and keeps both fields; if the close throws, the exception reaches the caller and nothing else changes |
| `RefreshServer.ConnectReloadDispose` | src/BuiltInTools/dotnet-watch/BrowserRefreshServer.cs:82-129 | connect, reload, dispose, wait, dispose: the browser receives exactly the `"Reload"` text frame and then Close(1000); the late `"Wait"` is dropped with one log entry; the second dispose throws |
| `RefreshServer.SendsWithoutOpenSocketAreDropped` | src/BuiltInTools/dotnet-watch/BrowserRefreshServer.cs:94-99 | a reload before any connection, and messages to a socket with `CloseStatus` set, send nothing and log nothing, even when the transport would fail |

## Left out

- Building and configuring the Kestrel host (`HostBuilder`, `UseKestrel`, `UseUrls`, `UseWebSockets`) and the dependency-injection lookup of `IServerAddressesFeature` are framework code. The host is a record of its URL, its started and disposed flags and the addresses it bound, and these addresses are an input.
- The read of the environment variable (line 52) is I/O. Its value is a parameter.
- The rules of `System.Uri` belong to a library that is not part of this model. `Uri.TryCreate` is a parser passed in as a parameter. The lemmas about URLs it yields assume only that the scheme holds no `:`.
- Async scheduling, concurrency and cancellation tokens are not modelled. Cancellation, including the socket abort it causes (the socket becomes disposed, and later writes and closes throw), is not modelled; a cancelled write is represented only by its fault. Interleavings of an accept with a dispose are not modelled either.
- The suspension of the request handler on `_taskCompletionSource.Task` (line 91) is modelled only as the state of the task it returns: `AwaitingShutdown` until the signal fires.
- An exception from `AcceptWebSocketAsync` is not modelled. The upgrade always succeeds.
- `RefreshServer.HttpContext.AcceptWebSocketAsync`: models the HTTP/1.1 upgrade, which answers 101. The HTTP/2 extended CONNECT handshake, which answers 200, is not modelled.
- The text of the log messages is not modelled. Only the exception a log entry reports is kept.
- `Utf8.EncodeAscii`: covers only ASCII text, not all of `Encoding.UTF8.GetBytes`, because both commands are ASCII literals.
- `Text.IntText`: writes the invariant-culture text of the port, with `-` as the sign. Interpolation formats with the current culture, whose negative sign can be another character (U+2212 in some cultures), so the text for a port of -1 may differ. Non-negative ports are unaffected.
