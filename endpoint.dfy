/**
 * Endpoint resolution of the browser refresh server: the address the server
 * binds (`GetAutoReloadUrl`) and the client-facing address it reports back
 * once bound (the `http://` to `ws://` rewrite at the end of `StartAsync`).
 */
module Endpoint {
  import opened Wrappers
  import opened Text

  /** The three parts of a parsed absolute URI that the server reads: `Scheme`, `Host` and `Port`. */
  datatype Uri = Uri(scheme: string, host: string, port: int)

  /**
   * `Uri.TryCreate(text, UriKind.Absolute, out uri)`: `Some(uri)` when `text`
   * is an absolute URI. The rules of `System.Uri` are not part of this model,
   * so every member that parses takes the parser as a parameter.
   */
  type UriParser = string -> Option<Uri>

  /** Loopback, with port 0 asking the operating system for any free port. */
  const DefaultUrl: string := "http://127.0.0.1:0"

  /**
   * The configured value with every `ws://` turned into `http://`, ready for
   * the URI parser: no `ws://` is left, and a value without one is untouched.
   */
  function Normalise(configured: string): (text: string)
    ensures !Contains(text, "ws://")
    ensures !Contains(configured, "ws://") ==> text == configured
  {
    assert 'w' !in "http://";
    assert 'h' !in "ws://";
    ReplaceLeavesNoOccurrence(configured, "ws://", "http://");
    ReplaceAll(configured, "ws://", "http://")
  }

  /**
   * `$"{uri.Scheme}://{uri.Host}:{uri.Port}"`: the text names the URI it was
   * written from, whatever the host, as long as the scheme holds no ':' (no
   * URI scheme does).
   */
  function OriginText(u: Uri): (url: string)
    ensures ':' !in u.scheme ==> SplitOrigin(url) == Some(u)
  {
    var rest := u.host + ":" + IntText(u.port);
    var url := u.scheme + "://" + rest;
    if ':' in u.scheme then url
    else
      SchemeSplits(u.scheme, rest);
      PortSplits(u.host, u.port);
      assert IndexOf(url, "://") == Some(|u.scheme|);
      assert url[|u.scheme| + 3..] == rest;
      assert LastIndexOf(rest, ':') == Some(|u.host|);
      url
  }

  /** What the parser makes of the normalised configured value; nothing when no value is configured. */
  function ConfiguredUri(configuredEnv: Option<string>, tryCreate: UriParser): (parsed: Option<Uri>)
    ensures configuredEnv.None? ==> parsed.None?
    ensures configuredEnv.Some? && !Contains(configuredEnv.value, "ws://") ==>
              parsed == tryCreate(configuredEnv.value)
  {
    match configuredEnv
    case None => None
    case Some(v) => tryCreate(Normalise(v))
  }

  /**
   * `GetAutoReloadUrl(configuredEnv)`: the default loopback URL, unless the
   * configured value (null is `None`) parses as an absolute URI once its
   * `ws://` schemes are turned into `http://`; then the scheme, host and port
   * of that URI. A value that does not parse is ignored without an error.
   */
  function GetAutoReloadUrl(configuredEnv: Option<string>, tryCreate: UriParser): (url: string)
    ensures ConfiguredUri(configuredEnv, tryCreate).None? ==> url == DefaultUrl
    ensures ConfiguredUri(configuredEnv, tryCreate).Some? &&
            ':' !in ConfiguredUri(configuredEnv, tryCreate).value.scheme ==>
              SplitOrigin(url) == ConfiguredUri(configuredEnv, tryCreate)
  {
    if configuredEnv.Some? && tryCreate(Normalise(configuredEnv.value)).Some? then
      OriginText(tryCreate(Normalise(configuredEnv.value)).value)
    else
      DefaultUrl
  }

  /**
   * `serverUrl.Replace("http://", "ws://")`: the first bound address as
   * handed to the browser. No `http://` is left, and an address without one
   * is untouched.
   */
  function ClientUrl(serverUrl: string): (url: string)
    ensures !Contains(url, "http://")
    ensures !Contains(serverUrl, "http://") ==> url == serverUrl
  {
    assert 'h' !in "ws://";
    assert 'w' !in "http://";
    ReplaceLeavesNoOccurrence(serverUrl, "http://", "ws://");
    ReplaceAll(serverUrl, "http://", "ws://")
  }

  /**
   * Reads scheme, host and port back out of `scheme://host:port`: the scheme
   * ends at the first `://`, the port follows the last `:`.
   */
  function SplitOrigin(url: string): (origin: Option<Uri>)
  {
    match IndexOf(url, "://")
    case None => None
    case Some(i) =>
      var rest := url[i + 3..];
      match LastIndexOf(rest, ':')
      case None => None
      case Some(j) =>
        match ParseInt(rest[j + 1..])
        case None => None
        case Some(port) => Some(Uri(url[..i], rest[..j], port))
  }

  /** The scheme ends at the first "://". */
  lemma SchemeSplits(scheme: string, rest: string)
    requires ':' !in scheme
    ensures IndexOf(scheme + "://" + rest, "://") == Some(|scheme|)
    ensures (scheme + "://" + rest)[..|scheme|] == scheme
    ensures (scheme + "://" + rest)[|scheme| + 3..] == rest
  {
    assert scheme + "://" + rest == scheme + ("://" + rest);
    IndexOfPastPrefix(scheme, "://" + rest, "://");
  }

  /** The port follows the last ':' and reads back as the number written. */
  lemma PortSplits(host: string, port: int)
    ensures LastIndexOf(host + ":" + IntText(port), ':') == Some(|host|)
    ensures (host + ":" + IntText(port))[..|host|] == host
    ensures ParseInt((host + ":" + IntText(port))[|host| + 1..]) == Some(port)
  {
    var rest := host + ":" + IntText(port);
    LastIndexOfBeforeTail(host, ':', IntText(port));
    assert rest[|host| + 1..] == IntText(port);
    IntTextRoundTrip(port);
  }

  /** A plain HTTP address is handed out with the `ws` scheme and nothing else changed. */
  lemma HttpAddressBecomesWs(rest: string)
    requires !Contains(rest, "http://")
    ensures ClientUrl("http://" + rest) == "ws://" + rest
  {
  }

  /** An HTTPS address holds no `http://` and is handed out unchanged (not as `wss://`). */
  lemma HttpsAddressUnchanged(rest: string)
    requires !Contains(rest, "http://")
    ensures ClientUrl("https://" + rest) == "https://" + rest
  {
    var s := "https://" + rest;
    assert s[1..] == "ttps://" + rest;
    assert s[..7] != "http://" by { assert s[4] == 's'; }
    assert 'h' !in "ttps://";
    ContainsPastPrefix("ttps://", rest, "http://");
  }

  /**
   * Configuring the client-facing URL that `StartAsync` reported makes the
   * parser see the bound address again, so the server binds the same target.
   */
  lemma ClientUrlConfiguredBack(serverUrl: string, tryCreate: UriParser)
    requires !Contains(serverUrl, "ws://")
    ensures Normalise(ClientUrl(serverUrl)) == serverUrl
    ensures GetAutoReloadUrl(Some(ClientUrl(serverUrl)), tryCreate) == GetAutoReloadUrl(Some(serverUrl), tryCreate)
  {
    assert "ws://"[0] !in "ws://"[1..];
    ReplaceRoundTrip(serverUrl, "http://", "ws://");
  }
}
