/**
 * The URL derivation of `ApiClient`: the WebSocket base derived from the HTTP base
 * (the ws/wss schemes of section 3 of RFC 6455) and the single-slash join of a base and a path.
 */
module ApiClient {
  import opened Text

  /** The server host named in `BASE_URL`. */
  const Host := "antiphishingstt.p-e.kr"

  /** `BASE_URL`, "https://antiphishingstt.p-e.kr/" */
  const BaseUrl := "https://" + Host + "/"

  /** The path and query of `TRANSCRIPTION_WS_URL`. */
  const TranscriptionPath := "api/transcribe/ws?sr=16000&lang=ko-KR"

  /** The `WS_BASE_URL` getter, for an arbitrary base: the http(s) scheme becomes ws(s). */
  function WsBaseOf(base: string): (r: string)
    ensures StartsWith(base, "https://") ==> !StartsWith(base, "http://")
    ensures StartsWith(base, "https://") ==> r == ReplaceFirst(base, "https://", "wss://")
    ensures StartsWith(base, "http://") ==> r == ReplaceFirst(base, "http://", "ws://")
    ensures !StartsWith(base, "https://") && !StartsWith(base, "http://") ==> r == base
  {
    if StartsWith(base, "https://") then
      assert base[4] == 's' != "http://"[4];
      ReplaceFirstAtStart(base, "https://", "wss://");
      "wss://" + base[|"https://"|..]
    else if StartsWith(base, "http://") then
      ReplaceFirstAtStart(base, "http://", "ws://");
      "ws://" + base[|"http://"|..]
    else base
  }

  /** The inverse scheme mapping ws(s) back to http(s), the partner of `WsBaseOf`. */
  function HttpBaseOf(base: string): (r: string)
  {
    if StartsWith(base, "wss://") then "https://" + base[|"wss://"|..]
    else if StartsWith(base, "ws://") then "http://" + base[|"ws://"|..]
    else base
  }

  /** `p + rest` starts with `p`, and dropping `p` leaves `rest`. */
  lemma PrefixThenRest(p: string, rest: string)
    ensures StartsWith(p + rest, p) && (p + rest)[|p|..] == rest
  {
    assert (p + rest)[..|p|] == p;
  }

  /** `HttpBaseOf` undoes the wss scheme. */
  lemma HttpBaseOfWss(rest: string)
    ensures HttpBaseOf("wss://" + rest) == "https://" + rest
  {
    PrefixThenRest("wss://", rest);
  }

  /** `HttpBaseOf` undoes the ws scheme. */
  lemma HttpBaseOfWs(rest: string)
    ensures HttpBaseOf("ws://" + rest) == "http://" + rest
  {
    var w := "ws://" + rest;
    assert !StartsWith(w, "wss://") by { assert w[2] == ':' && "wss://"[2] == 's'; }
    PrefixThenRest("ws://", rest);
  }

  /** Rewriting the scheme loses nothing: mapping back restores every http(s) base. */
  lemma WsBaseRoundTrip(base: string)
    requires StartsWith(base, "https://") || StartsWith(base, "http://")
    ensures HttpBaseOf(WsBaseOf(base)) == base
  {
    if StartsWith(base, "https://") {
      var rest := base[|"https://"|..];
      assert base == "https://" + rest by { assert base == base[..|"https://"|] + rest; }
      WsBaseOfHttps(rest);
      HttpBaseOfWss(rest);
    } else {
      var rest := base[|"http://"|..];
      assert base == "http://" + rest by { assert base == base[..|"http://"|] + rest; }
      WsBaseOfHttp(rest);
      HttpBaseOfWs(rest);
    }
  }

  /** `WS_BASE_URL` */
  function WsBaseUrl(): string {
    WsBaseOf(BaseUrl)
  }

  /** The body of `wsUrl(path)`, for an arbitrary base: one trailing and one leading slash dropped, one put back. */
  function JoinUrl(base: string, path: string): (r: string)
    ensures EndsWith(base, "/") ==> r == base + RemovePrefix(path, "/")
    ensures !EndsWith(base, "/") ==> r == base + "/" + RemovePrefix(path, "/")
    ensures StartsWith(path, "/") ==> r == RemoveSuffix(base, "/") + path
    ensures !StartsWith(path, "/") ==> r == RemoveSuffix(base, "/") + "/" + path
  {
    RemoveSuffix(base, "/") + "/" + RemovePrefix(path, "/")
  }

  /** `wsUrl(path)`: the path on the server's wss base, with exactly one slash between them. */
  function WsUrl(path: string): (url: string)
    ensures StartsWith(path, "/") ==> url == "wss://" + Host + path
    ensures !StartsWith(path, "/") ==> url == "wss://" + Host + "/" + path
  {
    var host := "wss://" + Host;
    WsBaseUrlValue();
    assert WsBaseUrl() == host + "/";
    assert EndsWith(host + "/", "/");
    JoinUrl(WsBaseUrl(), path)
  }

  /** `TRANSCRIPTION_WS_URL`: the transcription endpoint, with the sample rate and language in its query. */
  function TranscriptionWsUrl(): (url: string)
    ensures url == "wss://" + Host + "/" + "api/transcribe/ws?sr=16000&lang=ko-KR"
  {
    assert TranscriptionPath[0] == 'a';
    WsUrl(TranscriptionPath)
  }

  /** One leading slash on a path that does not already start with one changes nothing. */
  lemma LeadingSlashIgnored(base: string, path: string)
    requires !StartsWith(path, "/")
    ensures JoinUrl(base, "/" + path) == JoinUrl(base, path)
  {
    assert StartsWith("/" + path, "/");
    assert RemovePrefix("/" + path, "/") == path;
  }

  /** Only one leading slash is dropped: "//x" keeps a doubled slash that "/x" does not. */
  lemma SecondLeadingSlashKept()
    ensures WsUrl("//x") != WsUrl("/x")
  {
    var b := RemoveSuffix(WsBaseUrl(), "/");
    assert WsUrl("//x") == b + "//x";
    assert WsUrl("/x") == b + "/x";
    assert |WsUrl("//x")| != |WsUrl("/x")|;
  }

  /** An https base keeps everything after its scheme. */
  lemma WsBaseOfHttps(rest: string)
    ensures WsBaseOf("https://" + rest) == "wss://" + rest
  {
    assert StartsWith("https://" + rest, "https://");
    assert ("https://" + rest)[|"https://"|..] == rest;
  }

  /** An http base keeps everything after its scheme. */
  lemma WsBaseOfHttp(rest: string)
    ensures WsBaseOf("http://" + rest) == "ws://" + rest
  {
    var b := "http://" + rest;
    assert !StartsWith(b, "https://") by { assert b[4] == ':' && "https://"[4] == 's'; }
    PrefixThenRest("http://", rest);
  }

  /** The configured base maps to the wss scheme, keeping its trailing slash. */
  lemma WsBaseUrlValue()
    ensures WsBaseUrl() == "wss://" + Host + "/"
  {
    WsBaseOfHttps(Host + "/");
    assert BaseUrl == "https://" + (Host + "/");
    assert "wss://" + (Host + "/") == "wss://" + Host + "/";
  }
}
