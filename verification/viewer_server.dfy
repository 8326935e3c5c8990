/** `LogViewerServer`: the delivery channel's lifecycle, its outbound queue,
    the request router and the status lines of the static responses. The
    listener, sockets and accept loop are abstracted: whether the listener
    started is an input of `Start`. */
module ViewerServer {
  import opened Common

  /** `queue` is the outbound FIFO of serialised records; `signaled` is the
      state of the wake-up event the stream handler waits on. */
  datatype Channel = Channel(port: int, running: bool, queue: seq<string>, signaled: bool)

  /** `new LogViewerServer(port)`. */
  function Create(port: int): (c: Channel)
    ensures c.port == port && !c.running && c.queue == [] && !c.signaled
  {
    Channel(port, false, [], false)
  }

  /** A start attempt; `listenerStarted` is whether `HttpListener.Start` bound
      the port. A failure is caught inside and only leaves the channel stopped. */
  function Start(c: Channel, listenerStarted: bool): (d: Channel)
    ensures c.running ==> d == c
    ensures d.running <==> c.running || listenerStarted
    ensures d.(running := c.running) == c
  {
    if c.running then c else c.(running := listenerStarted)
  }

  function Stop(c: Channel): (d: Channel)
    ensures !c.running ==> d == c
    ensures !d.running
    ensures d.(running := c.running) == c
  {
    if !c.running then c else c.(running := false)
  }

  /** Enqueue one serialised record and wake the stream handler. */
  function AddLogEntry(c: Channel, entry: string): (d: Channel)
    ensures d.queue == c.queue + [entry]
    ensures d.signaled
    ensures d.port == c.port && d.running == c.running
  {
    c.(queue := c.queue + [entry], signaled := true)
  }

  /** Several `AddLogEntry` calls in order. */
  function AddAll(c: Channel, entries: seq<string>): (d: Channel)
    ensures d.queue == c.queue + entries
    ensures d.signaled <==> c.signaled || entries != []
    ensures d.port == c.port && d.running == c.running
    decreases |entries|
  {
    if entries == [] then c
    else
      var d := AddAll(AddLogEntry(c, entries[0]), entries[1..]);
      assert c.queue + [entries[0]] + entries[1..] == c.queue + entries;
      d
  }

  lemma StartStopIdempotent(c: Channel, a: bool, b: bool)
    ensures Start(Start(c, true), b) == Start(c, true)
    ensures Stop(Stop(c)) == Stop(c)
    ensures !Stop(Start(c, a)).running
  {
  }

  // ---- Routing ----------------------------------------------------------

  datatype Resource = Dashboard | LiveStream | Stylesheet | ClientScript | Missing

  /** `ToLowerInvariant` on the ASCII range. */
  function LowerChar(c: char): char {
    if 'A' <= c <= 'Z' then (c as int + 32) as char else c
  }

  function Lower(s: string): (t: string)
    ensures |t| == |s|
    ensures forall i :: 0 <= i < |s| ==> t[i] == LowerChar(s[i])
  {
    if s == [] then [] else [LowerChar(s[0])] + Lower(s[1..])
  }

  /** The routing table, stated independently of the branch chain. */
  const RouteTable: seq<(string, Resource)> := [
    ("/", Dashboard), ("/index.html", Dashboard), ("/index.htm", Dashboard),
    ("/logs", LiveStream), ("/style.css", Stylesheet), ("/app.js", ClientScript)]

  function TableLookup(table: seq<(string, Resource)>, p: string): Resource
    decreases |table|
  {
    if table == [] then Missing
    else if table[0].0 == p then table[0].1
    else TableLookup(table[1..], p)
  }

  /** `HandleRequest`'s branch chain over the lower-cased path. It serves
      exactly the table's paths, compared after lower-casing, and sends every
      other path to the not-found response. */
  function Route(path: string): (r: Resource)
    ensures r == TableLookup(RouteTable, Lower(path))
  {
    var p := Lower(path);
    if p == "/" || p == "/index.html" || p == "/index.htm" then Dashboard
    else if p == "/logs" then LiveStream
    else if p == "/style.css" then Stylesheet
    else if p == "/app.js" then ClientScript
    else Missing
  }

  lemma LowerIdempotent(s: string)
    ensures Lower(Lower(s)) == Lower(s)
  {
  }

  /** Two paths that differ only in letter case reach the same handler. */
  lemma RouteIgnoresCase(p: string, q: string)
    requires |p| == |q|
    requires forall i :: 0 <= i < |p| ==> LowerChar(p[i]) == LowerChar(q[i])
    ensures Route(p) == Route(q)
  {
    assert Lower(p) == Lower(q);
  }

  // ---- Responses ----------------------------------------------------------

  type byte = b: int | 0 <= b < 256

  datatype Response = Response(
    status: int,
    contentType: string,
    headers: seq<(string, string)>,
    contentLength: Option<int>,
    body: seq<byte>)

  /** The fixed texts the server answers with: the embedded page, stylesheet
      and script, whose content is not part of this model, and the 404 message. */
  datatype Assets = Assets(page: string, stylesheet: string, script: string, notFound: string)

  const NotFoundText: string := "404 - Not Found: The requested resource does not exist."

  /** The server's texts: whatever page, stylesheet and script are embedded,
      and its fixed 404 message. */
  function ServerAssets(page: string, stylesheet: string, script: string): (a: Assets)
    ensures a.notFound == NotFoundText
  {
    Assets(page, stylesheet, script, NotFoundText)
  }

  /** `Encoding.UTF8.GetBytes` for one Unicode scalar value. */
  function Utf8Char(c: char): (b: seq<byte>)
    ensures 1 <= |b| <= 4
    ensures |b| == 1 <==> c as int < 0x80
  {
    var n := c as int;
    if n < 0x80 then [n]
    else if n < 0x800 then [0xC0 + n / 0x40, 0x80 + n % 0x40]
    else if n < 0x1_0000 then [0xE0 + n / 0x1000, 0x80 + (n / 0x40) % 0x40, 0x80 + n % 0x40]
    else [0xF0 + n / 0x4_0000, 0x80 + (n / 0x1000) % 0x40, 0x80 + (n / 0x40) % 0x40, 0x80 + n % 0x40]
  }

  function Utf8(s: string): (b: seq<byte>)
    ensures |b| >= |s|
  {
    if s == [] then [] else Utf8Char(s[0]) + Utf8(s[1..])
  }

  function Static(status: int, contentType: string, body: seq<byte>): Response {
    Response(status, contentType, [], Some(|body|), body)
  }

  const StreamHeaders: seq<(string, string)> :=
    [("Cache-Control", "no-cache"), ("Connection", "keep-alive"), ("Access-Control-Allow-Origin", "*")]

  /** The response each handler starts. The live stream has no length: its body
      is what `EventStream.Serve` emits. */
  function Respond(res: Resource, assets: Assets): (r: Response)
    ensures r.status == 200 <==> res != Missing
    ensures res != LiveStream ==> r.contentLength == Some(|r.body|)
  {
    match res
    case Dashboard => Static(200, "text/html", Utf8(assets.page))
    case Stylesheet => Static(200, "text/css", Utf8(assets.stylesheet))
    case ClientScript => Static(200, "application/javascript", Utf8(assets.script))
    case LiveStream => Response(200, "text/event-stream", StreamHeaders, None, [])
    case Missing => Static(404, "text/plain", Utf8(assets.notFound))
  }

  /** Each resource is served with its content type and UTF-8 body; the stream
      gets the no-cache, keep-alive and any-origin headers and no length. */
  lemma RespondServes(res: Resource, assets: Assets)
    ensures var r := Respond(res, assets);
      && (res == Dashboard ==> r.contentType == "text/html" && r.body == Utf8(assets.page))
      && (res == Stylesheet ==> r.contentType == "text/css" && r.body == Utf8(assets.stylesheet))
      && (res == ClientScript ==> r.contentType == "application/javascript" && r.body == Utf8(assets.script))
      && (res == Missing ==> r.status == 404 && r.contentType == "text/plain" && r.body == Utf8(assets.notFound))
      && (res == LiveStream ==> r.contentType == "text/event-stream" && r.headers == StreamHeaders && r.contentLength.None?)
  {
  }

  /** `HandleRequest` with the server's own texts: a path is answered with
      status 200 exactly when its lower-cased form is in the routing table,
      and every other path gets the fixed not-found message as plain text. */
  function HandleRequest(path: string, page: string, stylesheet: string, script: string): (r: Response)
    ensures r.status == 200 <==> TableLookup(RouteTable, Lower(path)) != Missing
    ensures r.status != 200 ==> r.status == 404 && r.contentType == "text/plain" && r.body == Utf8(NotFoundText)
  {
    var assets := ServerAssets(page, stylesheet, script);
    RespondServes(Route(path), assets);
    Respond(Route(path), assets)
  }
}
