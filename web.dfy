/**
 * The request handler of package `webnotifications`: the probe check, the
 * `/api/` prefix dispatch, the ingest endpoint `send` (GET with a
 * percent-encoded path segment, POST or PUT with a body) and the history
 * endpoint `messages`, over the legacy hub.
 */
module Web {
  import opened Text
  import opened History
  import opened Queues
  import opened UrlEscape
  import Notifications

  /**
   * What the handler reads of an HTTP request: the method (`verb`), the URL path
   * (`r.URL.Path`), the User-Agent header and the body, `None` when reading
   * the body fails.
   */
  datatype Request = Request(verb: string, path: string, userAgent: string, body: Option<string>)

  /**
   * What the handler answers: a status, content type and body, or the
   * request handed to the static file server or to the streaming endpoint.
   */
  datatype Response = Reply(status: nat, contentType: string, body: string) | FileServed | Streamed

  const StatusOK: nat := 200
  const StatusNotFound: nat := 404
  const StatusInternalServerError: nat := 500
  const PlainText := "text/plain"

  /** `http.Error(w, error, code)`: the message and a newline, as plain UTF-8 text. */
  function Error(error: string, code: nat): (resp: Response)
    ensures resp.Reply? && resp.status == code && resp.contentType == "text/plain; charset=utf-8"
  {
    Reply(code, "text/plain; charset=utf-8", error + "\n")
  }

  /** An error message without a newline is the only line of the error answer's body. */
  lemma ErrorLines(error: string, code: nat)
    requires NoNewline(error)
    ensures Lines(Error(error, code).body) == [error, ""]
  {
    assert Error(error, code).body == error + "\n" + "";
    LinesOfLine(error, "");
  }

  /** The handler a request reaches. */
  datatype Endpoint = Probe | Send(rest: string) | Messages | Stream | InvalidApi | Files

  /** `ServeHTTP`'s dispatch: probes first, then `/api/` with the prefix stripped, then files. */
  function Route(r: Request): (e: Endpoint)
    ensures e == Probe <==> HasPrefix(r.userAgent, "kube-probe")
    ensures e == Files <==> !HasPrefix(r.userAgent, "kube-probe") && !HasPrefix(r.path, "/api/")
    ensures e.Send? ==> r.path == "/api/send" + e.rest
    ensures !HasPrefix(r.userAgent, "kube-probe") && HasPrefix(r.path, "/api/") ==> e == ApiRoute(r.path[5..])
  {
    if HasPrefix(r.userAgent, "kube-probe") then Probe
    else if HasPrefix(r.path, "/api/") then
      assert r.path == "/api/" + r.path[|"/api/"|..];
      ApiRoute(r.path[|"/api/"|..])
    else Files
  }

  /** `handleAPI`'s dispatch on what follows `/api/`, first match wins. */
  function ApiRoute(path: string): (e: Endpoint)
    ensures e != Probe && e != Files
    ensures e.Send? <==> HasPrefix(path, "send")
    ensures e.Send? ==> path == "send" + e.rest
    ensures e == Messages <==> HasPrefix(path, "messages")
    ensures e == Stream <==> HasPrefix(path, "stream")
    ensures e == InvalidApi <==> !HasPrefix(path, "send") && !HasPrefix(path, "messages") && !HasPrefix(path, "stream")
  {
    if HasPrefix(path, "send") then
      assert path == "send" + path[|"send"|..];
      assert path[0] == 's' && path[1] == 'e';
      Send(path[|"send"|..])
    else if HasPrefix(path, "messages") then Messages
    else if HasPrefix(path, "stream") then Stream
    else InvalidApi
  }

  /**
   * The message `handleSend` broadcasts, or the error it reports: GET takes
   * the percent-decoded text after a leading `'/'`, POST and PUT take the
   * body verbatim, every other method is refused.
   */
  function SendMessage(verb: string, rest: string, body: Option<string>): (r: Result<string, string>)
    ensures r.Ok? <==> || (verb == "GET" && HasPrefix(rest, "/") && WellEscaped(rest[1..]))
                       || ((verb == "POST" || verb == "PUT") && body.Some?)
    ensures r.Ok? && verb == "GET" ==> QueryUnescape(rest[1..]) == Some(r.value)
    ensures r.Ok? && verb != "GET" ==> body == Some(r.value)
  {
    if verb == "GET" then
      if |rest| == 0 || rest[0] != '/' then Err("no message found in GET request")
      else
        QueryUnescapeSucceeds(rest[1..]);
        match QueryUnescape(rest[1..])
        case None => Err("could not decode message")
        case Some(m) => Ok(m)
    else if verb == "POST" || verb == "PUT" then
      match body
      case None => Err("error reading body")
      case Some(b) => Ok(b)
    else Err("invalid HTTP method")
  }

  /** The text a request broadcasts on the hub, if it broadcasts at all. */
  function Broadcasts(r: Request): (b: Option<string>)
    ensures b.Some? ==> Route(r).Send? && !HasPrefix(r.userAgent, "kube-probe")
    ensures b.Some? && r.verb == "GET" ==> HasPrefix(Route(r).rest, "/") && QueryUnescape(Route(r).rest[1..]) == b
    ensures b.Some? && r.verb != "GET" ==> (r.verb == "POST" || r.verb == "PUT") && r.body == b
  {
    match Route(r)
    case Send(rest) => (
      match SendMessage(r.verb, rest, r.body)
      case Ok(m) => Some(m)
      case Err(_) => None)
    case _ => None
  }

  /** The answer to a request, given the hub's history when it arrives. */
  function Respond(r: Request, history: seq<string>): (resp: Response)
    ensures resp.FileServed? <==> Route(r) == Files
    ensures resp.Streamed? <==> Route(r) == Stream
    ensures resp.Reply? ==> resp.status == StatusOK || resp.status == StatusNotFound || resp.status == StatusInternalServerError
    ensures resp == Reply(StatusOK, PlainText, "OK") <==> Route(r) == Probe || Broadcasts(r).Some?
    ensures resp.Reply? && resp.status != StatusOK ==> resp.contentType == "text/plain; charset=utf-8" && Broadcasts(r) == None
  {
    match Route(r)
    case Probe => Reply(StatusOK, PlainText, "OK")
    case Files => FileServed
    case Stream => Streamed
    case InvalidApi => Error("invalid API call", StatusNotFound)
    case Messages => Reply(StatusOK, PlainText, Joined(history) + "End")
    case Send(rest) => (
      match SendMessage(r.verb, rest, r.body)
      case Ok(_) => Reply(StatusOK, PlainText, "OK")
      case Err(e) => Error(e, StatusInternalServerError))
  }

  /** On a route to `handleSend`, the answer and the broadcast are decided by `SendMessage` alone. */
  lemma SendAnswer(r: Request, path: string, history: seq<string>)
    requires Route(r) == Send(path)
    ensures SendMessage(r.verb, path, r.body).Ok? ==>
              && Respond(r, history) == Reply(StatusOK, PlainText, "OK")
              && Broadcasts(r) == Some(SendMessage(r.verb, path, r.body).value)
    ensures SendMessage(r.verb, path, r.body).Err? ==>
              && Respond(r, history) == Error(SendMessage(r.verb, path, r.body).error, StatusInternalServerError)
              && Broadcasts(r) == None
  {
  }

  /** The hub's history and queues after `broadcast` (if any) was applied to the earlier ones. */
  ghost predicate Applied(broadcast: Option<string>, bufSize: nat,
                          messages0: seq<string>, out0: Registry, messages: seq<string>, out: Registry)
  {
    match broadcast
    case None => messages == messages0 && out == out0
    case Some(m) => messages == Window(messages0 + [m], bufSize) && out == Fanout(out0, m)
  }

  class WebHandler {
    const hub: Notifications.Hub

    /** `InitWebHandler`; the file server and the websocket upgrader are not modelled. */
    constructor InitWebHandler(hub: Notifications.Hub)
      ensures this.hub == hub
    {
      this.hub := hub;
    }

    /** Shuts the hub down: every subscriber is deregistered. */
    method CloseHub()
      requires hub.Valid() && hub.inOpen
      modifies hub
      ensures hub.Valid() && !hub.inOpen && hub.out == map[]
      ensures hub.messages == old(hub.messages) && hub.counter == old(hub.counter)
    {
      hub.Close();
    }

    method ServeHTTP(r: Request) returns (w: Response)
      requires hub.Valid()
      modifies hub
      ensures hub.Valid() && hub.counter == old(hub.counter) && hub.inOpen == old(hub.inOpen)
      ensures w == Respond(r, old(hub.messages))
      ensures Applied(Broadcasts(r), hub.bufSize, old(hub.messages), old(hub.out), hub.messages, hub.out)
    {
      if HasPrefix(r.userAgent, "kube-probe") {
        return Reply(StatusOK, PlainText, "OK");
      }
      if HasPrefix(r.path, "/api/") {
        w := HandleApi(r.path[|"/api/"|..], r);
        return;
      }
      w := FileServed;
    }

    method HandleApi(path: string, r: Request) returns (w: Response)
      requires hub.Valid()
      requires Route(r) == ApiRoute(path)
      modifies hub
      ensures hub.Valid() && hub.counter == old(hub.counter) && hub.inOpen == old(hub.inOpen)
      ensures w == Respond(r, old(hub.messages))
      ensures Applied(Broadcasts(r), hub.bufSize, old(hub.messages), old(hub.out), hub.messages, hub.out)
    {
      if HasPrefix(path, "send") {
        w := HandleSend(path[|"send"|..], r);
        return;
      }
      if HasPrefix(path, "messages") {
        w := HandleMessages();
        return;
      }
      if HasPrefix(path, "stream") {
        return Streamed;
      }
      w := Error("invalid API call", StatusNotFound);
    }

    method HandleSend(path: string, r: Request) returns (w: Response)
      requires hub.Valid()
      requires Route(r) == Send(path)
      modifies hub
      ensures hub.Valid() && hub.counter == old(hub.counter) && hub.inOpen == old(hub.inOpen)
      ensures w == Respond(r, old(hub.messages))
      ensures Applied(Broadcasts(r), hub.bufSize, old(hub.messages), old(hub.out), hub.messages, hub.out)
    {
      SendAnswer(r, path, hub.messages);
      var message: string;
      if r.verb == "GET" {
        if |path| == 0 || path[0] != '/' {
          assert SendMessage(r.verb, path, r.body) == Err("no message found in GET request");
          return Error("no message found in GET request", StatusInternalServerError);
        }
        var raw := path[1..];
        var decoded := QueryUnescape(raw);
        if decoded.None? {
          assert SendMessage(r.verb, path, r.body) == Err("could not decode message");
          return Error("could not decode message", StatusInternalServerError);
        }
        message := decoded.value;
      } else if r.verb == "POST" || r.verb == "PUT" {
        if r.body.None? {
          assert SendMessage(r.verb, path, r.body) == Err("error reading body");
          return Error("error reading body", StatusInternalServerError);
        }
        message := r.body.value;
      } else {
        assert SendMessage(r.verb, path, r.body) == Err("invalid HTTP method");
        return Error("invalid HTTP method", StatusInternalServerError);
      }
      assert SendMessage(r.verb, path, r.body) == Ok(message);
      hub.Broadcast(message);
      w := Reply(StatusOK, PlainText, "OK");
    }

    method HandleMessages() returns (w: Response)
      ensures w == Reply(StatusOK, PlainText, Joined(hub.messages) + "End")
    {
      var dump := hub.Dump();
      w := Reply(StatusOK, PlainText, dump + "End");
    }
  }

  /** A probe is answered `OK` before any routing, and broadcasts nothing. */
  lemma ProbeAnswered(r: Request, history: seq<string>)
    requires HasPrefix(r.userAgent, "kube-probe")
    ensures Respond(r, history) == Reply(StatusOK, PlainText, "OK")
    ensures Broadcasts(r) == None
  {
  }

  /** Any path outside `/api/` goes to the file server, and broadcasts nothing. */
  lemma FilesOutsideApi(r: Request, history: seq<string>)
    requires !HasPrefix(r.userAgent, "kube-probe") && !HasPrefix(r.path, "/api/")
    ensures Respond(r, history) == FileServed && Broadcasts(r) == None
  {
  }

  /** A request reaches the ingest endpoint with remainder `rest` exactly when its path is `/api/send` + `rest`. */
  lemma SendRoute(r: Request, rest: string)
    requires !HasPrefix(r.userAgent, "kube-probe")
    ensures Route(r) == Send(rest) <==> r.path == "/api/send" + rest
  {
    if r.path == "/api/send" + rest {
      assert r.path[..5] == "/api/" && r.path[5..][..4] == "send";
      assert r.path[5..][4..] == rest;
    }
    if Route(r) == Send(rest) {
      assert r.path == r.path[..5] + r.path[5..][..4] + r.path[5..][4..];
    }
  }

  /** Unknown API calls are answered 404 `invalid API call` and broadcast nothing. */
  lemma UnknownApiCall(r: Request, history: seq<string>)
    requires !HasPrefix(r.userAgent, "kube-probe") && HasPrefix(r.path, "/api/")
    requires var p := r.path[5..]; !HasPrefix(p, "send") && !HasPrefix(p, "messages") && !HasPrefix(p, "stream")
    ensures Respond(r, history) == Error("invalid API call", StatusNotFound)
    ensures Broadcasts(r) == None
  {
  }

  /**
   * A request broadcasts exactly when it reaches the ingest endpoint and its
   * message can be read, and then it is answered `OK`.
   */
  lemma BroadcastIffOK(r: Request, history: seq<string>)
    ensures Broadcasts(r).Some? <==> Route(r).Send? && SendMessage(r.verb, Route(r).rest, r.body).Ok?
    ensures Broadcasts(r).Some? <==> Route(r).Send? && Respond(r, history) == Reply(StatusOK, PlainText, "OK")
  {
  }

  /**
   * A GET on `/api/send/` + `raw` broadcasts the decoding of `raw`; when
   * `raw` does not decode it fails with `could not decode message`.
   */
  lemma GetSendDecodes(raw: string, userAgent: string, body: Option<string>, history: seq<string>)
    requires !HasPrefix(userAgent, "kube-probe")
    ensures var r := Request("GET", "/api/send/" + raw, userAgent, body);
            && Broadcasts(r) == QueryUnescape(raw)
            && Respond(r, history) == (if QueryUnescape(raw).Some? then Reply(StatusOK, PlainText, "OK")
                                       else Error("could not decode message", StatusInternalServerError))
  {
    var r := Request("GET", "/api/send/" + raw, userAgent, body);
    assert "/api/send" + ("/" + raw) == "/api/send/" + raw;
    SendRoute(r, "/" + raw);
    assert ("/" + raw)[1..] == raw;
    SendAnswer(r, "/" + raw, history);
  }

  /** A GET whose remainder is empty or does not start with `'/'` fails and broadcasts nothing. */
  lemma GetWithoutMessage(r: Request, history: seq<string>)
    requires r.verb == "GET" && Route(r).Send?
    requires !HasPrefix(Route(r).rest, "/")
    ensures Respond(r, history) == Error("no message found in GET request", StatusInternalServerError)
    ensures Broadcasts(r) == None
  {
  }

  /**
   * A GET whose decoded path is `/api/send/` + `p` + `%20` + `w` (the request
   * `GET /api/send/hello%2520world` on the wire, say) broadcasts `p` + space + `w`.
   */
  lemma GetSendSpace(p: string, w: string, userAgent: string, body: Option<string>)
    requires '%' !in p && '+' !in p && '%' !in w && '+' !in w
    requires !HasPrefix(userAgent, "kube-probe")
    ensures Broadcasts(Request("GET", "/api/send/" + p + "%20" + w, userAgent, body)) == Some(p + " " + w)
  {
    var raw := p + "%20" + w;
    assert "/api/send/" + raw == "/api/send/" + p + "%20" + w;
    SpaceEscape(p, w);
    GetSendDecodes(raw, userAgent, body, []);
  }

  /**
   * POST and PUT broadcast the body verbatim; a body that cannot be read
   * broadcasts nothing and is answered `error reading body`.
   */
  lemma BodyVerbatim(r: Request, history: seq<string>)
    requires r.verb == "POST" || r.verb == "PUT"
    requires Route(r).Send?
    ensures Broadcasts(r) == r.body
    ensures r.body.None? ==> Respond(r, history) == Error("error reading body", StatusInternalServerError)
  {
  }

  /** Any method but GET, POST and PUT fails with `invalid HTTP method` and broadcasts nothing. */
  lemma OtherMethodsRefused(r: Request, history: seq<string>)
    requires r.verb != "GET" && r.verb != "POST" && r.verb != "PUT"
    requires Route(r).Send?
    ensures Respond(r, history) == Error("invalid HTTP method", StatusInternalServerError)
    ensures Broadcasts(r) == None
  {
  }

  /**
   * The messages endpoint answers with the history, one line per message,
   * oldest first, and a final line `End`; read back line by line it gives
   * the history and `End` when no message holds a newline.
   */
  lemma MessagesBody(r: Request, history: seq<string>)
    requires Route(r) == Messages
    requires forall i :: 0 <= i < |history| ==> NoNewline(history[i])
    ensures Respond(r, history).Reply? && Respond(r, history).status == StatusOK
    ensures Lines(Respond(r, history).body) == history + ["End"]
    ensures Broadcasts(r) == None
  {
    LinesOfJoined(history, "End");
  }

  /**
   * A request for `/api/messages` (with anything after it) is answered 200
   * with the history dump followed by `End`, and broadcasts nothing.
   */
  lemma MessagesAnswered(r: Request, x: string, history: seq<string>)
    requires !HasPrefix(r.userAgent, "kube-probe") && r.path == "/api/messages" + x
    ensures Respond(r, history) == Reply(StatusOK, PlainText, Joined(history) + "End")
    ensures Broadcasts(r) == None
  {
    assert r.path == "/api/" + ("messages" + x);
    assert r.path[..5] == "/api/" && r.path[5..] == "messages" + x;
    assert ("messages" + x)[..8] == "messages";
  }

  /** A request for `/api/stream` (with anything after it) is handed to the stream handler. */
  lemma StreamAnswered(r: Request, x: string, history: seq<string>)
    requires !HasPrefix(r.userAgent, "kube-probe") && r.path == "/api/stream" + x
    ensures Respond(r, history) == Streamed && Broadcasts(r) == None
  {
    assert r.path == "/api/" + ("stream" + x);
    assert r.path[..5] == "/api/" && r.path[5..] == "stream" + x;
    assert ("stream" + x)[..6] == "stream";
  }
}
