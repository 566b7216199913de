# web-notifications broadcast hub, modelled in Dafny

The repository is an in-process broadcast hub written in Go. Producers post
short text notifications over HTTP. The hub keeps a bounded rolling history
of them and fans each one out to every connected streaming subscriber. Late
joiners first get the retained history.

This project models the sequential core of that hub. Concurrency is
stripped away:

- every subscriber channel is a FIFO queue of strings (`map<int, seq<string>>`);
- a blocking channel send is an append to that queue;
- mutexes are dropped;
- the clock is an input (`Timestamp`) rather than a call to `time.Now()`.

Files and modules:

| file | module | models |
|---|---|---|
| `text.dfy` | `Text` | `Option`/`Result`, `strings.HasPrefix`, the text a run of `fmt.Fprintln` calls writes (`Joined`) and its inverse (`Lines`) |
| `history.dfy` | `History` | the sliding window both hubs keep (`Window`), and what any run of broadcasts leaves in it |
| `logmessage.dfy` | `LogMessages` | `LogMessage`, `NewLogMessage`, `String` as `"[HH:MM:SS] text"`, and a parser that inverts it |
| `queues.dfy` | `Queues` | the subscriber registry and one fan-out pass (`Fanout`) |
| `pkg_hub.dfy` | `PkgHub` | the evolved hub of `src/pkg/hub.go`: a class whose fields are the counter, the registry and a history of `LogMessage`s, with `'0'` message frames and `'1'` pings |
| `hub.dfy` | `Notifications` | the legacy hub of `src/github.com/kwkoo/webnotifications/hub.go`: the same class over raw strings, with no frame discriminator and no ping |
| `url_escape.dfy` | `UrlEscape` | Go's `url.QueryUnescape` (percent-encoding as in section 2.1 of RFC 3986, plus `'+'` for a space), and `url.QueryEscape` as its inverse |
| `web.dfy` | `Web` | `ServeHTTP`/`handleAPI` routing, `handleSend`, `handleMessages` and `CloseHub`, over the legacy hub |

The hubs are classes. Their methods update `counter`, `out` and `messages`
in place. Each method's `ensures` gives the new state as a function of the
old one. The object invariant `Valid()` says two things: the history never
exceeds `bufSize`, and every registered id is below the counter, so ids are
never reused.

Request handling is split in two. The pure functions `Route`, `ApiRoute`,
`SendMessage`, `Broadcasts` and `Respond` say what a request reaches, what
it broadcasts and what it is answered. The `WebHandler` methods do the same
thing step by step on the hub, and their `ensures` tie them to those
functions.

## Model

| member | source | states |
|---|---|---|
| `LogMessages.LogMessage.String` | src/pkg/logmessage.go:22-24 | the rendering is an 11-character prefix followed by the text verbatim, with no escaping or trimming |
| `LogMessages.Format` | src/pkg/logmessage.go:23 | `Sprintf("[%02d:%02d:%02d] %s")` gives `[`, `:`, `:`, `] ` at their fixed places and the text verbatim after 11 characters; a text without a newline gives a one-line rendering |
| `LogMessages.NewLogMessage` | src/pkg/logmessage.go:15-20 | the new entry keeps the given text unchanged and carries the given instant |
| `LogMessages.StringParses` | src/pkg/logmessage.go:22-24 | reading a rendered entry back gives its hour, minute, second and text |
| `LogMessages.Pad2` | src/pkg/logmessage.go:23 | `%02d` gives exactly two decimal digits whose value is the number |
| `LogMessages.Pad2OfValue` | src/pkg/logmessage.go:23 | every two-digit string is the padding of its value, so padding is one to one on 0..99 |
| `LogMessages.ParseFormat` | src/pkg/logmessage.go:23 | parsing a formatted entry gives back its three clock fields and its text |
| `LogMessages.FormatParse` | src/pkg/logmessage.go:23 | every line that parses is exactly the formatting of what it parses to |
| `LogMessages.StringIgnoresDateAndNanos` | src/pkg/logmessage.go:23 | entries equal in hour, minute, second and text render identically |
| `LogMessages.StringInjective` | src/pkg/logmessage.go:23 | entries that render identically agree in hour, minute, second and text |
| `LogMessages.Rendered` | src/pkg/hub.go:139-141 | the replayed lines are the entries' renderings, one per entry, in order |
| `History.Window` | src/pkg/hub.go:110-113 | the trimmed history holds min(n, bufSize) entries and is the newest suffix of the untrimmed one |
| `History.WindowAppend` | src/github.com/kwkoo/webnotifications/hub.go:76-79 | trimming after every append equals trimming once after all of them |
| `History.AfterBroadcastsIsWindow` | src/pkg/hub.go:107-116 | from a history within bounds, any run of broadcasts leaves the newest bufSize entries of everything seen, oldest first |
| `History.FreshHistoryKeepsNewest` | src/github.com/kwkoo/webnotifications/hub.go:74-80 | from an empty history, N broadcasts leave exactly the last min(N, bufSize) of them, in order |
| `Queues.FanoutDelivers` | src/pkg/hub.go:119-125 | one fan-out reaches exactly the registered ids; each gets one more frame, equal to the one sent, after what it already had |
| `Queues.Fanout` | src/pkg/hub.go:119-125 | (the same loop as the legacy hub.go lines 82-86) the registered ids are unchanged, and each queue keeps its old frames in front and gains exactly one more, the one sent, at its end |
| `Queues.FanoutInOrder` | src/github.com/kwkoo/webnotifications/hub.go:82-86 | two fan-outs reach each subscriber in the order they were made |
| `Queues.FanoutSkipsRemoved` | src/pkg/hub.go:73-83 | a deregistered id receives nothing from later fan-outs |
| `PkgHub.Hub.InitHub` | src/pkg/hub.go:25-52 | a new hub has counter 0, no subscribers, an empty history and an open input channel |
| `PkgHub.Hub.GetOutChannel` | src/pkg/hub.go:60-70 | returns the old counter as a fresh id and raises the counter by one; only that id is added, and its queue is the rendered history |
| `PkgHub.Hub.DumpToChannel` | src/pkg/hub.go:136-142 | the subscriber's queue gets every retained entry's rendering, oldest first, with no `'0'` prefix; no other queue changes |
| `PkgHub.Hub.CloseOutChannel` | src/pkg/hub.go:73-83 | removes only the given id; an unknown id changes nothing, so a second call is a no-op |
| `PkgHub.Hub.Close` | src/pkg/hub.go:86-97 | closes the input channel and leaves no subscriber registered; it demands an open input channel |
| `PkgHub.Hub.Ping` | src/pkg/hub.go:101-103 | every registered queue gets exactly `"1"` appended; the history is unchanged |
| `PkgHub.Hub.Broadcast` | src/pkg/hub.go:107-116 | the history becomes the window of old history plus the new entry; every registered queue gets `'0'` + its rendering, once |
| `PkgHub.Hub.RealBroadcast` | src/pkg/hub.go:119-125 | every registered queue, and no other, gets the frame appended once |
| `PkgHub.Hub.Dump` | src/pkg/hub.go:128-134 | writes one rendered line per retained entry, oldest first |
| `Notifications.Hub.InitHub` | src/github.com/kwkoo/webnotifications/hub.go:21-31 | a new hub has counter 0, no subscribers, an empty history and an open input channel |
| `Notifications.Hub.GetOutChannel` | src/github.com/kwkoo/webnotifications/hub.go:39-48 | returns the old counter as a fresh id and raises the counter by one; only that id is added, and its queue is the history |
| `Notifications.Hub.DumpToChannel` | src/github.com/kwkoo/webnotifications/hub.go:98-104 | the subscriber's queue gets the retained strings, oldest first; no other queue changes |
| `Notifications.Hub.CloseOutChannel` | src/github.com/kwkoo/webnotifications/hub.go:51-60 | removes only the given id; an unknown id changes nothing, so a second call is a no-op |
| `Notifications.Hub.Close` | src/github.com/kwkoo/webnotifications/hub.go:63-71 | closes the input channel and leaves no subscriber registered; it demands an open input channel |
| `Notifications.Hub.Broadcast` | src/github.com/kwkoo/webnotifications/hub.go:74-87 | the history becomes the window of old history plus `m`; every registered queue gets the raw `m` appended once |
| `Notifications.Hub.Dump` | src/github.com/kwkoo/webnotifications/hub.go:90-96 | writes one line per retained string, oldest first |
| `Text.JoinedAppend` | src/github.com/kwkoo/webnotifications/hub.go:93-95 | what two runs of `Fprintln` write is the concatenation of what each writes |
| `Text.JoinedSnoc` | src/github.com/kwkoo/webnotifications/hub.go:93-95 | one more `Fprintln` call writes its line and a newline after what was written before |
| `Text.Joined` | src/github.com/kwkoo/webnotifications/hub.go:93-95 | the `Fprintln` loop writes nothing exactly when there are no lines, and otherwise its output ends with a newline |
| `Text.LinesOfJoined` | src/github.com/kwkoo/webnotifications/web.go:134-138 | splitting the written lines plus a final line gives back the lines, if none holds a newline |
| `UrlEscape.QueryUnescape` | src/github.com/kwkoo/webnotifications/web.go:78 | a decoding is never longer than its input |
| `UrlEscape.PlainUnchanged` | src/github.com/kwkoo/webnotifications/web.go:78 | text without `'%'` or `'+'` decodes to itself |
| `UrlEscape.QueryUnescapeSucceeds` | src/github.com/kwkoo/webnotifications/web.go:78-82 | decoding fails exactly when some `'%'` is not followed by two hexadecimal digits |
| `UrlEscape.QueryUnescapeEscape` | src/github.com/kwkoo/webnotifications/web.go:78 | decoding the encoding of any byte string gives it back |
| `UrlEscape.QueryUnescapePlain` | src/github.com/kwkoo/webnotifications/web.go:78 | a prefix without `'%'` or `'+'` passes through decoding unchanged |
| `UrlEscape.QueryUnescapeEscaped` | src/github.com/kwkoo/webnotifications/web.go:78 | one `%XY` escape decodes to the byte XY, followed by the decoding of the rest |
| `UrlEscape.SpaceEscape` | src/github.com/kwkoo/webnotifications/web.go:76-82 | `"%20"` between two plain texts decodes to a space between them |
| `Web.SendMessage` | src/github.com/kwkoo/webnotifications/web.go:69-95 | a message is read exactly for a GET whose remainder is `'/'` plus well-formed escapes, or for a POST/PUT with a readable body; GET yields the decoding, POST/PUT the body |
| `Web.Error` | src/github.com/kwkoo/webnotifications/web.go:66 | `http.Error` answers with the given status as `text/plain; charset=utf-8` |
| `Web.ErrorLines` | src/github.com/kwkoo/webnotifications/web.go:66 | an error message without a newline is the only line of `http.Error`'s body |
| `Web.Route` | src/github.com/kwkoo/webnotifications/web.go:39-50 | probes are recognised by User-Agent alone and before any path check; files are served exactly for non-probes outside `/api/`; a route to `send` with remainder `rest` means the path is `/api/send` + `rest`; every other non-probe `/api/` path is dispatched by `ApiRoute` on what follows `/api/` |
| `Web.ApiRoute` | src/github.com/kwkoo/webnotifications/web.go:54-66 | `send` is taken exactly for paths starting with `send`, the remainder being what follows it; `messages` exactly for paths starting with `messages`, `stream` exactly for paths starting with `stream`; `invalid API call` exactly when none of the three is a prefix |
| `Web.Broadcasts` | src/github.com/kwkoo/webnotifications/web.go:96-99 | only a non-probe request routed to `send` broadcasts; a GET broadcasts the decoding of its remainder after `'/'`, a POST or PUT its body, any other method nothing |
| `Web.Respond` | src/github.com/kwkoo/webnotifications/web.go:36-101 | the file server and the stream handler are reached exactly on their routes; every status is 200, 404 or 500; the answer is 200 `OK` exactly for a probe or a request that broadcasts; every error answer is `http.Error` text and broadcasts nothing |
| `Web.WebHandler.InitWebHandler` | src/github.com/kwkoo/webnotifications/web.go:22-30 | the handler works on the given hub |
| `Web.WebHandler.CloseHub` | src/github.com/kwkoo/webnotifications/web.go:32-34 | the hub is closed and has no subscribers; history and counter are kept |
| `Web.WebHandler.ServeHTTP` | src/github.com/kwkoo/webnotifications/web.go:36-51 | the answer is `Respond` of the request and the old history; stream requests aside (see Left out), the hub changes only by the request's broadcast, if any |
| `Web.WebHandler.HandleApi` | src/github.com/kwkoo/webnotifications/web.go:53-67 | the same, for a request already routed to the API; stream requests aside (see Left out), the hub changes only by the request's broadcast |
| `Web.WebHandler.HandleSend` | src/github.com/kwkoo/webnotifications/web.go:69-101 | the same, for a request routed to the ingest endpoint: one `Broadcast` and `OK` on success, an error and no hub change otherwise |
| `Web.WebHandler.HandleMessages` | src/github.com/kwkoo/webnotifications/web.go:134-139 | answers 200 with the dumped history followed by `End` |
| `Web.ProbeAnswered` | src/github.com/kwkoo/webnotifications/web.go:39-43 | a User-Agent starting with `kube-probe` is answered 200 `OK` with no routing and no broadcast |
| `Web.FilesOutsideApi` | src/github.com/kwkoo/webnotifications/web.go:45-50 | any other path outside `/api/` goes to the file server and broadcasts nothing |
| `Web.SendRoute` | src/github.com/kwkoo/webnotifications/web.go:46-48 | a request reaches `handleSend` with remainder `rest` exactly when its path is `/api/send` + `rest` |
| `Web.UnknownApiCall` | src/github.com/kwkoo/webnotifications/web.go:54-66 | an API path starting with none of `send`, `messages`, `stream` gets 404 `invalid API call` and no broadcast |
| `Web.BroadcastIffOK` | src/github.com/kwkoo/webnotifications/web.go:96-99 | a request broadcasts exactly when it reaches `handleSend` and its message is read, which is exactly when `handleSend` answers 200 `OK` |
| `Web.GetSendDecodes` | src/github.com/kwkoo/webnotifications/web.go:76-82 | GET `/api/send/` + raw broadcasts the decoding of raw; an undecodable raw gets `could not decode message` and no broadcast |
| `Web.GetWithoutMessage` | src/github.com/kwkoo/webnotifications/web.go:72-75 | a GET with an empty remainder or one not starting with `'/'` fails with `no message found in GET request` and no broadcast |
| `Web.GetSendSpace` | src/github.com/kwkoo/webnotifications/web.go:76-82 | a GET whose decoded path is `/api/send/hello%20world` (generalised to any two plain texts; `%2520` on the wire) broadcasts `hello world` |
| `Web.BodyVerbatim` | src/github.com/kwkoo/webnotifications/web.go:83-91 | POST and PUT broadcast the body verbatim; an unreadable body broadcasts nothing and is answered 500 `error reading body` |
| `Web.OtherMethodsRefused` | src/github.com/kwkoo/webnotifications/web.go:92-95 | any other method fails with `invalid HTTP method` and no broadcast |
| `Web.MessagesBody` | src/github.com/kwkoo/webnotifications/web.go:134-138 | the messages endpoint answers 200; when no message holds a newline, the body's lines are the history, oldest first, then `End` |
| `Web.MessagesAnswered` | src/github.com/kwkoo/webnotifications/web.go:58-61 | a non-probe request whose path starts with `/api/messages` is answered 200 `text/plain` with the dumped history followed by `End`, and broadcasts nothing |
| `Web.StreamAnswered` | src/github.com/kwkoo/webnotifications/web.go:62-65 | a non-probe request whose path starts with `/api/stream` is handed to the stream handler and broadcasts nothing |
| `Web.SendAnswer` | src/github.com/kwkoo/webnotifications/web.go:69-101 | on a route to `handleSend`, a read message is answered 200 `OK` and broadcast, and an error is answered 500 with its text and broadcasts nothing |

## Left out

- Concurrency: the mutex and read-write mutex, blocking sends, and the stall of the whole hub behind a slow consumer are not modelled. A send is an append to an unbounded queue.
- `PkgHub.Hub.GetOutChannel`, `Notifications.Hub.GetOutChannel`: Go replays the history from a goroutine. The model runs the replay to completion before the call returns, so the queue starts with the history. Interleavings of a replay with concurrent broadcasts are not modelled, and no atomic snapshot-then-live ordering is claimed.
- The ping goroutine started by `InitHub` when `pingInterval > 0` (src/pkg/hub.go:36-50): timers and concurrency. `InitHub` never stores `pingInterval` in the hub, so the `endPing` signal in `Close` can never fire; the model has neither the field nor the signal.
- `Close` closes the hub's input channel, so a second call panics in Go. The model requires an open input channel instead of modelling the panic. `Close` is not idempotent.
- `GetInChannel`: a trivial accessor that nothing uses.
- `handleStream` (src/github.com/kwkoo/webnotifications/web.go:103-132): the websocket upgrade, its reader goroutine and its network writes are concurrency and I/O. It appears only as the `Streamed` outcome, and the subscription it makes on the hub is not modelled.
- The file server appears only as the `FileServed` outcome.
- `log.Printf` calls are left out. Of the response headers, only `Content-Type` is modelled; the `X-Content-Type-Options` header that `http.Error` also sets is not.
- `time.Now()`: the instant of a new log entry is a parameter. Only its hour, minute and second reach the rendering; `day` and `nanosecond` stand for the rest of Go's `time.Time`.
- The request's path is Go's `r.URL.Path` as the HTTP server hands it over, already percent-decoded once by `net/http`. That first decoding is not part of this model; `QueryUnescape` at src/github.com/kwkoo/webnotifications/web.go:78 is a second decoding of the same text. On the wire, `/api/send/a%2Bb` therefore broadcasts `a b`, and `/api/send/100%25` is refused with `could not decode message`.
- Go strings are byte strings. Here they are `seq<char>`, one character per byte; a `%XY` escape decodes to the character with code XY (below 256).
- A negative `bufSize` would make the trimming slice panic. The model's `bufSize` is a `nat`.
- The id counter is an unbounded `nat`. Go's `int` overflow after 2^63 subscriptions is not modelled.
- The host programs (`src/main.go`, `src/github.com/kwkoo/webnotifications/cmd/webnotifications/main.go`) are not part of this model. They cover configuration, signal handling and server start and shutdown.
