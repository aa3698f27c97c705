# Outline subtree extraction and its connection manager, in Dafny

This project models the core of a browser-side bridge between an automation
server and a rendered outline page. The bridge keeps one WebSocket to the
server. On an `extract_dom` command it walks the page from the outline node
whose `projectid` is the requested id. It replies with that node, the records
of its rendered descendants, a node count and a depth.

Two components are modelled.

- **Tree Extractor**: `extractDOMTree` and its helpers (`content.js`). The
  standalone client `glimpse-cache-client.js:23-137` repeats the same
  functions; only `printTree` logging differs. One model covers both copies.
  - The page is an immutable tree of `Dom.Element`s. Each element has an
    optional `projectid`, the text of its name and note regions (or their
    absence), and its `.children` region.
  - The root lookup finds the first `div[projectid="<id>"]` in document order.
  - The root's `parent_id` is the id of its nearest proper ancestor that is a
    `div[projectid]`.
  - Trimming is ECMAScript `String.prototype.trim`.
  - `ExtractChildren`, `CountNodesRecursive`, `CalculateDepth` and
    `ExtractDomTree` are methods with the source's loops and recursive calls.
    Each is proved equal to a specification function (`ChildRecords`,
    `Flatten`, `Height`, `Extract`). Lemmas about those functions state what
    the extraction guarantees.
- **Connection Manager**: `connectWebSocket`, its socket handlers and the
  `onmessage` dispatch of both the standalone client and the background
  worker (`background.js`).
  - `Connection.ConnectionManager` holds the module-level `ws`,
    `isConnecting` and `reconnectInterval`, the log of sent messages and, for
    the worker, the log of requests forwarded to tabs.
  - Each handler is a method whose new state is a pure step function of the
    old state.
  - A ghost count of running reconnect intervals is tied to the handle by the
    invariant `Inv`. `RunPreservesInv` proves that invariant over any sequence
    of events.
  - A reconnect tick is another call to `ConnectWebSocket`. Whether
    `new WebSocket(...)` throws is a parameter.
  - The standalone client answers in-process. The background worker forwards
    to the first outline tab; the content script's listener answers there
    with the same extraction.

Inputs from outside the code are parameters:
- the page snapshot;
- the result of the `JSON.parse` of an inbound frame (a parsed request, or
  the message of the exception it threw);
- the outline tabs that `chrome.tabs.query` finds;
- whether `chrome.tabs.sendMessage` rejects;
- whether the socket constructor throws.

Where the informal description and the code differ, the model follows the
code:
- A present but blank name region gives `""`. Only an absent region gives
  `"Untitled"` (content.js:73).
- A note is returned untrimmed. It is `null` when it is absent or blank
  (content.js:81-84).
- The root's `parent_id` goes through `|| null`, so an empty ancestor id also
  becomes `null` (content.js:52).
- `connectWebSocket` checks the `isConnecting` flag as well as the socket
  state (glimpse-cache-client.js:155). The model keeps the flag.
  `Inv` proves that the flag is only up while a socket is connecting.
- The `hasChildren` guard in `extractChildren` never changes the result
  (content.js:107-111). `CollapsedIsChildless` proves this.

The transport state change that comes with `onopen` (the socket is then open)
is part of `OpenStep`. The handler itself only resets the flag, clears the
interval and, in the standalone client, sends the ping. The model tracks
only a `null`, a connecting and an open `ws`. A `ws.send` on a `null` `ws`
throws a `TypeError`, and on a connecting socket it throws as well, and so
does the second send in the handler's `catch`. So `Deliver` sends nothing
unless `ws` is open.

Socket events come from the socket held in `ws`. In `Step`, only a
connecting socket opens, and with `ws` `null` an open, error or close
changes nothing. Over such runs `ReconnectsForever` proves that after the
first `connectWebSocket` call a manager without a socket always has a
reconnect interval pending.

## Model

| member | source | states |
|---|---|---|
| Text.Trim | content.js:73 | `trim()` removes a prefix and a suffix of white space and nothing else; neither end of the result is white space; the result is empty exactly when the text is all white space |
| Dom.FirstMatch | content.js:21 | gives the first entry matching `div[projectid="<id>"]`, with no match before it, and gives nothing exactly when no entry matches |
| Dom.AnnotatedIsPreorder | content.js:52 | the listing that pairs each element with its nearest enclosing `div[projectid]` id lists exactly the page's elements in document order |
| Dom.FindRootIsFirstInDocumentOrder | content.js:21-29 | the root lookup fails exactly when no element of the page matches; otherwise it finds the first match in document order, paired with that element's nearest enclosing outline id |
| Dom.DirectNodes | content.js:99 | the direct `div[projectid]` children are exactly the outline nodes among the region's elements, and there are no more of them than elements |
| Dom.DirectNodesOne | content.js:99 | a single element is kept exactly when it is an outline node |
| Dom.DirectNodesConcat | content.js:99 | the selection keeps document order and every copy: the nodes of `a + b` are those of `a` followed by those of `b` |
| Tree.FlattenConcat | content.js:128-136 | the records of two forests placed side by side are the records of the first followed by those of the second |
| Tree.HeightBounds | content.js:141-155 | a forest has depth 0 exactly when it is empty, and never more levels than records |
| Tree.HeightIsMaxLevel | content.js:146-154 | the depth is one more than the deepest child forest: no record exceeds it and some record attains it |
| Extractor.ExtractNodeName | content.js:71-74 | `"Untitled"` when the name region is absent; otherwise the trimmed text, which is `""` exactly when that text is all white space |
| Extractor.ExtractNodeNote | content.js:79-85 | `null` exactly when the note region is absent or all white space; otherwise the text verbatim, untrimmed |
| Extractor.NullIfEmpty | content.js:52 | the fallback to `null` is taken exactly when the ancestor id is missing or `""`; otherwise the id is kept |
| Extractor.RecordsOfInOrder | content.js:101-120 | `forEach` plus `push`: one record per child element, record `k` built from child `k` |
| Extractor.ChildRecordsInOrder | content.js:90-123 | `extractChildren(p)` has one record per direct `div[projectid]` child, in document order, each with that child's id, name, note and children and with `p`'s id as `parent_id` |
| Extractor.CollapsedIsChildless | content.js:94-111 | no `.children` region, an empty one, or one without outline nodes all give `[]`; the `hasChildren` guard never changes the result |
| Extractor.ChildRecordsWellParented | content.js:102-117 | every record from `extractChildren(p)` has `p`'s id as `parent_id`, and every nested record has the id of the record containing it |
| Extractor.RecordsOfWellParented | content.js:113-119 | each pushed record carries its parent's id, and its own children carry its id, at every level |
| Extractor.ExtractCorrect | content.js:16-57 | failure exactly when no `div[projectid="<id>"]` exists, with a message containing the id; otherwise `root.id` is the id, the root is the first match in document order, `parent_id` is its nearest enclosing outline id with `""` read as `null`, `node_count` is 1 plus the number of records, `depth` is the number of levels (0 exactly when there are no children, and below `node_count`), and every record is correctly parented |
| Extractor.ExampleExtraction | content.js:16-57 | root `A` with children `B` (note `"hi"`) and `C` extracts to `node_count` 3, `depth` 1, `A`'s `parent_id` `null`, and two childless records with parent `A` |
| Extractor.ExampleNotFound | content.js:23-29 | an id missing from the page yields the not-found failure message for that id |
| Extractor.ExtractChildren | content.js:90-123 | the loop that pushes records, recursing only into children with a non-empty `.children` region, returns exactly `ChildRecords(parentElement)` |
| Extractor.CountNodesRecursive | content.js:128-136 | the loop with `count +=` over recursive calls returns the number of records in the forest |
| Extractor.CalculateDepth | content.js:141-155 | the loop with `Math.max` over recursive calls returns `currentDepth - 1` plus the number of levels of the forest |
| Extractor.ExtractDomTree | content.js:16-66 | `extractDOMTree` returns exactly the result that `ExtractCorrect` describes |
| ContentScript.OnMessage | content.js:160-170 | the listener responds to `extract_dom` with the extraction result for the requested id and gives no response to other actions |
| Connection.StepPreservesInv | glimpse-cache-client.js:154-222 | every transition keeps the invariant: the handle accounts for every running interval, and the flag is up only while connecting |
| Connection.RunPreservesInv | background.js:18-103 | the invariant holds after any sequence of connect calls, timer ticks, opens, errors and closes |
| Connection.StepKeepsReconnecting | glimpse-cache-client.js:204-221 | every event keeps the property that a manager without a socket has a reconnect interval pending |
| Connection.RunKeepsReconnecting | background.js:18-103 | that property holds after any sequence of events |
| Connection.ReconnectsForever | glimpse-cache-client.js:153-222 | from start-up, after the first `connectWebSocket` call and any events, whenever `ws` is `null` the flag is down and exactly one reconnect interval runs, so reconnection never stops |
| Connection.AtMostOneTimer | glimpse-cache-client.js:204-221 | from start-up, across any event sequence, at most one reconnect interval runs, and one runs exactly when the handle is set |
| Connection.ConnectIsIdempotent | glimpse-cache-client.js:155-157 | `connectWebSocket` changes nothing while connecting or open, so calling it again after a successful call changes nothing |
| Connection.ConnectAttempt | glimpse-cache-client.js:159-163 | otherwise it raises the flag and installs a connecting socket; if the constructor throws, it drops the flag, leaves `ws` alone and leaves exactly one interval running; nothing is sent |
| Connection.OpenClearsTimer | glimpse-cache-client.js:165-177 | `onopen` drops the flag and clears the reconnect interval; the standalone client sends exactly one ping and the background worker sends none |
| Connection.CloseSchedulesOneTimer | background.js:83-92 | `onclose` sets `ws` to `null`, drops the flag and leaves exactly one interval running, creating one only if none existed |
| Connection.ErrorOnlyDropsFlag | glimpse-cache-client.js:199-202 | `onerror` resets `isConnecting` and changes nothing else |
| Connection.ReconnectCycle | background.js:18-38 | after a close one interval runs; a tick that connects and opens clears it; connecting again is then a no-op |
| Connection.RespondRepliesOnce | glimpse-cache-client.js:179-197 | `extract_dom` gets exactly one reply, the extraction result; an unparseable frame gets one failure reply with the exception's message; other actions get none |
| Connection.RelayRepliesOnce | background.js:40-76 | with no outline tab: one `No Workflowy tab open` failure and nothing forwarded; otherwise the request goes to the first tab only, and its answer, or the rejection's message, is the one reply; other actions get nothing |
| Connection.RelayAgreesWithStandalone | background.js:58-66 | relaying through the first tab gives the same reply as the standalone client over that tab's page |
| Connection.ConnectionManager.constructor | glimpse-cache-client.js:13-15 | starts with no socket, flag down, no interval, nothing sent |
| Connection.ConnectionManager.ScheduleReconnectInterval | background.js:98-101 | starts an interval only when the handle is empty |
| Connection.ConnectionManager.ConnectWebSocket | glimpse-cache-client.js:154-222 | the new state is `ConnectStep` of the old, and the invariant is kept |
| Connection.ConnectionManager.OnOpen | glimpse-cache-client.js:165-177 | the new state is `OpenStep` of the old, and the invariant is kept |
| Connection.ConnectionManager.OnError | background.js:78-81 | the new state is `ErrorStep` of the old |
| Connection.ConnectionManager.OnClose | background.js:83-92 | the new state is `CloseStep` of the old, and the invariant is kept |
| Connection.ConnectionManager.Send | glimpse-cache-client.js:186 | a message goes out only on an open socket |
| Connection.ConnectionManager.OnMessage | glimpse-cache-client.js:179-197 | the messages sent are those `Respond` gives, when the socket is open; nothing is forwarded |
| Connection.ConnectionManager.OnRelayMessage | background.js:40-76 | the messages sent are those `RelayReplies` gives, when the socket is open; the forwarded requests are those `RelayForwards` gives |

## Left out

- Exceptions inside `extractDOMTree` (content.js:59-65) are not modelled. With an abstract page there are two sources of one. A quote or backslash in the requested id can make the selector a syntax error that the real selector engine raises. A very deep outline can exhaust the call stack in the recursive helpers, and the `catch` turns the `RangeError` into a failure reply.
- CSS escapes in the requested id are not modelled: `Matches` compares the `projectid` with the id verbatim. In the source a backslash escape such as `\41` can select an element whose `projectid` differs from the requested id (here `A`). The reply's root `id` is then still the raw requested id (content.js:21, 49).
- The real DOM and its selector engine are replaced by the `Element` tree. Elements inside name and note regions are not part of the tree. Neither is any direct child of an outline node other than its `.children` region. So a `div[projectid]` placed there is never found by the root lookup, although `document.querySelector` (content.js:21) would find it.
- `printTree` and all console logging are diagnostic output only.
- The UUID hover, tooltip and clipboard helper (glimpse-cache-client.js:224-373) is user-interface code.
- Start-up and DOM-readiness bootstrapping (glimpse-cache-client.js:375-386; background.js:105-118) only call `connectWebSocket`, which the model has.
- JSON parsing and serialisation: inbound frames arrive already parsed, and replies are datatype values. A serialisation failure while sending is not modelled.
- Timing: `setInterval`/`clearInterval` become the handle flag and a count of live intervals. The 3000 ms delay and the `ws://localhost:8765` address play no part.
- Connection.ConnectionManager.OnRelayMessage: the awaits in the worker's handler run as one sequential step. A socket change during the awaits, and a rejection of `chrome.tabs.query`, are not modelled.
- Events of a superseded socket are not modelled apart from the current socket's. Each open, error or close refers to the socket held in `ws`. `Step` ignores socket events when `ws` is `null`. It also ignores an open of a socket that is not connecting. Socket states other than connecting and open (closing, closed) are not tracked.
- `OpenStep` still states what the `onopen` handler does when `ws` is `null`. The flag drops, the interval is cleared and nothing is sent. That leaves a state with no socket and no pending reconnect. Only a superseded socket's open can reach it, which `Step` does not deliver, so `ReconnectsForever` does not cover that case.
