# workshop-mcp: session registry, demo tools and documentation scraper in Dafny

This project models the core of a small Model Context Protocol (MCP) workshop server. It covers three parts.

- **The Streamable HTTP server** (index.ts).
  - The process-wide `transports` registry maps a session id to its transport.
  - The `/mcp` POST handler sorts each request into one of three cases:
    - *continuation*: the id is registered, so its transport is reused;
    - *initialization*: there is no id and the body is an initialize request, so a fresh transport is created;
    - *invalid*: anything else gets the fixed 400 JSON-RPC error.
  - The GET and DELETE handlers refuse missing or unknown ids.
  - Each transport gets two callbacks: `onsessioninitialized`, which registers it, and `onclose`, which unregisters it.
  - The SIGINT shutdown loop closes every session.
  - Beside these sit the demo tools the server registers: `greet`, `multi-greet`, the `greeting-template` prompt, the three resources, `list-files`, and the `start-notification-stream` counting loop.
- **The documentation scraper** (src/mcp_server/utils.ts).
  - `getAllDocUrls` collects a page's links that stay on the same site. A link is kept when it is on the same host, has an empty `search`, has an empty `hash`, and has no asset extension. Each URL appears once, in order of first occurrence.
  - `extractContentFromUrl` returns the trimmed h1/h2 texts and the cleaned body text.
- **The stdio documentation server** (mcp-server.ts).
  - Its `extractContentFromUrl` returns the untrimmed headings joined by line feeds, then a line feed, then the whole page text.
  - Its `getAllDocUrls` is a line-for-line copy of the one in utils.ts, so `DocScraper.GetAllDocUrls` models both.

Files:
- `Wrappers.dfy`: `Option`.
- `JsText.dfy`: the JavaScript string built-ins the code relies on (`trim`, `join("\n")`, the ASCII case folding of a `/…/i` regular expression, and number-to-string for integers). It also has a line split, used as the inverse of `join`.
- `Sessions.dfy`: the registry and the router.
- `DemoTools.dfy`: the tools, the prompt and the resources.
- `DocScraper.dfy`: utils.ts.
- `StdioScraper.dfy`: mcp-server.ts.

The registry is a class. Its `transports` field is a `map<string, Transport>` that the handlers reassign. Each `Transport` is an object that holds its session id and a closed flag. The SDK's `handleRequest` is treated as an opaque step. What one call did is passed in as an `SdkRun` value:
- whether it gave a fresh transport a generated id, which fires `onsessioninitialized`;
- whether it closed the transport, which fires `onclose`;
- whether it returned or threw, and if it threw, whether headers had already been sent.

The registry invariant `Valid` says two things. Every entry is keyed by its own transport's non-empty session id. Every registered transport is open. Entries are added only by `OnSessionInitialized` and removed only by `OnClose` and the shutdown loop.

Where the code's own comments or descriptions promise more than the code does, the model follows the code:
- The comment at index.ts:412 says every active transport is closed on shutdown. A `close()` that throws is only logged (index.ts:416-419), so its entry stays in the registry.
- The `count` parameter of `start-notification-stream` is described as "0 for 100" (index.ts:118). The loop `while (count === 0 || counter < count)` (index.ts:125) never ends for 0. `StartNotificationStream` proves exactly that: for any step budget, a zero count never returns.

The link filter tests `!parsed.search && !parsed.hash` (src/mcp_server/utils.ts:38-39). These are the `search` and `hash` properties of the parsed URL, not the raw text. A URL ending in a bare `?` or `#` has both properties empty, so it passes the filter.

## Model

| member | source | states |
|---|---|---|
| Sessions.Classify | index.ts:288-334 | Each POST falls into exactly one case. It is a continuation exactly when the id is truthy and registered, and then it routes to that id. It is an initialization exactly when the id is missing or empty and the body is an initialize request. It is invalid otherwise, which includes an unknown id with an initialize body. |
| Sessions.EmptyIdIsAbsent | index.ts:290-293 | An empty-string `mcp-session-id` routes exactly like a missing one. |
| Sessions.PostResponse | index.ts:323-351 | An invalid POST gets the fixed 400 body: `jsonrpc` "2.0", code -32000, "Bad Request: No valid session ID provided", id null. Otherwise the transport answers. The 500 body (code -32603, "Internal server error") is written exactly when the SDK threw before headers were sent. |
| Sessions.UnknownSessionRejected | index.ts:290-333 | A present but unregistered id is invalid and gets the 400 body, whatever the body of the request. |
| Sessions.DeleteResponse | index.ts:391-399 | For a registered session, "Error processing session termination" (500) is sent exactly when the SDK threw before headers were sent. Otherwise the transport's answer stands. |
| Sessions.RouteAsWritten | index.ts:276-293 | The lookup as written: an id naming a property inherited from Object.prototype also routes as a continuation. |
| Sessions.PostResponseAsWritten | index.ts:288-351 | The POST response as written. On an inherited name, the `handleRequest` call throws a TypeError and the catch block answers 500. |
| Sessions.GetReply | index.ts:357-374 | The GET answer is 400 "Invalid or missing session ID" exactly when the id is missing, empty or not registered. For a registered id, the handler rejects exactly when the SDK threw, and otherwise the transport answers. |
| Sessions.DeleteReply | index.ts:379-400 | The DELETE answer is 400 exactly when the id is missing, empty or not registered. It is 500 "Error processing session termination" exactly when the id is registered and the SDK threw before headers were sent, and otherwise the transport answers. |
| Sessions.GetReplyAsWritten | index.ts:359-373 | The GET answer as written. An inherited name passes the `!transports[sessionId]` test, `handleRequest` is not a function, and the handler rejects. |
| Sessions.DeleteReplyAsWritten | index.ts:384-399 | The DELETE answer as written. An inherited name passes the test, the TypeError is thrown inside the try block before any header goes out, and the catch block answers 500. |
| Sessions.InheritedNameCounterexample | index.ts:290-351 | With `mcp-session-id: constructor` and an empty registry, POST answers 500, GET rejects and DELETE answers 500, where an unknown id gets 400 from each. |
| Sessions.AsWrittenDiffersOnlyOnInheritedNames | index.ts:276-400 | For each of POST, GET and DELETE, the code as written and the corrected handler give different answers exactly when the id is an inherited name that is not registered. |
| Sessions.Transport.constructor | index.ts:295-303 | A new transport has no session id yet and is open. |
| Sessions.Registry.constructor | index.ts:276 | The registry starts empty and valid. |
| Sessions.Registry.OnSessionInitialized | index.ts:297-302 | Stores the transport under the generated id, and changes nothing else. |
| Sessions.Registry.OnClose | index.ts:306-314 | Removes only the entry keyed by the transport's own truthy session id. An unset id, or one already removed, leaves the registry unchanged, so a second call changes nothing. |
| Sessions.Registry.HandleRequest | index.ts:316-321 | One opaque SDK call, through its callbacks. A transport with no id that is given a generated id becomes registered under it. A transport that is closed becomes unregistered. |
| Sessions.Registry.Post | index.ts:279-352 | Keeps `Valid`. The route is `Classify` of the old keys, and the response is `PostResponse`. An invalid request changes nothing. A continuation returns the registered transport, which ends closed exactly when the SDK closed it, and adds no entry. An initialization returns a fresh transport, which is registered under the generated id only when the SDK assigned one. Transports other than the one handled are unchanged. |
| Sessions.Registry.Get | index.ts:357-374 | Keeps `Valid`. A missing, empty or unregistered id gets 400 "Invalid or missing session ID" and nothing changes. Otherwise the transport serves the request, and a throw rejects the handler. The answer is `GetReply` of the old keys. The served transport ends closed exactly when the SDK closed it, and its entry is then gone. Other transports are unchanged. |
| Sessions.Registry.Delete | index.ts:379-400 | Keeps `Valid`. A missing, empty or unregistered id gets 400 and nothing changes. Otherwise the response is `DeleteResponse`. The answer is `DeleteReply` of the old keys. The served transport ends closed exactly when the SDK closed it, and its entry is then gone. Other transports are unchanged. |
| Sessions.Registry.Serve | index.ts:372-373 | Handing a request to a registered transport keeps `Valid`. The transport ends closed exactly when the SDK closed it, and the entry is removed exactly then. Other transports are unchanged. |
| Sessions.Registry.CloseSession | index.ts:416-417 | One successful close in the shutdown loop. The transport ends closed, its entry is removed, the rest of the registry is unchanged, and the invariant holds. |
| Sessions.Registry.Shutdown | index.ts:409-424 | Tries to close every registered session. Every close that did not throw leaves a closed transport, and its entry is deleted. Exactly the entries whose close threw remain. The exit status is 0. |
| DemoTools.Greet | index.ts:32-41 | One text item, "Hello, <name>!", from which exactly the given name is read back. |
| DemoTools.MultiGreet | index.ts:55-80 | The delivered notifications are, in order, a prefix of the debug "Starting multi-greet for <name>" and the two info greetings. The "Good morning, <name>!" result comes only after all three. The first send that throws ends the handler without a result. |
| DemoTools.GreetingTemplate | index.ts:93-105 | One user message whose text is exactly "Please greet ", then the name, then " in a friendly manner." |
| DemoTools.ReadResource | index.ts:152-209 | A read succeeds exactly for a registered resource URI, and returns that resource's text under the same URI. |
| DemoTools.ListFilesLinksRegisteredResources | index.ts:224-267 | `list-files` returns a heading, one link per registered resource and a closing hint. The links carry each resource's URI, title and MIME type, in registration order. Descriptions appear only when `includeDescriptions` is true. Every link can be read back by its URI. |
| DemoTools.StartNotificationStream | index.ts:108-150 | Sends are numbered 1, 2, … in order, and a throwing send is logged without stopping the loop. With a positive count, exactly `count` sends happen and then the handler returns. A negative count returns at once. A zero count never returns, for any step budget. The result text names the interval. |
| JsText.Trim | src/mcp_server/utils.ts:78 | `trim()` leaves no ECMAScript white space or line terminator at either end. |
| JsText.TrimIsMiddle | src/mcp_server/utils.ts:78 | What `trim()` keeps is a contiguous middle of the input, and everything it drops is white space. |
| JsText.TrimIdempotent | src/mcp_server/utils.ts:78 | Trimming twice gives the same result as trimming once. |
| JsText.SplitJoin | mcp-server.ts:61 | Splitting on line feeds undoes `join("\n")` when there is at least one part and no part holds a line feed. |
| JsText.JoinSplit | mcp-server.ts:61 | `join("\n")` undoes the line split, for every string. |
| JsText.JoinAppend | mcp-server.ts:61 | Joining a concatenation places exactly one line feed between the two joined halves. |
| DocScraper.AssetTestIgnoresCase | src/mcp_server/utils.ts:40 | The asset-extension test gives the same answer on a pathname and on its lower-cased form. |
| DocScraper.KeptHrefsMembership | src/mcp_server/utils.ts:31-44 | A URL is collected exactly when some anchor with a non-empty href resolves to it and passes all four tests. |
| DocScraper.DistinctElements | src/mcp_server/utils.ts:29-46 | The Set ends up holding exactly the URLs added to it. |
| DocScraper.DistinctNoDuplicates | mcp-server.ts:30-47 | The Set's contents list no URL twice. |
| DocScraper.DistinctFirstOccurrenceOrder | mcp-server.ts:30-47 | The Set's contents are listed in order of first insertion. |
| DocScraper.GetAllDocUrls | src/mcp_server/utils.ts:24-47 | A missing or empty page gives []. An href the URL constructor refuses makes the call reject, naming the first such href. Otherwise the result lists exactly the URLs of the anchors that pass the filter, each once, in order of first occurrence. So every result is on the base host, with empty search and hash, and has no asset extension. |
| DocScraper.ExtractContentFromUrl | src/mcp_server/utils.ts:67-90 | Null exactly when the fetch failed or gave an empty page. Otherwise the source is the url, the headers are the h1/h2 texts trimmed and in document order, and the content is the cleaned body text. |
| StdioScraper.ExtractContentFromUrl | mcp-server.ts:50-63 | Null exactly when the fetch failed or gave an empty page. Otherwise the url is echoed. The content is the untrimmed headings joined by line feeds, then a line feed, then the whole page text. |
| StdioScraper.ContentLines | mcp-server.ts:56-62 | When no heading holds a line feed, the content's lines are the headings (one empty line when there are none) followed by the page text's lines, so the headings can be read back. |

## Left out

- Express wiring, `app.listen`, logging and dotenv: these are I/O. The handlers are methods that take the header values directly.
- The SDK's StreamableHTTPServerTransport internals (framing, SSE, `Last-Event-ID` resumption, `server.connect`): this is a foreign library. One call is summarised by an `SdkRun`. Re-initialising an already initialised transport is the SDK's concern: `HandleRequest` gives an id only to a transport that has none.
- `randomUUID`: the generated id is part of the `SdkRun`. `Post` requires it to be non-empty, which a UUID always is. Uniqueness is not assumed. A colliding id overwrites the old entry, as the object assignment does.
- Concurrency between requests: events are sequential. The race the code avoids becomes "only `OnSessionInitialized` registers".
- Sessions.Registry.Shutdown: a close that throws is taken to throw before it fires `onclose`. The order in which `for…in` visits the keys is not modelled, because the final state does not depend on it.
- Sessions.Registry.Get: the SDK's own 4xx answers (wrong Accept header, an invalid session header) are part of "the transport answered".
- DemoTools.StartNotificationStream: `count` and `interval` are taken as integers. The zod schema accepts any number, and a fractional count would send ⌈count⌉ notifications. The timestamps and the delays are not modelled. A step budget stands in for "the loop runs forever".
- Tool, prompt and resource metadata (titles, descriptions, zod schemas) is registration data, not behaviour.
- `fetchPage`, cheerio parsing, WHATWG URL resolution and the REMOVE_SELECTOR stripping: these are network calls and foreign parsers. A `Page` record carries their results. The base hostname is an input. An invalid base URL cannot be fetched, so such a call already returns [].
- src/mcp_server/index.ts, embedding.ts and test-cosine-similarity.ts are glue over fetch, Chroma, OpenAI embeddings and the stdio transport, and are not part of this model. esbuild.config.js is build configuration.

## Findings

| source | as written | input that shows it | evidently intended | confidence | as-written member | corrected member |
|---|---|---|---|---|---|---|
| index.ts:276-293 | `transports` is a plain object literal, so `transports[sessionId]` is truthy for a name inherited from Object.prototype. POST then calls a `handleRequest` that does not exist and answers 500. DELETE answers 500 "Error processing session termination". GET's handler rejects. | POST, GET or DELETE /mcp with `mcp-session-id: constructor` (or `toString`, `__proto__`) on any registry | An unknown id gets the handler's fixed 400 | high, not executed | Sessions.PostResponseAsWritten, Sessions.GetReplyAsWritten, Sessions.DeleteReplyAsWritten, Sessions.InheritedNameCounterexample | Sessions.Classify, Sessions.UnknownSessionRejected, Sessions.GetReply, Sessions.DeleteReply |
