/**
 * The tools, prompt and resources the HTTP server registers on every
 * McpServer it creates (index.ts, `getServer`). The handlers are pure
 * functions of their arguments, except `start-notification-stream`, whose
 * counted loop is a method. Delays and timestamps are left out; what is kept
 * is which notifications are sent, in which order, and when a handler returns.
 */
module DemoTools {
  import opened Wrappers
  import opened JsText

  /** One item of a tool result's `content`. */
  datatype Content =
    | TextContent(text: string)
    | ResourceLink(uri: string, name: string, mimeType: string, description: Option<string>)

  /** A tool's `{ content: [...] }` result. */
  datatype ToolResult = ToolResult(content: seq<Content>)

  /** A `notifications/message` notification: `{ level, data }`. */
  datatype LogMessage = LogMessage(level: string, data: string)

  // ---------------------------------------------------------------------
  // greet

  /** The name a greeting text was made for, if it has the greeting's shape. */
  function GreetedName(text: string): (r: Option<string>)
    ensures r.Some? ==> text == "Hello, " + r.value + "!"
  {
    if |text| >= 8 && text[..7] == "Hello, " && text[|text| - 1] == '!' then
      var name := text[7..|text| - 1];
      assert text == text[..7] + name + [text[|text| - 1]];
      Some(name)
    else None
  }

  /** `greet`: one text item, the greeting, which carries exactly the name it was asked for. */
  function Greet(name: string): (r: ToolResult)
    ensures |r.content| == 1 && r.content[0].TextContent?
    ensures GreetedName(r.content[0].text) == Some(name)
  {
    var text := "Hello, " + name + "!";
    assert text[..7] == "Hello, ";
    assert text[7..|text| - 1] == name;
    ToolResult([TextContent(text)])
  }

  // ---------------------------------------------------------------------
  // multi-greet

  /** The three notifications `multi-greet` sends, in order. */
  function MultiGreetMessages(name: string): seq<LogMessage> {
    [ LogMessage("debug", "Starting multi-greet for " + name),
      LogMessage("info", "Sending first greeting to " + name),
      LogMessage("info", "Sending second greeting to " + name) ]
  }

  /** What a tool call produced: the notifications delivered, then the result, if the handler returned. */
  datatype ToolCall = ToolCall(notifications: seq<LogMessage>, result: Option<ToolResult>)

  /**
   * `multi-greet`: three notifications, then `Good morning, ${name}!`. Its
   * sends are awaited without a catch, so the first send that throws (the
   * 1-based positions in `failing`) ends the handler with an error.
   */
  function MultiGreet(name: string, failing: set<nat>): (r: ToolCall)
    ensures var sent := MultiGreetMessages(name);
      && |r.notifications| <= |sent| && r.notifications == sent[..|r.notifications|]
      && (forall k :: 0 < k <= |r.notifications| ==> k !in failing)
      && (r.result.Some? <==> |r.notifications| == |sent|)
      && (r.result.Some? ==> r.result.value == ToolResult([TextContent("Good morning, " + name + "!")]))
      && (r.result.None? ==> |r.notifications| + 1 in failing)
  {
    var sent := MultiGreetMessages(name);
    if 1 in failing then ToolCall([], None)
    else if 2 in failing then ToolCall(sent[..1], None)
    else if 3 in failing then ToolCall(sent[..2], None)
    else ToolCall(sent, Some(ToolResult([TextContent("Good morning, " + name + "!")])))
  }

  // ---------------------------------------------------------------------
  // greeting-template

  datatype PromptMessage = PromptMessage(role: string, content: Content)

  /** `greeting-template`: one user message asking to greet `name`. */
  function GreetingTemplate(name: string): (r: seq<PromptMessage>)
    ensures |r| == 1 && r[0].role == "user" && r[0].content.TextContent?
    ensures var t := r[0].content.text;
      && |t| == |name| + 35
      && t[..13] == "Please greet "
      && t[13..13 + |name|] == name
      && t[13 + |name|..] == " in a friendly manner."
  {
    var text := "Please greet " + name + " in a friendly manner.";
    assert text[13..13 + |name|] == name;
    [PromptMessage("user", TextContent(text))]
  }

  // ---------------------------------------------------------------------
  // Resources and list-files

  /** A resource registered with `registerResource`: its name, URI, metadata and the text its callback returns. */
  datatype Resource = Resource(name: string, uri: string, title: string, description: string, mimeType: string, text: string)

  const Resources: seq<Resource> := [
    Resource("greeting-resource", "https://example.com/greetings/default", "Default Greeting",
             "A simple greeting resource", "text/plain", "Hello, world!"),
    Resource("example-file-1", "file:///example/file1.txt", "Example File 1",
             "First example file for ResourceLink demonstration", "text/plain", "This is the content of file 1"),
    Resource("example-file-2", "file:///example/file2.txt", "Example File 2",
             "Second example file for ResourceLink demonstration", "text/plain", "This is the content of file 2")
  ]

  /** One `{ uri, text }` item of a resource read. */
  datatype ResourceContents = ResourceContents(uri: string, text: string)

  /** A `resources/read` for `uri`: the callback of the resource registered under exactly that URI. */
  function ReadResource(uri: string): (r: Option<ResourceContents>)
    ensures r.Some? <==> exists k :: 0 <= k < |Resources| && Resources[k].uri == uri
    ensures r.Some? ==> exists k :: 0 <= k < |Resources| && Resources[k].uri == uri && r.value == ResourceContents(uri, Resources[k].text)
  {
    FindResource(Resources, uri)
  }

  function FindResource(rs: seq<Resource>, uri: string): (r: Option<ResourceContents>)
    ensures r.Some? <==> exists k :: 0 <= k < |rs| && rs[k].uri == uri
    ensures r.Some? ==> exists k :: 0 <= k < |rs| && rs[k].uri == uri && r.value == ResourceContents(uri, rs[k].text)
  {
    if rs == [] then None
    else if rs[0].uri == uri then Some(ResourceContents(uri, rs[0].text))
    else
      var r := FindResource(rs[1..], uri);
      assert forall k :: 1 <= k < |rs| ==> rs[k] == rs[1..][k - 1];
      r
  }

  /** `list-files`: a heading, one resource link per file, a closing hint; descriptions only when `includeDescriptions` is true. */
  function ListFiles(includeDescriptions: Option<bool>): ToolResult {
    var described := includeDescriptions == Some(true);
    ToolResult(
      [TextContent("Here are the available files as resource links:")] +
      [ ResourceLink("https://example.com/greetings/default", "Default Greeting", "text/plain",
                     if described then Some("A simple greeting resource") else None),
        ResourceLink("file:///example/file1.txt", "Example File 1", "text/plain",
                     if described then Some("First example file for ResourceLink demonstration") else None),
        ResourceLink("file:///example/file2.txt", "Example File 2", "text/plain",
                     if described then Some("Second example file for ResourceLink demonstration") else None) ] +
      [TextContent("\nYou can read any of these resources using their URI.")])
  }

  /**
   * The links `list-files` returns are exactly the registered resources, in
   * registration order, each with its title, URI and MIME type, and its
   * description when asked for; and each one can be read by its URI.
   */
  lemma ListFilesLinksRegisteredResources(includeDescriptions: Option<bool>)
    ensures var c := ListFiles(includeDescriptions).content;
      && |c| == |Resources| + 2
      && c[0].TextContent? && c[|c| - 1].TextContent?
      && forall k :: 0 <= k < |Resources| ==>
           c[k + 1] == ResourceLink(Resources[k].uri, Resources[k].title, Resources[k].mimeType,
                                    if includeDescriptions == Some(true) then Some(Resources[k].description) else None)
           && ReadResource(c[k + 1].uri) == Some(ResourceContents(Resources[k].uri, Resources[k].text))
  {
  }

  // ---------------------------------------------------------------------
  // start-notification-stream

  /** One send of the stream loop, "Periodic notification #counter at <time>", and whether it threw (the error is logged). */
  datatype StreamSend = StreamSend(counter: nat, failed: bool)

  function StreamStartedText(interval: int): string {
    "Started sending periodic notifications every " + IntToDecimal(interval) + "ms"
  }

  /**
   * `start-notification-stream`, observed for at most `budget` iterations.
   * Sends numbered 1, 2, ... in order; a send that throws (a number in
   * `failing`) is logged and the loop goes on. With `count > 0` it sends
   * exactly `count` notifications and returns; with `count < 0` it returns at
   * once; with `count == 0` it never returns, however large the budget.
   */
  method StartNotificationStream(interval: int, count: int, failing: set<nat>, budget: nat)
    returns (sends: seq<StreamSend>, result: Option<ToolResult>)
    ensures forall k :: 0 <= k < |sends| ==> sends[k] == StreamSend(k + 1, k + 1 in failing)
    ensures count > 0 ==> |sends| == if count <= budget then count else budget
    ensures count < 0 ==> sends == []
    ensures count == 0 ==> |sends| == budget
    ensures result.Some? <==> count < 0 || (count > 0 && count <= budget)
    ensures result.Some? ==> result.value == ToolResult([TextContent(StreamStartedText(interval))])
  {
    var counter := 0;
    sends := [];
    while (count == 0 || counter < count) && counter < budget
      invariant 0 <= counter <= budget
      invariant count > 0 ==> counter <= count
      invariant count < 0 ==> counter == 0
      invariant |sends| == counter
      invariant forall k :: 0 <= k < counter ==> sends[k] == StreamSend(k + 1, k + 1 in failing)
      decreases budget - counter
    {
      counter := counter + 1;
      // try { await sendNotification(...) } catch (error) { console.error(...) }
      sends := sends + [StreamSend(counter, counter in failing)];
      // await sleep(interval)
    }
    if count == 0 || counter < count {
      // the budget ran out while the loop condition still held
      return sends, None;
    }
    result := Some(ToolResult([TextContent(StreamStartedText(interval))]));
  }
}
