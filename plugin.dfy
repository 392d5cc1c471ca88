/** The `!wiw` chat command: report what is deployed where for the current
    channel, or configure the endpoint the report is fetched from.

    The libraries the plugin calls are parameters: the regular-expression
    search `re.findall(r"!wiw\s*(.*)?", text)`, the argument parser and the
    HTTP client (whose response carries its already-parsed JSON body). */
module Plugin {
  import opened Wrappers
  import opened PyStr
  import opened Endpoints
  import opened Render

  /** The module's help text (its `__doc__`). */
  const DOC: string :=
    "\n!wiw - outputs the information for what is deployed where.\n"
    + "!wiw set <format> <url> [api token] Set the format and URL to use for the current channel.\n"
    + "    <format> One of the following formats: (ecs)\n"
    + "    <url> Url to the what-is-where endpoint\n"
    + "    [api token] (optional)\n"

  /** The formats `set` accepts. */
  const FORMATS: seq<string> := ["ecs"]

  const NOT_SETUP: string := "This channel has not yet been setup, use !wiw set.\n"
  const SET_AGAIN: string := "Something went wrong, try running !wiw set again."
  const ERROR_PREFIX: string := "Error; Got response: "
  const MISSING_ARGS: string := "<format> and <url> are required\n"
  /** The message with FORMATS printed as Python prints a list of strings. */
  const UNSUPPORTED: string := "Format not supported. Choose one of: ['ecs']"

  /** The module-level flag guarding table creation. The handler's assignment
      to it binds a local name, so the module-level value stays true for ever. */
  const FIRST: bool := true

  // The status report.

  /** `GET url` with the header `x-api-key: apiKey`. */
  datatype Request = Request(url: string, apiKey: string)

  /** What the HTTP client returns: the status code, the body as text, and the
      body parsed as JSON (used only when the status is 200). */
  datatype Response = Response(statusCode: int, text: string, json: Balancers)

  /** The report for a response from the configured endpoint. */
  function Answer(res: Response): (a: string)
    ensures res.statusCode == 200 ==> a == Render.Render(res.json)
    ensures res.statusCode != 200 ==>
      |a| == |ERROR_PREFIX| + |res.text| && a[..|ERROR_PREFIX|] == ERROR_PREFIX && a[|ERROR_PREFIX|..] == res.text
  {
    if res.statusCode == 200 then Render.Render(res.json) else ERROR_PREFIX + res.text
  }

  /** `wiw(msg, server)`: what the bare `!wiw` command answers in `room`. */
  function Status(rows: seq<Row>, room: string, get: Request -> Response): (s: string)
    ensures (forall i :: 0 <= i < |rows| ==> rows[i].room != room) ==> s == NOT_SETUP + DOC
  {
    match GetEndpoint(rows, room)
    case None => NOT_SETUP + DOC
    case Some(e) =>
      if e.format == "ecs" then Answer(get(Request(e.url, e.apiToken))) else SET_AGAIN
  }

  /** A configured room answers from its first row: an `ecs` row queries exactly
      that row's URL with that row's token, any other format gets the fallback. */
  lemma StatusConfigured(rows: seq<Row>, room: string, get: Request -> Response, i: nat)
    requires i < |rows| && rows[i].room == room
    requires forall j :: 0 <= j < i ==> rows[j].room != room
    ensures Status(rows, room, get)
         == if rows[i].format == "ecs" then Answer(get(Request(rows[i].url, rows[i].apiToken))) else SET_AGAIN
  {
    GetEndpointFirst(rows, room, i);
  }

  /** The status command as the plugin runs it, the report built by the loops of RenderStatus. */
  method Wiw(db: Database, room: string, get: Request -> Response) returns (reply: string)
    ensures reply == Status(db.rows, room, get)
  {
    var endpoint := GetEndpoint(db.rows, room);
    if endpoint.None? {
      return NOT_SETUP + DOC;
    }
    if endpoint.value.format == "ecs" {
      var res := get(Request(endpoint.value.url, endpoint.value.apiToken));
      if res.statusCode == 200 {
        reply := RenderStatus(res.json);
        return;
      }
      return ERROR_PREFIX + res.text;
    }
    return SET_AGAIN;
  }

  // Validation of `set`.

  datatype SetArgs =
    | Missing
    | Unsupported
    | Accepted(format: string, url: string, apiToken: string)

  /** The checks of `set <format> <url> [api token]` on the words after `set`:
      the argument count first, then the format. */
  function CheckSet(body: seq<string>): (a: SetArgs)
    ensures a.Missing? <==> |body| < 2
    ensures a.Unsupported? <==> |body| >= 2 && body[0] !in FORMATS
    ensures a.Accepted? ==> a.format == body[0] && a.format in FORMATS && a.url == body[1]
    ensures a.Accepted? ==> a.apiToken == if |body| == 2 then "" else body[2]
  {
    if |body| < 2 then Missing
    else
      var format, url := body[0], body[1];
      var apiToken := if |body| > 2 then body[2] else "";
      if format !in FORMATS then Unsupported else Accepted(format, url, apiToken)
  }

  /** Words after the third are ignored. */
  lemma CheckSetIgnoresExtra(body: seq<string>)
    requires |body| > 3
    ensures CheckSet(body) == CheckSet(body[..3])
  {
  }

  // Dispatch.

  /** What the argument parser makes of the words: a failure (it would exit,
      as for `-h`), or the first word as the command and the rest as the body. */
  datatype ParseOutcome = ParseError | Parsed(command: string, body: seq<string>)

  /** An incoming message: its text, when it has one, and its channel. */
  datatype Message = Message(text: Option<string>, channel: string)

  /** The libraries the handler calls. */
  datatype Env = Env(
    findWiw: string -> seq<string>,
    parseArgs: seq<string> -> ParseOutcome,
    get: Request -> Response)

  /** The answer to a message (`None`: no answer) and the table afterwards. */
  datatype Handled = Handled(reply: Option<string>, rows: seq<Row>)

  /** A word the argument parser takes as it is: it does not start with `-`. */
  predicate PlainWord(w: string) {
    w == [] || w[0] != '-'
  }

  /** Words none of which looks like an option. */
  predicate PlainWords(words: seq<string>) {
    forall i :: 0 <= i < |words| ==> PlainWord(words[i])
  }

  /** The argument parser (one positional `command`, then any number of
      positional `body` words) on words none of which looks like an option. */
  ghost predicate PlainParser(parseArgs: seq<string> -> ParseOutcome) {
    forall words: seq<string> {:trigger parseArgs(words)} ::
      |words| >= 1 && PlainWords(words) ==> parseArgs(words) == Parsed(words[0], words[1..])
  }

  /** The handler once the argument parser has run: the status report, the help
      text, `set`, or no answer for any other command. */
  function Dispatch(rows: seq<Row>, channel: string, parsed: ParseOutcome, get: Request -> Response): (h: Handled)
    ensures h.reply.None? <==>
      parsed.Parsed? && parsed.command !in {"", "help"} &&
      (parsed.command == "set" ==> CheckSet(parsed.body).Accepted?)
    ensures h.rows != rows ==> parsed.Parsed? && parsed.command == "set" && CheckSet(parsed.body).Accepted?
    ensures parsed.ParseError? ==> h == Handled(Some(DOC), rows)
    ensures parsed.Parsed? && parsed.command == "" ==> h == Handled(Some(Status(rows, channel, get)), rows)
    ensures parsed.Parsed? && parsed.command == "help" ==> h == Handled(Some(DOC), rows)
  {
    match parsed
    case ParseError => Handled(Some(DOC), rows)
    case Parsed(command, body) =>
      if |command| == 0 then Handled(Some(Status(rows, channel, get)), rows)
      else if command == "help" then Handled(Some(DOC), rows)
      else if command == "set" then
        match CheckSet(body)
        case Missing => Handled(Some(MISSING_ARGS + DOC), rows)
        case Unsupported => Handled(Some(UNSUPPORTED), rows)
        case Accepted(format, url, apiToken) => Handled(None, Store(rows, channel, format, url, apiToken))
      else Handled(None, rows)
  }

  /** `on_message(msg, server)` on the table `rows`. */
  function Handle(rows: seq<Row>, msg: Message, env: Env): (h: Handled)
    ensures env.findWiw(msg.text.GetOr("")) == [] ==> h == Handled(None, rows)
  {
    var matches := env.findWiw(msg.text.GetOr(""));
    if matches == [] then Handled(None, rows)
    else Dispatch(rows, msg.channel, env.parseArgs(Split(matches[0], ' ')), env.get)
  }

  /** `on_message(msg, server)`: ensure the table exists, then answer the message. */
  method OnMessage(db: Database, msg: Message, env: Env) returns (reply: Option<string>)
    requires db.Valid()
    modifies db
    ensures db.Valid() && db.tableExists
    ensures Handled(reply, db.rows) == Handle(old(db.rows), msg, env)
  {
    if FIRST {
      db.CreateTable();
    }
    var text := msg.text.GetOr("");
    var matches := env.findWiw(text);
    if matches == [] {
      return None;
    }
    var parsed := env.parseArgs(Split(matches[0], ' '));
    if parsed.ParseError? {
      return Some(DOC);
    }
    var command := parsed.command;
    if |command| == 0 {
      var status := Wiw(db, msg.channel, env.get);
      return Some(status);
    }
    if command == "help" {
      return Some(DOC);
    }
    if command == "set" {
      var body := parsed.body;
      if |body| < 2 {
        return Some(MISSING_ARGS + DOC);
      }
      var format, url, apiToken := body[0], body[1], "";
      if |body| > 2 {
        apiToken := body[2];
      }
      if format !in FORMATS {
        return Some(UNSUPPORTED);
      }
      db.SetEndpoint(msg.channel, format, url, apiToken);
      return None;
    }
    return None;
  }

  // Properties of the handler.

  /** A message in one channel never changes what any other channel has configured. */
  lemma HandleKeepsOtherChannels(rows: seq<Row>, msg: Message, env: Env, other: string)
    requires other != msg.channel
    ensures Select(Handle(rows, msg, env).rows, other) == Select(rows, other)
    ensures GetEndpoint(Handle(rows, msg, env).rows, other) == GetEndpoint(rows, other)
  {
    var h := Handle(rows, msg, env);
    if h.rows != rows {
      var matches := env.findWiw(msg.text.GetOr(""));
      var a := CheckSet(env.parseArgs(Split(matches[0], ' ')).body);
      StoreKeepsOthers(rows, msg.channel, a.format, a.url, a.apiToken, other);
      GetAfterStoreOther(rows, msg.channel, a.format, a.url, a.apiToken, other);
    }
  }

  /** Every message keeps the table at one row per channel. */
  lemma HandleKeepsUnique(rows: seq<Row>, msg: Message, env: Env)
    requires UniqueRooms(rows)
    ensures UniqueRooms(Handle(rows, msg, env).rows)
  {
    var h := Handle(rows, msg, env);
    if h.rows != rows {
      var matches := env.findWiw(msg.text.GetOr(""));
      var a := CheckSet(env.parseArgs(Split(matches[0], ' ')).body);
      StoreKeepsUnique(rows, msg.channel, a.format, a.url, a.apiToken);
    }
  }

  /** A `set` with fewer than two words, or with an unsupported format, answers
      with its error and leaves the table as it was. */
  lemma SetRejected(rows: seq<Row>, channel: string, body: seq<string>, get: Request -> Response)
    requires |body| < 2 || body[0] != "ecs"
    ensures Dispatch(rows, channel, Parsed("set", body), get)
         == Handled(Some(if |body| < 2 then MISSING_ARGS + DOC else UNSUPPORTED), rows)
  {
  }

  /** A valid `set` answers nothing and leaves the channel with exactly one row
      holding the format, the URL and the token (empty when not given). */
  lemma SetAccepted(rows: seq<Row>, channel: string, body: seq<string>, get: Request -> Response)
    requires |body| >= 2 && body[0] == "ecs"
    ensures Dispatch(rows, channel, Parsed("set", body), get).reply == None
    ensures Select(Dispatch(rows, channel, Parsed("set", body), get).rows, channel)
         == [Row(channel, "ecs", body[1], if |body| == 2 then "" else body[2])]
  {
    StoreReplaces(rows, channel, "ecs", body[1], if |body| == 2 then "" else body[2]);
  }

  /** After a valid `set` in a channel, the bare command there queries the URL
      just set with the token just set, and answers from that response. */
  lemma SetThenStatus(rows: seq<Row>, channel: string, body: seq<string>, parsed: ParseOutcome, get: Request -> Response)
    requires |body| >= 2 && body[0] == "ecs"
    requires parsed.Parsed? && parsed.command == ""
    ensures
      var afterSet := Dispatch(rows, channel, Parsed("set", body), get).rows;
      Dispatch(afterSet, channel, parsed, get).reply
        == Some(Answer(get(Request(body[1], if |body| == 2 then "" else body[2]))))
  {
    GetAfterStore(rows, channel, "ecs", body[1], if |body| == 2 then "" else body[2]);
  }

  /** A second valid `set` in a channel fully supersedes the first. */
  lemma SetTwice(rows: seq<Row>, channel: string, body1: seq<string>, body2: seq<string>, get: Request -> Response)
    requires |body1| >= 2 && body1[0] == "ecs"
    requires |body2| >= 2 && body2[0] == "ecs"
    ensures
      var afterFirst := Dispatch(rows, channel, Parsed("set", body1), get).rows;
      Dispatch(afterFirst, channel, Parsed("set", body2), get).rows
        == Dispatch(rows, channel, Parsed("set", body2), get).rows
  {
    var a1, a2 := CheckSet(body1), CheckSet(body2);
    StoreTwice(rows, channel, a1.format, a1.url, a1.apiToken, a2.format, a2.url, a2.apiToken);
  }

  /** Words a user can type so that splitting at single spaces gives them back
      and the parser takes them as they are. */
  predicate Typeable(words: seq<string>) {
    |words| >= 1 && PlainWords(words) && forall i :: 0 <= i < |words| ==> ' ' !in words[i]
  }

  /** The text after `!wiw`, split at single spaces, reaches the parser as the
      words that were typed, so a plain parser hands back the first word as the
      command and the rest as the body. */
  lemma TypedWords(rows: seq<Row>, msg: Message, env: Env, words: seq<string>)
    requires PlainParser(env.parseArgs) && Typeable(words)
    requires var matches := env.findWiw(msg.text.GetOr("")); matches != [] && matches[0] == Join(words, ' ')
    ensures Handle(rows, msg, env) == Dispatch(rows, msg.channel, Parsed(words[0], words[1..]), env.get)
  {
    ParseTyped(env.parseArgs, env.findWiw(msg.text.GetOr(""))[0], words);
  }

  /** The words of a message, joined with single spaces and split again, parse as typed. */
  lemma ParseTyped(parseArgs: seq<string> -> ParseOutcome, typed: string, words: seq<string>)
    requires PlainParser(parseArgs) && Typeable(words) && typed == Join(words, ' ')
    ensures parseArgs(Split(typed, ' ')) == Parsed(words[0], words[1..])
  {
    SplitJoin(words, ' ');
  }

  /** `!wiw set ecs <url> <token>` typed in a channel stores exactly that row. */
  lemma TypedSet(rows: seq<Row>, msg: Message, env: Env, url: string, apiToken: string)
    requires PlainParser(env.parseArgs)
    requires ' ' !in url && PlainWord(url) && ' ' !in apiToken && PlainWord(apiToken)
    requires var matches := env.findWiw(msg.text.GetOr(""));
      matches != [] && matches[0] == "set ecs " + url + " " + apiToken
    ensures Handle(rows, msg, env).reply == None
    ensures Select(Handle(rows, msg, env).rows, msg.channel) == [Row(msg.channel, "ecs", url, apiToken)]
  {
    TypedSetWords(rows, msg, env, url, apiToken);
    SetAccepted(rows, msg.channel, ["ecs", url, apiToken], env.get);
  }

  /** The words of `set ecs <url> <token>` reach `set` as typed. */
  lemma TypedSetWords(rows: seq<Row>, msg: Message, env: Env, url: string, apiToken: string)
    requires PlainParser(env.parseArgs)
    requires ' ' !in url && PlainWord(url) && ' ' !in apiToken && PlainWord(apiToken)
    requires var matches := env.findWiw(msg.text.GetOr(""));
      matches != [] && matches[0] == "set ecs " + url + " " + apiToken
    ensures Handle(rows, msg, env) == Dispatch(rows, msg.channel, Parsed("set", ["ecs", url, apiToken]), env.get)
  {
    var words := ["set", "ecs", url, apiToken];
    SetWords(url, apiToken);
    TypedWords(rows, msg, env, words);
    assert words[1..] == ["ecs", url, apiToken];
  }

  /** The words of `set ecs <url> <token>`. */
  lemma SetWords(url: string, apiToken: string)
    requires ' ' !in url && PlainWord(url) && ' ' !in apiToken && PlainWord(apiToken)
    ensures var words := ["set", "ecs", url, apiToken];
      Typeable(words) && Join(words, ' ') == "set ecs " + url + " " + apiToken
  {
    var words := ["set", "ecs", url, apiToken];
    assert [url, apiToken][1..] == [apiToken];
    assert Join([url, apiToken], ' ') == url + " " + apiToken;
    assert ["ecs", url, apiToken][1..] == [url, apiToken];
    assert Join(["ecs", url, apiToken], ' ') == "ecs " + url + " " + apiToken;
    assert words[1..] == ["ecs", url, apiToken];
    forall i | 0 <= i < |words|
      ensures ' ' !in words[i] && PlainWord(words[i])
    {
      assert i == 0 || i == 1 || words[i] == url || words[i] == apiToken;
    }
  }

  /** `!wiw` alone answers with the status report of the channel and changes nothing. */
  lemma TypedStatus(rows: seq<Row>, msg: Message, env: Env)
    requires PlainParser(env.parseArgs)
    requires var matches := env.findWiw(msg.text.GetOr("")); matches != [] && matches[0] == ""
    ensures Handle(rows, msg, env) == Handled(Some(Status(rows, msg.channel, env.get)), rows)
  {
    assert Typeable([""]);
    assert Join([""], ' ') == "";
    TypedWords(rows, msg, env, [""]);
  }

  /** `!wiw help` answers with the help text and changes nothing. */
  lemma TypedHelp(rows: seq<Row>, msg: Message, env: Env)
    requires PlainParser(env.parseArgs)
    requires var matches := env.findWiw(msg.text.GetOr("")); matches != [] && matches[0] == "help"
    ensures Handle(rows, msg, env) == Handled(Some(DOC), rows)
  {
    assert Typeable(["help"]) by {
      assert PlainWord("help");
    }
    assert Join(["help"], ' ') == "help";
    TypedWords(rows, msg, env, ["help"]);
  }
}
