# wiw: the "what is where" chat command, modelled in Dafny

The `wiw` plugin of the limbo chat bot answers `!wiw` commands in a channel:

- `!wiw` on its own fetches the channel's configured endpoint. It prints the JSON it gets back as an
  indented outline: load balancer, listener, rule, application.
- `!wiw help` (or anything the argument parser rejects, such as `-h`) prints the help text.
- `!wiw set <format> <url> [api token]` checks its arguments and stores the channel's endpoint,
  replacing any earlier one.

The model has five modules:

- `Wrappers` (`wrappers.dfy`): `Option`.
- `PyStr` (`pystr.dfy`): Python's `str.split` on one separator character and its inverse `Join`.
  It proves both round trips and the part count.
- `Endpoints` (`endpoints.dfy`): the table `wiw_endpoints` as a sequence of rows in table
  order.
  - The `DELETE` is `Delete`, the `INSERT` is the append in `Store`, and the `LIMIT 1` `SELECT`
    is `GetEndpoint`. `Select` is the room filter the lemmas use.
  - `get_wiw_endpoint` is `GetEndpoint`.
  - `set_wiw_endpoint` is `Store`.
  - The bot's database handle is the class `Database`. Its methods create the table and store an
    endpoint in place.
- `Render` (`render.dfy`): the status report.
  - The parsed response is a nested sequence of key/value pairs in iteration order.
  - `Outline` lists its entries with their depths, and `Render` prints them.
  - `RenderStatus` is the source's loop nest. It appends to a string and is proved equal to `Render`.
  - With clean names (no newline, no leading tab), the printed text can be read back into the map it
    came from (`ParseRender`).
- `Plugin` (`plugin.dfy`): the status command (`Status`, and the method `Wiw`), the checks of `set`
  (`CheckSet`), and the handler.
  - The handler is the method `OnMessage` on a `Database`.
  - It is proved equal to the function `Handle`. `Handle` in turn goes through `Dispatch`, the
    branches after parsing.

The libraries the plugin calls are parameters, grouped in `Plugin.Env`:

- the regular-expression search `re.findall(r"!wiw\s*(.*)?", text)`;
- the argument parser (one positional `command`, then any number of `body` words);
- the HTTP client `requests.get`. Its response carries the status code, the body text and the body
  already parsed as JSON.

Three behaviours of the code worth noting:

- The text after `!wiw` is split at single spaces, not at any whitespace. `"a  b"` gives three
  words, one of them empty.
- A successful `set` produces no reply. `set_wiw_endpoint` returns nothing, so the handler returns
  nothing.
- The module flag `FIRST` is never cleared, because the assignment in `create_database` binds a
  local name. The comment at `wiw.py:73` says the table is created only on the first run. So
  `CREATE TABLE IF NOT EXISTS` runs on every message. `Database.CreateTable` shows this is harmless: the rows it leaves are the rows it found.

## Model

| member | source | states |
|---|---|---|
| PyStr.Split | limbo/plugins/wiw.py:99 | `str.split(' ')` always yields at least one part, and no part contains the separator |
| PyStr.SplitCount | limbo/plugins/wiw.py:99 | the number of parts is the number of separators plus one |
| PyStr.JoinSplit | limbo/plugins/wiw.py:99 | joining the parts with the separator gives back the original text |
| PyStr.SplitJoin | limbo/plugins/wiw.py:99 | separator-free words joined with the separator split back into exactly those words |
| Endpoints.Select | limbo/plugins/wiw.py:52-54 | the rows selected for a room are exactly the table's rows of that room |
| Endpoints.Delete | limbo/plugins/wiw.py:67 | the rows left are exactly the table's rows of the other rooms |
| Endpoints.GetEndpoint | limbo/plugins/wiw.py:51-63 | a lookup finds nothing exactly when no row has the room |
| Endpoints.GetEndpointFirst | limbo/plugins/wiw.py:52-61 | `LIMIT 1`: the lookup returns the format, URL and token of the room's first row |
| Endpoints.GetViaSelect | limbo/plugins/wiw.py:52-63 | the lookup is the first of the selected rows, or nothing when none is selected |
| Endpoints.GetEndpointUnique | limbo/plugins/wiw.py:51-63 | with one row per room, a lookup returns a configuration exactly when that row is stored |
| Endpoints.SelectDelete | limbo/plugins/wiw.py:67 | deleting a room removes all its rows and keeps every other room's rows in order |
| Endpoints.DeleteTwice | limbo/plugins/wiw.py:67 | deleting a room twice is the same as deleting it once |
| Endpoints.Store | limbo/plugins/wiw.py:66-70 | `set_wiw_endpoint` on the rows: the new row comes last, and the rows afterwards are exactly the other rooms' old rows plus the new one |
| Endpoints.StoreReplaces | limbo/plugins/wiw.py:66-70 | after a set, the room has exactly one row, the one just set |
| Endpoints.StoreKeepsOthers | limbo/plugins/wiw.py:66-70 | a set leaves every other room's rows unchanged and in order |
| Endpoints.StoreTwice | limbo/plugins/wiw.py:66-70 | a second set of the same room fully supersedes the first |
| Endpoints.StoreKeepsUnique | limbo/plugins/wiw.py:66-70 | a set keeps the table at one row per room |
| Endpoints.DeleteKeepsUnique | limbo/plugins/wiw.py:67 | a delete keeps the table at one row per room |
| Endpoints.GetAfterStore | limbo/plugins/wiw.py:51-70 | a lookup right after a set returns the values just set |
| Endpoints.GetAfterStoreOther | limbo/plugins/wiw.py:51-70 | a set of one room does not change any other room's lookup |
| Endpoints.Database.CreateTable | limbo/plugins/wiw.py:77-80 | afterwards the table exists and holds exactly the rows it held before |
| Endpoints.Database.SetEndpoint | limbo/plugins/wiw.py:66-70 | the new rows are the old ones without the room's rows, followed by the new row; one row per room is kept |
| Render.RenderStatus | limbo/plugins/wiw.py:30-44 | the loop nest's output is the report `Render` of the response |
| Render.AppendListeners | limbo/plugins/wiw.py:35-42 | the listener loop appends each listener after one tab, followed by its rules |
| Render.AppendRules | limbo/plugins/wiw.py:38-42 | the rule loop appends each rule after two tabs, followed by its applications |
| Render.AppendApps | limbo/plugins/wiw.py:41-42 | the application loop appends each application after three tabs |
| Render.Tabs | limbo/plugins/wiw.py:36-42 | an indentation of depth n is n tab characters |
| Render.Outline | limbo/plugins/wiw.py:30-44 | the report's lines, one per balancer, listener, rule and application |
| Render.Render | limbo/plugins/wiw.py:30-44 | the text the loops build; it is empty exactly when the response map is empty |
| Render.AppLinesSize | limbo/plugins/wiw.py:41-42 | one line per application |
| Render.RuleLinesSize | limbo/plugins/wiw.py:38-42 | one line per rule plus one per application |
| Render.ListenerLinesSize | limbo/plugins/wiw.py:35-42 | one line per listener plus the lines of its rules |
| Render.OutlineBack | limbo/plugins/wiw.py:30-44 | the nested map can be rebuilt from the depths and names of its lines |
| Render.RenderLines | limbo/plugins/wiw.py:30-44 | with clean names, the printed report splits at newlines into one indented text per entry, with nothing after the last newline |
| Render.LineCount | limbo/plugins/wiw.py:30-44 | with clean names, the report holds exactly one newline per entry |
| Render.ParseRender | limbo/plugins/wiw.py:30-44 | with clean names, reading the printed report back gives the response map it was printed from |
| Render.RenderExample | limbo/plugins/wiw.py:30-44 | `{"lb1": {"l1": {"r1": ["app1", "app2"]}}}` prints as five lines indented zero to three tabs |
| Plugin.Answer | limbo/plugins/wiw.py:29-46 | a 200 response yields the rendered report `Render` of its JSON; any other yields the error prefix followed by the response body |
| Plugin.Status | limbo/plugins/wiw.py:18-22 | `wiw`: a channel without a row gets the setup hint followed by the help text (the configured branches are `StatusConfigured`) |
| Plugin.StatusConfigured | limbo/plugins/wiw.py:19-48 | a configured `ecs` channel queries exactly its first row's URL with its token; any other format gets the "set again" message |
| Plugin.Wiw | limbo/plugins/wiw.py:18-48 | the status command's reply is `Status` of the table, with the report built by the loop methods |
| Plugin.CheckSet | limbo/plugins/wiw.py:111-124 | fewer than two words is "missing" and an unknown format is "unsupported", each in both directions; otherwise it accepts format, URL and token, with the token empty when absent |
| Plugin.CheckSetIgnoresExtra | limbo/plugins/wiw.py:115-121 | words after the third do not matter |
| Plugin.Dispatch | limbo/plugins/wiw.py:98-126 | a parse failure and `help` (whatever follows it) reply with the help text; an empty command replies with `Status`; there is no reply exactly for an unknown command or an accepted `set`; the table changes only on an accepted `set` |
| Plugin.Handle | limbo/plugins/wiw.py:88-126 | `on_message` on the rows: text without a `!wiw` match gets no reply and leaves the table unchanged |
| Plugin.OnMessage | limbo/plugins/wiw.py:88-126 | the table exists afterwards, and the reply and new rows are those of `Handle` on the old rows |
| Plugin.HandleKeepsOtherChannels | limbo/plugins/wiw.py:88-126 | a message never changes another channel's rows or lookup |
| Plugin.HandleKeepsUnique | limbo/plugins/wiw.py:88-126 | every message keeps the table at one row per channel |
| Plugin.SetRejected | limbo/plugins/wiw.py:111-124 | a rejected `set` answers with its error and leaves the table unchanged |
| Plugin.SetAccepted | limbo/plugins/wiw.py:111-126 | an accepted `set` gives no reply and leaves the channel with exactly the row that was set |
| Plugin.SetThenStatus | limbo/plugins/wiw.py:19-27 | after an accepted `set`, the bare command queries the URL and token just set and answers from that response |
| Plugin.SetTwice | limbo/plugins/wiw.py:111-126 | a second accepted `set` in a channel fully supersedes the first |
| Plugin.ParseTyped | limbo/plugins/wiw.py:99-102 | plain words, joined by spaces and split again, parse as the typed command and body |
| Plugin.TypedWords | limbo/plugins/wiw.py:92-102 | the handler dispatches on the first typed word as the command and the rest as the body |
| Plugin.TypedSet | limbo/plugins/wiw.py:92-126 | `!wiw set ecs <url> <token>` gives no reply and stores exactly that row for the channel |
| Plugin.TypedStatus | limbo/plugins/wiw.py:92-106 | `!wiw` alone replies with the channel's status and changes nothing |
| Plugin.TypedHelp | limbo/plugins/wiw.py:92-109 | `!wiw help` replies with the help text and changes nothing |

## Left out

- `re.findall` is a parameter (`Env.findWiw`): the regular expression's matching is not modelled.
- The argument parser is a parameter (`Env.parseArgs`).
  - Its output is characterised only for words that do not start with `-` (`PlainParser`), and only
    that case is used by `ParseTyped`, `TypedWords`, `TypedSet`, `TypedStatus` and `TypedHelp`.
  - Its treatment of option-like words is not modelled. It may reject them (`ParseError`, answered
    with the help text) or accept them.
- `requests.get` is a parameter (`Env.get`). The header dictionary becomes the request's `apiKey`.
  - Network failures and exceptions are not modelled.
  - A 200 response whose body is not JSON of the expected shape is not modelled.
- The decoded JSON is given directly as nested key/value sequences.
  - JSON decoding is outside the model.
  - Non-string applications printed through `str.format` are outside the model.
  - A decoded Python dict cannot hold duplicate keys, but the model's sequences may; this only adds inputs.
- Rendering: the model covers formatting of strings only. Python's `str.format` of other values is
  not modelled.
- SQL and the database driver: each statement is a function on the row sequence.
  - The order of rows without `ORDER BY` is taken to be insertion order.
  - Query failures and concurrent writers are not modelled.
- Messages without a `channel` key (a `KeyError` in the source) cannot be expressed.
- A `text` key explicitly set to a non-string value is not modelled. A missing `text` is `None` and
  reads as the empty string.
- `on_bot_message` is the same function as `on_message`, so `OnMessage` models both.
- Render.RenderStatus: the four nested loops of the source are four methods, one per nesting level.
  Each appends the same strings in the same order to the same output.
- Render.ParseRender, Render.RenderLines, Render.LineCount: stated only for names without newlines or
  leading tabs. Other names make the printed report ambiguous.
