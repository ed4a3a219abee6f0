# Bitburner remote control: a verified model

The system has two parts that poll each other.

- **The agent** is a Bitburner script, `remote-control.js`.
  - It repeatedly fetches the next command for its password from a web service.
  - It runs the matching handler: `ps`, `ls`, `stats`, `ping`, or any other script name through the fallback (`ns.exec`). The twelve names of `Object.prototype` members are the exception as written: they reach the inherited member (see "## Findings").
  - It posts back `{id, result, isHtml}`.
- **The coordinator** is a FastAPI service, `api.py`.
  - It keeps a FIFO command queue and a result table per user password.
  - It keeps one shared passwordless queue, which only the agent holding the admin password reads.
  - It keeps one shared passwordless result table. That agent writes its results there, and the passwordless wait of `run_command` reads the result and removes it.
  - It keeps a last-activity map, which an hourly sweep uses to forget idle users.
  - `run_command` queues a command, then polls for its result up to 30 times.

The model has eight modules.

| Module | What it models |
|---|---|
| `Protocol` | The JSON records both sides exchange. A member distinguishes *absent*, `null` and *given*, because JavaScript destructuring defaults and pydantic defaults treat those differently. |
| `Text` | `join('')`, and the decimal text of an integer, with a parser that reads it back. |
| `MatrixUi` | `MatrixUI.wrap`, `formatStat` and `getFileClass`. The page text, whitespace included, is that of the template literal. |
| `Handlers` | The five handlers, over a `Host` value whose members stand for the `ns` calls. Each call returns a value or throws. |
| `RemoteControl` | The handler table, one `processCommand` cycle as a function, the `main` loop and `killDuplicateScripts` as methods, and the finding described below. |
| `Api` | The coordinator's five tables as a value (`Tables`), with one transition function per endpoint. The class `Coordinator` holds the tables as fields. Its methods change them in place and are proved equal to those functions. |
| `ApiTrace` | Arbitrary sequences of coordinator requests. It holds the FIFO and isolation properties of the queues. |
| `EndToEnd` | Connects both sides: the wire format between them, and one passwordless `ping` from `run_command` to a success reply. |

The page functions take the style sheet as a parameter, so what is proved about pages holds for any theme. The agent passes `MatrixUi.Styles`, which is the exact `MatrixUI.styles.base` text.

Inputs from outside the model are parameters:
- the clock, as integer microseconds;
- the fresh command id, which replaces `uuid.uuid4()`;
- the admin password;
- the game API (`Host`);
- the result of each fetch and post (`CycleInput`);
- the requests that other handlers run while a wait sleeps (`arrivals`).

## Model

| member | source | states |
|---|---|---|
| RemoteControl.ProcessCommand | remote-control.js:67-106 | A failed fetch aborts the cycle, and only then. A record without a truthy `command` is idle, and only then. Otherwise the property the handler object yields for the name (an own entry first, then an inherited member) decides the route, which runs. A throwing handler yields `HandlerFailed` with its error. A returned value yields the record `(fetched id, value, IsHtmlOf(entry))`, which is posted only when the post goes through; otherwise it is logged as not delivered. |
| RemoteControl.RoutingByName | remote-control.js:28-36 | In the agent's object literal, `ps`, `ls` and `stats` reach their bare functions directly. `ping` goes through its descriptor's `.handler`. The twelve `Object.prototype` names reach their inherited member. Every other name reaches the fallback. |
| RemoteControl.IsHtmlByName | remote-control.js:100 | With the agent's table, as written or without its prototype, the reported flag is false exactly for `ping`. |
| RemoteControl.IsHtmlDefaults | remote-control.js:100 | In any handler object, the flag is false exactly when the name's own entry is a descriptor whose `isHtml` is an explicit `false`. Bare functions, descriptors without the member, inherited members and unregistered names report `true`. |
| RemoteControl.ControlLoop | remote-control.js:39-46 | Over n cycles, the loop posts exactly the records the cycles produce, in cycle order. It logs each caught error, and it sleeps once per cycle whatever the cycle did. |
| RemoteControl.PostedAppend | remote-control.js:39-46 | The results of two consecutive runs of the loop are those of the first run followed by those of the second. |
| RemoteControl.FailedCycleIsContained | remote-control.js:40-44 | A cycle that posts nothing (failed fetch, no command, throwing handler or failed post) leaves the results of every cycle before and after it unchanged. |
| RemoteControl.PostedIdsComeFromFetches | remote-control.js:97-98 | At most one result is posted per cycle. Every posted id is the id of a record that some cycle fetched. |
| RemoteControl.DuplicatePids | remote-control.js:55-60 | A pid is killed exactly when some listed script has the current script's file name and that pid, and the pid differs from the current one. The agent's own pid is never killed. |
| RemoteControl.KillEffects | remote-control.js:56-59 | For the k-th pid to kill, effect 2k prints "Killing duplicate <name> with PID: <pid>" and effect 2k+1 kills that pid. There are no other effects. |
| RemoteControl.KillDuplicateScripts | remote-control.js:50-61 | The forward loop makes exactly the `KillEffects` of the `DuplicatePids`: for each duplicate in list order, the terminal line and then the kill. |
| RemoteControl.RunAgent | remote-control.js:6-47 | Without a non-empty first argument, it prints the usage error and does nothing else. Otherwise it announces and kills all duplicates, then runs the control loop with the agent's table, looked up by own keys. |
| RemoteControl.InheritedNamesMissFallback | remote-control.js:82-89 | As written, a command named after an `Object.prototype` member is not one of the table's keys, yet is routed to that inherited member. Without the prototype, the same name reaches the fallback. |
| RemoteControl.ToStringAsWritten | remote-control.js:82-100 | As written, a `toString` command runs no script. It posts `"[object Undefined]"`, flagged as HTML, under the fetched id. |
| RemoteControl.ConstructorAsWritten | remote-control.js:82-105 | As written, a `constructor` command calls `Object(ns, commandData)`. The agent posts the `ns` object itself, flagged as HTML. When that post fails, it logs the record as not delivered. When serialization throws, it fails with that error. |
| RemoteControl.InheritedMembersThrowAsWritten | remote-control.js:82-105 | As written, each of the other ten inherited names throws a TypeError. Nine are functions that throw when called with `this` undefined. `__proto__` yields `Object.prototype`, which is not a function, so the call of its missing `.handler` throws. The cycle logs the error and posts nothing. |
| RemoteControl.OwnLookupFallback | remote-control.js:82-89 | In any handler object, a name reaches the fallback exactly when it is neither an own key nor inherited. So without a prototype, exactly when it is not a key of the table. |
| RemoteControl.ToStringCorrected | remote-control.js:82-89 | With the corrected lookup, `toString` is run through `executeUnknownCommand` like any unknown name, and its fallback page is posted. |
| Handlers.PsListsEveryProcess | remote-control.js:230-238 | A throwing `ns.ps` makes the handler throw the same error. Otherwise the page is titled "Process List" and wraps a list. When no file name holds `<`, the list reads back as one item per process, in `ns.ps` order, each item rendering that process. |
| Handlers.ProcessPage | remote-control.js:233-237 | Every wrapped list of process items shows those processes, one item each, in order. |
| Handlers.PsItemIsListItem | remote-control.js:234 | A process item is one self-delimiting `<li>` element, because pids and thread counts render without markup. |
| Handlers.ListRoundTrip | remote-control.js:233-235 | A `<ul>` built from well-formed items by `join('')` splits back into exactly those items, in order. |
| Handlers.ListPageRoundTrip | remote-control.js:237 | A wrapped list page yields back the items of its list. |
| Handlers.LsListsEveryFile | remote-control.js:244-252 | A throwing `ns.ls` makes the handler throw. Otherwise the page is titled "Files on" plus the server. When no name holds `<` or `"`, its list reads back as one item per file, in order. Each item carries `getFileClass` of the name as its class, and the name as its text. |
| Handlers.LsItemRoundTrip | remote-control.js:248 | A file item is a list item, and its class and its file name are read back from it. |
| Handlers.FileItemRoundTrip | remote-control.js:248 | Any class without `"` and any file name are recovered from ``<li class="${cls}">${file}</li>``. |
| Handlers.FileItemIsListItem | remote-control.js:248 | The file item is one `<li>` element when neither the class nor the name holds `<`. |
| Handlers.StatValues | remote-control.js:207-220 | The values are queried in label order, one per label. The whole query throws exactly when one label's query throws. |
| Handlers.ExecuteStats | remote-control.js:205-224 | The stats handler throws exactly when one of its twelve queries throws. Otherwise it returns a page. |
| Handlers.StatsPageListsEveryStat | remote-control.js:205-224 | The stats page wraps a list of twelve `formatStat` lines, one per label, in label order. Each line carries the value the host gave for that label. |
| Handlers.StatLineRoundTrip | remote-control.js:163-165 | A `formatStat` line reads back as its label and its value, for a label without `<`. |
| Handlers.StatsPageReadsBack | remote-control.js:205-224 | Every line of the stats page reads back as its label and the value the host gave for that label. |
| Handlers.ExecutePing | remote-control.js:195-199 | `ping` returns `{message: "pong"}` whatever the host and the command. |
| Handlers.ExecDefaults | remote-control.js:178 | Only a *missing* `server_name`, `threads` or `args` takes the default (`'home'`, 1, `[]`). Present members, `null` included, go to `ns.exec` as given. |
| Handlers.ErrorTextRead | remote-control.js:186-187 | The exception message reads back as an error report carrying the exception's text. |
| Handlers.RejectedTextRead | remote-control.js:181-182 | The "Failed to execute" message is not mistaken for an error and reads back as a rejection. |
| Handlers.LaunchedTextRead | remote-control.js:183 | The "Executed … with PID" message reads back as a launch with that exact pid. |
| Handlers.LaunchTextRoundTrip | remote-control.js:180-187 | The three fallback messages are told apart. Pid 0 gives a rejection. Any other pid gives a launch with that pid. An exception gives an error with its text. |
| Handlers.FallbackText | remote-control.js:185-187 | The fallback page has the command as its title, and its content is the message inside `<pre>…</pre>`. |
| Handlers.FallbackReportsLaunch | remote-control.js:177-189 | The fallback page reports exactly the outcome of `ns.exec` on the defaulted arguments. It returns a page in every case, so the fallback never throws. |
| MatrixUi.WrapRoundTrip | remote-control.js:150-161 | The content is recovered from a wrapped page, so the page adds nothing to the content but the fixed frame around it. |
| MatrixUi.WrapShowsTitleTwice | remote-control.js:150-161 | The title stands in the page twice: right after `<title>`, and right after `<h2>`. |
| MatrixUi.Extension | remote-control.js:168 | The extension is a suffix of the name and holds no dot. It is either the whole name or is preceded by a dot. |
| MatrixUi.ExtensionAfterLastDot | remote-control.js:167-170 | The extension of `stem.ext`, where `ext` holds no dot, is `ext`, whatever the stem is. |
| MatrixUi.ExtensionWithoutDot | remote-control.js:167-170 | A name without a dot gets the class `file-` followed by the whole name. |
| MatrixUi.ExtensionChars | remote-control.js:168 | The extension holds no character that the name lacks. |
| Text.IntTextRoundTrip | remote-control.js:183 | Any pid rendered in a template literal parses back as itself. |
| Api.ParseRequest | api.py:37-42 | A missing `server_name` gives None, missing `threads` gives 1, missing `args` gives `[]` and a missing `password` gives None. A `null` member gives None. A given member is kept. |
| Api.CommandDataOf | api.py:75-82 | The queued record carries the id, command, threads and args. It has a `server_name` exactly when a non-empty one was given. |
| Api.Submit | api.py:74-112 | A passwordless command is appended to the passwordless queue, and nothing else changes. Otherwise the command is appended to the user's queue, which is created when missing. The user's activity time is set. Other users' queues and both passwordless tables are unchanged. The table invariant is kept. |
| Api.NextCommand | api.py:124-141 | The admin password pops the front of the passwordless queue, and nothing else changes. An empty queue gives None and unchanged tables. Any other password sets its activity time and lazily creates its queue. It pops that queue's front, or gives None when the queue is empty. Other users' queues are unchanged. |
| Api.PostResult | api.py:143-160 | A post is accepted exactly when it has `id` and `result`. A rejected post changes nothing. Admin posts store `{result, isHtml}` in the passwordless table and change nothing else. User posts store it in the user's table, created if absent, and set the user's activity time. Other users' tables are unchanged. |
| Api.TakeResult | api.py:166-171 | One poll returns the stored result from the table the password selects (passwordless for None) and removes it. Every other table and entry is unchanged. |
| Api.Swept | api.py:44-57 | A user stays in the three user maps exactly when their last activity is not before now minus one hour. Kept entries are unchanged. Both passwordless tables are unchanged. |
| Api.Respond | api.py:86-92 | No result gives 408. An HTML-flagged string gives the HTML page of that string. A result not flagged as HTML gives `{"status": "success", "result": r}`. |
| Api.PostThenTake | api.py:150-171 | A posted result is handed, exactly as stored, to the next poll on the channel of the poster's password. |
| Api.TakeAtMostOnce | api.py:166-171 | A second take of the same id finds nothing, so each result is handed out at most once. |
| Api.AdminResultsSkipUserTables | api.py:150-171 | Results posted with the admin password never reach a wait that polls a user table. |
| Api.PostAllDelivers | api.py:143-160 | After a batch of posts, every result one of them delivered is stored on its channel. |
| Api.ResultPostedInTimeIsFound | api.py:162-175 | A result posted on the polled channel during any sleep but the last ends the wait with a result, not a timeout. |
| Api.NothingPostedTimesOut | api.py:162-175 | With nothing posted and nothing stored, the wait returns None and leaves the tables unchanged. |
| Api.Coordinator.constructor | api.py:25-35 | The service starts with empty tables and a non-empty admin password. |
| Api.Coordinator.RunCommand | api.py:69-112 | The fields change exactly as `Submit` says, and the invariant holds. |
| Api.Coordinator.GetNextCommand | api.py:124-141 | The returned command and the new fields are exactly those of `NextCommand`. |
| Api.Coordinator.PostResultTo | api.py:143-160 | The acceptance and the new fields are exactly those of `PostResult`. |
| Api.Coordinator.Poll | api.py:165-171 | One poll changes the fields exactly as `TakeResult` says. |
| Api.Coordinator.RunPostings | api.py:173 | The requests that run during a sleep change the fields as their `PostResult`s, applied in order. |
| Api.Coordinator.WaitForResult | api.py:162-175 | The counter loop ends with `Waited`'s result and tables. A found result takes between 1 and `timeout` polls. A timeout takes exactly `timeout` polls (none for `timeout <= 0`). |
| Api.Coordinator.RunCommandAndWait | api.py:69-122 | The command is queued, then a 30-poll wait runs on the table that matches the request's password. The reply is `Respond` of what the wait found. The new tables are those the wait leaves after the queueing. |
| Api.Coordinator.CleanupInactiveUsers | api.py:44-57 | The removal loop leaves exactly the tables of one sweep. |
| ApiTrace.UserQueueFifo | api.py:97-139 | Over any requests without a sweep, the user's starting queue followed by the commands queued for the user equals the commands handed to the user's polls followed by the final queue. So commands leave in queueing order. |
| ApiTrace.PasswordlessFifo | api.py:74-129 | Over any requests, the starting passwordless queue followed by the passwordless commands queued equals the commands handed to admin polls followed by the final queue. |
| ApiTrace.AdminUserQueueOnlyGrows | api.py:95-130 | The admin password is never handed a command from its own user queue. That queue only grows by the commands queued with the admin password as user password. |
| ApiTrace.UserServedInOrder | api.py:112-139 | What a user is handed is a prefix of what was queued for that user. |
| ApiTrace.PasswordlessServedInOrder | api.py:84-129 | What the admin agent is handed is a prefix of the passwordless commands queued. |
| EndToEnd.Wire | api.py:128-141 | An empty queue is seen as a `null` command. A queued record arrives with its id and command, and with a `server_name` member exactly when one was queued. |
| EndToEnd.ResultBody | remote-control.js:97-101 | The posted body carries the result and the flag, and carries an `id` member exactly when the fetched record had one. |
| EndToEnd.EmptyQueueIsIdle | remote-control.js:77-78 | The `{"command": None}` reply makes the agent's cycle idle. |
| EndToEnd.EmptyCommandIsNeverAnswered | remote-control.js:78 | A command queued as the empty string is handed out but never run or answered. |
| EndToEnd.ServerOnTheWire | remote-control.js:178 | The agent acts on the server given to `run_command`, or on `home` when the coordinator left it out. |
| EndToEnd.FlagSurvivesStorage | api.py:147 | The stored flag equals the flag the agent posted. |
| EndToEnd.AgentResultsAlwaysRender | api.py:114-122 | With the corrected lookup, every result the agent posts renders: HTML-flagged results are always strings. |
| EndToEnd.ConstructorBreaksTheReply | api.py:114-122 | As written, a `constructor` command whose `ns` object serializes to a JSON object is posted flagged as HTML. The coordinator then cannot build the HTML reply. |
| EndToEnd.PasswordlessPingIsAnswered | api.py:69-92 | A passwordless `ping` is handed to the admin agent, which posts `{message: "pong"}` unflagged. Posted during the first sleep, it makes `run_command` answer success with that object. |

## Left out

- HTTP plumbing is not modelled:
  - the URLs, headers and `fetch` of the agent;
  - FastAPI routing, the CORS middleware and the `/` welcome endpoint.

  A cycle's fetch and post are the inputs `Fetch` and `Delivery`, and the coordinator's endpoints are functions and methods.
- Concurrency:
  - `asyncio` interleaving is reduced to post requests that run while a wait sleeps (`arrivals`);
  - a `get_next_command`, sweep or second wait running during a wait is not modelled;
  - the sweep's `asyncio.sleep(3600)` loop is one pass (`Api.Coordinator.CleanupInactiveUsers`);
  - the agent's endless loop is its first n cycles (`RemoteControl.ControlLoop`).
- Clock, ids and environment:
  - `datetime.now()` is an integer microsecond parameter;
  - `uuid.uuid4()` is a fresh-id parameter;
  - `ADMIN_PASSWORD` from the environment is the constructor's argument. Its absence is the constructor's precondition, standing for the start-up `RuntimeError`.
- Value types:
  - `args` is a list of strings; the int, float and bool members of `List[Union[...]]` are not modelled;
  - a `null` `id` or `result` in a posted body is treated as absent;
  - an `isHtml` other than a JSON boolean is not modelled.
- Handler outputs rendered by the game itself. The game calls and the float formatting of `executeStats` are one oracle per label (`Host.stat`). Its `getPlayer()` call is folded into those oracles. `ns.exec`, `ns.ps`, `ns.ls` and `ns.kill` are oracles or outputs.
- Log text. `ns.print` and `ns.tprint` lines are kept as text in the outputs. `${error}` of an exception is the error string the oracle gives.
- RemoteControl.RunAgent: runs the corrected own-key table. The as-written cycle for the twelve `Object.prototype` names is stated per cycle by `RemoteControl.ToStringAsWritten`, `RemoteControl.ConstructorAsWritten` and `RemoteControl.InheritedMembersThrowAsWritten`.
- RemoteControl.InheritedMembersThrowAsWritten: the engine's message text for the TypeError is not modelled. The error is the constant `TypeErrorText`.
- `Host.self`, the JSON form of the `ns` object itself, is an abstract value. What `JSON.stringify` makes of the game object, or whether it throws, is not modelled.
- Text.IntTextRoundTrip: the exponent notation JavaScript uses for integers of 1e21 and beyond is not modelled.
- Handlers.PsListsEveryProcess and Handlers.LsListsEveryFile: their read-back halves are stated for names without `<` (and without `"` for `ls`). Other names would need an HTML-aware reader, because the handlers do not escape markup.
- MatrixUi.WrapShowsTitleTwice: this and every other page property is stated for any style sheet. Nothing is proved about the CSS text itself.

## Findings

| source | as written | input that shows it | evidently intended | confidence | as-written member | corrected member |
|---|---|---|---|---|---|---|
| remote-control.js:82-89 | `handlers[commandData.command]` on an object literal also finds the members the literal inherits from `Object.prototype` | a command named `toString`: the inherited function is called in place of `executeUnknownCommand`, so no script of that name runs and `"[object Undefined]"` is posted as HTML | only the table's own keys select a handler; any other name is run as a script | medium, not executed | RemoteControl.ToStringAsWritten | RemoteControl.ToStringCorrected |
| remote-control.js:82-100 | a `constructor` command calls the inherited `Object`, which returns `ns`; the game object is posted with `isHtml: true` | a command named `constructor`, when `ns` serializes to a JSON object: `run_command` cannot render the non-string result as HTML | the name is run as a script, and the page is posted | medium, not executed | EndToEnd.ConstructorBreaksTheReply | EndToEnd.AgentResultsAlwaysRender |
