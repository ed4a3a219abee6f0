/**
 * The JSON contract shared by the agent (remote-control.js) and the
 * coordinator (api.py): the command record the agent fetches, the result
 * record it posts, and the JavaScript reading of optional members.
 */
module Protocol {

  datatype Option<+T> = None | Some(value: T)

  /** A member of a JSON object as a reader sees it: absent, present as `null`, or present with a value. */
  datatype Field<+T> = Missing | Null | Given(value: T)

  /** What a handler hands back: a string (an HTML page) or a plain object such as `{message: "pong"}`. */
  datatype Value = Str(text: string) | Obj(members: map<string, string>)

  /** A call into code the model cannot see: it returns a value or throws (the error rendered as text). */
  datatype Outcome<+T> = Returned(value: T) | Threw(error: string)

  /** The body of GET /commands as the agent parses it: `{command, id, server_name, threads, args}`. */
  datatype CommandData = CommandData(
    command: Field<string>,
    id: Field<string>,
    serverName: Field<string>,
    threads: Field<int>,
    args: Field<seq<string>>)

  /** The body of POST /results: `{id, result, isHtml}`; a missing `id` is left out by JSON.stringify. */
  datatype ResultRecord = ResultRecord(id: Field<string>, result: Value, isHtml: bool)

  /** A destructuring default `{ x = d }`: it replaces a missing member only, never a `null` one. */
  function OrDefault<T>(f: Field<T>, d: T): Field<T>
  {
    if f.Missing? then Given(d) else f
  }

  /** A string member interpolated into a template literal: `undefined`, `null`, or the text itself. */
  function Show(f: Field<string>): string
  {
    match f
    case Missing => "undefined"
    case Null => "null"
    case Given(s) => s
  }

  /** `if (!commandData.command) return;` : the command is truthy only when it is a non-empty string. */
  predicate HasWork(d: CommandData)
  {
    d.command.Given? && d.command.value != ""
  }
}
