/**
 * The command handlers of remote-control.js (`executePs`, `executeLs`,
 * `executeStats`, `executePing`, `executeUnknownCommand`) over an abstract
 * host: every `ns` call they make is an oracle that returns a value or throws.
 */
module Handlers {
  import opened Protocol
  import opened Text
  import opened MatrixUi

  /** One entry of `ns.ps(host)`: the fields the handlers read. */
  datatype Proc = Proc(filename: string, pid: int, threads: int)

  /** The arguments of `ns.exec(command, server_name, threads, ...args)`, after defaults. */
  datatype ExecCall = ExecCall(script: Field<string>, server: Field<string>, threads: Field<int>, args: Field<seq<string>>)

  /**
   * The game API as the handlers see it. `exec` stands for the whole call
   * expression, so a spread of a `null` args that throws is one of its
   * `Threw` outcomes. `stat` gives the rendered value of one labelled
   * statistic of `executeStats`, or the error its queries raise. `self`
   * is the `ns` object itself as `JSON.stringify` renders it inside a
   * posted result, or the error that rendering throws.
   */
  datatype Host = Host(
    ps: Field<string> -> Outcome<seq<Proc>>,
    ls: Field<string> -> Outcome<seq<string>>,
    exec: ExecCall -> Outcome<int>,
    stat: string -> Outcome<string>,
    self: Outcome<Value>)

  /** `const { server_name = 'home' } = commandData`. */
  function ServerOf(cmd: CommandData): Field<string>
  {
    OrDefault(cmd.serverName, "home")
  }

  // ---------------------------------------------------------------------
  // `<ul>` lists of `<li>` items, as executePs and executeLs build them.

  /** `<ul>${items.join('')}</ul>`. */
  function ListOf(items: seq<string>): string
  {
    "<ul>" + Concat(items) + "</ul>"
  }

  /** An item that opens with `<li`, closes with `</li>` and has no `<` in between. */
  predicate IsListItem(item: string)
  {
    |item| >= 8 && item[..3] == "<li" && item[|item| - 5..] == "</li>" && '<' !in item[3..|item| - 5]
  }

  /** The length of the longest prefix of `s` without `c`. */
  function Span(s: string, c: char): (n: nat)
    ensures n <= |s| && c !in s[..n] && (n == |s| || s[n] == c)
  {
    if s == [] || s[0] == c then 0 else 1 + Span(s[1..], c)
  }

  /** Splits a run of list items back into the items; None when the text is not such a run. */
  function SplitItems(s: string): Option<seq<string>>
    decreases |s|
  {
    if s == [] then Some([])
    else if !StartsWith(s, "<li") then None
    else
      var n := 3 + Span(s[3..], '<');
      if StartsWith(s[n..], "</li>") then
        match SplitItems(s[n + 5..])
        case Some(rest) => Some([s[..n + 5]] + rest)
        case None => None
      else None
  }

  /** The items of a `<ul>` list. */
  function ItemsOf(list: string): Option<seq<string>>
  {
    if |list| >= 9 && StartsWith(list, "<ul>") && EndsWith(list, "</ul>")
    then SplitItems(list[4..|list| - 5]) else None
  }

  /** The span stops at the first `c`, which is where `y` begins. */
  lemma SpanStopsAt(x: string, y: string, c: char)
    requires c !in x && |y| > 0 && y[0] == c
    ensures Span(x + y, c) == |x|
  {
    var s := x + y;
    assert s[|x|] == c;
    assert s[..|x|] == x;
  }

  /** One well-formed item is split off the front of a run of items. */
  lemma SplitFirst(item: string, rest: string)
    requires IsListItem(item)
    ensures SplitItems(item + rest) ==
              match SplitItems(rest)
              case Some(items) => Some([item] + items)
              case None => None
  {
    var x := item[3..|item| - 5];
    assert item == "<li" + x + "</li>";
    var s := item + rest;
    assert s[..3] == "<li";
    assert s[3..] == x + ("</li>" + rest);
    SpanStopsAt(x, "</li>" + rest, '<');
    var n := 3 + |x|;
    assert s[n..] == "</li>" + rest;
    assert s[..n + 5] == item;
    assert s[n + 5..] == rest;
  }

  lemma {:induction false} SplitConcat(items: seq<string>)
    requires forall i :: 0 <= i < |items| ==> IsListItem(items[i])
    ensures SplitItems(Concat(items)) == Some(items)
  {
    if items != [] {
      SplitFirst(items[0], Concat(items[1..]));
      SplitConcat(items[1..]);
      assert [items[0]] + items[1..] == items;
    }
  }

  /** A list of well-formed items is read back item by item, in order: one item per entry. */
  lemma ListRoundTrip(items: seq<string>)
    requires forall i :: 0 <= i < |items| ==> IsListItem(items[i])
    ensures ItemsOf(ListOf(items)) == Some(items)
  {
    var list := ListOf(items);
    assert list[4..|list| - 5] == Concat(items);
    SplitConcat(items);
  }

  /** The items of a list page wrapped with the given title. */
  function PageItems(styles: string, title: string, page: string): Option<seq<string>>
  {
    match ContentOf(styles, title, page)
    case None => None
    case Some(content) => ItemsOf(content)
  }

  /** A wrapped page yields the items of the list it wraps. */
  lemma PageOfList(styles: string, title: string, list: string, items: seq<string>)
    requires ItemsOf(list) == Some(items)
    ensures ContentOf(styles, title, Wrap(styles, title, list)) == Some(list)
    ensures PageItems(styles, title, Wrap(styles, title, list)) == Some(items)
  {
    WrapRoundTrip(styles, title, list);
  }

  /** A page holding a list of well-formed items is read back item by item. */
  lemma ListPageRoundTrip(styles: string, title: string, items: seq<string>)
    requires forall i :: 0 <= i < |items| ==> IsListItem(items[i])
    ensures ContentOf(styles, title, Wrap(styles, title, ListOf(items))).Some?
    ensures PageItems(styles, title, Wrap(styles, title, ListOf(items))) == Some(items)
  {
    ListRoundTrip(items);
    PageOfList(styles, title, ListOf(items), items);
  }

  // ---------------------------------------------------------------------
  // executePs

  /** ``<li>${filename} (PID: ${pid}, Threads: ${threads})</li>``. */
  function PsItem(p: Proc): string
  {
    "<li>" + p.filename + " (PID: " + IntText(p.pid) + ", Threads: " + IntText(p.threads) + ")</li>"
  }

  function PsItems(procs: seq<Proc>): seq<string>
  {
    seq(|procs|, i requires 0 <= i < |procs| => PsItem(procs[i]))
  }

  /** `executePs(ns, commandData)`: the processes of the requested server as a list page. */
  function ExecutePs(styles: string, host: Host, cmd: CommandData): Outcome<Value>
  {
    match host.ps(ServerOf(cmd))
    case Threw(e) => Threw(e)
    case Returned(procs) => Returned(Str(Wrap(styles, "Process List", ListOf(PsItems(procs)))))
  }

  /** Text without `<` between `<li` and `</li>` makes a list item. */
  lemma ItemAround(x: string)
    requires '<' !in x
    ensures IsListItem("<li" + x + "</li>")
  {
    var item := "<li" + x + "</li>";
    assert item[..3] == "<li";
    assert item[|item| - 5..] == "</li>";
    assert item[3..|item| - 5] == x;
  }

  lemma PsItemIsListItem(p: Proc)
    requires '<' !in p.filename
    ensures IsListItem(PsItem(p))
  {
    var body := p.filename + " (PID: " + IntText(p.pid) + ", Threads: " + IntText(p.threads);
    var x := ">" + body + ")";
    assert '<' !in x by {
      IntTextIsMarkupFree(p.pid);
      IntTextIsMarkupFree(p.threads);
    }
    assert PsItem(p) == "<li" + x + "</li>" by {
      assert PsItem(p) == "<li>" + body + ")</li>";
    }
    ItemAround(x);
  }

  /**
   * A process page for `procs`: a page titled "Process List" whose list, when
   * no file name holds `<`, reads back as one item per process, in order.
   */
  predicate ShowsProcesses(styles: string, page: string, procs: seq<Proc>)
  {
    && ContentOf(styles, "Process List", page).Some?
    && ((forall k :: 0 <= k < |procs| ==> '<' !in procs[k].filename) ==>
          var items := PageItems(styles, "Process List", page);
          items.Some? && |items.value| == |procs| && forall k :: 0 <= k < |procs| ==> items.value[k] == PsItem(procs[k]))
  }

  lemma ProcessPage(styles: string, procs: seq<Proc>)
    ensures ShowsProcesses(styles, Wrap(styles, "Process List", ListOf(PsItems(procs))), procs)
  {
    var list := ListOf(PsItems(procs));
    WrapRoundTrip(styles, "Process List", list);
    if forall k :: 0 <= k < |procs| ==> '<' !in procs[k].filename {
      forall k | 0 <= k < |procs| ensures IsListItem(PsItems(procs)[k]) {
        PsItemIsListItem(procs[k]);
      }
      ListPageRoundTrip(styles, "Process List", PsItems(procs));
    }
  }

  /**
   * The process page lists exactly one item per process, in the order
   * `ns.ps` gave them (file names holding no `<`); a failing `ns.ps` fails
   * the handler.
   */
  lemma PsListsEveryProcess(styles: string, host: Host, cmd: CommandData)
    ensures host.ps(ServerOf(cmd)).Threw? ==> ExecutePs(styles, host, cmd) == Threw(host.ps(ServerOf(cmd)).error)
    ensures host.ps(ServerOf(cmd)).Returned? ==>
              && ExecutePs(styles, host, cmd).Returned? && ExecutePs(styles, host, cmd).value.Str?
              && ShowsProcesses(styles, ExecutePs(styles, host, cmd).value.text, host.ps(ServerOf(cmd)).value)
  {
    if host.ps(ServerOf(cmd)).Returned? {
      ProcessPage(styles, host.ps(ServerOf(cmd)).value);
    }
  }

  // ---------------------------------------------------------------------
  // executeLs

  /** ``<li class="${cls}">${file}</li>``. */
  function FileItem(cls: string, file: string): string
  {
    "<li class=\"" + cls + "\">" + file + "</li>"
  }

  /** The item `executeLs` emits for one file: its class is `getFileClass` of the name. */
  function LsItem(file: string): string
  {
    FileItem(FileClass(file), file)
  }

  function LsItems(files: seq<string>): seq<string>
  {
    seq(|files|, i requires 0 <= i < |files| => LsItem(files[i]))
  }

  function LsTitle(cmd: CommandData): string
  {
    "Files on " + Show(ServerOf(cmd))
  }

  /** `executeLs(ns, commandData)`: the files of the requested server as a list page. */
  function ExecuteLs(styles: string, host: Host, cmd: CommandData): Outcome<Value>
  {
    match host.ls(ServerOf(cmd))
    case Threw(e) => Threw(e)
    case Returned(files) => Returned(Str(Wrap(styles, LsTitle(cmd), ListOf(LsItems(files)))))
  }

  /** Reads the class and the file name back out of one file item. */
  function LsEntry(item: string): Option<(string, string)>
  {
    var open := "<li class=\"";
    if |item| >= |open| + 5 && StartsWith(item, open) && EndsWith(item, "</li>") then
      var body := item[|open|..|item| - 5];
      var k := Span(body, '"');
      if StartsWith(body[k..], "\">") then Some((body[..k], body[k + 2..])) else None
    else None
  }

  lemma FileItemIsListItem(cls: string, file: string)
    requires '<' !in cls && '<' !in file
    ensures IsListItem(FileItem(cls, file))
  {
    var x := " class=\"" + cls + "\">" + file;
    assert '<' !in x;
    assert FileItem(cls, file) == "<li" + x + "</li>";
    ItemAround(x);
  }

  lemma FileItemRoundTrip(cls: string, file: string)
    requires '"' !in cls
    ensures LsEntry(FileItem(cls, file)) == Some((cls, file))
  {
    var open, body := "<li class=\"", cls + "\">" + file;
    var item := open + body + "</li>";
    assert FileItem(cls, file) == item;
    assert StartsWith(item, open) && EndsWith(item, "</li>") && item[|open|..|item| - 5] == body by {
      assert item[..|open|] == open;
      assert item[|item| - 5..] == "</li>";
    }
    assert Span(body, '"') == |cls| by {
      assert body == cls + ("\">" + file);
      SpanStopsAt(cls, "\">" + file, '"');
    }
    assert body[|cls|..] == "\">" + file && body[..|cls|] == cls;
  }

  /** A file item is a list item, and its class and name read back, when the name holds no `<` or `"`. */
  lemma LsItemRoundTrip(file: string)
    requires '"' !in file && '<' !in file
    ensures IsListItem(LsItem(file))
    ensures LsEntry(LsItem(file)) == Some((FileClass(file), file))
  {
    var ext := Extension(file);
    ExtensionChars(file, '"');
    ExtensionChars(file, '<');
    assert FileClass(file) == "file-" + ext;
    assert '"' !in FileClass(file) && '<' !in FileClass(file);
    FileItemIsListItem(FileClass(file), file);
    FileItemRoundTrip(FileClass(file), file);
  }

  /**
   * The file page lists exactly one item per file, in the order `ns.ls`
   * gave them, each carrying `getFileClass` of its name (names holding no
   * `<` or `"`); a failing `ns.ls` fails the handler.
   */
  lemma LsListsEveryFile(styles: string, host: Host, cmd: CommandData)
    ensures host.ls(ServerOf(cmd)).Threw? ==> ExecuteLs(styles, host, cmd) == Threw(host.ls(ServerOf(cmd)).error)
    ensures host.ls(ServerOf(cmd)).Returned? ==>
      var files, r := host.ls(ServerOf(cmd)).value, ExecuteLs(styles, host, cmd);
      r.Returned? && r.value.Str? && ContentOf(styles, LsTitle(cmd), r.value.text).Some? &&
      ((forall k :: 0 <= k < |files| ==> '"' !in files[k] && '<' !in files[k]) ==>
        var items := PageItems(styles, LsTitle(cmd), r.value.text);
        items.Some? && |items.value| == |files| &&
        forall k :: 0 <= k < |files| ==> LsEntry(items.value[k]) == Some((FileClass(files[k]), files[k])))
  {
    if host.ls(ServerOf(cmd)).Returned? {
      var files := host.ls(ServerOf(cmd)).value;
      var list := ListOf(LsItems(files));
      assert ExecuteLs(styles, host, cmd) == Returned(Str(Wrap(styles, LsTitle(cmd), list)));
      WrapRoundTrip(styles, LsTitle(cmd), list);
      if forall k :: 0 <= k < |files| ==> '"' !in files[k] && '<' !in files[k] {
        forall k | 0 <= k < |files|
          ensures IsListItem(LsItems(files)[k]) && LsEntry(LsItems(files)[k]) == Some((FileClass(files[k]), files[k]))
        {
          LsItemRoundTrip(files[k]);
        }
        ListPageRoundTrip(styles, LsTitle(cmd), LsItems(files));
      }
    }
  }

  // ---------------------------------------------------------------------
  // executeStats and executePing

  /** The labels of `executeStats`, in page order. */
  const StatLabels: seq<string> := [
    "Money", "Hacking Level", "Hacking XP", "Script Income", "Script XP", "Hacknet Production",
    "Hacking Speed", "Hacking Chance", "Factions", "Jobs", "Location", "Total Playtime"]

  /** The rendered values for the labels, queried in order; the first query that throws ends it. */
  function StatValues(host: Host, labels: seq<string>): (r: Outcome<seq<string>>)
    ensures r.Threw? <==> exists k :: 0 <= k < |labels| && host.stat(labels[k]).Threw?
    ensures r.Returned? ==>
              |r.value| == |labels| && forall k :: 0 <= k < |labels| ==> host.stat(labels[k]) == Returned(r.value[k])
  {
    if labels == [] then Returned([])
    else match host.stat(labels[0])
      case Threw(e) => Threw(e)
      case Returned(v) =>
        match StatValues(host, labels[1..])
        case Threw(e) => Threw(e)
        case Returned(vs) => Returned([v] + vs)
  }

  function StatItems(labels: seq<string>, values: seq<string>): seq<string>
    requires |labels| == |values|
  {
    seq(|labels|, i requires 0 <= i < |labels| => FormatStat(labels[i], values[i]))
  }

  /**
   * Reads the label and the value back out of one stat line: the label
   * runs up to the `:` before the first `<` after the lead, the value up
   * to the closing tail.
   */
  function StatEntry(line: string): Option<(string, string)>
  {
    if |line| >= |StatLead| + |StatTail| && StartsWith(line, StatLead) && EndsWith(line, StatTail) then
      var body := line[|StatLead|..|line| - |StatTail|];
      var k := Span(body, '<');
      if k >= 1 && StartsWith(body[k - 1..], StatSeparator) then Some((body[..k - 1], body[k - 1 + |StatSeparator|..]))
      else None
    else None
  }

  /**
   * In `x + sep + y`, with `sep` a non-`<` character followed by `<`, the
   * first `<` stands right after that character; `x` and `y` are around it.
   */
  lemma SeparatorAfter(x: string, sep: string, y: string)
    requires '<' !in x && |sep| >= 2 && sep[0] != '<' && sep[1] == '<'
    ensures var body := x + sep + y;
            Span(body, '<') == |x| + 1 && body[..|x|] == x && StartsWith(body[|x|..], sep)
            && body[|x| + |sep|..] == y
  {
    var body := x + sep + y;
    assert body == (x + sep[..1]) + (sep[1..] + y);
    SpanStopsAt(x + sep[..1], sep[1..] + y, '<');
    assert body[|x|..][..|sep|] == sep;
  }

  /** A stat line gives back its label and its value, for a label without `<`. */
  lemma StatLineRoundTrip(caption: string, value: string)
    requires '<' !in caption
    ensures StatEntry(FormatStat(caption, value)) == Some((caption, value))
  {
    var body := caption + StatSeparator + value;
    assert FormatStat(caption, value) == StatLead + body + StatTail;
    Framed(StatLead, body, StatTail);
    SeparatorAfter(caption, StatSeparator, value);
  }

  /** `executeStats(ns, commandData)`: the twelve labelled statistics through `formatStat`. */
  function ExecuteStats(styles: string, host: Host, cmd: CommandData): (r: Outcome<Value>)
    ensures r.Threw? <==> exists k :: 0 <= k < |StatLabels| && host.stat(StatLabels[k]).Threw?
    ensures r.Returned? ==> r.value.Str?
  {
    match StatValues(host, StatLabels)
    case Threw(e) => Threw(e)
    case Returned(values) => Returned(Str(Wrap(styles, "Player Stats", ListOf(StatItems(StatLabels, values)))))
  }

  /**
   * The stats page holds one `formatStat` line per label, in label order,
   * each with the value the host rendered for that label.
   */
  lemma StatsPageListsEveryStat(styles: string, host: Host, cmd: CommandData)
    ensures var r, values := ExecuteStats(styles, host, cmd), StatValues(host, StatLabels);
            r.Returned? ==>
              && values.Returned? && |values.value| == |StatLabels|
              && ContentOf(styles, "Player Stats", r.value.text) == Some(ListOf(StatItems(StatLabels, values.value)))
              && forall k :: 0 <= k < |StatLabels| ==>
                   StatItems(StatLabels, values.value)[k] == FormatStat(StatLabels[k], values.value[k])
                   && host.stat(StatLabels[k]) == Returned(values.value[k])
  {
    var values := StatValues(host, StatLabels);
    if values.Returned? {
      WrapRoundTrip(styles, "Player Stats", ListOf(StatItems(StatLabels, values.value)));
    }
  }

  /** Every line of the stats page reads back as its label and the value the host gave for it. */
  lemma StatsPageReadsBack(host: Host, values: seq<string>)
    requires StatValues(host, StatLabels) == Returned(values)
    ensures |values| == |StatLabels|
    ensures forall k :: 0 <= k < |StatLabels| ==>
              StatEntry(StatItems(StatLabels, values)[k]) == Some((StatLabels[k], values[k]))
              && host.stat(StatLabels[k]) == Returned(values[k])
  {
    forall k | 0 <= k < |StatLabels|
      ensures StatEntry(StatItems(StatLabels, values)[k]) == Some((StatLabels[k], values[k]))
    {
      assert '<' !in StatLabels[k];
      StatLineRoundTrip(StatLabels[k], values[k]);
    }
  }

  /** `executePing`: `{message: "pong"}` whatever the host and the command. */
  function ExecutePing(host: Host, cmd: CommandData): (v: Value)
    ensures v == Obj(map["message" := "pong"])
  {
    Obj(map["message" := "pong"])
  }

  // ---------------------------------------------------------------------
  // executeUnknownCommand

  /** The arguments `executeUnknownCommand` hands to `ns.exec`, defaults resolved. */
  function ExecCallOf(cmd: CommandData): ExecCall
  {
    ExecCall(cmd.command, ServerOf(cmd), OrDefault(cmd.threads, 1), OrDefault(cmd.args, []))
  }

  /**
   * The destructuring defaults of `executeUnknownCommand`: a missing
   * `server_name`, `threads` or `args` becomes `'home'`, 1 or `[]`; a
   * present member, `null` included, is passed on as it came.
   */
  lemma ExecDefaults(cmd: CommandData)
    ensures ExecCallOf(cmd).script == cmd.command
    ensures ExecCallOf(cmd).server == (if cmd.serverName.Missing? then Given("home") else cmd.serverName)
    ensures ExecCallOf(cmd).threads == (if cmd.threads.Missing? then Given(1) else cmd.threads)
    ensures ExecCallOf(cmd).args == (if cmd.args.Missing? then Given([]) else cmd.args)
  {
  }

  const ErrorLead: string := "Error executing command: "

  function RejectedText(command: string, server: string): string
  {
    "Failed to execute command: " + command + " on " + server
  }

  function LaunchedLead(command: string): string
  {
    "Executed " + command + " with PID "
  }

  /** The message inside `<pre>` for one outcome of `ns.exec`. */
  function LaunchText(command: string, server: string, launch: Outcome<int>): string
  {
    match launch
    case Threw(e) => ErrorLead + e
    case Returned(pid) =>
      if pid == 0 then RejectedText(command, server)
      else LaunchedLead(command) + IntText(pid) + " on " + server
  }

  /**
   * `executeUnknownCommand(ns, commandData)`: tries to run the command as a
   * script and reports the outcome as a page. Its type has no failure:
   * an exception of `ns.exec` becomes an error page.
   */
  function ExecuteUnknown(styles: string, host: Host, cmd: CommandData): string
  {
    var call := ExecCallOf(cmd);
    Wrap(styles, Show(cmd.command), "<pre>" + LaunchText(Show(cmd.command), Show(call.server), host.exec(call)) + "</pre>")
  }

  /** What a fallback page reports. */
  datatype Launch = Launched(pid: int) | Rejected | LaunchError(error: string)

  /** The report an exec outcome calls for: pid 0 is a rejection, an exception an error. */
  function Expected(launch: Outcome<int>): Launch
  {
    match launch
    case Threw(e) => LaunchError(e)
    case Returned(pid) => if pid == 0 then Rejected else Launched(pid)
  }

  /** Reads the report back out of the message of a fallback page, knowing the command and the server it names. */
  function ReadLaunchText(command: string, server: string, text: string): Option<Launch>
  {
    var lead, tail := LaunchedLead(command), " on " + server;
    if StartsWith(text, ErrorLead) then Some(LaunchError(text[|ErrorLead|..]))
    else if text == RejectedText(command, server) then Some(Rejected)
    else if |lead| + |tail| <= |text| && StartsWith(text, lead) && EndsWith(text, tail) then
      match ParseInt(text[|lead|..|text| - |tail|])
      case Some(pid) => Some(Launched(pid))
      case None => None
    else None
  }

  /** Reads the report back out of a fallback page. */
  function ReadLaunch(styles: string, command: string, server: string, page: string): Option<Launch>
  {
    match ContentOf(styles, command, page)
    case None => None
    case Some(content) =>
      if |content| < 11 || !StartsWith(content, "<pre>") || !EndsWith(content, "</pre>") then None
      else ReadLaunchText(command, server, content[5..|content| - 6])
  }

  /** The message inside `<pre>` is recovered from a fallback page. */
  lemma FallbackText(styles: string, host: Host, cmd: CommandData)
    ensures var call := ExecCallOf(cmd); var page := ExecuteUnknown(styles, host, cmd);
            var content := ContentOf(styles, Show(cmd.command), page);
            content.Some? && |content.value| >= 11 && StartsWith(content.value, "<pre>") && EndsWith(content.value, "</pre>") &&
            content.value[5..|content.value| - 6] == LaunchText(Show(cmd.command), Show(call.server), host.exec(call))
  {
    var call := ExecCallOf(cmd);
    var text := LaunchText(Show(cmd.command), Show(call.server), host.exec(call));
    var content := "<pre>" + text + "</pre>";
    WrapRoundTrip(styles, Show(cmd.command), content);
    assert content[..5] == "<pre>";
    assert content[|content| - 6..] == "</pre>";
    assert content[5..|content| - 6] == text;
  }

  /** An error message is read back with the exception's text. */
  lemma ErrorTextRead(command: string, server: string, e: string)
    ensures ReadLaunchText(command, server, ErrorLead + e) == Some(LaunchError(e))
  {
    var text := ErrorLead + e;
    assert text[..|ErrorLead|] == ErrorLead;
    assert text[|ErrorLead|..] == e;
  }

  /** The failure message is not taken for an error message, and is read back as a rejection. */
  lemma RejectedTextRead(command: string, server: string)
    ensures ReadLaunchText(command, server, RejectedText(command, server)) == Some(Rejected)
  {
    var text := RejectedText(command, server);
    assert text[0] == 'F' && ErrorLead[0] == 'E';
    assert !StartsWith(text, ErrorLead);
  }

  /** A launch message is taken for neither of the others, and its pid is parsed back. */
  lemma LaunchedTextRead(command: string, server: string, pid: int)
    requires pid != 0
    ensures ReadLaunchText(command, server, LaunchedLead(command) + IntText(pid) + " on " + server) == Some(Launched(pid))
  {
    var lead, tail := LaunchedLead(command), " on " + server;
    var text := lead + IntText(pid) + tail;
    assert !StartsWith(text, ErrorLead) by {
      assert text[1] == 'x' && ErrorLead[1] == 'r';
    }
    assert text != RejectedText(command, server) by {
      assert text[0] == 'E' && RejectedText(command, server)[0] == 'F';
    }
    assert StartsWith(text, lead) && EndsWith(text, tail) && text[|lead|..|text| - |tail|] == IntText(pid) by {
      Framed(lead, IntText(pid), tail);
    }
    IntTextRoundTrip(pid);
    assert LaunchedLead(command) + IntText(pid) + " on " + server == text;
  }

  /** Each of the three messages is read back as the report it stands for. */
  lemma LaunchTextRoundTrip(command: string, server: string, launch: Outcome<int>)
    ensures ReadLaunchText(command, server, LaunchText(command, server, launch)) == Some(Expected(launch))
  {
    match launch
    case Threw(e) => ErrorTextRead(command, server, e);
    case Returned(pid) =>
      if pid == 0 {
        RejectedTextRead(command, server);
      } else {
        LaunchedTextRead(command, server, pid);
      }
  }

  /**
   * The fallback page tells the three outcomes apart: a zero pid yields the
   * failure page, any other pid the page naming that pid, and an exception
   * the error page carrying its message.
   */
  lemma FallbackReportsLaunch(styles: string, host: Host, cmd: CommandData)
    ensures var call := ExecCallOf(cmd);
            ReadLaunch(styles, Show(cmd.command), Show(call.server), ExecuteUnknown(styles, host, cmd)) == Some(Expected(host.exec(call)))
  {
    var call := ExecCallOf(cmd);
    FallbackText(styles, host, cmd);
    LaunchTextRoundTrip(Show(cmd.command), Show(call.server), host.exec(call));
  }
}
