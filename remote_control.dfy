/**
 * The dispatch core of remote-control.js: the handler table, one poll
 * cycle (`processCommand`), the control loop of `main` with its failure
 * containment, and `killDuplicateScripts`. The transport is abstract: a
 * cycle receives what the fetch produced and whether the post went through.
 */
module RemoteControl {
  import opened Protocol
  import opened Text
  import opened MatrixUi
  import opened Handlers

  /** The handler functions the table refers to. */
  datatype Builtin = Ps | Ls | Stats | Ping

  /** A table value: a bare handler function, or a descriptor `{handler, isHtml}`. */
  datatype Entry = Bare(fn: Builtin) | Descriptor(handler: Builtin, isHtml: Field<bool>)

  /**
   * A handler object as JavaScript reads it: its own entries, and the names
   * it inherits from its prototype.
   */
  datatype HandlerObject = HandlerObject(own: map<string, Entry>, inherited: set<string>)

  /** The names every object literal inherits from `Object.prototype`. */
  const ObjectPrototypeNames: set<string> := {
    "constructor", "hasOwnProperty", "isPrototypeOf", "propertyIsEnumerable", "toLocaleString",
    "toString", "valueOf", "__defineGetter__", "__defineSetter__", "__lookupGetter__",
    "__lookupSetter__", "__proto__"}

  /** `commandHandlers` of `main`: an object literal, so it inherits the members of `Object.prototype`. */
  function CommandHandlers(): HandlerObject
  {
    HandlerObject(
      map["ps" := Bare(Ps), "ls" := Bare(Ls), "stats" := Bare(Stats), "ping" := Descriptor(Ping, Given(false))],
      ObjectPrototypeNames)
  }

  /**
   * The same table without a prototype, as `Object.create(null)` makes it:
   * only its own keys are found (the corrected lookup, see the findings).
   */
  function OwnHandlers(): HandlerObject
  {
    CommandHandlers().(inherited := {})
  }

  /** What `handlers[name]` yields: an own value, or a member inherited from the prototype. */
  datatype Property = Own(entry: Entry) | Inherited(name: string)

  /** `handlers[commandData.command]`: an own value first, then an inherited member, else `undefined`. */
  function Lookup(handlers: HandlerObject, name: string): Option<Property>
  {
    if name in handlers.own then Some(Own(handlers.own[name]))
    else if name in handlers.inherited then Some(Inherited(name))
    else None
  }

  /** Which code runs for a looked-up property. */
  datatype Route = Direct(fn: Builtin) | ThroughDescriptor(fn: Builtin) | InheritedMember(name: string) | Fallback

  /**
   * `typeof handler === 'function' ? handler : handler.handler` for a found
   * property, or `executeUnknownCommand` when `handler` is `undefined`.
   */
  function RouteOf(found: Option<Property>): Route
  {
    match found
    case None => Fallback
    case Some(Own(Bare(f))) => Direct(f)
    case Some(Own(Descriptor(h, _))) => ThroughDescriptor(h)
    case Some(Inherited(name)) => InheritedMember(name)
  }

  /**
   * `typeof handler === 'function' ? true : handler?.isHtml ?? true`. An
   * inherited member is a function, or for `__proto__` an object without
   * `isHtml`: both report true.
   */
  function IsHtmlOf(found: Option<Property>): bool
  {
    match found
    case Some(Own(Descriptor(_, Given(b)))) => b
    case _ => true
  }

  function Invoke(fn: Builtin, host: Host, cmd: CommandData): Outcome<Value>
  {
    match fn
    case Ps => ExecutePs(Styles, host, cmd)
    case Ls => ExecuteLs(Styles, host, cmd)
    case Stats => ExecuteStats(Styles, host, cmd)
    case Ping => Returned(ExecutePing(host, cmd))
  }

  /** The error an inherited member raises; the engine's message text is not modelled. */
  const TypeErrorText: string := "TypeError"

  /**
   * An inherited `Object.prototype` member called as `f(ns, commandData)`,
   * so with `this` undefined (scripts are modules, hence strict code).
   * `toString` answers `"[object Undefined]"`; `constructor` is `Object`,
   * which hands back `ns` itself; every other member converts its `this`
   * to an object and throws, and `__proto__` is an object whose missing
   * `.handler` is called.
   */
  function CallInherited(name: string, host: Host): Outcome<Value>
  {
    if name == "toString" then Returned(Str("[object Undefined]"))
    else if name == "constructor" then host.self
    else Threw(TypeErrorText)
  }

  /** What the routed code hands back; the fallback never throws. */
  function RunRoute(route: Route, host: Host, cmd: CommandData): Outcome<Value>
  {
    match route
    case Direct(f) => Invoke(f, host, cmd)
    case ThroughDescriptor(f) => Invoke(f, host, cmd)
    case InheritedMember(name) => CallInherited(name, host)
    case Fallback => Returned(Str(ExecuteUnknown(Styles, host, cmd)))
  }

  /** The GET and `response.json()`: a parsed body, or the error either of them threw. */
  datatype Fetch = FetchFailed(error: string) | Fetched(data: CommandData)

  /** Whether the POST of the result went through or threw. */
  datatype Delivery = Delivered | PostFailed(error: string)

  /** Everything one cycle depends on from outside: the host, the fetch and the post. */
  datatype CycleInput = CycleInput(host: Host, fetch: Fetch, post: Delivery)

  /** How one `processCommand` call ends. */
  datatype Cycle =
    | Aborted(error: string)               // thrown by the fetch, caught by `main`
    | Idle                                 // no command: returned before any handler
    | HandlerFailed(name: string, error: string)
    | NotDelivered(name: string, record: ResultRecord, error: string)
    | Posted(record: ResultRecord)

  /** `processCommand(ns, config, handlers)` for one cycle. */
  function ProcessCommand(handlers: HandlerObject, input: CycleInput): (c: Cycle)
    ensures input.fetch.FetchFailed? <==> c.Aborted?
    ensures input.fetch.Fetched? && !HasWork(input.fetch.data) <==> c.Idle?
    ensures (c.Posted? || c.NotDelivered?) ==>
              input.fetch.Fetched? && c.record.id == input.fetch.data.id
    ensures c.Posted? ==> input.post.Delivered?
    ensures input.fetch.Fetched? && HasWork(input.fetch.data) ==>
              var d := input.fetch.data;
              var found := Lookup(handlers, d.command.value);
              match RunRoute(RouteOf(found), input.host, d)
              case Threw(e) => c == HandlerFailed(d.command.value, e)
              case Returned(v) =>
                var record := ResultRecord(d.id, v, IsHtmlOf(found));
                c == if input.post.Delivered? then Posted(record) else NotDelivered(d.command.value, record, input.post.error)
  {
    match input.fetch
    case FetchFailed(e) => Aborted(e)
    case Fetched(d) =>
      if !HasWork(d) then Idle
      else
        var name := d.command.value;
        var found := Lookup(handlers, name);
        match RunRoute(RouteOf(found), input.host, d)
        case Threw(e) => HandlerFailed(name, e)
        case Returned(v) =>
          var record := ResultRecord(d.id, v, IsHtmlOf(found));
          match input.post
          case Delivered => Posted(record)
          case PostFailed(e) => NotDelivered(name, record, e)
  }

  /**
   * Routing in the agent's table: the four names reach their handlers, the
   * inherited names their `Object.prototype` member, any other name the
   * fallback.
   */
  lemma RoutingByName(name: string)
    ensures RouteOf(Lookup(CommandHandlers(), name)) ==
      if name == "ps" then Direct(Ps)
      else if name == "ls" then Direct(Ls)
      else if name == "stats" then Direct(Stats)
      else if name == "ping" then ThroughDescriptor(Ping)
      else if name in ObjectPrototypeNames then InheritedMember(name)
      else Fallback
  {
  }

  /** The reported flag is false for `ping` alone: every other name, registered, inherited or unknown, reports HTML. */
  lemma IsHtmlByName(name: string)
    ensures IsHtmlOf(Lookup(CommandHandlers(), name)) <==> name != "ping"
    ensures IsHtmlOf(Lookup(OwnHandlers(), name)) <==> name != "ping"
  {
  }

  /** In any table, an entry's flag defaults to HTML unless an own descriptor gives an explicit boolean. */
  lemma IsHtmlDefaults(handlers: HandlerObject, name: string)
    ensures !IsHtmlOf(Lookup(handlers, name)) <==>
              name in handlers.own && handlers.own[name].Descriptor? && handlers.own[name].isHtml == Given(false)
  {
  }

  /** The posted result of one cycle, if any. */
  function PostedBy(c: Cycle): seq<ResultRecord>
  {
    if c.Posted? then [c.record] else []
  }

  /** The script-log line one cycle leaves (`ns.print` in `processCommand` or in `main`). */
  function LogBy(c: Cycle): seq<string>
  {
    match c
    case Aborted(e) => ["Error in main loop: " + e]
    case HandlerFailed(name, e) => ["Error executing command " + name + ": " + e]
    case NotDelivered(name, _, e) => ["Error executing command " + name + ": " + e]
    case _ => []
  }

  /** The results the first `|inputs|` cycles post, in cycle order. */
  function PostedRecords(handlers: HandlerObject, inputs: seq<CycleInput>): seq<ResultRecord>
  {
    if inputs == [] then []
    else PostedRecords(handlers, inputs[..|inputs| - 1]) + PostedBy(ProcessCommand(handlers, inputs[|inputs| - 1]))
  }

  /** The script log of the first `|inputs|` cycles. */
  function LoopLog(handlers: HandlerObject, inputs: seq<CycleInput>): seq<string>
  {
    if inputs == [] then []
    else LoopLog(handlers, inputs[..|inputs| - 1]) + LogBy(ProcessCommand(handlers, inputs[|inputs| - 1]))
  }

  /**
   * The first `|inputs|` iterations of the `while (true)` loop of `main`:
   * every cycle runs, whatever the previous one did, and every cycle ends
   * with the polling sleep.
   */
  method ControlLoop(handlers: HandlerObject, inputs: seq<CycleInput>)
    returns (posted: seq<ResultRecord>, log: seq<string>, sleeps: nat)
    ensures posted == PostedRecords(handlers, inputs)
    ensures log == LoopLog(handlers, inputs)
    ensures sleeps == |inputs|
  {
    posted, log, sleeps := [], [], 0;
    var i := 0;
    while i < |inputs|
      invariant 0 <= i <= |inputs| && sleeps == i
      invariant posted == PostedRecords(handlers, inputs[..i])
      invariant log == LoopLog(handlers, inputs[..i])
    {
      var cycle := ProcessCommand(handlers, inputs[i]);
      if cycle.Posted? {
        posted := posted + [cycle.record];
      }
      log := log + LogBy(cycle);
      sleeps := sleeps + 1;
      assert inputs[..i + 1][..i] == inputs[..i];
      i := i + 1;
    }
    assert inputs[..i] == inputs;
  }

  lemma {:induction false} PostedAppend(handlers: HandlerObject, a: seq<CycleInput>, b: seq<CycleInput>)
    ensures PostedRecords(handlers, a + b) == PostedRecords(handlers, a) + PostedRecords(handlers, b)
  {
    if b == [] {
      assert a + b == a;
    } else {
      var b' := b[..|b| - 1];
      assert (a + b)[..|a + b| - 1] == a + b';
      PostedAppend(handlers, a, b');
    }
  }

  /**
   * A cycle that posts nothing (a failing fetch, no command, a throwing
   * handler or a failing post) leaves the results of the cycles before and
   * after it exactly as they would be without it.
   */
  lemma FailedCycleIsContained(handlers: HandlerObject, before: seq<CycleInput>, failed: CycleInput, after: seq<CycleInput>)
    requires !ProcessCommand(handlers, failed).Posted?
    ensures PostedRecords(handlers, before + [failed] + after) == PostedRecords(handlers, before) + PostedRecords(handlers, after)
  {
    var upTo := before + [failed];
    assert upTo[..|upTo| - 1] == before;
    assert PostedRecords(handlers, upTo) == PostedRecords(handlers, before);
    PostedAppend(handlers, upTo, after);
  }

  /** At most one result per cycle, and each posted id is the id of a command some cycle fetched. */
  lemma {:induction false} PostedIdsComeFromFetches(handlers: HandlerObject, inputs: seq<CycleInput>)
    ensures |PostedRecords(handlers, inputs)| <= |inputs|
    ensures forall r :: r in PostedRecords(handlers, inputs) ==>
              exists i :: 0 <= i < |inputs| && inputs[i].fetch.Fetched? && inputs[i].fetch.data.id == r.id
  {
    if inputs != [] {
      var init := inputs[..|inputs| - 1];
      PostedIdsComeFromFetches(handlers, init);
      forall r | r in PostedRecords(handlers, inputs)
        ensures exists i :: 0 <= i < |inputs| && inputs[i].fetch.Fetched? && inputs[i].fetch.data.id == r.id
      {
        if r in PostedRecords(handlers, init) {
          var i :| 0 <= i < |init| && init[i].fetch.Fetched? && init[i].fetch.data.id == r.id;
          assert inputs[i] == init[i];
        } else {
          assert inputs[|inputs| - 1].fetch.Fetched?;
        }
      }
    }
  }

  // ---------------------------------------------------------------------
  // killDuplicateScripts and main

  /** The pids `killDuplicateScripts` passes to `ns.kill`, in list order. */
  function DuplicatePids(running: seq<Proc>, scriptName: string, currentPid: int): (pids: seq<int>)
    ensures currentPid !in pids
    ensures |pids| <= |running|
    ensures forall pid :: pid in pids <==>
              pid != currentPid && exists k :: 0 <= k < |running| && running[k].pid == pid && running[k].filename == scriptName
  {
    if running == [] then []
    else
      var init, p := running[..|running| - 1], running[|running| - 1];
      var pids := DuplicatePids(init, scriptName, currentPid);
      assert forall k :: 0 <= k < |init| ==> running[k] == init[k];
      if p.filename == scriptName && p.pid != currentPid then pids + [p.pid] else pids
  }

  /** A call the agent makes for its side effect: a line printed to the terminal, or a kill. */
  datatype Effect = Tprint(line: string) | Kill(pid: int)

  function KillMessage(scriptName: string, pid: int): string
  {
    "Killing duplicate " + scriptName + " with PID: " + IntText(pid)
  }

  /** For each pid in order, the terminal line announcing the kill, then the kill. */
  function KillEffects(scriptName: string, pids: seq<int>): (effects: seq<Effect>)
    ensures |effects| == 2 * |pids|
    ensures forall k :: 0 <= k < |pids| ==>
              effects[2 * k] == Tprint(KillMessage(scriptName, pids[k])) && effects[2 * k + 1] == Kill(pids[k])
  {
    if pids == [] then []
    else
      var init, last := pids[..|pids| - 1], pids[|pids| - 1];
      assert forall k :: 0 <= k < |init| ==> pids[k] == init[k];
      KillEffects(scriptName, init) + [Tprint(KillMessage(scriptName, last)), Kill(last)]
  }

  /**
   * `killDuplicateScripts(ns)` given `ns.pid`, `ns.getScriptName()` and
   * `ns.ps(ns.getHostname())`: `effects` lists the `ns.tprint` and
   * `ns.kill` calls in the order the loop makes them.
   */
  method KillDuplicateScripts(currentPid: int, scriptName: string, running: seq<Proc>) returns (effects: seq<Effect>)
    ensures effects == KillEffects(scriptName, DuplicatePids(running, scriptName, currentPid))
  {
    effects := [];
    var i := 0;
    while i < |running|
      invariant 0 <= i <= |running|
      invariant effects == KillEffects(scriptName, DuplicatePids(running[..i], scriptName, currentPid))
    {
      var script := running[i];
      assert running[..i + 1][..i] == running[..i];
      if script.filename == scriptName && script.pid != currentPid {
        ghost var pids := DuplicatePids(running[..i], scriptName, currentPid);
        assert (pids + [script.pid])[..|pids|] == pids;
        effects := effects + [Tprint(KillMessage(scriptName, script.pid)), Kill(script.pid)];
      }
      i := i + 1;
    }
    assert running[..i] == running;
  }

  const UsageError: string := "ERROR: Password required. Usage: run remote-control.js YOUR_PASSWORD"

  /** `!ns.args[0]`: no first argument, or an empty one. */
  predicate PasswordGiven(arg: Option<string>)
  {
    arg.Some? && arg.value != ""
  }

  /**
   * `main(ns)` up to the first `|inputs|` cycles: without a password it
   * prints the usage error and stops; otherwise it kills duplicates of
   * itself, then polls with its table, looked up by own keys only.
   */
  method RunAgent(arg: Option<string>, currentPid: int, scriptName: string, running: seq<Proc>, inputs: seq<CycleInput>)
    returns (effects: seq<Effect>, posted: seq<ResultRecord>, log: seq<string>, sleeps: nat)
    ensures !PasswordGiven(arg) ==> effects == [Tprint(UsageError)] && posted == [] && log == [] && sleeps == 0
    ensures PasswordGiven(arg) ==>
              && effects == KillEffects(scriptName, DuplicatePids(running, scriptName, currentPid))
              && posted == PostedRecords(OwnHandlers(), inputs)
              && log == LoopLog(OwnHandlers(), inputs)
              && sleeps == |inputs|
  {
    if !PasswordGiven(arg) {
      effects, posted, log, sleeps := [Tprint(UsageError)], [], [], 0;
      return;
    }
    effects := KillDuplicateScripts(currentPid, scriptName, running);
    posted, log, sleeps := ControlLoop(OwnHandlers(), inputs);
  }

  // ---------------------------------------------------------------------
  // The lookup as written, and the corrected one

  /**
   * As written, a command named after an `Object.prototype` member (such as
   * `toString`) is not in the table, yet never reaches `executeUnknownCommand`:
   * the inherited member runs instead. Without the prototype it would.
   */
  lemma InheritedNamesMissFallback(name: string)
    requires name in ObjectPrototypeNames
    ensures name !in CommandHandlers().own
    ensures RouteOf(Lookup(CommandHandlers(), name)) == InheritedMember(name)
    ensures RouteOf(Lookup(OwnHandlers(), name)) == Fallback
  {
  }

  /** As written, `toString` posts `"[object Undefined]"` flagged as HTML, where no script runs at all. */
  lemma ToStringAsWritten(host: Host, d: CommandData)
    requires d.command == Given("toString")
    ensures ProcessCommand(CommandHandlers(), CycleInput(host, Fetched(d), Delivered))
              == Posted(ResultRecord(d.id, Str("[object Undefined]"), true))
  {
    RoutingByName("toString");
  }

  /**
   * As written, `constructor` calls `Object(ns, commandData)`, which is `ns`
   * itself: the agent posts the game API object flagged as HTML (logging the
   * error when the post fails), or fails when it cannot be serialized.
   */
  lemma ConstructorAsWritten(host: Host, d: CommandData, post: Delivery)
    requires d.command == Given("constructor")
    ensures host.self.Threw? ==>
              ProcessCommand(CommandHandlers(), CycleInput(host, Fetched(d), post)) == HandlerFailed("constructor", host.self.error)
    ensures host.self.Returned? && post.Delivered? ==>
              ProcessCommand(CommandHandlers(), CycleInput(host, Fetched(d), post)) == Posted(ResultRecord(d.id, host.self.value, true))
    ensures host.self.Returned? && post.PostFailed? ==>
              ProcessCommand(CommandHandlers(), CycleInput(host, Fetched(d), post))
                == NotDelivered("constructor", ResultRecord(d.id, host.self.value, true), post.error)
  {
    RoutingByName("constructor");
  }

  /** As written, every other inherited name throws a TypeError, which is logged; nothing is posted. */
  lemma InheritedMembersThrowAsWritten(host: Host, d: CommandData, post: Delivery)
    requires d.command.Given? && d.command.value in ObjectPrototypeNames && d.command.value != "toString"
    requires d.command.value != "constructor"
    ensures ProcessCommand(CommandHandlers(), CycleInput(host, Fetched(d), post)) == HandlerFailed(d.command.value, TypeErrorText)
  {
    InheritedNamesMissFallback(d.command.value);
  }

  /**
   * In any object, a name reaches the fallback exactly when it is neither
   * an own key nor inherited; so with the prototype-free table, exactly
   * when it is not one of the table's keys.
   */
  lemma OwnLookupFallback(handlers: HandlerObject, name: string)
    ensures RouteOf(Lookup(handlers, name)) == Fallback <==> name !in handlers.own && name !in handlers.inherited
    ensures RouteOf(Lookup(OwnHandlers(), name)) == Fallback <==> name !in OwnHandlers().own
  {
  }

  /** With the corrected lookup, `toString` is run as a script like any other unknown name. */
  lemma ToStringCorrected(host: Host, d: CommandData)
    requires d.command == Given("toString")
    ensures ProcessCommand(OwnHandlers(), CycleInput(host, Fetched(d), Delivered))
              == Posted(ResultRecord(d.id, Str(ExecuteUnknown(Styles, host, d)), true))
  {
    OwnLookupFallback(OwnHandlers(), "toString");
  }
}
