/**
 * The agent and the coordinator together: the JSON a queued command
 * becomes on the wire to GET /commands, the body the agent's result
 * becomes on POST /results, and what `run_command` then answers.
 */
module EndToEnd {
  import opened Protocol
  import opened Api
  import opened Handlers
  import opened RemoteControl

  /**
   * The reply of GET /commands as the agent parses it: `{"command": null}`
   * for an empty queue; otherwise the queued dict, whose `threads` and
   * `args` are `null` when the submitter sent `null`, and which has a
   * `server_name` member only when one was given.
   */
  function Wire(next: Option<QueuedCommand>): (d: CommandData)
    ensures next.None? ==> d.command.Null? && d.id.Missing?
    ensures next.Some? ==> d.command == Given(next.value.command) && d.id == Given(next.value.id)
    ensures next.Some? ==> (d.serverName.Missing? <==> next.value.serverName.None?)
  {
    match next
    case None => CommandData(Null, Missing, Missing, Missing, Missing)
    case Some(q) =>
      CommandData(
        Given(q.command),
        Given(q.id),
        if q.serverName.Some? then Given(q.serverName.value) else Missing,
        if q.threads.Some? then Given(q.threads.value) else Null,
        if q.args.Some? then Given(q.args.value) else Null)
  }

  /** `JSON.stringify({id, result, isHtml})` as `post_result` reads it. */
  function ResultBody(record: ResultRecord): (b: PostBody)
    ensures b.result == Some(record.result) && b.isHtml == Given(record.isHtml)
    ensures b.id.Some? <==> record.id.Given?
  {
    PostBody(if record.id.Given? then Some(record.id.value) else None, Some(record.result), Given(record.isHtml))
  }

  /** An empty queue, answered with `{"command": null}`, makes the agent's cycle idle: nothing runs, nothing is posted. */
  lemma EmptyQueueIsIdle(t: Tables, admin: string, password: string, now: int, handlers: HandlerObject,
                         host: Host, post: Delivery)
    requires NextCommand(t, admin, password, now).1.None?
    ensures ProcessCommand(handlers, CycleInput(host, Fetched(Wire(NextCommand(t, admin, password, now).1)), post)) == Idle
  {
  }

  /**
   * A command submitted as the empty string is queued and handed out, but
   * the agent treats it as no command and posts nothing, so its
   * `run_command` can only time out.
   */
  lemma EmptyCommandIsNeverAnswered(q: QueuedCommand, handlers: HandlerObject, host: Host, post: Delivery)
    ensures HasWork(Wire(Some(q))) <==> q.command != ""
    ensures q.command == "" ==> ProcessCommand(handlers, CycleInput(host, Fetched(Wire(Some(q))), post)) == Idle
  {
  }

  /** The server the agent acts on: the submitted `server_name`, or `"home"` when the coordinator left it out. */
  lemma ServerOnTheWire(q: QueuedCommand)
    ensures ServerOf(Wire(Some(q))) == Given(if q.serverName.Some? then q.serverName.value else "home")
  {
  }

  /** The agent's mark `isHtml` and the stored flag agree, so the coordinator answers HTML exactly when the agent said so. */
  lemma FlagSurvivesStorage(record: ResultRecord)
    ensures StoredOf(ResultBody(record).result.value, ResultBody(record).isHtml).isHtml == record.isHtml
  {
  }

  /**
   * With the corrected table, every result marked as HTML is a string, so
   * the coordinator's HTML reply can always be built: a posted record never
   * makes `run_command` fail.
   */
  lemma AgentResultsAlwaysRender(input: CycleInput)
    requires ProcessCommand(OwnHandlers(), input).Posted?
    ensures var record := ProcessCommand(OwnHandlers(), input).record;
            !Respond(Some(StoredOf(record.result, Given(record.isHtml)))).RenderError?
  {
    var d := input.fetch.data;
    var found := Lookup(OwnHandlers(), d.command.value);
    OwnLookupFallback(OwnHandlers(), d.command.value);
    IsHtmlByName(d.command.value);
    match RunRoute(RouteOf(found), input.host, d)
    case Returned(v) =>
      if d.command.value != "ping" {
        assert v.Str?;
      }
    case Threw(_) =>
  }

  /**
   * As written, a `constructor` command posts the `ns` object flagged as
   * HTML; when it serializes to a JSON object, the coordinator cannot build
   * the HTML reply and `run_command` fails.
   */
  lemma ConstructorBreaksTheReply(input: CycleInput)
    requires input.fetch.Fetched? && input.fetch.data.command == Given("constructor")
    requires input.host.self.Returned? && input.host.self.value.Obj? && input.post.Delivered?
    ensures ProcessCommand(CommandHandlers(), input).Posted?
    ensures var record := ProcessCommand(CommandHandlers(), input).record;
            Respond(Some(StoredOf(record.result, Given(record.isHtml)))) == RenderError
  {
    ConstructorAsWritten(input.host, input.fetch.data, input.post);
  }

  /**
   * A passwordless `ping` end to end: queued on an empty passwordless queue,
   * it is the next command of the admin agent, which posts `{message:
   * "pong"}` as a plain result; posted during the first sleep of the wait,
   * it is taken at the second poll and answered as a success.
   */
  lemma PasswordlessPingIsAnswered(t: Tables, admin: string, req: Request, id: string, now: int, host: Host)
    requires IsPasswordless(req) && req.command == "ping"
    requires t.passwordlessCommands == [] && id !in t.passwordlessResults
    ensures var queued := Submit(t, req, id, now);
            var next := NextCommand(queued, admin, admin, now).1;
            && next == Some(CommandDataOf(req, id))
            && var cycle := ProcessCommand(OwnHandlers(), CycleInput(host, Fetched(Wire(next)), Delivered));
               && cycle.Posted?
               && var arrivals := [[Posting(admin, ResultBody(cycle.record), now)]];
                  Respond(Waited(queued, admin, id, None, WaitTimeout, arrivals, 0).1)
                    == Success(Obj(map["message" := "pong"]))
  {
    var queued := Submit(t, req, id, now);
    var q := CommandDataOf(req, id);
    assert queued.passwordlessCommands == [q];
    var next := NextCommand(queued, admin, admin, now).1;
    RoutingByName("ping");
    IsHtmlByName("ping");
    var cycle := ProcessCommand(OwnHandlers(), CycleInput(host, Fetched(Wire(next)), Delivered));
    assert cycle == Posted(ResultRecord(Given(id), Obj(map["message" := "pong"]), false));
    var body := ResultBody(cycle.record);
    var during := [Posting(admin, body, now)];
    var arrivals := [during];
    var posted := PostAll(queued, admin, during);
    assert posted == PostResult(queued, admin, admin, body, now).0 by {
      assert during[..0] == [] && during[|during| - 1] == Posting(admin, body, now);
      assert PostAll(queued, admin, during[..0]) == queued;
    }
    assert DuringSleep(arrivals, 0) == during;
    PostThenTake(queued, admin, admin, body, now);
    assert TakeResult(queued, id, None).1.None?;
    assert Waited(queued, admin, id, None, WaitTimeout, arrivals, 0) == Waited(posted, admin, id, None, WaitTimeout, arrivals, 1);
  }
}
