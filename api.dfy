/**
 * The coordinator of api.py: per-password command queues and result
 * tables, the shared passwordless queue and table read by the admin
 * password, the last-activity map and its inactivity sweep. The tables are
 * a value (`Tables`) with one transition function per endpoint; the class
 * `Coordinator` holds them as fields and changes them in place.
 */
module Api {
  import opened Protocol

  /** `timedelta(hours=1)`, with timestamps in microseconds (the resolution of `datetime`). */
  const OneHour: int := 3_600_000_000

  /** The default `timeout` of `wait_for_result`: 30 polls, one second apart. */
  const WaitTimeout: int := 30

  /** The body of POST /run-command once `class Command` has validated it; None stands for JSON null. */
  datatype Request = Request(
    command: string,
    serverName: Option<string>,
    threads: Option<int>,
    args: Option<seq<string>>,
    password: Option<string>)

  /** A pydantic optional field: a missing member takes the default, a `null` one is None. */
  function FieldOr<T>(f: Field<T>, default: Option<T>): Option<T>
  {
    match f
    case Missing => default
    case Null => None
    case Given(v) => Some(v)
  }

  /** `class Command`: `server_name` defaults to None, `threads` to 1, `args` to `[]`, `password` to None. */
  function ParseRequest(command: string, serverName: Field<string>, threads: Field<int>,
                        args: Field<seq<string>>, password: Field<string>): (r: Request)
    ensures r.command == command
    ensures serverName.Missing? ==> r.serverName == None
    ensures threads.Missing? ==> r.threads == Some(1)
    ensures args.Missing? ==> r.args == Some([])
    ensures password.Missing? ==> r.password == None
    ensures serverName.Null? ==> r.serverName == None
    ensures threads.Null? ==> r.threads == None
    ensures args.Null? ==> r.args == None
    ensures password.Null? ==> r.password == None
    ensures serverName.Given? ==> r.serverName == Some(serverName.value)
    ensures threads.Given? ==> r.threads == Some(threads.value)
    ensures args.Given? ==> r.args == Some(args.value)
    ensures password.Given? ==> r.password == Some(password.value)
  {
    Request(command, FieldOr(serverName, None), FieldOr(threads, Some(1)), FieldOr(args, Some([])), FieldOr(password, None))
  }

  /** `command_data`: what a queue holds and GET /commands returns. */
  datatype QueuedCommand = QueuedCommand(
    id: string,
    command: string,
    threads: Option<int>,
    args: Option<seq<string>>,
    serverName: Option<string>)

  /** The `command_data` dict `run_command` builds; `server_name` is set only when truthy. */
  function CommandDataOf(req: Request, id: string): (q: QueuedCommand)
    ensures q.id == id && q.command == req.command && q.threads == req.threads && q.args == req.args
    ensures q.serverName.Some? <==> req.serverName.Some? && req.serverName.value != ""
    ensures q.serverName.Some? ==> q.serverName == req.serverName
  {
    var server := if req.serverName.Some? && req.serverName.value != "" then req.serverName else None;
    QueuedCommand(id, req.command, req.threads, req.args, server)
  }

  /** `not command.password`: no password, or an empty one. */
  predicate IsPasswordless(req: Request)
  {
    req.password.None? || req.password.value == ""
  }

  /** `{"result": ..., "isHtml": ...}` as stored; `isHtml` is kept as the truth value `run_command` tests. */
  datatype StoredResult = StoredResult(result: Value, isHtml: bool)

  /** The body of POST /results; None stands for a member that is absent. */
  datatype PostBody = PostBody(id: Option<string>, result: Option<Value>, isHtml: Field<bool>)

  /** `result_data.get("isHtml", False)`: true only for a posted `true`. */
  function StoredOf(result: Value, isHtml: Field<bool>): StoredResult
  {
    StoredResult(result, isHtml == Given(true))
  }

  /** The five module-level tables. */
  datatype Tables = Tables(
    userCommands: map<string, seq<QueuedCommand>>,
    userResults: map<string, map<string, StoredResult>>,
    lastActivity: map<string, int>,
    passwordlessCommands: seq<QueuedCommand>,
    passwordlessResults: map<string, StoredResult>)

  const Empty: Tables := Tables(map[], map[], map[], [], map[])

  /** A user's queue, empty when the user has none yet. */
  function QueueOf(t: Tables, password: string): seq<QueuedCommand>
  {
    if password in t.userCommands then t.userCommands[password] else []
  }

  /** A user's result table, empty when the user has none yet. */
  function ResultsOf(t: Tables, password: string): map<string, StoredResult>
  {
    if password in t.userResults then t.userResults[password] else map[]
  }

  /** Every user who has a queue or a result table has a last-activity time, so the sweep can reach them. */
  predicate TablesValid(t: Tables)
  {
    t.userCommands.Keys <= t.lastActivity.Keys && t.userResults.Keys <= t.lastActivity.Keys
  }

  /** The queueing half of `run_command`. */
  function Submit(t: Tables, req: Request, id: string, now: int): (t': Tables)
    ensures IsPasswordless(req) ==>
              t' == t.(passwordlessCommands := t.passwordlessCommands + [CommandDataOf(req, id)])
    ensures !IsPasswordless(req) ==>
              var p := req.password.value;
              && t'.passwordlessCommands == t.passwordlessCommands
              && t'.passwordlessResults == t.passwordlessResults
              && QueueOf(t', p) == QueueOf(t, p) + [CommandDataOf(req, id)]
              && t'.lastActivity == t.lastActivity[p := now]
              && t'.userCommands.Keys == t.userCommands.Keys + {p}
              && (forall u :: u != p ==> QueueOf(t', u) == QueueOf(t, u))
              && t'.userResults == if p in t.userCommands then t.userResults else t.userResults[p := map[]]
    ensures TablesValid(t) ==> TablesValid(t')
  {
    var q := CommandDataOf(req, id);
    if IsPasswordless(req) then
      t.(passwordlessCommands := t.passwordlessCommands + [q])
    else
      var p := req.password.value;
      var t1 := if p !in t.userCommands
                then t.(userCommands := t.userCommands[p := []], userResults := t.userResults[p := map[]])
                else t;
      t1.(lastActivity := t1.lastActivity[p := now], userCommands := t1.userCommands[p := t1.userCommands[p] + [q]])
  }

  /** `get_next_command`: the new tables and the command handed out (None is `{"command": None}`). */
  function NextCommand(t: Tables, admin: string, password: string, now: int): (r: (Tables, Option<QueuedCommand>))
    ensures password == admin ==>
              && r.0.userCommands == t.userCommands && r.0.userResults == t.userResults
              && r.0.lastActivity == t.lastActivity && r.0.passwordlessResults == t.passwordlessResults
              && (t.passwordlessCommands == [] ==> r.1 == None && r.0 == t)
              && (t.passwordlessCommands != [] ==>
                    r.1 == Some(t.passwordlessCommands[0]) && r.0.passwordlessCommands == t.passwordlessCommands[1..])
    ensures password != admin ==>
              && r.0.passwordlessCommands == t.passwordlessCommands && r.0.passwordlessResults == t.passwordlessResults
              && r.0.userResults == t.userResults
              && r.0.lastActivity == t.lastActivity[password := now]
              && r.0.userCommands.Keys == t.userCommands.Keys + {password}
              && (forall u :: u != password ==> QueueOf(r.0, u) == QueueOf(t, u))
              && (QueueOf(t, password) == [] ==> r.1 == None && QueueOf(r.0, password) == [])
              && (QueueOf(t, password) != [] ==>
                    r.1 == Some(QueueOf(t, password)[0]) && QueueOf(r.0, password) == QueueOf(t, password)[1..])
    ensures TablesValid(t) ==> TablesValid(r.0)
  {
    if password == admin then
      if t.passwordlessCommands != [] then
        (t.(passwordlessCommands := t.passwordlessCommands[1..]), Some(t.passwordlessCommands[0]))
      else (t, None)
    else
      var t1 := t.(lastActivity := t.lastActivity[password := now]);
      var t2 := if password !in t1.userCommands then t1.(userCommands := t1.userCommands[password := []]) else t1;
      var queue := t2.userCommands[password];
      if queue != [] then (t2.(userCommands := t2.userCommands[password := queue[1..]]), Some(queue[0]))
      else (t2, None)
  }

  /** `post_result`: the new tables, and false when the body lacks `id` or `result` (a KeyError, nothing stored). */
  function PostResult(t: Tables, admin: string, password: string, body: PostBody, now: int): (r: (Tables, bool))
    ensures r.1 <==> body.id.Some? && body.result.Some?
    ensures !r.1 ==> r.0 == t
    ensures r.1 && password == admin ==>
              r.0 == t.(passwordlessResults := t.passwordlessResults[body.id.value := StoredOf(body.result.value, body.isHtml)])
    ensures r.1 && password != admin ==>
              && r.0.passwordlessCommands == t.passwordlessCommands && r.0.passwordlessResults == t.passwordlessResults
              && r.0.userCommands == t.userCommands
              && r.0.lastActivity == t.lastActivity[password := now]
              && r.0.userResults.Keys == t.userResults.Keys + {password}
              && ResultsOf(r.0, password) == ResultsOf(t, password)[body.id.value := StoredOf(body.result.value, body.isHtml)]
              && (forall u :: u != password ==> ResultsOf(r.0, u) == ResultsOf(t, u))
    ensures TablesValid(t) ==> TablesValid(r.0)
  {
    if body.id.None? || body.result.None? then (t, false)
    else
      var stored := StoredOf(body.result.value, body.isHtml);
      if password == admin then
        (t.(passwordlessResults := t.passwordlessResults[body.id.value := stored]), true)
      else
        var t1 := if password !in t.userResults then t.(userResults := t.userResults[password := map[]]) else t;
        var t2 := t1.(lastActivity := t1.lastActivity[password := now]);
        (t2.(userResults := t2.userResults[password := t2.userResults[password][body.id.value := stored]]), true)
  }

  /** One poll of `wait_for_result`: takes the result out of the table `password` selects (passwordless for None). */
  function TakeResult(t: Tables, id: string, password: Option<string>): (r: (Tables, Option<StoredResult>))
    ensures password.None? ==>
              && r.1 == (if id in t.passwordlessResults then Some(t.passwordlessResults[id]) else None)
              && r.0 == t.(passwordlessResults := t.passwordlessResults - {id})
    ensures password.Some? ==>
              && r.1 == (if id in ResultsOf(t, password.value) then Some(ResultsOf(t, password.value)[id]) else None)
              && r.0.passwordlessResults == t.passwordlessResults
              && r.0.userCommands == t.userCommands && r.0.lastActivity == t.lastActivity
              && r.0.passwordlessCommands == t.passwordlessCommands
              && ResultsOf(r.0, password.value) == ResultsOf(t, password.value) - {id}
              && (forall u :: u != password.value ==> ResultsOf(r.0, u) == ResultsOf(t, u))
    ensures TablesValid(t) ==> TablesValid(r.0)
  {
    match password
    case None =>
      if id in t.passwordlessResults
      then (t.(passwordlessResults := t.passwordlessResults - {id}), Some(t.passwordlessResults[id]))
      else (t, None)
    case Some(p) =>
      if p in t.userResults && id in t.userResults[p]
      then (t.(userResults := t.userResults[p := t.userResults[p] - {id}]), Some(t.userResults[p][id]))
      else (t, None)
  }

  /** The users whose last activity lies strictly before one hour ago. */
  function Inactive(lastActivity: map<string, int>, now: int): set<string>
  {
    set u | u in lastActivity && lastActivity[u] < now - OneHour
  }

  /** One pass of `cleanup_inactive_users`. */
  function Swept(t: Tables, now: int): (t': Tables)
    ensures forall u :: u in t'.lastActivity <==> u in t.lastActivity && t.lastActivity[u] >= now - OneHour
    ensures TablesValid(t) ==>
              && (forall u :: u in t'.userCommands <==> u in t.userCommands && t.lastActivity[u] >= now - OneHour)
              && (forall u :: u in t'.userResults <==> u in t.userResults && t.lastActivity[u] >= now - OneHour)
    ensures forall u :: u in t'.userCommands ==> u in t.userCommands && t'.userCommands[u] == t.userCommands[u]
    ensures forall u :: u in t'.userResults ==> u in t.userResults && t'.userResults[u] == t.userResults[u]
    ensures forall u :: u in t'.lastActivity ==> t'.lastActivity[u] == t.lastActivity[u]
    ensures t'.passwordlessCommands == t.passwordlessCommands && t'.passwordlessResults == t.passwordlessResults
    ensures TablesValid(t) ==> TablesValid(t')
  {
    var gone := Inactive(t.lastActivity, now);
    t.(userCommands := t.userCommands - gone, userResults := t.userResults - gone, lastActivity := t.lastActivity - gone)
  }

  /** What `run_command` answers once the wait is over. */
  datatype Response =
    | HtmlPage(content: string)    // Response(content=result, media_type="text/html")
    | Success(result: Value)       // {"status": "success", "result": result}
    | TimedOut                     // HTTPException(status_code=408)
    | RenderError                  // Response(content=...) given a non-string: the server fails

  function Respond(found: Option<StoredResult>): (r: Response)
    ensures found.None? <==> r.TimedOut?
    ensures r.HtmlPage? <==> found.Some? && found.value.isHtml && found.value.result.Str?
    ensures r.Success? <==> found.Some? && !found.value.isHtml
    ensures r.Success? ==> r.result == found.value.result
    ensures r.HtmlPage? ==> r.content == found.value.result.text
  {
    match found
    case None => TimedOut
    case Some(s) =>
      if s.isHtml then (if s.result.Str? then HtmlPage(s.result.text) else RenderError)
      else Success(s.result)
  }

  /** The table `wait_for_result` reads for the password a result was posted with. */
  function Channel(admin: string, password: string): Option<string>
  {
    if password == admin then None else Some(password)
  }

  /** The result table the `password` argument of `wait_for_result` selects. */
  function ChannelTable(t: Tables, channel: Option<string>): map<string, StoredResult>
  {
    if channel.None? then t.passwordlessResults else ResultsOf(t, channel.value)
  }

  /** A POST /results request that another request handler runs while a wait is asleep. */
  datatype Posting = Posting(password: string, body: PostBody, now: int)

  /** The postings in `ps`, applied in order. */
  function PostAll(t: Tables, admin: string, ps: seq<Posting>): Tables
  {
    if ps == [] then t
    else
      var last := ps[|ps| - 1];
      PostResult(PostAll(t, admin, ps[..|ps| - 1]), admin, last.password, last.body, last.now).0
  }

  /** The postings that run during the sleep after poll number `waited` (counting from 0). */
  function DuringSleep(arrivals: seq<seq<Posting>>, waited: nat): seq<Posting>
  {
    if waited < |arrivals| then arrivals[waited] else []
  }

  /**
   * `wait_for_result` from its poll number `waited` on: a poll that finds the
   * result takes it out and ends the wait; otherwise the postings of that
   * sleep run and the next poll follows, until `timeout` polls were made.
   */
  function Waited(t: Tables, admin: string, id: string, channel: Option<string>, timeout: int,
                  arrivals: seq<seq<Posting>>, waited: nat): (r: (Tables, Option<StoredResult>))
    decreases timeout - waited
  {
    if waited >= timeout then (t, None)
    else
      var taken := TakeResult(t, id, channel);
      if taken.1.Some? then taken
      else Waited(PostAll(t, admin, DuringSleep(arrivals, waited)), admin, id, channel, timeout, arrivals, waited + 1)
  }

  /** A posting never removes a stored result. */
  lemma PostKeeps(t: Tables, admin: string, p: Posting, id: string, channel: Option<string>)
    requires id in ChannelTable(t, channel)
    ensures id in ChannelTable(PostResult(t, admin, p.password, p.body, p.now).0, channel)
  {
  }

  /** After a batch of postings, any result one of them delivered on a channel is stored there. */
  lemma {:induction false} PostAllDelivers(t: Tables, admin: string, ps: seq<Posting>, j: nat, id: string)
    requires j < |ps| && ps[j].body.id == Some(id) && ps[j].body.result.Some?
    ensures id in ChannelTable(PostAll(t, admin, ps), Channel(admin, ps[j].password))
  {
    var channel := Channel(admin, ps[j].password);
    var last := ps[|ps| - 1];
    if j == |ps| - 1 {
      var before := PostAll(t, admin, ps[..|ps| - 1]);
      assert TakeResult(PostResult(before, admin, last.password, last.body, last.now).0, id, channel).1.Some? by {
        PostThenTake(before, admin, last.password, last.body, last.now);
      }
    } else {
      PostAllDelivers(t, admin, ps[..|ps| - 1], j, id);
      PostKeeps(PostAll(t, admin, ps[..|ps| - 1]), admin, last, id, channel);
    }
  }

  lemma {:induction false} FoundFrom(t: Tables, admin: string, id: string, channel: Option<string>, timeout: int,
                                     arrivals: seq<seq<Posting>>, waited: nat, k: nat, j: nat)
    requires waited <= k && k + 1 < timeout && k < |arrivals| && j < |arrivals[k]|
    requires arrivals[k][j].body.id == Some(id) && arrivals[k][j].body.result.Some?
    requires Channel(admin, arrivals[k][j].password) == channel
    ensures Waited(t, admin, id, channel, timeout, arrivals, waited).1.Some?
    decreases k - waited
  {
    if TakeResult(t, id, channel).1.None? {
      var next := PostAll(t, admin, DuringSleep(arrivals, waited));
      if waited < k {
        FoundFrom(next, admin, id, channel, timeout, arrivals, waited + 1, k, j);
      } else {
        PostAllDelivers(t, admin, arrivals[k], j, id);
        assert TakeResult(next, id, channel).1.Some?;
      }
    }
  }

  /**
   * A result posted on the channel a wait reads, during any sleep but the
   * last, ends that wait with a result instead of a timeout.
   */
  lemma ResultPostedInTimeIsFound(t: Tables, admin: string, id: string, channel: Option<string>, timeout: int,
                                  arrivals: seq<seq<Posting>>, k: nat, j: nat)
    requires k + 1 < timeout && k < |arrivals| && j < |arrivals[k]|
    requires arrivals[k][j].body.id == Some(id) && arrivals[k][j].body.result.Some?
    requires Channel(admin, arrivals[k][j].password) == channel
    ensures Waited(t, admin, id, channel, timeout, arrivals, 0).1.Some?
  {
    FoundFrom(t, admin, id, channel, timeout, arrivals, 0, k, j);
  }

  /** A wait that finds nothing leaves the tables as the postings left them, and never outlasts `timeout` polls. */
  lemma {:induction false} NothingPostedTimesOut(t: Tables, admin: string, id: string, channel: Option<string>,
                                                 timeout: int, waited: nat)
    requires id !in ChannelTable(t, channel)
    ensures Waited(t, admin, id, channel, timeout, [], waited) == (t, None)
    decreases timeout - waited
  {
    if waited < timeout {
      NothingPostedTimesOut(t, admin, id, channel, timeout, waited + 1);
    }
  }

  /** A posted result is handed to the next wait on the same channel, exactly as stored. */
  lemma PostThenTake(t: Tables, admin: string, password: string, body: PostBody, now: int)
    requires body.id.Some? && body.result.Some?
    ensures var posted := PostResult(t, admin, password, body, now).0;
            TakeResult(posted, body.id.value, Channel(admin, password)).1 == Some(StoredOf(body.result.value, body.isHtml))
  {
  }

  /** Each result is handed out at most once: a second take of the same id finds nothing. */
  lemma TakeAtMostOnce(t: Tables, id: string, password: Option<string>)
    ensures var first := TakeResult(t, id, password);
            TakeResult(first.0, id, password).1 == None
  {
  }

  /**
   * A result that the admin password posts is invisible to a wait that reads
   * a user table, so a command queued under the admin password as its user
   * password cannot be answered by the admin agent.
   */
  lemma AdminResultsSkipUserTables(t: Tables, admin: string, body: PostBody, now: int, user: string)
    requires body.id.Some? && body.result.Some? && body.id.value !in ResultsOf(t, user)
    ensures TakeResult(PostResult(t, admin, admin, body, now).0, body.id.value, Some(user)).1 == None
  {
  }

  /** The coordinator's module-level state, changed in place by its endpoints. */
  class Coordinator {
    const adminPassword: string
    var userCommands: map<string, seq<QueuedCommand>>
    var userResults: map<string, map<string, StoredResult>>
    var lastActivity: map<string, int>
    var passwordlessCommands: seq<QueuedCommand>
    var passwordlessResults: map<string, StoredResult>

    function State(): Tables
      reads this
    {
      Tables(userCommands, userResults, lastActivity, passwordlessCommands, passwordlessResults)
    }

    ghost predicate Valid()
      reads this
    {
      adminPassword != "" && TablesValid(State())
    }

    /** Module start: the service refuses to start without a non-empty `ADMIN_PASSWORD`. */
    constructor (adminPassword: string)
      requires adminPassword != ""
      ensures Valid() && State() == Empty && this.adminPassword == adminPassword
    {
      this.adminPassword := adminPassword;
      userCommands, userResults, lastActivity := map[], map[], map[];
      passwordlessCommands, passwordlessResults := [], map[];
    }

    /** The queueing half of `run_command`, with a fresh id in place of `uuid.uuid4()`. */
    method RunCommand(req: Request, commandId: string, now: int)
      requires Valid()
      modifies this
      ensures Valid() && State() == Submit(old(State()), req, commandId, now)
    {
      var data := CommandDataOf(req, commandId);
      if IsPasswordless(req) {
        passwordlessCommands := passwordlessCommands + [data];
      } else {
        var password := req.password.value;
        if password !in userCommands {
          userCommands := userCommands[password := []];
          userResults := userResults[password := map[]];
        }
        lastActivity := lastActivity[password := now];
        userCommands := userCommands[password := userCommands[password] + [data]];
      }
    }

    /** `get_next_command`; None is the `{"command": None}` reply. */
    method GetNextCommand(password: string, now: int) returns (next: Option<QueuedCommand>)
      requires Valid()
      modifies this
      ensures Valid() && (State(), next) == NextCommand(old(State()), adminPassword, password, now)
    {
      if password == adminPassword {
        if passwordlessCommands != [] {
          next := Some(passwordlessCommands[0]);
          passwordlessCommands := passwordlessCommands[1..];
        } else {
          next := None;
        }
        return;
      }
      lastActivity := lastActivity[password := now];
      if password !in userCommands {
        userCommands := userCommands[password := []];
      }
      if userCommands[password] != [] {
        next := Some(userCommands[password][0]);
        userCommands := userCommands[password := userCommands[password][1..]];
      } else {
        next := None;
      }
    }

    /** `post_result`; `accepted` is false when the body lacks `id` or `result`. */
    method PostResultTo(password: string, body: PostBody, now: int) returns (accepted: bool)
      requires Valid()
      modifies this
      ensures Valid() && (State(), accepted) == PostResult(old(State()), adminPassword, password, body, now)
    {
      if body.id.None? || body.result.None? {
        return false;
      }
      var commandId, stored := body.id.value, StoredOf(body.result.value, body.isHtml);
      if password == adminPassword {
        passwordlessResults := passwordlessResults[commandId := stored];
      } else {
        if password !in userResults {
          userResults := userResults[password := map[]];
        }
        lastActivity := lastActivity[password := now];
        userResults := userResults[password := userResults[password][commandId := stored]];
      }
      accepted := true;
    }

    /** One poll of `wait_for_result`: takes the result out of the selected table when it is there. */
    method Poll(commandId: string, password: Option<string>) returns (found: Option<StoredResult>)
      requires Valid()
      modifies this
      ensures Valid() && (State(), found) == TakeResult(old(State()), commandId, password)
    {
      found := None;
      if password.None? {
        if commandId in passwordlessResults {
          found := Some(passwordlessResults[commandId]);
          passwordlessResults := passwordlessResults - {commandId};
        }
      } else if password.value in userResults && commandId in userResults[password.value] {
        found := Some(userResults[password.value][commandId]);
        userResults := userResults[password.value := userResults[password.value] - {commandId}];
      }
    }

    /** The requests to POST /results that run, in order, while a wait is asleep. */
    method RunPostings(during: seq<Posting>)
      requires Valid()
      modifies this
      ensures Valid() && State() == PostAll(old(State()), adminPassword, during)
    {
      var i := 0;
      while i < |during|
        invariant 0 <= i <= |during|
        invariant Valid() && State() == PostAll(old(State()), adminPassword, during[..i])
      {
        var _ := PostResultTo(during[i].password, during[i].body, during[i].now);
        assert during[..i + 1][..i] == during[..i];
        i := i + 1;
      }
      assert during[..i] == during;
    }

    /**
     * `wait_for_result`: at most `timeout` polls of the table `password`
     * selects; the first poll that finds the result takes it out. During the
     * sleep after poll k, the postings `arrivals[k]` of other requests run.
     */
    method WaitForResult(commandId: string, password: Option<string>, timeout: int, arrivals: seq<seq<Posting>>)
      returns (found: Option<StoredResult>, polls: nat)
      requires Valid()
      modifies this
      ensures Valid()
      ensures (State(), found) == Waited(old(State()), adminPassword, commandId, password, timeout, arrivals, 0)
      ensures found.Some? ==> 1 <= polls <= timeout
      ensures found.None? ==> polls == (if timeout > 0 then timeout else 0)
    {
      var waited: nat := 0;
      polls := 0;
      while waited < timeout
        invariant Valid() && polls == waited
        invariant timeout > 0 ==> waited <= timeout
        invariant timeout <= 0 ==> waited == 0
        invariant Waited(State(), adminPassword, commandId, password, timeout, arrivals, waited)
               == Waited(old(State()), adminPassword, commandId, password, timeout, arrivals, 0)
        decreases timeout - waited
      {
        polls := polls + 1;
        found := Poll(commandId, password);
        if found.Some? {
          return;
        }
        RunPostings(DuringSleep(arrivals, waited));
        waited := waited + 1;
      }
      found := None;
    }

    /**
     * `run_command` as a whole: queue the command, wait up to 30 polls on the
     * matching table (the passwordless one for a passwordless command), and
     * turn what was found into the reply.
     */
    method RunCommandAndWait(req: Request, commandId: string, now: int, arrivals: seq<seq<Posting>>)
      returns (reply: Response)
      requires Valid()
      modifies this
      ensures Valid()
      ensures var queued := Submit(old(State()), req, commandId, now);
              var channel := if IsPasswordless(req) then None else Some(req.password.value);
              reply == Respond(Waited(queued, adminPassword, commandId, channel, WaitTimeout, arrivals, 0).1)
    ensures var queued := Submit(old(State()), req, commandId, now);
            var channel := if IsPasswordless(req) then None else Some(req.password.value);
            State() == Waited(queued, adminPassword, commandId, channel, WaitTimeout, arrivals, 0).0
    {
      RunCommand(req, commandId, now);
      var channel := if IsPasswordless(req) then None else Some(req.password.value);
      var found, _ := WaitForResult(commandId, channel, WaitTimeout, arrivals);
      reply := Respond(found);
    }

    /** One pass of `cleanup_inactive_users`: drops every user idle for more than an hour from the three user maps. */
    method CleanupInactiveUsers(now: int)
      requires Valid()
      modifies this
      ensures Valid() && State() == Swept(old(State()), now)
    {
      var inactive := Inactive(lastActivity, now);
      var pending := inactive;
      while pending != {}
        invariant pending <= inactive
        invariant userCommands == old(userCommands) - (inactive - pending)
        invariant userResults == old(userResults) - (inactive - pending)
        invariant lastActivity == old(lastActivity) - (inactive - pending)
        invariant passwordlessCommands == old(passwordlessCommands)
        invariant passwordlessResults == old(passwordlessResults)
        decreases pending
      {
        var password :| password in pending;
        userCommands := userCommands - {password};
        userResults := userResults - {password};
        lastActivity := lastActivity - {password};
        pending := pending - {password};
      }
      assert inactive - pending == inactive;
    }
  }
}
