/**
 * server/command.go: the /remind slash-command handler. The trimmed command
 * opens the scheduling dialog when it is the bare trigger; otherwise a fixed
 * chain of suffix tests picks help, list, clear, version or user info, and
 * anything else is scheduled as a reminder whose text is the command with
 * the trigger cut out.
 */
module Command {
  import opened Wrappers
  import opened Text
  import opened Types
  import opened Platform
  import opened Scheduler

  const CommandTrigger: string := "remind"

  /** The command as typed in the message box. */
  const Slash: string := "/" + CommandTrigger

  /** Where ExecuteCommand sends a command once the user is known. */
  datatype Route = Interactive | Help | List | Clear | Version | UserInfo | Schedule(payload: string)

  /** The reminder text: every "/remind" cut out of the command, then spaces trimmed. */
  function Payload(command: string): (p: string)
    ensures NoEdgeSpaces(p)
  {
    Trim(Remove(command, Slash))
  }

  /**
   * The routing of ExecuteCommand: the command is trimmed, the bare trigger
   * opens the dialog, then the suffix tests run in their fixed order with
   * the translated "help" and "list" words, and the first match wins.
   */
  function Classify(command: string, helpWord: string, listWord: string): (r: Route)
    ensures r.Schedule? ==> NoEdgeSpaces(r.payload)
    ensures r.Schedule? ==>
      var c := Trim(command);
      && c != Slash
      && !HasSuffix(c, helpWord) && !HasSuffix(c, listWord)
      && !HasSuffix(c, "__clear") && !HasSuffix(c, "__version") && !HasSuffix(c, "__user")
  {
    var c := Trim(command);
    TrimIdempotent(command);
    if Trim(c) == Slash then Interactive
    else if HasSuffix(c, helpWord) then Help
    else if HasSuffix(c, listWord) then List
    else if HasSuffix(c, "__clear") then Clear
    else if HasSuffix(c, "__version") then Version
    else if HasSuffix(c, "__user") then UserInfo
    else Schedule(Payload(c))
  }

  /** The dialog opens exactly for the bare trigger, whatever the translated words are. */
  lemma DialogExactlyOnBareTrigger(command: string, helpWord: string, listWord: string)
    ensures Classify(command, helpWord, listWord) == Interactive <==> Trim(command) == Slash
  {
    TrimIdempotent(command);
  }

  /** The suffix tests in the order they are made, each with the route it selects. */
  function SuffixTests(helpWord: string, listWord: string): seq<(string, Route)> {
    [(helpWord, Help), (listWord, List), ("__clear", Clear), ("__version", Version), ("__user", UserInfo)]
  }

  /** A table-driven reading of the chain: the route of the first suffix the command ends with. */
  function FirstSuffixMatch(c: string, tests: seq<(string, Route)>): Option<Route> {
    if tests == [] then None
    else if HasSuffix(c, tests[0].0) then Some(tests[0].1)
    else FirstSuffixMatch(c, tests[1..])
  }

  /** Searching the table gives the same answer as the chain of tests written out in order. */
  lemma FirstSuffixMatchUnrolled(c: string, helpWord: string, listWord: string)
    ensures FirstSuffixMatch(c, SuffixTests(helpWord, listWord)) ==
      if HasSuffix(c, helpWord) then Some(Help)
      else if HasSuffix(c, listWord) then Some(List)
      else if HasSuffix(c, "__clear") then Some(Clear)
      else if HasSuffix(c, "__version") then Some(Version)
      else if HasSuffix(c, "__user") then Some(UserInfo)
      else None
  {
    var tests := SuffixTests(helpWord, listWord);
    assert tests[1..][1..] == tests[2..];
    assert tests[2..][1..] == tests[3..];
    assert tests[3..][1..] == tests[4..];
    assert tests[4..][1..] == [];
    if !HasSuffix(c, helpWord) {
      assert FirstSuffixMatch(c, tests) == FirstSuffixMatch(c, tests[1..]);
      if !HasSuffix(c, listWord) {
        assert FirstSuffixMatch(c, tests[1..]) == FirstSuffixMatch(c, tests[2..]);
        if !HasSuffix(c, "__clear") {
          assert FirstSuffixMatch(c, tests[2..]) == FirstSuffixMatch(c, tests[3..]);
          if !HasSuffix(c, "__version") {
            assert FirstSuffixMatch(c, tests[3..]) == FirstSuffixMatch(c, tests[4..]);
          }
        }
      }
    }
  }

  /**
   * Classify is the bare-trigger test followed by the first-match search of
   * the suffix table: the first suffix in table order wins, and only a
   * command matching none of them is scheduled.
   */
  lemma ClassifyIsFirstMatch(command: string, helpWord: string, listWord: string)
    ensures Classify(command, helpWord, listWord) ==
      var c := Trim(command);
      if c == Slash then Interactive
      else match FirstSuffixMatch(c, SuffixTests(helpWord, listWord))
        case Some(r) => r
        case None => Schedule(Payload(c))
  {
    TrimIdempotent(command);
    FirstSuffixMatchUnrolled(Trim(command), helpWord, listWord);
  }

  /**
   * Any command other than the bare trigger that ends in the help word is
   * answered with help, whatever else it holds: it is never scheduled.
   */
  lemma HelpWordWins(command: string, helpWord: string, listWord: string)
    requires Trim(command) != Slash && HasSuffix(Trim(command), helpWord)
    ensures Classify(command, helpWord, listWord) == Help
  {
    ClassifyIsFirstMatch(command, helpWord, listWord);
    FirstSuffixMatchUnrolled(Trim(command), helpWord, listWord);
  }

  /** For example, a reminder whose text ends in "help" is answered with help. */
  lemma HelpWordEndsScheduling()
    ensures Classify("/remind me tomorrow to ask for help", "help", "list") == Help
  {
    var c := "/remind me tomorrow to ask for help";
    assert Trim(c) == c by {
      assert NoEdgeSpaces(c);
      TrimFixedPoint(c);
    }
    assert c[|c| - 4..] == "help";
  }

  /** A command with no "/remind" in it is scheduled with its text merely trimmed. */
  lemma PayloadWithoutTrigger(command: string)
    requires forall j :: !MatchAt(command, Slash, j)
    ensures Payload(command) == Trim(command)
  {
    RemoveWithoutMatch(command, Slash);
  }

  /** In "/re/remindmind" the first "/remind" starts at position 3. */
  lemma FirstTriggerInSpliced()
    ensures Index("/re/remindmind", Slash) == 3
  {
    var s := "/re/remindmind";
    assert Slash == "/remind";
    assert MatchAt(s, Slash, 3) by { assert s[3..10] == "/remind"; }
    assert !MatchAt(s, Slash, 0) by { assert s[0..7][3] != Slash[3]; }
    assert !MatchAt(s, Slash, 1) by { assert s[1..8][0] != Slash[0]; }
    assert !MatchAt(s, Slash, 2) by { assert s[2..9][0] != Slash[0]; }
  }

  /**
   * The trigger is cut out in a single left-to-right pass, so cutting can
   * join two halves into a new "/remind" that stays in the payload.
   */
  lemma RemoveSpliced()
    ensures Remove("/re/remindmind", Slash) == "/remind"
  {
    var s := "/re/remindmind";
    FirstTriggerInSpliced();
    assert |Slash| == 7;
    assert Remove(s, Slash) == s[..3] + Remove(s[10..], Slash);
    assert s[..3] == "/re";
    assert s[10..] == "mind";
    assert Remove("mind", Slash) == "mind";
    assert "/re" + "mind" == "/remind";
  }

  lemma PayloadMayStillHoldTrigger()
    ensures Payload("/re/remindmind") == "/remind"
  {
    RemoveSpliced();
    TrimFixedPoint("/remind");
  }

  /** ExecuteCommand always answers with an empty CommandResponse. */
  datatype CommandResponse = EmptyResponse

  /** The one call into the Mattermost API a command ends with. */
  datatype Effect =
    | NoEffect
    | OpenDialog(request: OpenDialogRequest)
    | Ephemeral(userId: string, post: Post)

  /** ExecuteCommand returns its response and error, or the plugin panics. */
  datatype Reply = Returned(response: CommandResponse, err: Option<Error>, effect: Effect) | Panicked

  /** The reply that sends `post` to the user and returns no error. */
  function Answer(user: User, post: Post): Reply {
    Returned(EmptyResponse, None, Ephemeral(user.id, post))
  }

  /** A plain ephemeral message from the bot into the command's channel. */
  function Notice(host: Host, channelId: string, text: string): Post {
    Post(channelId, host.botUserId, Message(text))
  }

  /**
   * How ExecuteCommand answers a scheduling outcome: a failed step becomes
   * the generic exception message sent to the user, the panic of an empty
   * occurrence list propagates, and a confirmation is sent to the user.
   * No error reaches Mattermost either way.
   */
  predicate Reported(host: Host, args: CommandArgs, user: User, outcome: Result<Post, ScheduleError>, reply: Reply) {
    match outcome
    case Failure(Failed(_)) =>
      reply == Answer(user, Notice(host, args.channelId, host.translation(user)("exception.response")))
    case Failure(IndexOutOfRange) => reply == Panicked
    case Success(post) => reply == Answer(user, post)
  }

  /**
   * When the user named in the request cannot be looked up, the command
   * answers with the exception message and nothing is stored or drawn.
   */
  lemma UnknownUserIsReported(
    host: Host, refuse: Reminder -> Option<Error>, args: CommandArgs, user: User, payload: string,
    before: Snapshot, after: Snapshot, outcome: Result<Post, ScheduleError>, reply: Reply)
    requires ScheduleSpec(host, refuse, args.channelId, args.teamId, user.username, payload, before, after, outcome)
    requires Reported(host, args, user, outcome, reply)
    requires host.getUserByUsername(user.username).Failure?
    ensures reply == Answer(user, Notice(host, args.channelId, host.translation(user)("exception.response")))
    ensures after == before
  {
  }

  /**
   * ExecuteCommand(args). Only a failed user lookup returns an error; every
   * other path returns the empty response with a nil error. A failed
   * scheduling is reported to the user with the generic exception message.
   * `request` and `scheduled` record the request handed to ScheduleReminder
   * and what it returned.
   */
  method ExecuteCommand(host: Host, ids: IdSource, store: Store, args: CommandArgs)
    returns (reply: Reply, ghost request: ReminderRequest?, ghost scheduled: Option<Result<Post, ScheduleError>>)
    requires ids.Valid()
    modifies ids, store
    ensures ids.Valid()
    ensures reply.Returned? && reply.err.Some? <==> host.getUser(args.userId).Failure?
    ensures var u := host.getUser(args.userId);
      u.Failure? ==>
        && reply == Returned(EmptyResponse, Some(u.error), NoEffect)
        && store.reminders == old(store.reminders) && ids.issued == old(ids.issued)
    ensures host.getUser(args.userId).Success? ==>
      var user := host.getUser(args.userId).value;
      var route := Classify(args.command, host.translation(user)("help"), host.translation(user)("list"));
      && (!route.Schedule? ==> request == null && scheduled == None)
      && (!route.Schedule? && route != Clear ==> store.reminders == old(store.reminders))
      && (!route.Schedule? && route != Interactive ==> ids.issued == old(ids.issued))
    ensures host.getUser(args.userId).Success? ==>
      var user := host.getUser(args.userId).value;
      var T := host.translation(user);
      Classify(args.command, T("help"), T("list")) == Interactive ==>
        && reply.Returned? && reply.err == None && reply.effect.OpenDialog?
        && var d := reply.effect.request;
        && d == ScheduleDialog(T, args.triggerId, host.pluginId, d.dialog.callbackId)
        && d.dialog.callbackId !in old(ids.issued)
        && ids.issued == old(ids.issued) + {d.dialog.callbackId}
    ensures host.getUser(args.userId).Success? ==>
      var user := host.getUser(args.userId).value;
      var T := host.translation(user);
      var route := Classify(args.command, T("help"), T("list"));
      && (route == Help ==> reply == Answer(user, Notice(host, args.channelId, T("help.response"))))
      && (route == List ==> reply == Answer(user, ReminderList(user, args.channelId)))
      && (route == Clear ==> reply == Answer(user, Post(args.channelId, host.botUserId, ClearedSummary(user))))
      && (route == Version ==> reply == Answer(user, Notice(host, args.channelId, host.version)))
      && (route == UserInfo ==>
            reply == Answer(user, Notice(host, args.channelId,
              "locale: " + host.localeOf(user) + "\nlocation: " + host.locationOf(user))))
    ensures host.getUser(args.userId).Success? ==>
      var user := host.getUser(args.userId).value;
      var T := host.translation(user);
      var route := Classify(args.command, T("help"), T("list"));
      route.Schedule? ==>
        && request != null && fresh(request)
        && request.teamId == args.teamId && request.username == user.username
        && request.payload == route.payload
        && scheduled.Some?
        && ScheduleSpec(host, store.refuse, args.channelId, args.teamId, user.username, route.payload,
             Snapshot(old(ids.issued), old(store.reminders), EmptyReminder),
             Snapshot(ids.issued, store.reminders, request.reminder), scheduled.value)
        && Reported(host, args, user, scheduled.value, reply)
  {
    request, scheduled := null, None;
    var userLookup := host.getUser(args.userId);
    if userLookup.Failure? {
      return Returned(EmptyResponse, Some(userLookup.error), NoEffect), null, None;
    }
    var user := userLookup.value;
    var T := host.translation(user);
    var locale := host.localeOf(user);
    var location := host.locationOf(user);

    var route := Classify(args.command, T("help"), T("list"));
    match route
    case Interactive =>
      var dialog := InteractiveSchedule(host, ids, args.triggerId, None, user);
      reply := Returned(EmptyResponse, None, OpenDialog(dialog));
    case Schedule(payload) =>
      reply, request, scheduled := ScheduleAndReport(host, ids, store, args, user, payload);
    case _ =>
      reply := Respond(host, args, user, route, locale, location);
  }

  /**
   * The answers that need no state: help, the reminder list, the cleared
   * summary, the version and the user's locale and location, each sent to
   * the user as an ephemeral post with a nil error.
   */
  method Respond(host: Host, args: CommandArgs, user: User, route: Route, locale: string, location: string)
    returns (reply: Reply)
    requires route != Interactive && !route.Schedule?
    ensures reply.Returned? && reply.err == None && reply.effect.Ephemeral? && reply.effect.userId == user.id
    ensures var T := host.translation(user);
      && (route == Help ==> reply == Answer(user, Notice(host, args.channelId, T("help.response"))))
      && (route == List ==> reply == Answer(user, ReminderList(user, args.channelId)))
      && (route == Clear ==> reply == Answer(user, Post(args.channelId, host.botUserId, ClearedSummary(user))))
      && (route == Version ==> reply == Answer(user, Notice(host, args.channelId, host.version)))
      && (route == UserInfo ==>
            reply == Answer(user, Notice(host, args.channelId, "locale: " + locale + "\nlocation: " + location)))
  {
    var T := host.translation(user);
    match route
    case Help =>
      reply := Answer(user, Notice(host, args.channelId, T("help.response")));
    case List =>
      reply := Answer(user, ReminderList(user, args.channelId));
    case Clear =>
      reply := Answer(user, Post(args.channelId, host.botUserId, ClearedSummary(user)));
    case Version =>
      reply := Answer(user, Notice(host, args.channelId, host.version));
    case UserInfo =>
      reply := Answer(user, Notice(host, args.channelId, "locale: " + locale + "\nlocation: " + location));
  }

  /**
   * The scheduling branch of ExecuteCommand: build the request, schedule
   * it, and report the confirmation or, on any error, the generic
   * exception message; the error itself never reaches the caller.
   */
  method ScheduleAndReport(host: Host, ids: IdSource, store: Store, args: CommandArgs, user: User, payload: string)
    returns (reply: Reply, ghost request: ReminderRequest, ghost scheduled: Option<Result<Post, ScheduleError>>)
    requires ids.Valid()
    modifies ids, store
    ensures ids.Valid()
    ensures fresh(request)
    ensures request.teamId == args.teamId && request.username == user.username && request.payload == payload
    ensures scheduled.Some?
    ensures ScheduleSpec(host, store.refuse, args.channelId, args.teamId, user.username, payload,
      Snapshot(old(ids.issued), old(store.reminders), EmptyReminder),
      Snapshot(ids.issued, store.reminders, request.reminder), scheduled.value)
    ensures reply == Panicked || reply.err == None
    ensures Reported(host, args, user, scheduled.value, reply)
  {
    var T := host.translation(user);
    var req := new ReminderRequest(args.teamId, user.username, payload);
    request := req;
    var outcome := ScheduleReminder(host, ids, store, req, args.channelId);
    scheduled := Some(outcome);
    match outcome
    case Failure(Failed(_)) =>
      reply := Returned(EmptyResponse, None,
        Ephemeral(user.id, Notice(host, args.channelId, T("exception.response"))));
    case Failure(IndexOutOfRange) =>
      reply := Panicked;
    case Success(post) =>
      reply := Returned(EmptyResponse, None, Ephemeral(user.id, post));
  }
}
