/**
 * server/scheduler.go: scheduling one reminder request and building its
 * confirmation, the interactive scheduling dialog, and the flag that keeps
 * the background runner going.
 */
module Scheduler {
  import opened Wrappers
  import opened Text
  import opened Types
  import opened Platform

  /**
   * How ScheduleReminder can fail: a step returned an error, or indexing
   * the first occurrence of an empty list panicked.
   */
  datatype ScheduleError = Failed(error: Error) | IndexOutOfRange

  /** A ReminderRequest; ScheduleReminder fills in its Reminder in place. */
  class ReminderRequest {
    var teamId: string
    var username: string
    var payload: string
    var reminder: Reminder

    constructor (teamId: string, username: string, payload: string)
      ensures this.teamId == teamId && this.username == username && this.payload == payload
      ensures reminder == EmptyReminder
    {
      this.teamId := teamId;
      this.username := username;
      this.payload := payload;
      reminder := EmptyReminder;
    }
  }

  /**
   * The "UseTo" connector of the confirmation: a space and the translated
   * "to" when the message already opens with that word, nothing otherwise.
   */
  function Connector(toWord: string, message: string): (c: string)
    ensures c != [] <==> HasPrefix(message, toWord)
    ensures c != [] ==> c == " " + toWord && c[1..] == message[..|toWord|]
  {
    if HasPrefix(message, toWord) then " " + toWord else ""
  }

  /** The plugin-relative URL a post action posts back to. */
  function ActionUrl(pluginId: string, action: string): string {
    "/plugins/" + pluginId + "/" + action
  }

  /** Distinct actions never share a URL: the URL alone tells which action was pressed. */
  lemma ActionUrlInjective(pluginId: string, a: string, b: string)
    requires ActionUrl(pluginId, a) == ActionUrl(pluginId, b)
    ensures a == b
  {
    var n := |"/plugins/" + pluginId + "/"|;
    assert a == ActionUrl(pluginId, a)[n..];
    assert b == ActionUrl(pluginId, b)[n..];
  }

  /**
   * The delete and view buttons of a confirmation. Both carry the same
   * reminder and occurrence ids; each URL names the action its context names.
   */
  function ConfirmationButtons(
    pluginId: string, deleteName: string, viewName: string,
    reminderId: Id, occurrenceId: Id, deleteId: Id, viewId: Id): (b: seq<Button>)
    ensures |b| == 2
    ensures forall k | 0 <= k < |b| ::
      && b[k].context.reminderId == reminderId
      && b[k].context.occurrenceId == occurrenceId
      && b[k].url == ActionUrl(pluginId, b[k].context.action)
    ensures b[0].id == deleteId && b[0].name == deleteName && b[0].context.action == "delete/ephemeral"
    ensures b[1].id == viewId && b[1].name == viewName && b[1].context.action == "view/ephemeral"
  {
    [ Button(deleteId, deleteName,
             ActionContext(reminderId, occurrenceId, "delete/ephemeral"),
             "/plugins/" + pluginId + "/delete/ephemeral"),
      Button(viewId, viewName,
             ActionContext(reminderId, occurrenceId, "view/ephemeral"),
             "/plugins/" + pluginId + "/view/ephemeral") ]
  }

  /** The reminder after parsing and stamping, before its occurrences are created. */
  function Stamped(r: Reminder, parsed: Parsed, id: Id, teamId: string, username: string, completed: Instant): Reminder {
    r.(target := parsed.target, message := parsed.message, when := parsed.when,
       id := id, teamId := teamId, username := username, completed := completed)
  }

  /** What ScheduleReminder reads and changes: the ids issued so far, the stored reminders, the request's reminder. */
  datatype Snapshot = Snapshot(issued: set<Id>, reminders: map<Id, Reminder>, reminder: Reminder)

  /**
   * The outcome of ScheduleReminder for a request with the given team,
   * username and payload, from state `before` to state `after`, where the
   * store refuses a write as `refuse` says. The steps run in order and the
   * first failure ends the call: user lookup, channel lookup and parse
   * change nothing; the reminder is then stamped with a fresh id; a failed
   * occurrence creation or a refused upsert leaves the store as it was.
   * The upsert stores the target as parsed; "me" becomes "you" only in the
   * request and the confirmation. The buttons index the first occurrence,
   * which panics on an empty list after the reminder was stored.
   */
  ghost predicate ScheduleSpec(
    host: Host, refuse: Reminder -> Option<Error>, channelId: string,
    teamId: string, username: string, payload: string,
    before: Snapshot, after: Snapshot, res: Result<Post, ScheduleError>)
  {
    && before.issued <= after.issued
    && var u := host.getUserByUsername(username);
    if u.Failure? then res == Failure(Failed(u.error)) && after == before
    else
      var c := host.getChannel(channelId);
      if c.Failure? then res == Failure(Failed(c.error)) && after == before
      else
        var p := host.parse(username, payload, c.value);
        if p.Failure? then res == Failure(Failed(p.error)) && after == before
        else
          var T := host.translation(u.value);
          var rid := after.reminder.id;
          var stamped := Stamped(before.reminder, p.value, rid, teamId, username, host.emptyTime);
          && rid != 0 && rid !in before.issued && rid in after.issued
          && var created := host.createOccurrences(stamped);
          if created.Failure? then
            && res == Failure(Failed(created.error))
            && after.issued == before.issued + {rid}
            && after.reminder == stamped && after.reminders == before.reminders
          else
            var persisted := stamped.(occurrences := created.value);
            var refused := refuse(persisted);
            if refused.Some? then
              && res == Failure(Failed(refused.value))
              && after.issued == before.issued + {rid}
              && after.reminder == persisted && after.reminders == before.reminders
            else
              && after.reminders == before.reminders[rid := persisted]
              && after.reminder == persisted.(target := if p.value.target == T("me") then T("you") else p.value.target)
              && (created.value == [] ==> res == Failure(IndexOutOfRange) && after.issued == before.issued + {rid})
              && (created.value != [] ==>
                    && res.Success? && res.value.Post? && res.value.body.Attachment?
                    && |res.value.body.actions| == 2
                    && var deleteId, viewId := res.value.body.actions[0].id, res.value.body.actions[1].id;
                    && deleteId != viewId && deleteId != rid && viewId != rid
                    && deleteId !in before.issued && viewId !in before.issued
                    && after.issued == before.issued + {rid, deleteId, viewId}
                    && res.value == Post(channelId, host.botUserId, Attachment(
                         Confirmation(
                           after.reminder.target,
                           Connector(T("to"), p.value.message),
                           p.value.message,
                           host.formatWhen(username, p.value.when,
                             host.formatInstant(created.value[0].at, host.locationOf(u.value)))),
                         ConfirmationButtons(host.pluginId, T("button.delete"), T("button.view.reminders"),
                           rid, created.value[0].id, deleteId, viewId))))
  }

  /** A step that fails with an error, rather than the panic, leaves the store as it was. */
  lemma FailedStepsPersistNothing(
    host: Host, refuse: Reminder -> Option<Error>, channelId: string,
    teamId: string, username: string, payload: string,
    before: Snapshot, after: Snapshot, res: Result<Post, ScheduleError>)
    requires ScheduleSpec(host, refuse, channelId, teamId, username, payload, before, after, res)
    requires res.Failure? && res.error.Failed?
    ensures after.reminders == before.reminders
  {
  }

  /**
   * Every stored reminder's id was issued by the id source, and scheduling
   * keeps it so; the fresh id means a new reminder never replaces a stored one.
   */
  lemma NewReminderNeverReplaces(
    host: Host, refuse: Reminder -> Option<Error>, channelId: string,
    teamId: string, username: string, payload: string,
    before: Snapshot, after: Snapshot, res: Result<Post, ScheduleError>)
    requires ScheduleSpec(host, refuse, channelId, teamId, username, payload, before, after, res)
    requires before.reminders.Keys <= before.issued
    ensures after.reminders.Keys <= after.issued
    ensures after.reminders != before.reminders ==> after.reminder.id !in before.reminders
  {
  }

  /**
   * Whenever the store changed, it holds exactly one new or replaced record,
   * under the request's fresh id; a confirmation's buttons name that record
   * and its first stored occurrence.
   */
  lemma ConfirmationNamesStoredReminder(
    host: Host, refuse: Reminder -> Option<Error>, channelId: string,
    teamId: string, username: string, payload: string,
    before: Snapshot, after: Snapshot, res: Result<Post, ScheduleError>)
    requires ScheduleSpec(host, refuse, channelId, teamId, username, payload, before, after, res)
    ensures after.reminders != before.reminders ==>
      var rid := after.reminder.id;
      && rid in after.reminders && rid !in before.issued
      && after.reminders == before.reminders[rid := after.reminders[rid]]
      && after.reminders[rid].teamId == teamId && after.reminders[rid].username == username
      && after.reminders[rid].completed == host.emptyTime
    ensures res.Success? ==>
      var stored := after.reminders[after.reminder.id];
      && after.reminder.id in after.reminders
      && stored.occurrences != []
      && res.value.Post? && res.value.body.Attachment?
      && forall b | b in res.value.body.actions ::
           b.context.reminderId == stored.id && b.context.occurrenceId == stored.occurrences[0].id
  {
  }

  /**
   * ScheduleReminder(request, channelId): runs the steps of ScheduleSpec on
   * the request's reminder in place and returns the confirmation post.
   */
  method ScheduleReminder(host: Host, ids: IdSource, store: Store, request: ReminderRequest, channelId: string)
    returns (res: Result<Post, ScheduleError>)
    requires ids.Valid()
    modifies ids, store, request
    ensures ids.Valid()
    ensures request.teamId == old(request.teamId) && request.username == old(request.username)
    ensures request.payload == old(request.payload)
    ensures ScheduleSpec(host, store.refuse, channelId, request.teamId, request.username, request.payload,
      Snapshot(old(ids.issued), old(store.reminders), old(request.reminder)),
      Snapshot(ids.issued, store.reminders, request.reminder), res)
  {
    var userLookup := host.getUserByUsername(request.username);
    if userLookup.Failure? {
      return Failure(Failed(userLookup.error));
    }
    var user := userLookup.value;
    var channelLookup := host.getChannel(channelId);
    if channelLookup.Failure? {
      return Failure(Failed(channelLookup.error));
    }
    var T := host.translation(user);
    var location := host.locationOf(user);

    var parsed := host.parse(request.username, request.payload, channelLookup.value);
    if parsed.Failure? {
      return Failure(Failed(parsed.error));
    }
    request.reminder := request.reminder.(
      target := parsed.value.target, message := parsed.value.message, when := parsed.value.when);

    var useTo := Connector(T("to"), request.reminder.message);

    var id := ids.NewId();
    request.reminder := request.reminder.(id := id);
    request.reminder := request.reminder.(teamId := request.teamId);
    request.reminder := request.reminder.(username := request.username);
    request.reminder := request.reminder.(completed := host.emptyTime);

    var created := host.createOccurrences(request.reminder);
    if created.Failure? {
      return Failure(Failed(created.error));
    }
    request.reminder := request.reminder.(occurrences := created.value);

    var refused := store.Upsert(request.reminder);
    if refused.Some? {
      return Failure(Failed(refused.value));
    }

    if request.reminder.target == T("me") {
      request.reminder := request.reminder.(target := T("you"));
    }

    var t := "";
    if |request.reminder.occurrences| > 0 {
      t := host.formatInstant(request.reminder.occurrences[0].at, location);
    }
    var confirmation := Confirmation(
      request.reminder.target, useTo, request.reminder.message,
      host.formatWhen(request.username, request.reminder.when, t));

    if |request.reminder.occurrences| == 0 {
      // Occurrences[0] is read without a guard when the buttons are built
      return Failure(IndexOutOfRange);
    }
    var deleteId := ids.NewId();
    var viewId := ids.NewId();
    var buttons := ConfirmationButtons(
      host.pluginId, T("button.delete"), T("button.view.reminders"),
      request.reminder.id, request.reminder.occurrences[0].id, deleteId, viewId);
    res := Success(Post(channelId, host.botUserId, Attachment(confirmation, buttons)));
  }

  /** The relative-time shortcuts the scheduling dialog offers, in menu order. */
  const TimeShortcuts: seq<string> :=
    ["tomorrow", "nextweek", "10sec", "30min", "1hr", "2hr", "3hr", "4hr", "1day", "2day", "3day", "4day"]

  /** The translation keys of the shortcuts' labels, in menu order. */
  const SnoozeKeys: seq<string> :=
    [ "button.snooze.tomorrow", "button.snooze.nextweek", "button.snooze.10sec", "button.snooze.30min",
      "button.snooze.1hr", "button.snooze.2hr", "button.snooze.3hr", "button.snooze.4hr",
      "button.snooze.1day", "button.snooze.2day", "button.snooze.3day", "button.snooze.4day" ]

  /** Each label key is "button.snooze." followed by the value it labels. */
  lemma SnoozeKeysNameShortcuts()
    ensures |SnoozeKeys| == |TimeShortcuts|
    ensures forall k | 0 <= k < |TimeShortcuts| :: SnoozeKeys[k] == "button.snooze." + TimeShortcuts[k]
  {
  }

  /** No shortcut is offered twice, so a submitted value names one menu entry. */
  lemma TimeShortcutsDistinct()
    ensures forall i, j | 0 <= i < j < |TimeShortcuts| :: TimeShortcuts[i] != TimeShortcuts[j]
  {
  }

  /** The "time" menu: each shortcut in order, labelled with the translation of its key. */
  function TimeOptions(T: string -> string): (opts: seq<DialogOption>)
    ensures |opts| == |TimeShortcuts|
    ensures forall k | 0 <= k < |TimeShortcuts| :: opts[k].value == TimeShortcuts[k]
    ensures forall k | 0 <= k < |TimeShortcuts| :: opts[k].text == T(SnoozeKeys[k])
  {
    [ DialogOption(T("button.snooze.tomorrow"), "tomorrow"),
      DialogOption(T("button.snooze.nextweek"), "nextweek"),
      DialogOption(T("button.snooze.10sec"), "10sec"),
      DialogOption(T("button.snooze.30min"), "30min"),
      DialogOption(T("button.snooze.1hr"), "1hr"),
      DialogOption(T("button.snooze.2hr"), "2hr"),
      DialogOption(T("button.snooze.3hr"), "3hr"),
      DialogOption(T("button.snooze.4hr"), "4hr"),
      DialogOption(T("button.snooze.1day"), "1day"),
      DialogOption(T("button.snooze.2day"), "2day"),
      DialogOption(T("button.snooze.3day"), "3day"),
      DialogOption(T("button.snooze.4day"), "4day") ]
  }

  /**
   * The dialog InteractiveSchedule opens: a "time" select offering the
   * shortcuts in order, each labelled with the translation of its key,
   * and a "message" textarea.
   */
  function ScheduleDialog(T: string -> string, triggerId: string, pluginId: string, callbackId: Id): (d: OpenDialogRequest)
    ensures d.triggerId == triggerId && d.url == "/plugins/" + pluginId + "/dialog"
    ensures d.dialog.callbackId == callbackId
    ensures d.dialog.title == T("schedule.reminder") && d.dialog.submitLabel == T("button.schedule")
    ensures |d.dialog.elements| == 2
    ensures var time := d.dialog.elements[0];
      && time.name == "time" && time.kind == "select" && time.displayName == T("schedule.time")
      && |time.options| == |TimeShortcuts|
      && forall k | 0 <= k < |TimeShortcuts| ::
           time.options[k].value == TimeShortcuts[k] && time.options[k].text == T(SnoozeKeys[k])
    ensures var message := d.dialog.elements[1];
      message.name == "message" && message.kind == "textarea" && message.displayName == T("schedule.message")
      && message.options == []
  {
    OpenDialogRequest(
      triggerId,
      "/plugins/" + pluginId + "/dialog",
      Dialog(
        T("schedule.reminder"),
        callbackId,
        T("button.schedule"),
        [ DialogElement(T("schedule.time"), "time", "select", TimeOptions(T)),
          DialogElement(T("schedule.message"), "message", "textarea", []) ]))
  }

  /**
   * InteractiveSchedule(triggerId, channel, user): draws a fresh callback id
   * and returns the dialog request handed to OpenInteractiveDialog (whose
   * failure is only logged). The channel is not read.
   */
  method InteractiveSchedule(host: Host, ids: IdSource, triggerId: string, channel: Option<Channel>, user: User)
    returns (request: OpenDialogRequest)
    requires ids.Valid()
    modifies ids
    ensures ids.Valid()
    ensures request.dialog.callbackId !in old(ids.issued)
    ensures ids.issued == old(ids.issued) + {request.dialog.callbackId}
    ensures request == ScheduleDialog(host.translation(user), triggerId, host.pluginId, request.dialog.callbackId)
  {
    var T := host.translation(user);
    var callbackId := ids.NewId();
    request := ScheduleDialog(T, triggerId, host.pluginId, callbackId);
  }

  /**
   * The plugin's running flag with Run and Stop, and the check a runner
   * loop makes each time its timer fires. `launches` counts the runner
   * loops Run has started, `triggered` the TriggerReminders calls made.
   */
  class Runner {
    var running: bool
    var launches: nat
    var triggered: nat

    constructor ()
      ensures !running && launches == 0 && triggered == 0
    {
      running, launches, triggered := false, 0, 0;
    }

    method Stop()
      modifies this`running
      ensures !running
    {
      running := false;
    }

    /** Stop, then raise the flag and launch one runner; the guard always holds after Stop. */
    method Run()
      modifies this
      ensures running
      ensures launches == old(launches) + 1 && triggered == old(triggered)
    {
      Stop();
      if !running {
        running := true;
        launches := launches + 1;
      }
    }

    /**
     * One timer expiry in a runner loop: with the flag down the loop returns
     * without triggering; otherwise it triggers due reminders once and
     * relaunches itself.
     */
    method Wake() returns (continues: bool)
      modifies this`triggered
      ensures continues == running
      ensures triggered == old(triggered) + (if running then 1 else 0)
    {
      if !running {
        return false;
      }
      triggered := triggered + 1;
      continues := true;
    }
  }

  /**
   * Run called twice leaves the flag up and two runner loops launched, and a
   * wake-up of either goes on triggering; after Stop every wake-up exits.
   */
  method RunTwiceThenStop() {
    var r := new Runner();
    r.Run();
    r.Run();
    assert r.running && r.launches == 2;
    var first := r.Wake();
    var second := r.Wake();
    assert first && second && r.triggered == 2;
    r.Stop();
    var after := r.Wake();
    assert !after && r.triggered == 2 && r.launches == 2;
  }
}
