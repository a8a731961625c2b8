/**
 * The records the plugin passes around: reminders and their occurrences,
 * the posts it sends, the dialog it opens and the slash-command arguments.
 * Mattermost's loosely typed property maps are given fixed record shapes.
 */
module Types {

  /** An opaque identifier as model.NewId makes them; 0 stands for Go's empty string. */
  type Id = nat

  /** An absolute instant on the platform clock. */
  type Instant = int

  /** time.Time{}: the zero instant. */
  const ZeroTime: Instant := 0

  datatype Error = Error(message: string)

  datatype User = User(id: string, username: string)

  datatype Channel = Channel(id: string)

  datatype Occurrence = Occurrence(id: Id, reminderId: Id, at: Instant)

  datatype Reminder = Reminder(
    id: Id,
    teamId: string,
    username: string,
    target: string,
    message: string,
    when: string,
    occurrences: seq<Occurrence>,
    completed: Instant)

  /** Reminder{}: every field at its zero value. */
  const EmptyReminder: Reminder := Reminder(0, "", "", "", "", "", [], ZeroTime)

  /** What ParseRequest writes into the reminder under construction. */
  datatype Parsed = Parsed(target: string, message: string, when: string)

  /** The context bag of a post action button. */
  datatype ActionContext = ActionContext(reminderId: Id, occurrenceId: Id, action: string)

  /** A post action of type button with its integration URL. */
  datatype Button = Button(id: Id, name: string, context: ActionContext, url: string)

  /** The parameters of the localized "schedule.response" text. */
  datatype Confirmation = Confirmation(target: string, useTo: string, message: string, when: string)

  datatype Body =
    | Message(text: string)
      /** The text DeleteReminders returns once it has cleared the user's reminders. */
    | ClearedSummary(user: User)
      /** One attachment: the confirmation text and its buttons. */
    | Attachment(confirmation: Confirmation, actions: seq<Button>)

  datatype Post =
    | Post(channelId: string, userId: string, body: Body)
      /** The post ListReminders builds for the user; its content is not part of this model. */
    | ReminderList(user: User, channelId: string)

  datatype DialogOption = DialogOption(text: string, value: string)

  datatype DialogElement = DialogElement(displayName: string, name: string, kind: string, options: seq<DialogOption>)

  datatype Dialog = Dialog(title: string, callbackId: Id, submitLabel: string, elements: seq<DialogElement>)

  datatype OpenDialogRequest = OpenDialogRequest(triggerId: string, url: string, dialog: Dialog)

  /** The fields of model.CommandArgs the command handler reads. */
  datatype CommandArgs = CommandArgs(userId: string, command: string, triggerId: string, teamId: string, channelId: string)
}
