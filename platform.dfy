/**
 * What the plugin gets from outside its core: the Mattermost API, the
 * translation catalog, the time-zone and formatting library, the parser,
 * the occurrence generator (all as deterministic, possibly failing
 * functions), a source of fresh ids and the reminder store.
 */
module Platform {
  import opened Wrappers
  import opened Types

  datatype Host = Host(
    /** Plugin.botUserId */
    botUserId: string,
    /** manifest.Id */
    pluginId: string,
    /** manifest.Version */
    version: string,
    /** Plugin.emptyTime, the "not completed" sentinel set on activation */
    emptyTime: Instant,
    /** API.GetUser */
    getUser: string -> Result<User, Error>,
    /** API.GetUserByUsername */
    getUserByUsername: string -> Result<User, Error>,
    /** API.GetChannel */
    getChannel: string -> Result<Channel, Error>,
    /** the translation function T of Plugin.translation(user) */
    translation: User -> (string -> string),
    /** the locale of Plugin.translation(user) */
    localeOf: User -> string,
    /** Plugin.location(user).String() */
    locationOf: User -> string,
    /** ParseRequest on (username, payload) in a channel */
    parse: (string, string, Channel) -> Result<Parsed, Error>,
    /** CreateOccurrences: the occurrences the stamped reminder ends up with */
    createOccurrences: Reminder -> Result<seq<Occurrence>, Error>,
    /** instant.In(location).Format(time.RFC3339) */
    formatInstant: (Instant, string) -> string,
    /** formatWhen(username, when, formatted time, false) */
    formatWhen: (string, string, string) -> string)

  /** model.NewId: every id it hands out is new and none is the empty id 0. */
  class IdSource {
    var next: nat
    ghost var issued: set<Id>

    ghost predicate Valid()
      reads this
    {
      0 < next && forall i :: i in issued ==> 0 < i < next
    }

    constructor ()
      ensures Valid() && issued == {}
    {
      next := 1;
      issued := {};
    }

    method NewId() returns (id: Id)
      requires Valid()
      modifies this
      ensures Valid()
      ensures id != 0 && id !in old(issued)
      ensures issued == old(issued) + {id}
    {
      id := next;
      next := next + 1;
      issued := issued + {id};
    }
  }

  /**
   * UpsertReminder's store: reminders keyed by id. A write either replaces
   * the record whole or, when the backing store refuses it, leaves every
   * record as it was.
   */
  class Store {
    var reminders: map<Id, Reminder>
    /** The persistence failure, if any, a write of a given reminder meets. */
    const refuse: Reminder -> Option<Error>

    constructor (refuse: Reminder -> Option<Error>)
      ensures reminders == map[] && this.refuse == refuse
    {
      reminders := map[];
      this.refuse := refuse;
    }

    method Upsert(r: Reminder) returns (err: Option<Error>)
      modifies this
      ensures err == refuse(r)
      ensures reminders == if err.None? then old(reminders)[r.id := r] else old(reminders)
    {
      err := refuse(r);
      if err.None? {
        reminders := reminders[r.id := r];
      }
    }
  }
}
