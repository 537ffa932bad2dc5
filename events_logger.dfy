/**
 * The audit-log event handlers `EventsLogger` (sync) and `AsyncEventsLogger`:
 * a redacted copy of the event is written as one log row through a database
 * session taken from the bus's shared context.
 */
module EventsLogger {
  import opened Wrappers
  import MessageBus

  /** The string that replaces a secret field in the logged copy. */
  const Mask := "*******"

  /** An event as its class name and its attribute values. */
  datatype LoggedEvent = LoggedEvent(typ: string, fields: map<string, string>)

  /** One `EventLog` row. */
  datatype LogRow = LogRow(userId: Option<string>, objectId: Option<string>, typ: string, event: LoggedEvent, info: Option<string>)

  function Get(m: map<string, string>, k: string): (r: Option<string>)
    ensures r.Some? <==> k in m
    ensures r.Some? ==> r.value == m[k]
  {
    if k in m then Some(m[k]) else None
  }

  /** The copy that gets logged: `password` and `token`, where present, are masked. */
  function Redact(e: LoggedEvent): (r: LoggedEvent)
    ensures r.typ == e.typ && r.fields.Keys == e.fields.Keys
    ensures forall k :: k in e.fields && k != "password" && k != "token" ==> r.fields[k] == e.fields[k]
    ensures "password" in e.fields ==> r.fields["password"] == Mask
    ensures "token" in e.fields ==> r.fields["token"] == Mask
  {
    var f := if "password" in e.fields then e.fields["password" := Mask] else e.fields;
    var f' := if "token" in f then f["token" := Mask] else f;
    LoggedEvent(e.typ, f')
  }

  /**
   * The row `_handle` builds from the event and the keyword arguments: the
   * `object_id` argument when it is a non-empty string, else the event's `id`
   * attribute, else none.
   */
  function MakeLogRow(e: LoggedEvent, kwargs: map<string, string>): (row: LogRow)
    ensures row.event == Redact(e) && row.typ == e.typ
    ensures row.userId == Get(kwargs, "user_id") && row.info == Get(kwargs, "meta")
    ensures "object_id" in kwargs && kwargs["object_id"] != "" ==> row.objectId == Some(kwargs["object_id"])
    ensures ("object_id" !in kwargs || kwargs["object_id"] == "") ==> row.objectId == Get(e.fields, "id")
  {
    var copy := Redact(e);
    var objectId := if "object_id" in kwargs && kwargs["object_id"] != "" then Some(kwargs["object_id"])
                    else Get(copy.fields, "id");
    LogRow(Get(kwargs, "user_id"), objectId, e.typ, copy, Get(kwargs, "meta"))
  }

  /** A database session: the rows added through it, its commits, whether it was closed. */
  class DbSession {
    const commitFails: bool   // the database refuses the commit
    var added: seq<LogRow>
    var commits: nat
    var closed: bool

    constructor (commitFails: bool)
      ensures this.commitFails == commitFails && added == [] && commits == 0 && !closed
    {
      this.commitFails := commitFails;
      added, commits, closed := [], 0, false;
    }
  }

  /** `EventsLogger`: its before-hook takes `context["db_session"]`, its after-hook closes it. */
  class SyncLogger {
    var dbSession: DbSession?

    constructor ()
      ensures dbSession == null
    {
      dbSession := null;
    }

    /** `handle` with this class's hooks; `raised` stands for an exception leaving it. */
    method Handle(event: LoggedEvent, context: map<string, DbSession>, kwargs: map<string, string>)
      returns (phases: seq<MessageBus.Phase>, raised: bool)
      modifies this, context.Values
      ensures "db_session" !in context ==> raised && phases == [MessageBus.BeforeHook] && unchanged(this, context.Values)
      ensures "db_session" in context ==>
                var s := context["db_session"];
                && phases == [MessageBus.BeforeHook, MessageBus.CoreLogic, MessageBus.AfterHook]
                && dbSession == s
                && s.added == old(s.added) + [MakeLogRow(event, kwargs)]
                && s.commits == old(s.commits) + (if s.commitFails then 0 else 1)
                && s.closed
                && raised == s.commitFails
                && (forall o :: o in context.Values && o != s ==> unchanged(o))
    {
      phases := [MessageBus.BeforeHook];
      // _before_handle: a missing key raises before the `try`
      if "db_session" !in context {
        raised := true;
        return;
      }
      dbSession := context["db_session"];
      // _handle
      phases := phases + [MessageBus.CoreLogic];
      var row := MakeLogRow(event, kwargs);
      var s := dbSession;
      s.added := s.added + [row];
      raised := s.commitFails;
      if !raised {
        s.commits := s.commits + 1;
      }
      // _after_handle, in the `finally`
      phases := phases + [MessageBus.AfterHook];
      s.closed := true;
    }
  }

  /** The session factory an `AsyncEventsLogger` finds in the context. */
  class SessionMaker {
    const commitFails: bool
    var committed: seq<LogRow>   // rows that reached the database
    var openedCount: nat
    var closedCount: nat

    constructor (commitFails: bool)
      ensures this.commitFails == commitFails && committed == [] && openedCount == 0 && closedCount == 0
    {
      this.commitFails := commitFails;
      committed, openedCount, closedCount := [], 0, 0;
    }
  }

  /** `AsyncEventsLogger`: its own `handle` runs the after-hook (which does nothing) in a `finally`. */
  class AsyncLogger {
    var dbSessionmaker: SessionMaker?

    constructor ()
      ensures dbSessionmaker == null
    {
      dbSessionmaker := null;
    }

    method Handle(event: LoggedEvent, context: map<string, SessionMaker>, kwargs: map<string, string>)
      returns (phases: seq<MessageBus.Phase>, raised: bool)
      modifies this, context.Values
      ensures "db_sessionmaker" !in context ==> raised && phases == [MessageBus.BeforeHook] && unchanged(this, context.Values)
      ensures "db_sessionmaker" in context ==>
                var f := context["db_sessionmaker"];
                && phases == [MessageBus.BeforeHook, MessageBus.CoreLogic, MessageBus.AfterHook]
                && dbSessionmaker == f
                && f.committed == old(f.committed) + (if f.commitFails then [] else [MakeLogRow(event, kwargs)])
                && f.openedCount == old(f.openedCount) + 1 && f.closedCount == old(f.closedCount) + 1
                && raised == f.commitFails
                && (forall o :: o in context.Values && o != f ==> unchanged(o))
    {
      phases := [MessageBus.BeforeHook];
      if "db_sessionmaker" !in context {
        raised := true;
        return;
      }
      dbSessionmaker := context["db_sessionmaker"];
      phases := phases + [MessageBus.CoreLogic];
      var row := MakeLogRow(event, kwargs);
      var f := dbSessionmaker;
      // `async with` opens a session and closes it on every exit path
      f.openedCount := f.openedCount + 1;
      raised := f.commitFails;
      if !raised {
        f.committed := f.committed + [row];
      }
      f.closedCount := f.closedCount + 1;
      phases := phases + [MessageBus.AfterHook];
    }
  }

  /** Logging never touches the caller's event: the logged copy differs from it only in the two secret fields. */
  lemma RedactOnlyMasksSecrets(e: LoggedEvent, k: string)
    requires k in e.fields
    ensures Redact(e).fields[k] != e.fields[k] ==> (k == "password" || k == "token") && e.fields[k] != Mask
  {
  }

  /** Redacting twice is redacting once. */
  lemma RedactIdempotent(e: LoggedEvent)
    ensures Redact(Redact(e)) == Redact(e)
  {
  }
}
