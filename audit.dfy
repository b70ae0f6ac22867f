/** The audit trail (core/audit.py): an append-only log of structured entries,
    one JSON object per line in the source. The log file is modelled as the
    sequence of entries it holds. */
module Audit {
  import opened Wrappers

  /** A clock reading: epoch seconds and its ISO-8601 UTC rendering. */
  datatype Time = Time(epoch: real, iso: string)

  datatype AuditEntry = AuditEntry(
    timestamp: real,
    isoTime: string,
    eventType: string,
    userId: string,
    details: map<string, string>)

  const ACTION_EXECUTION := "ACTION_EXECUTION"

  /** The details `log_action` records: exactly action, target, status and result. */
  function ActionDetails(action: string, target: string, status: string, result: string): (d: map<string, string>)
    ensures d.Keys == {"action", "target", "status", "result"}
    ensures d["action"] == action && d["target"] == target
    ensures d["status"] == status && d["result"] == result
  {
    map["action" := action, "target" := target, "status" := status, "result" := result]
  }

  /** The entry one `log_event` call writes. */
  function Entry(at: Time, eventType: string, userId: string, details: map<string, string>): AuditEntry {
    AuditEntry(at.epoch, at.iso, eventType, userId, details)
  }

  /** The entry one `log_action` call writes. */
  function ActionEntry(at: Time, userId: string, action: string, target: string, status: string, result: string): (e: AuditEntry)
    ensures e.eventType == ACTION_EXECUTION && e.userId == userId
    ensures e.details == ActionDetails(action, target, status, result)
    ensures e.timestamp == at.epoch && e.isoTime == at.iso
  {
    Entry(at, ACTION_EXECUTION, userId, ActionDetails(action, target, status, result))
  }

  class AuditLogger {
    /** The lines of the log file, in order. */
    var entries: seq<AuditEntry>

    /** Creates an empty log when none exists; an existing log is left untouched. */
    constructor (existing: Option<seq<AuditEntry>>)
      ensures existing.None? ==> entries == []
      ensures existing.Some? ==> entries == existing.value
    {
      match existing
      case None => entries := [];
      case Some(lines) => entries := lines;
    }

    /** Appends one entry. `writable` says whether opening the file for append
        succeeds; a failure is caught and logged, and nothing is appended. */
    method LogEvent(eventType: string, userId: string, details: map<string, string>, at: Time, writable: bool)
      modifies this
      ensures writable ==> entries == old(entries) + [Entry(at, eventType, userId, details)]
      ensures !writable ==> entries == old(entries)
      ensures entries[..|old(entries)|] == old(entries)
    {
      if writable {
        entries := entries + [Entry(at, eventType, userId, details)];
      }
    }

    method LogAction(userId: string, action: string, target: string, status: string, result: string, at: Time, writable: bool)
      modifies this
      ensures writable ==> entries == old(entries) + [ActionEntry(at, userId, action, target, status, result)]
      ensures !writable ==> entries == old(entries)
    {
      LogEvent(ACTION_EXECUTION, userId, ActionDetails(action, target, status, result), at, writable);
    }
  }
}
