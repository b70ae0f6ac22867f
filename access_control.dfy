/** The human-approval store (core/access_control.py): a table of requests,
    each PENDING until one approval or rejection moves it to a terminal status. */
module AccessControl {
  import opened Wrappers
  import opened Types
  import opened Identity

  datatype Status = PENDING | APPROVED | REJECTED

  datatype ApprovalRequest = ApprovalRequest(
    requestId: string,
    command: UserCommand,
    identity: UserIdentity,
    plan: seq<Step>,
    status: Status)

  type Table = map<string, ApprovalRequest>

  /** The table after a new PENDING request is stored under `id`. An existing
      entry under the same id is overwritten, as the dictionary assignment does. */
  function Created(table: Table, id: string, command: UserCommand, identity: UserIdentity, plan: seq<Step>): (t: Table)
    ensures t.Keys == table.Keys + {id}
    ensures t[id].status == PENDING && t[id].requestId == id
    ensures t[id].command == command && t[id].identity == identity && t[id].plan == plan
    ensures forall k :: k in table && k != id ==> t[k] == table[k]
  {
    table[id := ApprovalRequest(id, command, identity, plan, PENDING)]
  }

  /** `approve_request` / `reject_request` on the table: succeeds exactly when
      `id` is present and PENDING, and then changes only that request's status. */
  function Resolve(table: Table, id: string, outcome: Status): (r: (bool, Table))
    requires outcome != PENDING
    ensures r.0 <==> id in table && table[id].status == PENDING
    ensures r.1.Keys == table.Keys
    ensures forall k :: k in table && k != id ==> r.1[k] == table[k]
    ensures r.0 ==> r.1[id] == table[id].(status := outcome)
    ensures !r.0 ==> r.1 == table
  {
    if id in table && table[id].status == PENDING then
      (true, table[id := table[id].(status := outcome)])
    else
      (false, table)
  }

  /** APPROVED and REJECTED are terminal: once resolved, a request can be
      resolved neither way again and its status stays as it is. */
  lemma ResolvedIsTerminal(table: Table, id: string, first: Status, second: Status)
    requires first != PENDING && second != PENDING
    requires Resolve(table, id, first).0
    ensures var t := Resolve(table, id, first).1;
            Resolve(t, id, second) == (false, t) && t[id].status == first
  {
  }

  /** An approval and a rejection of the same pending request, in either
      order: exactly one of them succeeds. */
  lemma ExactlyOneWins(table: Table, id: string, first: Status, second: Status)
    requires first != PENDING && second != PENDING
    requires id in table && table[id].status == PENDING
    ensures var r1 := Resolve(table, id, first);
            var r2 := Resolve(r1.1, id, second);
            r1.0 && !r2.0 && r2.1[id].status == first
  {
  }

  /** An unknown id cannot be resolved and leaves the table as it was. */
  lemma UnknownIdUnresolvable(table: Table, id: string, outcome: Status)
    requires outcome != PENDING && id !in table
    ensures Resolve(table, id, outcome) == (false, table)
  {
  }

  /** A creation followed by an approval of the returned id: the request is
      APPROVED and still holds the command, identity and plan it was created with. */
  lemma CreateThenApprove(table: Table, id: string, command: UserCommand, identity: UserIdentity, plan: seq<Step>)
    ensures var r := Resolve(Created(table, id, command, identity, plan), id, APPROVED);
            r.0 && r.1[id] == ApprovalRequest(id, command, identity, plan, APPROVED)
  {
  }

  class ApprovalService {
    var requests: Table

    constructor ()
      ensures requests == map[]
    {
      requests := map[];
    }

    /** Stores a PENDING request under the fresh id supplied for it and returns that id. */
    method CreateRequest(command: UserCommand, identity: UserIdentity, plan: seq<Step>, freshId: string)
      returns (id: string)
      modifies this
      ensures id == freshId
      ensures requests == Created(old(requests), id, command, identity, plan)
    {
      id := freshId;
      var request := ApprovalRequest(id, command, identity, plan, PENDING);
      requests := requests[id := request];
    }

    /** `get_request`: the stored request, or None for an unknown id. */
    function GetRequest(id: string): (r: Option<ApprovalRequest>)
      reads this
      ensures r.Some? <==> id in requests
      ensures r.Some? ==> r.value == requests[id]
    {
      if id in requests then Some(requests[id]) else None
    }

    method ApproveRequest(id: string) returns (ok: bool)
      modifies this
      ensures (ok, requests) == Resolve(old(requests), id, APPROVED)
      ensures old(requests).Keys <= requests.Keys
    {
      ok := false;
      if id in requests {
        var req := requests[id];
        if req.status == PENDING {
          requests := requests[id := req.(status := APPROVED)];
          ok := true;
        }
      }
    }

    method RejectRequest(id: string) returns (ok: bool)
      modifies this
      ensures (ok, requests) == Resolve(old(requests), id, REJECTED)
      ensures old(requests).Keys <= requests.Keys
    {
      ok := false;
      if id in requests {
        var req := requests[id];
        if req.status == PENDING {
          requests := requests[id := req.(status := REJECTED)];
          ok := true;
        }
      }
    }
  }
}
