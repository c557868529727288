/**
The command table: its rows, the explicit state machine over statuses, and the columns each
transition writes (backend/app/services/command_service.py, backend/app/models.py).
*/
module CommandModel {
  import opened Prelude

  type Id = string
  type Time = int
  type Json = map<string, string>

  /** `Unlisted` stands for every other text a PATCH body may carry. */
  datatype Status =
    | Pending | Dispatched | Acknowledged | Executing
    | Completed | Failed | Timeout | Cancelled
    | Unlisted(text: string)

  predicate Terminal(s: Status) {
    s.Completed? || s.Failed? || s.Timeout? || s.Cancelled?
  }

  /** The table VALID_TRANSITIONS. */
  predicate Allowed(from: Status, to: Status) {
    match from
    case Pending => to.Dispatched? || to.Cancelled? || to.Timeout?
    case Dispatched => to.Acknowledged? || to.Failed? || to.Cancelled? || to.Timeout?
    case Acknowledged => to.Executing? || to.Failed? || to.Timeout? || to.Completed?
    case Executing => to.Completed? || to.Failed? || to.Timeout?
    case _ => false
  }

  /** Progress through the state machine; every allowed transition climbs. */
  function Rank(s: Status): nat {
    match s
    case Pending => 0
    case Dispatched => 1
    case Acknowledged => 2
    case Executing => 3
    case Unlisted(_) => 0
    case _ => 4
  }

  datatype Row = Row(
    robot: int, kind: string, key: Option<string>,
    timeout: Option<int>, expires: Option<Time>, created: Time,
    status: Status,
    dispatched: Option<Time>, acknowledged: Option<Time>, started: Option<Time>, completed: Option<Time>,
    errorCode: Option<string>, result: Option<Json>)

  datatype CreateRequest = CreateRequest(kind: string, timeout: Option<int>, key: Option<string>)
  datatype UpdateRequest = UpdateRequest(status: Status, errorCode: Option<string>, result: Option<Json>)

  /** The row `create_command` builds. A timeout of zero counts as none. */
  function NewRow(robot: int, req: CreateRequest, now: Time): Row {
    var expires := if req.timeout.Some? && req.timeout.value != 0 then Some(now + req.timeout.value) else None;
    Row(robot, req.kind, req.key, req.timeout, expires, now, Pending, None, None, None, None, None, None)
  }

  /** The row after `UPDATE ... SET` with the columns `_transition_values` chooses. */
  function Transition(row: Row, req: UpdateRequest, now: Time): Row {
    var r := row.(status := req.status);
    match req.status
    case Dispatched => r.(dispatched := Some(now))
    case Acknowledged => r.(acknowledged := Some(now))
    case Executing => r.(started := Some(now))
    case Completed => r.(completed := Some(now), result := req.result)
    case _ =>
      if !Terminal(req.status) then r
      else
        var e := r.(completed := Some(now), errorCode := req.errorCode);
        if req.result.Some? && req.result.value != map[] then e.(result := req.result) else e
  }

  /** `try_dispatch` writes two columns only. */
  function DispatchRow(row: Row, now: Time): Row {
    row.(status := Dispatched, dispatched := Some(now))
  }

  /** The scanner stamps the start of its own transaction (`func.now()`). */
  function TimeoutRow(row: Row, begun: Time): Row {
    row.(status := Timeout, completed := Some(begun), errorCode := Some("TIMEOUT"))
  }

  /** The unique constraint on (robot_id, idempotency_key); SQL nulls never collide. */
  predicate KeyTaken(table: map<Id, Row>, robot: int, key: Option<string>) {
    key.Some? && exists id :: id in table && table[id].robot == robot && table[id].key == key
  }

  function PendingFor(table: map<Id, Row>, robot: int): set<Id> {
    set id | id in table && table[id].robot == robot && table[id].status == Pending
  }

  /** A possible answer of `get_next_pending`: ties on created_at are the database's choice. */
  predicate Oldest(table: map<Id, Row>, robot: int, id: Id) {
    id in PendingFor(table, robot) &&
    forall other :: other in PendingFor(table, robot) ==> table[id].created <= table[other].created
  }

  function Expired(table: map<Id, Row>, now: Time): set<Id> {
    set id | id in table && table[id].expires.Some? && table[id].expires.value < now && !Terminal(table[id].status)
  }

  // ----- what any committed change to a row looks like

  ghost predicate SameIdentity(a: Row, b: Row) {
    a.robot == b.robot && a.kind == b.kind && a.key == b.key &&
    a.timeout == b.timeout && a.expires == b.expires && a.created == b.created
  }

  /** One legal transition: identity columns stay, and exactly the stamp of the new state is set. */
  ghost predicate LegalWrite(a: Row, b: Row) {
    && SameIdentity(a, b)
    && Allowed(a.status, b.status)
    && (if b.status == Dispatched then b.dispatched.Some? else b.dispatched == a.dispatched)
    && (if b.status == Acknowledged then b.acknowledged.Some? else b.acknowledged == a.acknowledged)
    && (if b.status == Executing then b.started.Some? else b.started == a.started)
    && (if Terminal(b.status) then b.completed.Some? else b.completed == a.completed)
  }
}
