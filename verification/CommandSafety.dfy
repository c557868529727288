/** What every step of the command protocol keeps, in every interleaving. */
module CommandSafety {
  import opened Prelude
  import opened CommandModel
  import opened CommandProtocol

  type Table = map<Id, Row>
  type History = map<Id, seq<Entry>>

  // ----- committed histories

  /** A path of the transition table from PENDING. */
  ghost predicate Path(h: seq<Entry>) {
    && h != []
    && h[0].status == Pending
    && forall i :: 0 < i < |h| ==> Allowed(h[i - 1].status, h[i].status)
  }

  ghost predicate Visited(h: seq<Entry>, s: Status) {
    exists i :: 0 <= i < |h| && h[i].status == s
  }

  /** The row shows the last committed status, and a stamp for exactly the states visited. */
  ghost predicate RowOk(row: Row, h: seq<Entry>) {
    && Path(h)
    && h[|h| - 1].status == row.status
    && (row.dispatched.Some? <==> Visited(h, Dispatched))
    && (row.acknowledged.Some? <==> Visited(h, Acknowledged))
    && (row.started.Some? <==> Visited(h, Executing))
    && (row.completed.Some? <==> Terminal(row.status))
  }

  ghost predicate HasVisited(hist: History, id: Id, s: Status) {
    id in hist && Visited(hist[id], s)
  }

  ghost predicate DispatchedBy(h: seq<Entry>, pid: Pid) {
    |h| >= 2 && h[1].status == Dispatched && h[1].writer == pid
  }

  // ----- one process

  /** A row read earlier: never ahead of the table, and unchanged since if the status still agrees. */
  ghost predicate SnapOk(table: Table, id: Id, seen: Row) {
    && id in table
    && Rank(seen.status) <= Rank(table[id].status)
    && (Rank(seen.status) == Rank(table[id].status) ==> seen == table[id])
  }

  ghost predicate WriteOk(table: Table, id: Id, row: Row) {
    id in table && LegalWrite(table[id], row)
  }

  ghost predicate Owns(table: Table, robot: int, key: Option<string>, id: Id) {
    id in table && Matches(table[id], robot, key)
  }

  ghost predicate ClaimsOk(hist: History, pid: Pid, claimed: seq<Id>) {
    Distinct(claimed) && forall id :: id in claimed ==> id in hist && DispatchedBy(hist[id], pid)
  }

  /** Commands a claim has won and the robot loop has not handled yet. */
  ghost function Outstanding(p: Proc): seq<Id> {
    if !p.Claim? then []
    else if p.claim.ClaimCommitted? then p.claim.claimed + [p.claim.id]
    else p.claim.claimed
  }

  ghost predicate CreateOk(table: Table, s: CreateState) {
    match s
    case CreateStart(_, _) => true
    case CreateInsert(robot, req, id, row) => id !in table && row == NewRow(robot, req, row.created)
    case CreateLookup(robot, req) => KeyTaken(table, robot, req.key)
    case CreateAnnounce(robot, req, id) => Owns(table, robot, req.key, id)
    case CreateEnd(robot, req, found) => found.Some? && Owns(table, robot, req.key, found.value)
  }

  ghost predicate PatchOk(table: Table, hist: History, s: PatchState) {
    match s
    case PatchStart(_, _) => true
    case PatchRead(id, _, seen) => SnapOk(table, id, seen) && HasVisited(hist, id, seen.status)
    case PatchReady(id, req, seen, _) => SnapOk(table, id, seen) && Allowed(seen.status, req.status)
    case PatchWrote(id, req, row) => WriteOk(table, id, row) && row.status == req.status
    case PatchMissed(id, _) => id in table
    case PatchCommitted(id, req) => HasVisited(hist, id, req.status)
    case PatchAnnounce(id, req, seen) => HasVisited(hist, id, req.status) && HasVisited(hist, id, seen.status)
    case PatchEnd(id, req, answer) =>
      answer.Ok? ==> HasVisited(hist, id, req.status) && HasVisited(hist, id, answer.reported)
  }

  ghost predicate ClaimOk(table: Table, s: ClaimState) {
    match s
    case ClaimFound(_, claimed, id, seen) => SnapOk(table, id, seen) && id !in claimed && seen.status == Pending
    case ClaimReady(_, claimed, id, seen, _) => SnapOk(table, id, seen) && id !in claimed && seen.status == Pending
    case ClaimWrote(_, claimed, id, row) => WriteOk(table, id, row) && row.status == Dispatched && id !in claimed
    case _ => true
  }

  ghost predicate ScanOk(table: Table, hist: History, s: ScanState) {
    match s
    case ScanWrite(_, _, todo, hits, writes) =>
      && (forall id :: id in todo ==> id in table && id !in writes)
      && Distinct(todo) && writes.Keys == Elements(hits)
      && (forall id :: id in writes ==> WriteOk(table, id, writes[id]) && writes[id].status == Timeout)
    case ScanAnnounce(todo) => forall id :: id in todo ==> HasVisited(hist, id, Timeout)
    case _ => true
  }

  ghost predicate ProcOk(table: Table, hist: History, pid: Pid, p: Proc) {
    match p
    case Create(s) => CreateOk(table, s)
    case Patch(s) => PatchOk(table, hist, s)
    case Claim(s) => ClaimsOk(hist, pid, Outstanding(p)) && ClaimOk(table, s)
    case Scan(s) => ScanOk(table, hist, s)
    case Dead => true
  }

  /** Which commits a process in this state may have made: an error answer never made one. */
  ghost predicate Accounts(p: Proc, id: Id, e: Entry) {
    match p
    case Create(s) => e.via == ViaCreate && e.status == Pending && Made(s) == Some(id)
    case Patch(s) => e.via == ViaPatch && Patched(s) == Some((id, e.status))
    case Claim(s) => e.via == ViaClaim && e.status == Dispatched
    case Scan(s) => e.via == ViaScan && e.status == Timeout && (s.ScanAnnounce? || s.ScanEnd?)
    case Dead => true
  }

  ghost function Made(s: CreateState): Option<Id> {
    match s
    case CreateAnnounce(_, _, id) => Some(id)
    case CreateEnd(_, _, found) => found
    case _ => None
  }

  ghost function Patched(s: PatchState): Option<(Id, Status)> {
    match s
    case PatchCommitted(id, req) => Some((id, req.status))
    case PatchAnnounce(id, req, _) => Some((id, req.status))
    case PatchEnd(id, req, answer) => if answer.Ok? then Some((id, req.status)) else None
    case _ => None
  }

  // ----- the whole world

  ghost predicate TableOk(table: Table, hist: History) {
    && table.Keys == hist.Keys
    && (forall id :: id in table ==> RowOk(table[id], hist[id]))
  }

  ghost predicate KeysUnique(table: Table) {
    forall a, b :: a in table && b in table && table[a].key.Some? && Matches(table[b], table[a].robot, table[a].key) ==>
        a == b
  }

  ghost predicate ProcsOk(table: Table, hist: History, procs: map<Pid, Proc>) {
    forall pid :: pid in procs ==> ProcOk(table, hist, pid, procs[pid])
  }

  /** Two open transactions never hold the same row, and two creators never the same fresh id. */
  ghost predicate Apart(p: Proc, q: Proc) {
    && Writes(p).Keys !! Writes(q).Keys
    && (forall id :: Drew(p, id) ==> !Drew(q, id))
  }

  ghost predicate Disjoint(procs: map<Pid, Proc>) {
    forall p, q :: p in procs && q in procs && p != q ==> Apart(procs[p], procs[q])
  }

  ghost predicate EntryOk(procs: map<Pid, Proc>, id: Id, e: Entry) {
    e.writer in procs && Accounts(procs[e.writer], id, e)
  }

  ghost predicate EntriesOk(hist: History, procs: map<Pid, Proc>) {
    forall id, i :: id in hist && 0 <= i < |hist[id]| ==> EntryOk(procs, id, hist[id][i])
  }

  ghost predicate NoticesOk(hist: History, notices: seq<Notice>) {
    forall i :: 0 <= i < |notices| ==> HasVisited(hist, notices[i].id, notices[i].status)
  }

  /** Some claim won the command, and that claim no longer waits for it to be handled. */
  ghost predicate Handled(hist: History, procs: map<Pid, Proc>, id: Id) {
    && id in hist && |hist[id]| >= 2 && hist[id][1].status == Dispatched
    && hist[id][1].writer in procs
    && id !in Outstanding(procs[hist[id][1].writer])
  }

  ghost predicate AppliedOk(w: World) {
    && Distinct(w.applied) && w.replayed == []
    && (forall id :: id in w.applied ==> Handled(w.hist, w.procs, id))
    && (forall loop :: loop in w.processed ==> forall id :: id in w.processed[loop] ==> Handled(w.hist, w.procs, id))
  }

  ghost predicate Inv(w: World) {
    && TableOk(w.table, w.hist) && KeysUnique(w.table)
    && ProcsOk(w.table, w.hist, w.procs) && Disjoint(w.procs)
    && EntriesOk(w.hist, w.procs) && NoticesOk(w.hist, w.notices) && AppliedOk(w)
  }

  // ----- facts about paths

  /** Ranks climb along a path, so no status is ever reached twice. */
  lemma {:induction false} PathClimbs(h: seq<Entry>, i: nat, j: nat)
    requires Path(h) && i < j < |h|
    ensures Rank(h[i].status) + (j - i) <= Rank(h[j].status)
    ensures h[i].status != h[j].status && !Terminal(h[i].status)
    decreases j
  {
    assert Allowed(h[j - 1].status, h[j].status);
    if i < j - 1 { PathClimbs(h, i, j - 1); }
    assert Allowed(h[i].status, h[i + 1].status);
  }

  /** The transition table read by target: what may precede each status. */
  lemma Predecessors(from: Status, to: Status)
    ensures Allowed(from, to) <==>
            match to
            case Dispatched => from == Pending
            case Acknowledged => from == Dispatched
            case Executing => from == Acknowledged
            case Completed => from == Acknowledged || from == Executing
            case Failed => from == Dispatched || from == Acknowledged || from == Executing
            case Cancelled => from == Pending || from == Dispatched
            case Timeout => from == Pending || from == Dispatched || from == Acknowledged || from == Executing
            case _ => false
  { }

  /** A legal write keeps the row in step with its longer history. */
  lemma RowStep(a: Row, h: seq<Entry>, b: Row, e: Entry)
    requires RowOk(a, h) && LegalWrite(a, b) && e.status == b.status
    ensures RowOk(b, h + [e])
  {
    var k := h + [e];
    forall s ensures Visited(k, s) <==> Visited(h, s) || s == b.status {
      if Visited(h, s) {
        var i :| 0 <= i < |h| && h[i].status == s;
        assert k[i].status == s;
      }
      assert k[|h|].status == b.status;
    }
    assert !Terminal(a.status);
  }

  // ----- growth: what a commit or insert by one process may do to the facts of the others

  /** Histories only grow, a changed row climbs, and the rows `p` has locked stay put. */
  ghost predicate Grows(t: Table, h: History, t': Table, h': History, p: Proc) {
    && (forall id :: id in t ==> id in t' && SameIdentity(t[id], t'[id]))
    && (forall id :: id in t && id in t' && t[id] != t'[id] ==> Rank(t[id].status) < Rank(t'[id].status))
    && (forall id :: id in h ==> id in h' && h[id] <= h'[id])
    && (forall id :: id in t && id in Writes(p) ==> t[id] == t'[id])
    && (forall id :: Drew(p, id) && id !in t ==> id !in t')
  }

  lemma ProcStays(t: Table, h: History, t': Table, h': History, pid: Pid, p: Proc)
    requires ProcOk(t, h, pid, p) && Grows(t, h, t', h', p)
    ensures ProcOk(t', h', pid, p)
  { }

  // ----- the three ways the world moves

  /** Commits already credited to `pid` are still accounted for by its next state. */
  ghost predicate KeepsAccounts(hist: History, pid: Pid, next: Proc) {
    forall id, i :: id in hist && 0 <= i < |hist[id]| && hist[id][i].writer == pid ==>
      Accounts(next, id, hist[id][i])
  }

  /** `next` waits for no command that a robot loop has handled. */
  ghost predicate KeepsHandled(w: World, pid: Pid, next: Proc) {
    pid !in w.procs ||
    forall id :: id in Outstanding(next) ==>
      id in Outstanding(w.procs[pid]) || (id in w.hist && |w.hist[id]| == 1)
  }

  ghost predicate ApartFromOthers(procs: map<Pid, Proc>, pid: Pid, next: Proc) {
    forall q :: q in procs && q != pid ==> Apart(next, procs[q])
  }

  ghost predicate MoveOk(w: World, pid: Pid, next: Proc) {
    && ProcOk(w.table, w.hist, pid, next) && ApartFromOthers(w.procs, pid, next)
    && KeepsAccounts(w.hist, pid, next) && KeepsHandled(w, pid, next)
  }

  ghost predicate CommitAccounts(writes: Table, pid: Pid, via: Via, next: Proc) {
    forall id :: id in writes ==> Accounts(next, id, Entry(writes[id].status, pid, via))
  }

  ghost predicate CommitOk(w: World, pid: Pid, via: Via, next: Proc)
    requires pid in w.procs
  {
    var v := Commit(w, pid, via, next);
    && ProcOk(v.table, v.hist, pid, next) && ApartFromOthers(w.procs, pid, next)
    && KeepsAccounts(w.hist, pid, next) && KeepsHandled(w, pid, next)
    && CommitAccounts(Writes(w.procs[pid]), pid, via, next)
  }

  lemma EntriesStay(hist: History, procs: map<Pid, Proc>, pid: Pid, next: Proc)
    requires EntriesOk(hist, procs) && KeepsAccounts(hist, pid, next)
    ensures EntriesOk(hist, procs[pid := next])
  { }

  lemma AppliedStays(w: World, v: World, pid: Pid, next: Proc)
    requires AppliedOk(w) && KeepsHandled(w, pid, next) && v.procs == w.procs[pid := next]
    requires forall id :: id in w.hist ==> id in v.hist && w.hist[id] <= v.hist[id]
    requires v.applied == w.applied && v.replayed == w.replayed && v.processed == w.processed
    ensures AppliedOk(v)
  { }

  lemma GoKeeps(w: World, pid: Pid, next: Proc)
    requires Inv(w) && MoveOk(w, pid, next)
    ensures Inv(Go(w, pid, next))
  {
    EntriesStay(w.hist, w.procs, pid, next);
    AppliedStays(w, Go(w, pid, next), pid, next);
  }

  ghost predicate OpenWritesOk(t: Table, writes: Table) {
    forall id :: id in writes ==> WriteOk(t, id, writes[id])
  }

  lemma AllOpenWritesLegal(w: World, pid: Pid)
    requires ProcsOk(w.table, w.hist, w.procs) && pid in w.procs
    ensures OpenWritesOk(w.table, Writes(w.procs[pid]))
  { }

  lemma CommitGrows(w: World, pid: Pid, via: Via, next: Proc, p: Proc)
    requires pid in w.procs && OpenWritesOk(w.table, Writes(w.procs[pid]))
    requires Writes(w.procs[pid]).Keys !! Writes(p).Keys
    ensures var v := Commit(w, pid, via, next); Grows(w.table, w.hist, v.table, v.hist, p)
  {
    hide Writes, SameIdentity, LegalWrite, Rank, Drew;
    var v := Commit(w, pid, via, next);
    var writes := Writes(w.procs[pid]);
    forall id | id in w.table
      ensures SameIdentity(w.table[id], v.table[id])
      ensures v.table[id] != w.table[id] ==> Rank(w.table[id].status) < Rank(v.table[id].status)
    {
      if id in writes {
        assert WriteOk(w.table, id, writes[id]);
        WriteClimbs(w.table[id], writes[id]);
      } else { SameRow(w.table[id]); }
    }
  }

  lemma WriteClimbs(a: Row, b: Row)
    requires LegalWrite(a, b)
    ensures SameIdentity(a, b) && Rank(a.status) < Rank(b.status)
  { }

  lemma SameRow(a: Row)
    ensures SameIdentity(a, a)
  { }

  lemma CommitProcs(w: World, pid: Pid, via: Via, next: Proc)
    requires ProcsOk(w.table, w.hist, w.procs) && Disjoint(w.procs) && pid in w.procs
    requires var v := Commit(w, pid, via, next); ProcOk(v.table, v.hist, pid, next)
    ensures var v := Commit(w, pid, via, next); ProcsOk(v.table, v.hist, v.procs)
  {
    var v := Commit(w, pid, via, next);
    AllOpenWritesLegal(w, pid);
    forall q | q in w.procs && q != pid ensures ProcOk(v.table, v.hist, q, w.procs[q]) {
      assert Apart(w.procs[pid], w.procs[q]);
      CommitGrows(w, pid, via, next, w.procs[q]);
      ProcStays(w.table, w.hist, v.table, v.hist, q, w.procs[q]);
    }
  }

  lemma CommitTable(w: World, pid: Pid, via: Via, next: Proc)
    requires ProcsOk(w.table, w.hist, w.procs) && TableOk(w.table, w.hist) && KeysUnique(w.table) && pid in w.procs
    ensures var v := Commit(w, pid, via, next); TableOk(v.table, v.hist) && KeysUnique(v.table)
  {
    var v := Commit(w, pid, via, next);
    var writes := Writes(w.procs[pid]);
    AllOpenWritesLegal(w, pid);
    forall id | id in w.table ensures RowOk(v.table[id], v.hist[id]) && SameIdentity(w.table[id], v.table[id]) {
      assert RowOk(w.table[id], w.hist[id]);
      if id in writes {
        RowStep(w.table[id], w.hist[id], writes[id], Entry(writes[id].status, pid, via));
      }
    }
  }

  lemma CommitKeeps(w: World, pid: Pid, via: Via, next: Proc)
    requires Inv(w) && pid in w.procs && CommitOk(w, pid, via, next)
    ensures Inv(Commit(w, pid, via, next))
  {
    var v := Commit(w, pid, via, next);
    hide *;
    CommitTable(w, pid, via, next);
    CommitProcs(w, pid, via, next);
    CommitHistory(w, pid, via, next);
    DisjointStays(w.procs, pid, next);
    AppliedStays(w, v, pid, next);
  }

  lemma CommitHistory(w: World, pid: Pid, via: Via, next: Proc)
    requires EntriesOk(w.hist, w.procs) && NoticesOk(w.hist, w.notices) && pid in w.procs
    requires KeepsAccounts(w.hist, pid, next) && CommitAccounts(Writes(w.procs[pid]), pid, via, next)
    ensures var v := Commit(w, pid, via, next); EntriesOk(v.hist, v.procs) && NoticesOk(v.hist, v.notices)
  { }

  lemma InsertHistory(w: World, pid: Pid, id: Id, row: Row, next: Proc)
    requires EntriesOk(w.hist, w.procs) && NoticesOk(w.hist, w.notices)
    requires KeepsAccounts(w.hist, pid, next) && Accounts(next, id, Entry(Pending, pid, ViaCreate)) && id !in w.hist
    ensures var v := Insert(w, pid, id, row, next); EntriesOk(v.hist, v.procs) && NoticesOk(v.hist, v.notices)
  { }

  lemma InsertTable(w: World, pid: Pid, id: Id, row: Row, next: Proc)
    requires TableOk(w.table, w.hist) && id !in w.table
    requires row.status == Pending && row.dispatched.None? && row.acknowledged.None? && row.started.None? &&
        row.completed.None?
    ensures var v := Insert(w, pid, id, row, next); TableOk(v.table, v.hist)
  {
    assert RowOk(row, [Entry(Pending, pid, ViaCreate)]);
    hide RowOk;
  }

  lemma InsertUnique(table: Table, id: Id, row: Row)
    requires KeysUnique(table) && !KeyTaken(table, row.robot, row.key)
    ensures KeysUnique(table[id := row])
  { }

  lemma InsertProcs(w: World, pid: Pid, id: Id, row: Row, next: Proc)
    requires ProcsOk(w.table, w.hist, w.procs) && TableOk(w.table, w.hist) && id !in w.table
    requires forall q :: q in w.procs && q != pid ==> !Drew(w.procs[q], id)
    requires var v := Insert(w, pid, id, row, next); ProcOk(v.table, v.hist, pid, next)
    ensures var v := Insert(w, pid, id, row, next); ProcsOk(v.table, v.hist, v.procs)
  {
    var v := Insert(w, pid, id, row, next);
    forall q | q in w.procs && q != pid ensures ProcOk(v.table, v.hist, q, w.procs[q]) {
      InsertGrows(w, pid, id, row, next, w.procs[q]);
      ProcStays(w.table, w.hist, v.table, v.hist, q, w.procs[q]);
    }
  }

  lemma InsertGrows(w: World, pid: Pid, id: Id, row: Row, next: Proc, p: Proc)
    requires id !in w.table && id !in w.hist && !Drew(p, id)
    ensures var v := Insert(w, pid, id, row, next); Grows(w.table, w.hist, v.table, v.hist, p)
  { }

  lemma AccountsStay(w: World, pid: Pid, next: Proc)
    requires EntriesOk(w.hist, w.procs) && pid in w.procs
    requires forall id, e :: Accounts(w.procs[pid], id, e) ==> Accounts(next, id, e)
    ensures KeepsAccounts(w.hist, pid, next)
  { }

  lemma DisjointStays(procs: map<Pid, Proc>, pid: Pid, next: Proc)
    requires Disjoint(procs) && ApartFromOthers(procs, pid, next)
    ensures Disjoint(procs[pid := next])
  { }

  lemma InsertReady(w: World, pid: Pid, robot: int, req: CreateRequest, id: Id, row: Row)
    requires ProcsOk(w.table, w.hist, w.procs) && Disjoint(w.procs) && EntriesOk(w.hist, w.procs)
    requires pid in w.procs && w.procs[pid] == Create(CreateInsert(robot, req, id, row))
    ensures id !in w.table && row == NewRow(robot, req, row.created)
    ensures var next := Create(CreateAnnounce(robot, req, id));
            var v := Insert(w, pid, id, row, next);
            ProcOk(v.table, v.hist, pid, next) && ApartFromOthers(w.procs, pid, next) &&
                KeepsAccounts(w.hist, pid, next)
    ensures forall q :: q in w.procs && q != pid ==> !Drew(w.procs[q], id)
  {
    assert ProcOk(w.table, w.hist, pid, w.procs[pid]);
    AccountsStay(w, pid, Create(CreateAnnounce(robot, req, id)));
    forall q | q in w.procs && q != pid ensures !Drew(w.procs[q], id) { assert Apart(w.procs[pid], w.procs[q]); }
  }

  lemma InsertKeeps(w: World, pid: Pid, robot: int, req: CreateRequest, id: Id, row: Row)
    requires Inv(w) && pid in w.procs && w.procs[pid] == Create(CreateInsert(robot, req, id, row))
    requires !KeyTaken(w.table, robot, req.key)
    ensures Inv(Insert(w, pid, id, row, Create(CreateAnnounce(robot, req, id))))
  {
    hide ProcOk, RowOk, Apart, Handled;
    var next := Create(CreateAnnounce(robot, req, id));
    InsertReady(w, pid, robot, req, id, row);
    InsertTable(w, pid, id, row, next);
    InsertUnique(w.table, id, row);
    InsertHistory(w, pid, id, row, next);
    AppliedStays(w, Insert(w, pid, id, row, next), pid, next);
    InsertProcs(w, pid, id, row, next);
    DisjointStays(w.procs, pid, next);
  }
}
