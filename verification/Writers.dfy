/**
 Many writers at once: `write_approved_record` cut at its reads, its claim, its destination call and its commit,
 with the steps of any number of transactions interleaved, each of which may end at any point.

 A statement sees what has been committed. A transaction's own rows become visible when it commits; until then an
 inserted write row blocks other inserts of its key. The in-memory destination is outside of all transactions: what
 it has recorded survives a rollback.
 */
module Writers {
  import opened Wrappers
  import opened Schema
  import opened Keys
  import opened Validation
  import opened Crm
  import opened Protocol
  import opened Runs

  /** The approval a writer has found to match the hash, and the moment it found it unexpired. */
  datatype Ticket = Ticket(hash: PayloadHash, approval: ApprovalRow, checkedAt: int)

  /** How far a writer has come. `seen` is the write row as the first query found it, if it did, and `loaded` the row
      as the transaction knows it when it claims: the session keeps a row as it was first read. */
  datatype Phase =
    | Loaded(doc: Document)
    | Unsettled(hash: PayloadHash, seen: Option<CrmWrite>)
    | Vetted(ticket: Ticket, seen: Option<CrmWrite>)
    | Matched(ticket: Ticket, e: Extraction, seen: Option<CrmWrite>)
    | Claimed(ticket: Ticket, e: Extraction, loaded: CrmWrite, inserted: bool)
    | Answered(ticket: Ticket, e: Extraction, loaded: CrmWrite, inserted: bool, reply: Reply)

  datatype Session = Session(d: DocumentId, phase: Phase) {
    function Key(): IdempotencyKey
      requires !phase.Loaded?
    {
      IdempotencyKey(d, if phase.Unsettled? then phase.hash else phase.ticket.hash)
    }

    /** The transaction holds an uncommitted write row. */
    predicate Holds(key: IdempotencyKey) {
      (phase.Claimed? || phase.Answered?) && phase.inserted && Key() == key
    }
  }

  /** The committed store, the destination, the open transactions, and a history variable: the ticket of the writer
      that created each record. */
  datatype Shared = Shared(
    s: State,
    dest: Destination,
    sessions: map<nat, Session>,
    creators: map<IdempotencyKey, Ticket>)

  datatype Move =
    | Service(call: Action)
    | Begin(writer: nat, d: DocumentId)
    | Advance(writer: nat, now: int)
    | Abort(writer: nat)

  function Ends(sh: Shared, writer: nat): Shared {
    sh.(sessions := sh.sessions - {writer})
  }

  function Goes(sh: Shared, writer: nat, phase: Phase): Shared
    requires writer in sh.sessions
  {
    sh.(sessions := sh.sessions[writer := sh.sessions[writer].(phase := phase)])
  }

  /** Only columns that differ from the loaded row are written back. */
  function Column<T(==)>(current: T, loaded: T, updated: T): T {
    if updated == loaded then current else updated
  }

  function WriteBack(current: CrmWrite, loaded: CrmWrite, updated: CrmWrite): CrmWrite {
    current.(status := Column(current.status, loaded.status, updated.status),
             externalId := Column(current.externalId, loaded.externalId, updated.externalId),
             attempts := Column(current.attempts, loaded.attempts, updated.attempts),
             lastError := Column(current.lastError, loaded.lastError, updated.lastError))
  }

  function Updated(loaded: CrmWrite, reply: Reply): CrmWrite {
    var attempted := loaded.(attempts := loaded.attempts + 1);
    match reply
    case Err(error) => attempted.(status := Failed, lastError := Some(error))
    case Ok(record) => attempted.(status := Succeeded, externalId := Some(record.externalId), lastError := None)
  }

  /** The commit of a writer that has its answer: the row, the guarded transition and the events. */
  function Settled(s: State, key: IdempotencyKey, phase: Phase): State
    requires phase.Answered?
  {
    var d, id := key.documentId, Some(phase.e.id);
    var updated := Updated(phase.loaded, phase.reply);
    var row := if key in s.writes && !phase.inserted then WriteBack(s.writes[key], phase.loaded, updated) else updated;
    var s1 := Log(s, d, id, AttemptedWrite);
    var s2 := s1.(writes := s1.writes[key := row]);
    if phase.reply.Err? then Log(s2, d, id, FailedWrite)
    else if d in s.documents && s.documents[d].status == Approved &&
            s.documents[d].approvedHash == Some(key.payloadHash) then
      Log(WithStatus(s2, d, Written), d, id, SucceededWrite)
    else s2
  }

  function FindWrite(s: State, key: IdempotencyKey): Option<CrmWrite> {
    if key in s.writes then Some(s.writes[key]) else None
  }

  predicate Blocked(sh: Shared, writer: nat, key: IdempotencyKey) {
    exists other <- sh.sessions :: other != writer && sh.sessions[other].Holds(key)
  }

  function NextStep(sh: Shared, writer: nat, now: int): Shared
    requires writer in sh.sessions
  {
    var session := sh.sessions[writer];
    var d := session.d;
    match session.phase
    case Loaded(doc) =>
      if doc.approvedHash.None? then Ends(sh, writer)
      else
        var key := IdempotencyKey(d, doc.approvedHash.value);
        var seen := FindWrite(sh.s, key);
        if seen.Some? && seen.value.status == Succeeded then Ends(sh, writer)
        else Goes(sh, writer, Unsettled(doc.approvedHash.value, seen))
    case Unsettled(hash, seen) =>
      var a := LatestApproval(sh.s.approvals, d);
      if a.None? || a.value.payloadHash != hash || a.value.expiresAt <= now then Ends(sh, writer)
      else Goes(sh, writer, Vetted(Ticket(hash, a.value, now), seen))
    case Vetted(ticket, seen) =>
      var e := LatestExtraction(sh.s.extractions, d);
      if e.None? || e.value.PayloadHash() != Some(ticket.hash) then Ends(sh, writer)
      else Goes(sh, writer, Matched(ticket, e.value, seen))
    case Matched(ticket, e, seen) =>
      var key := session.Key();
      if seen.Some? then Goes(sh, writer, Claimed(ticket, e, seen.value, false))
      else if key in sh.s.writes then Goes(sh, writer, Claimed(ticket, e, sh.s.writes[key], false))
      else if Blocked(sh, writer, key) then sh
      else Goes(sh, writer, Claimed(ticket, e, NewWrite(d, e.id), true))
    case Claimed(ticket, e, loaded, inserted) =>
      if e.draft.Err? then Ends(sh, writer)
      else
        var key := session.Key();
        var (dest, reply) := CreateRecord(sh.dest, key, e.draft.value);
        var isNew := key in dest.records && key !in sh.dest.records;
        Goes(sh, writer, Answered(ticket, e, loaded, inserted, reply)).(
          dest := dest, creators := if isNew then sh.creators[key := ticket] else sh.creators)
    case Answered(_, _, _, _, _) =>
      Ends(sh, writer).(s := Settled(sh.s, session.Key(), session.phase))
  }

  function Apply(sh: Shared, m: Move): Shared {
    match m
    case Service(call) =>
      if call.Write? then sh
      else
        var w := Runs.Apply(World(sh.s, sh.dest), call);
        sh.(s := w.s, dest := w.dest)
    case Begin(writer, d) =>
      if writer in sh.sessions || d !in sh.s.documents then sh
      else sh.(sessions := sh.sessions[writer := Session(d, Loaded(sh.s.documents[d]))])
    case Advance(writer, now) => if writer in sh.sessions then NextStep(sh, writer, now) else sh
    case Abort(writer) => Ends(sh, writer)
  }

  function Run(sh: Shared, moves: seq<Move>): Shared {
    if moves == [] then sh else Apply(Run(sh, moves[..|moves| - 1]), moves[|moves| - 1])
  }

  function Start(): Shared {
    Shared(State(map[], [], [], [], map[], []), Mock(map[], [], []), map[], map[])
  }

  // ---------- The invariant ----------

  predicate TicketHolds(s: State, d: DocumentId, t: Ticket) {
    && t.approval in s.approvals && t.approval.documentId == d && t.approval.payloadHash == t.hash
    && t.checkedAt < t.approval.expiresAt
  }

  /** An external id in a write row is the record's, whatever the row's status. */
  ghost predicate IdsTrue(s: State, dest: Destination) {
    forall k <- s.writes :: s.writes[k].externalId.Some? ==>
                              k in dest.records && s.writes[k].externalId == Some(dest.records[k].externalId)
  }

  /** A written document's approved version is at the destination. */
  ghost predicate WrittenRecorded(s: State, dest: Destination) {
    forall d <- s.documents :: s.documents[d].status == Written && s.documents[d].approvedHash.Some? ==>
                                 KeyOf(s, d) in dest.records
  }

  ghost predicate CreatorsHold(s: State, dest: Destination, creators: map<IdempotencyKey, Ticket>) {
    forall k <- dest.records :: k in creators && creators[k].hash == k.payloadHash &&
                                TicketHolds(s, k.documentId, creators[k])
  }

  predicate LoadedRowHolds(s: State, key: IdempotencyKey, loaded: CrmWrite, inserted: bool) {
    if inserted then key !in s.writes && loaded.externalId.None? && loaded.status == Pending
    else key in s.writes && (loaded.externalId.Some? ==> s.writes[key].externalId == loaded.externalId)
  }

  predicate SessionHolds(s: State, dest: Destination, session: Session) {
    var p := session.phase;
    && session.d in s.documents
    && (!p.Loaded? && !p.Unsettled? ==> TicketHolds(s, session.d, p.ticket))
    && (p.Matched? || p.Claimed? || p.Answered? ==> p.e.PayloadHash() == Some(p.ticket.hash))
    && ((p.Unsettled? || p.Vetted? || p.Matched?) && p.seen.Some? ==>
          p.seen.value.status != Succeeded && LoadedRowHolds(s, session.Key(), p.seen.value, false))
    && (p.Claimed? || p.Answered? ==> LoadedRowHolds(s, session.Key(), p.loaded, p.inserted))
    && (p.Answered? && p.reply.Ok? ==>
          session.Key() in dest.records && dest.records[session.Key()].externalId == p.reply.value.externalId)
  }

  ghost predicate SessionsHold(sh: Shared) {
    forall w <- sh.sessions :: SessionHolds(sh.s, sh.dest, sh.sessions[w])
  }

  /** At most one open transaction holds an uncommitted row for a key. */
  ghost predicate ClaimsExclusive(sh: Shared) {
    forall v, w, k :: v in sh.sessions && w in sh.sessions && sh.sessions[v].Holds(k) && sh.sessions[w].Holds(k) ==>
                        v == w
  }

  ghost predicate Inv(sh: Shared) {
    && Core(sh.s, sh.dest) && sh.dest.Mock?
    && IdsTrue(sh.s, sh.dest) && WrittenRecorded(sh.s, sh.dest) && CreatorsHold(sh.s, sh.dest, sh.creators)
    && SessionsHold(sh) && ClaimsExclusive(sh)
  }

  // ---------- Each move keeps the invariant ----------

  ghost predicate Extends(s: State, dest: Destination, s': State, dest': Destination) {
    && s.documents.Keys <= s'.documents.Keys
    && (forall a <- s.approvals :: a in s'.approvals)
    && (forall k <- dest.records :: k in dest'.records && dest'.records[k] == dest.records[k])
  }

  lemma SessionStays(s: State, dest: Destination, s': State, dest': Destination, session: Session)
    requires SessionHolds(s, dest, session) && Extends(s, dest, s', dest') && s'.writes == s.writes
    ensures SessionHolds(s', dest', session)
  {
  }

  lemma SessionsStay(sh: Shared, s': State, dest': Destination)
    requires SessionsHold(sh) && Extends(sh.s, sh.dest, s', dest') && s'.writes == sh.s.writes
    ensures SessionsHold(sh.(s := s', dest := dest'))
  {
    forall w | w in sh.sessions ensures SessionHolds(s', dest', sh.sessions[w]) {
      SessionStays(sh.s, sh.dest, s', dest', sh.sessions[w]);
    }
  }

  lemma CreatorsStay(sh: Shared, s': State)
    requires CreatorsHold(sh.s, sh.dest, sh.creators) && forall a <- sh.s.approvals :: a in s'.approvals
    ensures CreatorsHold(s', sh.dest, sh.creators)
  {
    forall k | k in sh.dest.records ensures TicketHolds(s', k.documentId, sh.creators[k]) {
      assert TicketHolds(sh.s, k.documentId, sh.creators[k]);
    }
  }

  lemma ServiceExtends(w: World, call: Action)
    requires !call.Write? && !call.Outage?
    ensures var s' := Runs.Apply(w, call).s;
            w.s.documents.Keys <= s'.documents.Keys && forall a <- w.s.approvals :: a in s'.approvals
  {
    if call.d in w.s.documents {
      match call
      case Create(_, _) =>
      case ExtractOnly(d, answer) => ExtractEffect(w.s, d, answer);
      case ExtractAndValidate(d, answer, env) =>
        ExtractEffect(w.s, d, answer);
        var (s1, e) := ExtractDocument(w.s, d, answer);
        if e.draft.Ok? { ValidateEffect(s1, d, e, env); }
      case Approve(d, extractionId, env, ttl) =>
        if ApproveExtraction(w.s, d, extractionId, env, ttl).1.Ok? {
          GrantEffect(w.s, d, extractionId, env, ttl);
        }
    }
  }

  lemma RecordedStays(s: State, s': State, dest: Destination)
    requires WrittenRecorded(s, dest) && WrittenStay(s, s')
    ensures WrittenRecorded(s', dest)
  {
    forall x | x in s'.documents && s'.documents[x].status == Written && s'.documents[x].approvedHash.Some?
      ensures KeyOf(s', x) in dest.records
    {
      assert KeyOf(s', x) == KeyOf(s, x);
    }
  }

  lemma ServiceMoveKeeps(sh: Shared, call: Action)
    requires Inv(sh) && !call.Write? && !call.Outage?
    ensures Inv(Apply(sh, Service(call)))
  {
    var w := World(sh.s, sh.dest);
    ServiceKeeps(w, call);
    ServiceExtends(w, call);
    var s' := Runs.Apply(w, call).s;
    RecordedStays(sh.s, s', sh.dest);
    CreatorsStay(sh, s');
    SessionsStay(sh, s', sh.dest);
  }

  lemma OutageMoveKeeps(sh: Shared, error: CrmError)
    requires Inv(sh)
    ensures Inv(Apply(sh, Service(Outage(error))))
  {
    hide Core;
    var dest' := sh.dest.(failures := sh.dest.failures + [error]);
    OutageKeeps(sh.s, sh.dest, dest'.failures);
    SessionsStay(sh, sh.s, dest');
  }

  /** A session that comes to hold no row for a key nobody else's row blocks. */
  lemma SessionChangeKeeps(sh: Shared, writer: nat, session: Session)
    requires Inv(sh) && SessionHolds(sh.s, sh.dest, session)
    requires forall k :: session.Holds(k) ==> !Blocked(sh, writer, k)
    ensures Inv(sh.(sessions := sh.sessions[writer := session]))
  {
    var sh' := sh.(sessions := sh.sessions[writer := session]);
    forall v, w, k | v in sh'.sessions && w in sh'.sessions && sh'.sessions[v].Holds(k) && sh'.sessions[w].Holds(k)
      ensures v == w
    {
      assert v == writer ==> !Blocked(sh, writer, k);
      assert w == writer ==> !Blocked(sh, writer, k);
    }
  }

  lemma EndKeeps(sh: Shared, writer: nat)
    requires Inv(sh)
    ensures Inv(Ends(sh, writer))
  {
    var sh' := Ends(sh, writer);
    forall w | w in sh'.sessions ensures SessionHolds(sh'.s, sh'.dest, sh'.sessions[w]) {
      assert SessionHolds(sh.s, sh.dest, sh.sessions[w]);
    }
  }

  /** The reads before the claim, and the claim itself. */
  lemma ReadHolds(sh: Shared, writer: nat, now: int)
    requires writer in sh.sessions && SessionHolds(sh.s, sh.dest, sh.sessions[writer])
    requires !sh.sessions[writer].phase.Claimed? && !sh.sessions[writer].phase.Answered?
    ensures var sh' := NextStep(sh, writer, now);
            || sh' == sh
            || sh' == Ends(sh, writer)
            || (writer in sh'.sessions && sh' == sh.(sessions := sh.sessions[writer := sh'.sessions[writer]]) &&
                SessionHolds(sh.s, sh.dest, sh'.sessions[writer]) &&
                forall k :: sh'.sessions[writer].Holds(k) ==> !Blocked(sh, writer, k))
  {
  }

  lemma ReadKeeps(sh: Shared, writer: nat, now: int)
    requires Inv(sh) && writer in sh.sessions
    requires !sh.sessions[writer].phase.Claimed? && !sh.sessions[writer].phase.Answered?
    ensures Inv(NextStep(sh, writer, now))
  {
    assert SessionHolds(sh.s, sh.dest, sh.sessions[writer]);
    ReadHolds(sh, writer, now);
    var sh' := NextStep(sh, writer, now);
    if sh' == Ends(sh, writer) {
      EndKeeps(sh, writer);
    } else if sh' != sh {
      SessionChangeKeeps(sh, writer, sh'.sessions[writer]);
    }
  }

  lemma CallMoveRecords(sh: Shared, writer: nat, now: int)
    requires Inv(sh) && writer in sh.sessions && sh.sessions[writer].phase.Claimed?
    ensures var sh' := NextStep(sh, writer, now);
            && sh'.s == sh.s && sh'.dest.Mock? && Core(sh.s, sh'.dest)
            && Extends(sh.s, sh.dest, sh.s, sh'.dest)
            && CreatorsHold(sh.s, sh'.dest, sh'.creators)
  {
    hide Core, IdsTrue, WrittenRecorded, ClaimsExclusive, CreateRecord;
    var session := sh.sessions[writer];
    var key, ticket := session.Key(), session.phase.ticket;
    assert SessionHolds(sh.s, sh.dest, session);
    assert ApprovedOnce(sh.s, key);
    CallKeeps(sh.s, sh.dest, key);
    CallFrame(sh.dest, key, ticket.hash.draft);
  }

  lemma CallMoveKeeps(sh: Shared, writer: nat, now: int)
    requires Inv(sh) && writer in sh.sessions && sh.sessions[writer].phase.Claimed?
    ensures Inv(NextStep(sh, writer, now))
  {
    hide Core, CreatorsHold, CreateRecord;
    var session, sh' := sh.sessions[writer], NextStep(sh, writer, now);
    CallMoveRecords(sh, writer, now);
    CallFrame(sh.dest, session.Key(), session.phase.ticket.hash.draft);
    var mid := sh.(dest := sh'.dest, creators := sh'.creators);
    SessionsStay(sh, sh.s, sh'.dest);
    assert SessionHolds(sh.s, sh.dest, session);
    assert Inv(mid);
    assert forall k :: session.Holds(k) ==> !Blocked(mid, writer, k);
    SessionChangeKeeps(mid, writer, sh'.sessions[writer]);
  }

  /** The row a commit leaves names the record if it names anything, and keeps an id it had. */
  lemma CommittedRow(s: State, dest: Destination, session: Session)
    requires SessionHolds(s, dest, session) && session.phase.Answered?
    requires IdsTrue(s, dest) && WritesTrue(s, dest)
    ensures var key := session.Key();
            var s' := Settled(s, key, session.phase);
            && key in s'.writes && s'.writes == s.writes[key := s'.writes[key]]
            && (s'.writes[key].externalId.Some? ==>
                  key in dest.records && s'.writes[key].externalId == Some(dest.records[key].externalId))
            && (s'.writes[key].status == Succeeded ==> s'.writes[key].externalId.Some?)
            && (key in s.writes && s.writes[key].externalId.Some? ==>
                  s'.writes[key].externalId == s.writes[key].externalId)
  {
  }

  /** A commit is a logged attempt, a row, and then either the failure's event or the guarded transition. */
  lemma SettledInSteps(s: State, key: IdempotencyKey, p: Phase)
    requires p.Answered? && key.documentId in s.documents
    ensures var d, id, s' := key.documentId, Some(p.e.id), Settled(s, key, p);
            key in s'.writes &&
            var s1 := Log(s, d, id, AttemptedWrite);
            var s2 := s1.(writes := s1.writes[key := s'.writes[key]]);
            || s' == s2
            || s' == Log(s2, d, id, FailedWrite)
            || (s.documents[d].status == Approved && s' == Log(WithStatus(s2, d, Written), d, id, SucceededWrite))
  {
  }

  lemma SettleKeepsCore(s: State, dest: Destination, session: Session)
    requires SessionHolds(s, dest, session) && session.phase.Answered?
    requires Core(s, dest) && IdsTrue(s, dest)
    ensures Core(Settled(s, session.Key(), session.phase), dest)
  {
    hide DocumentsBound, RowsFit, RecordsApproved, InvoicesDistinct, AllPaid, Consistent, WritesTrue, IdsTrue, Settled;
    var d, id := session.d, Some(session.phase.e.id);
    var key, s' := session.Key(), Settled(s, session.Key(), session.phase);
    CommittedRow(s, dest, session);
    SettledInSteps(s, key, session.phase);
    var row := s'.writes[key];
    var s1 := Log(s, d, id, AttemptedWrite);
    LogKeeps(s, dest, d, id, AttemptedWrite);
    RowKeeps(s1, dest, key, row);
    var s2 := s1.(writes := s1.writes[key := row]);
    LogKeeps(s2, dest, d, id, FailedWrite);
    if s.documents[d].status == Approved {
      MarkKeeps(s2, dest, d, id);
    }
  }

  lemma SettleKeepsRecorded(s: State, dest: Destination, session: Session)
    requires SessionHolds(s, dest, session) && session.phase.Answered? && WrittenRecorded(s, dest)
    ensures WrittenRecorded(Settled(s, session.Key(), session.phase), dest)
  {
    var s' := Settled(s, session.Key(), session.phase);
    forall x | x in s'.documents && s'.documents[x].status == Written && s'.documents[x].approvedHash.Some?
      ensures KeyOf(s', x) in dest.records
    {
      assert KeyOf(s', x) == KeyOf(s, x);
    }
  }

  lemma CommitKeepsOther(s: State, dest: Destination, session: Session, dest2: Destination, other: Session)
    requires SessionHolds(s, dest, session) && session.phase.Answered? && IdsTrue(s, dest) && WritesTrue(s, dest)
    requires SessionHolds(s, dest2, other) && forall k :: !(session.Holds(k) && other.Holds(k))
    ensures SessionHolds(Settled(s, session.Key(), session.phase), dest2, other)
  {
    CommittedRow(s, dest, session);
    if !other.phase.Loaded? && other.Key() == session.Key() {
      assert !(other.Holds(other.Key()) && session.Holds(other.Key()));
    }
  }

  lemma SettleKeepsSession(sh: Shared, writer: nat, other: nat)
    requires SessionsHold(sh) && ClaimsExclusive(sh) && IdsTrue(sh.s, sh.dest) && WritesTrue(sh.s, sh.dest)
    requires writer in sh.sessions && sh.sessions[writer].phase.Answered? && other in sh.sessions && other != writer
    ensures var session := sh.sessions[writer];
            SessionHolds(Settled(sh.s, session.Key(), session.phase), sh.dest, sh.sessions[other])
  {
    var session, o := sh.sessions[writer], sh.sessions[other];
    assert SessionHolds(sh.s, sh.dest, session) && SessionHolds(sh.s, sh.dest, o);
    CommitKeepsOther(sh.s, sh.dest, session, sh.dest, o);
  }

  lemma SettleKeepsIds(s: State, dest: Destination, session: Session)
    requires SessionHolds(s, dest, session) && session.phase.Answered? && IdsTrue(s, dest) && WritesTrue(s, dest)
    ensures IdsTrue(Settled(s, session.Key(), session.phase), dest)
  {
    CommittedRow(s, dest, session);
  }

  lemma SettleKeepsSessions(sh: Shared, writer: nat, now: int)
    requires SessionsHold(sh) && ClaimsExclusive(sh) && IdsTrue(sh.s, sh.dest) && WritesTrue(sh.s, sh.dest)
    requires writer in sh.sessions && sh.sessions[writer].phase.Answered?
    ensures SessionsHold(NextStep(sh, writer, now)) && ClaimsExclusive(NextStep(sh, writer, now))
  {
    var sh' := NextStep(sh, writer, now);
    forall other | other in sh'.sessions ensures SessionHolds(sh'.s, sh'.dest, sh'.sessions[other]) {
      SettleKeepsSession(sh, writer, other);
    }
  }

  lemma SettleKeeps(sh: Shared, writer: nat, now: int)
    requires Inv(sh) && writer in sh.sessions && sh.sessions[writer].phase.Answered?
    ensures Inv(NextStep(sh, writer, now))
  {
    hide DocumentsBound, RowsFit, RecordsApproved, InvoicesDistinct, AllPaid, Consistent, WritesTrue;
    hide IdsTrue, WrittenRecorded, CreatorsHold, ClaimsExclusive, Settled;
    var session, sh' := sh.sessions[writer], NextStep(sh, writer, now);
    assert SessionHolds(sh.s, sh.dest, session);
    SettledInSteps(sh.s, session.Key(), session.phase);
    SettleKeepsCore(sh.s, sh.dest, session);
    SettleKeepsRecorded(sh.s, sh.dest, session);
    SettleKeepsIds(sh.s, sh.dest, session);
    CreatorsStay(sh, sh'.s);
    SettleKeepsSessions(sh, writer, now);
  }

  lemma MoveKeeps(sh: Shared, m: Move)
    requires Inv(sh)
    ensures Inv(Apply(sh, m))
  {
    hide Inv, NextStep;
    match m
    case Service(call) =>
      if call.Outage? {
        OutageMoveKeeps(sh, call.error);
      } else if !call.Write? {
        ServiceMoveKeeps(sh, call);
      }
    case Begin(writer, d) =>
      if writer !in sh.sessions && d in sh.s.documents {
        SessionChangeKeeps(sh, writer, Session(d, Loaded(sh.s.documents[d])));
      }
    case Advance(writer, now) =>
      if writer in sh.sessions {
        if sh.sessions[writer].phase.Claimed? { CallMoveKeeps(sh, writer, now); }
        else if sh.sessions[writer].phase.Answered? { SettleKeeps(sh, writer, now); }
        else { ReadKeeps(sh, writer, now); }
      }
    case Abort(writer) => EndKeeps(sh, writer);
  }

  lemma StartHolds()
    ensures Inv(Start())
  {
    Runs.StartHolds(true);
  }

  lemma {:induction false} RunKeeps(moves: seq<Move>)
    ensures Inv(Run(Start(), moves))
  {
    hide Inv;
    if moves == [] {
      StartHolds();
    } else {
      RunKeeps(moves[..|moves| - 1]);
      MoveKeeps(Run(Start(), moves[..|moves| - 1]), moves[|moves| - 1]);
    }
  }

  lemma MoveAudited(sh: Shared, m: Move)
    requires Audited(sh.s)
    ensures Audited(Apply(sh, m).s)
  {
    hide Audited, CreateRecord;
    if m.Service? {
      StepAudited(World(sh.s, sh.dest), m.call);
    } else if m.Advance? && m.writer in sh.sessions && sh.sessions[m.writer].phase.Answered? {
      AuditedStays(sh.s, Apply(sh, m).s);
    }
  }

  lemma {:induction false} RunAudited(moves: seq<Move>)
    ensures Audited(Run(Start(), moves).s)
  {
    if moves != [] {
      hide Audited, Apply;
      RunAudited(moves[..|moves| - 1]);
      MoveAudited(Run(Start(), moves[..|moves| - 1]), moves[|moves| - 1]);
    }
  }

  // ---------- What holds under any interleaving ----------

  /** Whatever the interleaving, the outages, the crashes and the rollbacks: each record is under one key, holds the
      draft of that key's hash, is sound for the document's source, and was created by a writer that had found an
      approval of exactly that hash unexpired, an approval whose eleven rules are on record as passed. */
  lemma {:induction false} EveryRecordWasApproved(moves: seq<Move>, key: IdempotencyKey)
    requires key in Run(Start(), moves).dest.records
    ensures var sh := Run(Start(), moves);
            && sh.dest.records[key].payload == key.payloadHash.draft
            && key in sh.creators && sh.creators[key].hash == key.payloadHash
            && TicketHolds(sh.s, key.documentId, sh.creators[key]) && Grounded(sh.s, sh.creators[key].approval)
            && key.documentId in sh.s.documents
            && Sound(key.payloadHash.draft, sh.s.documents[key.documentId].source)
  {
    RunKeeps(moves);
    RunAudited(moves);
    var sh := Run(Start(), moves);
    assert TicketHolds(sh.s, key.documentId, sh.creators[key]);
  }

  /** A write row that says succeeded, and any row that names an external id, names the record under its key; two
      records never share an external id. */
  lemma {:induction false} WriteRowsTellTheTruth(moves: seq<Move>, key: IdempotencyKey)
    requires key in Run(Start(), moves).s.writes
    ensures var sh := Run(Start(), moves);
            var row := sh.s.writes[key];
            && (row.status == Succeeded ==> row.externalId.Some?)
            && (row.externalId.Some? ==>
                  && key in sh.dest.records && row.externalId == Some(sh.dest.records[key].externalId)
                  && forall k <- sh.dest.records :: row.externalId == Some(sh.dest.records[k].externalId) ==> k == key)
  {
    RunKeeps(moves);
  }

  /** A written document's approved version is at the destination, as approved. */
  lemma {:induction false} WrittenIsAtDestination(moves: seq<Move>, d: DocumentId)
    requires d in Run(Start(), moves).s.documents && Run(Start(), moves).s.documents[d].status == Written
    ensures var sh := Run(Start(), moves);
            var hash := sh.s.documents[d].approvedHash;
            hash.Some? && IdempotencyKey(d, hash.value) in sh.dest.records &&
            sh.dest.records[IdempotencyKey(d, hash.value)].payload == hash.value.draft
  {
    RunKeeps(moves);
    var sh := Run(Start(), moves);
    assert DocumentBound(sh.s, d);
    assert KeyOf(sh.s, d) in sh.dest.records;
  }

  // ---------- When a written document's row says succeeded ----------

  /** A commit after a failed call, over a row that the writer had not loaded as failed. */
  predicate Overwriting(session: Session) {
    var p := session.phase;
    p.Answered? && !p.inserted && p.reply.Err? && p.loaded.status != Failed
  }

  predicate Overwrites(sh: Shared, m: Move) {
    m.Advance? && m.writer in sh.sessions && Overwriting(sh.sessions[m.writer])
  }

  lemma ServiceKeepsRows(sh: Shared, call: Action)
    requires Inv(sh)
    ensures Apply(sh, Service(call)).s.writes == sh.s.writes
  {
    if !call.Write? && !call.Outage? {
      ServiceKeeps(World(sh.s, sh.dest), call);
    }
  }

  lemma CommitKeepsSuccess(s: State, dest: Destination, session: Session, key: IdempotencyKey)
    requires SessionHolds(s, dest, session) && session.phase.Answered?
    requires key in s.writes && s.writes[key].status == Succeeded
    ensures var s' := Settled(s, session.Key(), session.phase);
            key in s'.writes &&
            (s'.writes[key].status == Succeeded <==> !(Overwriting(session) && session.Key() == key))
  {
  }

  /** A succeeded row stays succeeded through every move but one: the commit of a writer whose own call failed and
      which had loaded the row as something other than failed. */
  lemma SuccessStaysUnlessOverwritten(sh: Shared, m: Move, key: IdempotencyKey)
    requires Inv(sh) && key in sh.s.writes && sh.s.writes[key].status == Succeeded
    ensures key in Apply(sh, m).s.writes
    ensures Apply(sh, m).s.writes[key].status == Succeeded <==>
            !(Overwrites(sh, m) && sh.sessions[m.writer].Key() == key)
  {
    hide Core, Settled, CreatorsHold, ClaimsExclusive;
    if m.Service? {
      ServiceKeepsRows(sh, m.call);
    } else if m.Advance? && m.writer in sh.sessions && sh.sessions[m.writer].phase.Answered? {
      assert SessionHolds(sh.s, sh.dest, sh.sessions[m.writer]);
      CommitKeepsSuccess(sh.s, sh.dest, sh.sessions[m.writer], key);
    }
  }

  /** The two commits after which a written document's row does not say succeeded: a failed writer's over the row of
      a document that is written under the key; and a successful writer's that takes an approved document to written,
      having loaded the row as succeeded and so leaving what another has since made of it. */
  predicate Unsettling(s: State, session: Session) {
    var p := session.phase;
    p.Answered? && !p.inserted && session.d in s.documents && session.Key() in s.writes &&
    var doc := s.documents[session.d];
    doc.approvedHash == Some(session.Key().payloadHash) &&
    if p.reply.Err? then p.loaded.status != Failed && doc.status == Written
    else p.loaded.status == Succeeded && s.writes[session.Key()].status != Succeeded && doc.status == Approved
  }

  predicate Unsettles(sh: Shared, m: Move) {
    m.Advance? && m.writer in sh.sessions && Unsettling(sh.s, sh.sessions[m.writer])
  }

  lemma CommitSettlesExactly(s: State, dest: Destination, session: Session)
    requires SessionHolds(s, dest, session) && session.phase.Answered? && WrittenSettled(s)
    ensures WrittenSettled(Settled(s, session.Key(), session.phase)) <==> !Unsettling(s, session)
  {
    var s' := Settled(s, session.Key(), session.phase);
    forall x | x in s'.documents && s'.documents[x].status == Written && s'.documents[x].approvedHash.Some? &&
               !Unsettling(s, session)
      ensures KeyOf(s', x) in s'.writes && s'.writes[KeyOf(s', x)].status == Succeeded
    {
      assert KeyOf(s', x) == KeyOf(s, x);
    }
    if Unsettling(s, session) {
      assert KeyOf(s', session.d) == session.Key();
    }
  }

  lemma OnlyCommitsChangeState(sh: Shared, writer: nat, now: int)
    requires writer in sh.sessions && !sh.sessions[writer].phase.Answered?
    ensures NextStep(sh, writer, now).s == sh.s
  {
    hide CreateRecord;
  }

  lemma ServiceKeepsSettled(sh: Shared, call: Action)
    requires Inv(sh) && WrittenSettled(sh.s)
    ensures WrittenSettled(Apply(sh, Service(call)).s)
  {
    hide Core;
    if !call.Write? && !call.Outage? {
      ServiceKeeps(World(sh.s, sh.dest), call);
      SettledStays(sh.s, Apply(sh, Service(call)).s);
    }
  }

  /** One move, exactly: the rows of written documents go on saying succeeded if and only if the move does not
      unsettle. */
  lemma SettledUnlessUnsettled(sh: Shared, m: Move)
    requires Inv(sh) && WrittenSettled(sh.s)
    ensures WrittenSettled(Apply(sh, m).s) <==> !Unsettles(sh, m)
  {
    hide WrittenSettled, Settled, Core;
    if m.Service? {
      ServiceKeepsSettled(sh, m.call);
    } else if m.Advance? && m.writer in sh.sessions {
      assert SessionHolds(sh.s, sh.dest, sh.sessions[m.writer]);
      if sh.sessions[m.writer].phase.Answered? {
        CommitSettlesExactly(sh.s, sh.dest, sh.sessions[m.writer]);
      } else {
        OnlyCommitsChangeState(sh, m.writer, m.now);
      }
    }
  }

  ghost predicate NothingUnsettled(sh: Shared, moves: seq<Move>) {
    moves == [] ||
    (NothingUnsettled(sh, moves[..|moves| - 1]) && !Unsettles(Run(sh, moves[..|moves| - 1]), moves[|moves| - 1]))
  }

  ghost predicate AlwaysSettled(sh: Shared, moves: seq<Move>) {
    WrittenSettled(Run(sh, moves).s) && (moves == [] || AlwaysSettled(sh, moves[..|moves| - 1]))
  }

  lemma NothingWrittenYet()
    ensures WrittenSettled(Start().s)
  {
  }

  /** Throughout a run the rows of written documents say succeeded, if and only if no move of it unsettles. */
  lemma {:induction false} SettledExactlyWhenNothingUnsettled(moves: seq<Move>)
    ensures AlwaysSettled(Start(), moves) <==> NothingUnsettled(Start(), moves)
  {
    hide Inv, WrittenSettled, Apply, Unsettles;
    NothingWrittenYet();
    if moves != [] {
      var before := moves[..|moves| - 1];
      SettledExactlyWhenNothingUnsettled(before);
      if AlwaysSettled(Start(), before) {
        RunKeeps(before);
        SettledUnlessUnsettled(Run(Start(), before), moves[|moves| - 1]);
      }
    }
  }

  /** In such a run, a written document has a row for its approved version, and the row says succeeded. */
  lemma {:induction false} WrittenIsSettled(moves: seq<Move>, d: DocumentId)
    requires NothingUnsettled(Start(), moves)
    requires d in Run(Start(), moves).s.documents && Run(Start(), moves).s.documents[d].status == Written
    ensures var s := Run(Start(), moves).s;
            && s.documents[d].approvedHash.Some? && KeyOf(s, d) in s.writes
            && s.writes[KeyOf(s, d)].status == Succeeded
  {
    SettledExactlyWhenNothingUnsettled(moves);
    RunKeeps(moves);
    assert DocumentBound(Run(Start(), moves).s, d);
  }

  // ---------- Approvals are spent ----------

  /** Approvals are spent: no document ever has more successful writes in its trail than approvals, and one fewer
      while an approval is unspent. Every prefix of a run is a run. */
  lemma {:induction false} ApprovalsAreSpent(moves: seq<Move>, d: DocumentId)
    requires d in Run(Start(), moves).s.documents
    ensures var s := Run(Start(), moves).s;
            Count(s.events, d, SucceededWrite) + (if s.documents[d].status == Approved then 1 else 0)
            <= Count(s.events, d, GrantedApproval)
  {
    RunKeeps(moves);
    assert Paid(Run(Start(), moves).s, d);
  }

  /** Two open transactions never both hold an uncommitted row for a key, and none does when a committed one
      exists: the unique constraint never fires at a commit. */
  lemma {:induction false} ClaimsNeverCollide(moves: seq<Move>, v: nat, w: nat, key: IdempotencyKey)
    requires var sh := Run(Start(), moves); v in sh.sessions && sh.sessions[v].Holds(key)
    ensures var sh := Run(Start(), moves);
            key !in sh.s.writes && (w in sh.sessions && sh.sessions[w].Holds(key) ==> v == w)
  {
    RunKeeps(moves);
    var sh := Run(Start(), moves);
    assert SessionHolds(sh.s, sh.dest, sh.sessions[v]);
  }

  lemma StepKeepsRecord(sh: Shared, writer: nat, now: int, key: IdempotencyKey)
    requires writer in sh.sessions && key in sh.dest.records
    ensures key in NextStep(sh, writer, now).dest.records
    ensures NextStep(sh, writer, now).dest.records[key] == sh.dest.records[key]
  {
    var session := sh.sessions[writer];
    if session.phase.Claimed? {
      StoredStays(sh.dest, session.Key(), session.phase.ticket.hash.draft, key);
    }
  }

  lemma MoveKeepsRecord(sh: Shared, m: Move, key: IdempotencyKey)
    requires key in sh.dest.records
    ensures key in Apply(sh, m).dest.records && Apply(sh, m).dest.records[key] == sh.dest.records[key]
  {
    if m.Advance? && m.writer in sh.sessions {
      StepKeepsRecord(sh, m.writer, m.now, key);
    }
  }

  /** Nothing that happens later changes a record. */
  lemma {:induction false} RecordsNeverChange(sh: Shared, later: seq<Move>, key: IdempotencyKey)
    requires key in sh.dest.records
    ensures key in Run(sh, later).dest.records && Run(sh, later).dest.records[key] == sh.dest.records[key]
  {
    if later != [] {
      var n := |later| - 1;
      RecordsNeverChange(sh, later[..n], key);
      MoveKeepsRecord(Run(sh, later[..n]), later[n], key);
    }
  }

  // ---------- An undisturbed writer is the whole call ----------

  function Steps(sh: Shared, writer: nat, now: int, n: nat): Shared {
    if n == 0 then sh else Apply(Steps(sh, writer, now, n - 1), Advance(writer, now))
  }

  /** Three checks, and then the claim, the call and the commit. */
  const CHECKS: nat := 3
  const EFFECTS: nat := 3

  lemma EndedStays(sh: Shared, writer: nat, now: int, n: nat)
    requires writer !in sh.sessions
    ensures Steps(sh, writer, now, n) == sh
  {
  }

  lemma {:induction false} StepsCompose(sh: Shared, writer: nat, now: int, n: nat)
    ensures Steps(sh, writer, now, n + 1) == Steps(Apply(sh, Advance(writer, now)), writer, now, n)
  {
    hide Apply;
    if n > 0 {
      StepsCompose(sh, writer, now, n - 1);
    }
  }

  lemma WriteBackUnchanged(loaded: CrmWrite, updated: CrmWrite)
    requires updated.documentId == loaded.documentId && updated.extractionId == loaded.extractionId
    ensures WriteBack(loaded, loaded, updated) == updated
  {
  }

  /** The commit of a writer whose row nobody has touched is the second half of the call. */
  lemma CommitIsSecondHalf(s: State, dest: Destination, key: IdempotencyKey, ticket: Ticket, e: Extraction)
    requires key.documentId in s.documents && e.draft.Ok?
    ensures var loaded := if key in s.writes then s.writes[key] else NewWrite(key.documentId, e.id);
            var (s', dest', _) := ClaimAndCall(s, dest, key.documentId, key, e);
            var reply := CreateRecord(dest, key, e.draft.value).1;
            && dest' == CreateRecord(dest, key, e.draft.value).0
            && s' == Settled(s, key, Answered(ticket, e, loaded, key !in s.writes, reply))
  {
    var loaded := if key in s.writes then s.writes[key] else NewWrite(key.documentId, e.id);
    WriteBackUnchanged(loaded, Updated(loaded, CreateRecord(dest, key, e.draft.value).1));
  }

  lemma ClaimStep(sh: Shared, writer: nat, now: int, session: Session, key: IdempotencyKey)
    requires writer in sh.sessions && sh.sessions[writer] == session && session.phase.Matched?
    requires session.Key() == key && !Blocked(sh, writer, key)
    requires session.phase.seen.Some? ==> session.phase.seen == FindWrite(sh.s, key)
    ensures var p := session.phase;
            var loaded := if key in sh.s.writes then sh.s.writes[key] else NewWrite(session.d, p.e.id);
            Apply(sh, Advance(writer, now)) ==
            sh.(sessions := sh.sessions[writer :=
                    Session(session.d, Claimed(p.ticket, p.e, loaded, key !in sh.s.writes))])
  {
  }

  lemma CallStep(sh: Shared, writer: nat, now: int, session: Session, key: IdempotencyKey)
    requires writer in sh.sessions && sh.sessions[writer] == session && session.phase.Claimed?
    requires session.Key() == key && session.phase.e.draft.Ok?
    ensures var p := session.phase;
            var (dest, reply) := CreateRecord(sh.dest, key, p.e.draft.value);
            var after := Apply(sh, Advance(writer, now));
            && after.s == sh.s && after.dest == dest
            && after.sessions == sh.sessions[writer := Session(session.d,
                                               Answered(p.ticket, p.e, p.loaded, p.inserted, reply))]
  {
  }

  lemma CommitStep(sh: Shared, writer: nat, now: int, session: Session, key: IdempotencyKey)
    requires writer in sh.sessions && sh.sessions[writer] == session && session.phase.Answered?
    requires session.Key() == key
    ensures Apply(sh, Advance(writer, now)) == Ends(sh, writer).(s := Settled(sh.s, key, session.phase))
  {
  }

  /** From the claim on, with nothing in between, a writer does what the second half of the call does. */
  lemma SoloFromClaim(sh: Shared, writer: nat, now: int, session: Session, key: IdempotencyKey)
    requires writer in sh.sessions && sh.sessions[writer] == session && session.phase.Matched?
    requires session.Key() == key && !Blocked(sh, writer, key)
    requires session.phase.seen == FindWrite(sh.s, key)
    requires session.d in sh.s.documents && session.phase.e.draft.Ok?
    ensures var after := Steps(sh, writer, now, EFFECTS);
            var (s', dest', _) := ClaimAndCall(sh.s, sh.dest, session.d, key, session.phase.e);
            after.s == s' && after.dest == dest' && after.sessions == sh.sessions - {writer}
  {
    hide Apply, Settled, ClaimAndCall, CreateRecord, Blocked;
    var p := session.phase;
    var sh1 := Apply(sh, Advance(writer, now));
    var sh2 := Apply(sh1, Advance(writer, now));
    StepsCompose(sh, writer, now, 2);
    StepsCompose(sh1, writer, now, 1);
    StepsCompose(sh2, writer, now, 0);
    ClaimStep(sh, writer, now, session, key);
    CallStep(sh1, writer, now, sh1.sessions[writer], key);
    CommitStep(sh2, writer, now, sh2.sessions[writer], key);
    CommitIsSecondHalf(sh.s, sh.dest, key, p.ticket, p.e);
  }

  lemma BeginStep(sh: Shared, writer: nat, d: DocumentId)
    requires writer !in sh.sessions && d in sh.s.documents
    ensures Apply(sh, Begin(writer, d)) ==
            sh.(sessions := sh.sessions[writer := Session(d, Loaded(sh.s.documents[d]))])
  {
  }

  lemma LoadedStep(sh: Shared, writer: nat, now: int, d: DocumentId)
    requires writer in sh.sessions && d in sh.s.documents
    requires sh.sessions[writer] == Session(d, Loaded(sh.s.documents[d]))
    ensures var hash := sh.s.documents[d].approvedHash;
            Apply(sh, Advance(writer, now)) ==
            if hash.Some? && !(KeyOf(sh.s, d) in sh.s.writes && sh.s.writes[KeyOf(sh.s, d)].status == Succeeded)
            then Goes(sh, writer, Unsettled(hash.value, FindWrite(sh.s, KeyOf(sh.s, d)))) else Ends(sh, writer)
  {
  }

  lemma UnsettledStep(sh: Shared, writer: nat, now: int, d: DocumentId, hash: PayloadHash,
                      seen: Option<CrmWrite>)
    requires writer in sh.sessions && sh.sessions[writer] == Session(d, Unsettled(hash, seen))
    ensures var a := LatestApproval(sh.s.approvals, d);
            Apply(sh, Advance(writer, now)) ==
            if a.Some? && a.value.payloadHash == hash && now < a.value.expiresAt
            then Goes(sh, writer, Vetted(Ticket(hash, a.value, now), seen)) else Ends(sh, writer)
  {
  }

  lemma VettedStep(sh: Shared, writer: nat, now: int, d: DocumentId, ticket: Ticket,
                   seen: Option<CrmWrite>)
    requires writer in sh.sessions && sh.sessions[writer] == Session(d, Vetted(ticket, seen))
    ensures var e := LatestExtraction(sh.s.extractions, d);
            Apply(sh, Advance(writer, now)) ==
            if e.Some? && e.value.PayloadHash() == Some(ticket.hash)
            then Goes(sh, writer, Matched(ticket, e.value, seen)) else Ends(sh, writer)
  {
  }

  /** The three checks of an undisturbed writer, together. */
  lemma SoloChecks(sh: Shared, writer: nat, d: DocumentId, now: int)
    requires writer !in sh.sessions && d in sh.s.documents
    ensures var after := Steps(Apply(sh, Begin(writer, d)), writer, now, CHECKS);
            if Cleared(sh.s, d, now) then
              var ticket := Ticket(sh.s.documents[d].approvedHash.value, LatestApproval(sh.s.approvals, d).value, now);
              var e, seen := LatestExtraction(sh.s.extractions, d).value, FindWrite(sh.s, KeyOf(sh.s, d));
              after == sh.(sessions := sh.sessions[writer := Session(d, Matched(ticket, e, seen))])
            else after == sh
  {
    hide Apply;
    BeginStep(sh, writer, d);
    var sh0 := Apply(sh, Begin(writer, d));
    var sh1 := Apply(sh0, Advance(writer, now));
    var sh2 := Apply(sh1, Advance(writer, now));
    StepsCompose(sh0, writer, now, 2);
    StepsCompose(sh1, writer, now, 1);
    StepsCompose(sh2, writer, now, 0);
    LoadedStep(sh0, writer, now, d);
    if writer in sh1.sessions {
      var seen := FindWrite(sh.s, KeyOf(sh.s, d));
      UnsettledStep(sh1, writer, now, d, sh1.sessions[writer].phase.hash, seen);
      if writer in sh2.sessions {
        VettedStep(sh2, writer, now, d, sh2.sessions[writer].phase.ticket, seen);
      } else {
        EndedStays(sh2, writer, now, 1);
      }
    } else {
      EndedStays(sh1, writer, now, 2);
    }
  }

  lemma {:induction false} StepsAdd(sh: Shared, writer: nat, now: int, m: nat, n: nat)
    ensures Steps(sh, writer, now, m + n) == Steps(Steps(sh, writer, now, m), writer, now, n)
  {
    if n > 0 {
      hide Apply;
      StepsAdd(sh, writer, now, m, n - 1);
    }
  }

  lemma SoloAfterChecks(sh: Shared, sh3: Shared, writer: nat, d: DocumentId, now: int, ticket: Ticket)
    requires writer !in sh.sessions && d in sh.s.documents && Cleared(sh.s, d, now)
    requires forall other, k :: other in sh.sessions && sh.sessions[other].Holds(k) ==> k.documentId != d
    requires ticket.hash == sh.s.documents[d].approvedHash.value
    requires var e, seen := LatestExtraction(sh.s.extractions, d).value, FindWrite(sh.s, KeyOf(sh.s, d));
             sh3 == sh.(sessions := sh.sessions[writer := Session(d, Matched(ticket, e, seen))])
    ensures var after := Steps(sh3, writer, now, EFFECTS);
            var (s', dest', _) := WriteApprovedRecord(sh.s, sh.dest, d, now);
            after.s == s' && after.dest == dest' && after.sessions == sh.sessions
  {
    WriteByCases(sh.s, sh.dest, d, now);
    var key := KeyOf(sh.s, d);
    assert !Blocked(sh3, writer, key);
    SoloFromClaim(sh3, writer, now, sh3.sessions[writer], key);
    assert sh3.sessions - {writer} == sh.sessions;
  }

  /** The cut into steps is faithful: a writer that no one disturbs reads, claims, calls and commits exactly what
      `write_approved_record` does in one go. */
  lemma SoloWriterIsAtomic(sh: Shared, writer: nat, d: DocumentId, now: int)
    requires writer !in sh.sessions && d in sh.s.documents
    requires forall other, k :: other in sh.sessions && sh.sessions[other].Holds(k) ==> k.documentId != d
    ensures var after := Steps(Apply(sh, Begin(writer, d)), writer, now, CHECKS + EFFECTS);
            var (s', dest', _) := WriteApprovedRecord(sh.s, sh.dest, d, now);
            after.s == s' && after.dest == dest' && after.sessions == sh.sessions
  {
    var sh3 := Steps(Apply(sh, Begin(writer, d)), writer, now, CHECKS);
    StepsAdd(Apply(sh, Begin(writer, d)), writer, now, CHECKS, EFFECTS);
    SoloChecks(sh, writer, d, now);
    if Cleared(sh.s, d, now) {
      SoloAfterChecks(sh, sh3, writer, d, now, sh3.sessions[writer].phase.ticket);
    } else {
      WriteByCases(sh.s, sh.dest, d, now);
      EndedStays(sh3, writer, now, EFFECTS);
    }
  }
}
