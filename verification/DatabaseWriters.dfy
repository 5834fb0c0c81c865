/**
 Many writers at once with `DatabaseCrm`, the destination in production: the record is inserted in the writer's own
 transaction, so that it is seen, and kept, only when the transaction commits. Until then it blocks inserts that would
 violate one of the two unique constraints of its table. Everything else is as in `Writers`.
 */
module DatabaseWriters {
  import opened Wrappers
  import opened Schema
  import opened Keys
  import opened Validation
  import opened Crm
  import opened Protocol
  import opened Runs
  import W = Writers

  /** An uncommitted record. */
  datatype Insert = Insert(key: IdempotencyKey, row: Stored)

  /** `sh.dest` is what has been committed. */
  datatype Shared = Shared(sh: W.Shared, staged: map<nat, Insert>)

  function With(dest: Destination, insert: Insert): Destination {
    dest.(records := dest.records[insert.key := insert.row])
  }

  /** The destination as a transaction sees it. */
  function Seen(o: Shared, writer: nat): Destination {
    if writer in o.staged then With(o.sh.dest, o.staged[writer]) else o.sh.dest
  }

  /** Another transaction has inserted a record with this key or this column. */
  predicate Held(o: Shared, writer: nat, key: IdempotencyKey, column: Option<string>) {
    exists other <- o.staged ::
      other != writer && (o.staged[other].key == key || o.staged[other].row.businessKey == column)
  }

  function Column(draft: Draft): Option<string> {
    Some(Joined(RuleKey(draft)))
  }

  function Ends(o: Shared, writer: nat): Shared {
    Shared(W.Ends(o.sh, writer), o.staged - {writer})
  }

  function Call(o: Shared, writer: nat): Shared
    requires writer in o.sh.sessions && o.sh.sessions[writer].phase.Claimed?
  {
    var session := o.sh.sessions[writer];
    var p, key := session.phase, session.Key();
    if p.e.draft.Err? then Ends(o, writer)
    else if Held(o, writer, key, Column(p.e.draft.value)) then o
    else
      var (after, reply) := CreateRecord(o.sh.dest, key, p.e.draft.value);
      var isNew := key in after.records && key !in o.sh.dest.records;
      Shared(W.Goes(o.sh, writer, W.Answered(p.ticket, p.e, p.loaded, p.inserted, reply)),
             if isNew then o.staged[writer := Insert(key, after.records[key])] else o.staged)
  }

  /** The record and the rows become visible together. */
  function Commit(o: Shared, writer: nat): Shared
    requires writer in o.sh.sessions && o.sh.sessions[writer].phase.Answered?
  {
    var session := o.sh.sessions[writer];
    Shared(W.Ends(o.sh, writer).(s := W.Settled(o.sh.s, session.Key(), session.phase), dest := Seen(o, writer)),
           o.staged - {writer})
  }

  function Apply(o: Shared, m: W.Move): Shared {
    match m
    case Service(_) => o.(sh := W.Apply(o.sh, m))
    case Begin(_, _) => o.(sh := W.Apply(o.sh, m))
    case Abort(writer) => Ends(o, writer)
    case Advance(writer, now) =>
      if writer !in o.sh.sessions then o
      else if o.sh.sessions[writer].phase.Claimed? then Call(o, writer)
      else if o.sh.sessions[writer].phase.Answered? then Commit(o, writer)
      else o.(sh := W.NextStep(o.sh, writer, now))
  }

  function Run(o: Shared, moves: seq<W.Move>): Shared {
    if moves == [] then o else Apply(Run(o, moves[..|moves| - 1]), moves[|moves| - 1])
  }

  function Start(): Shared {
    Shared(W.Shared(State(map[], [], [], [], map[], []), Database(map[]), map[], map[]), map[])
  }

  // ---------- The invariant ----------

  /** A record's row says succeeded. */
  ghost predicate RecordsSettled(s: State, dest: Destination) {
    forall k <- dest.records :: k in s.writes && s.writes[k].status == Succeeded
  }

  /** The key has no record and will not get one: its invoice is recorded under another key. */
  predicate Refused(dest: Destination, key: IdempotencyKey) {
    key !in dest.records && Taken(dest.records, Joined(RuleKey(key.payloadHash.draft)))
  }

  /** An uncommitted record is what an insert would still make of its key. */
  predicate StagedFits(dest: Destination, insert: Insert) {
    var draft := insert.key.payloadHash.draft;
    && insert.key !in dest.records && BusinessKeyOf(draft).Some? && !Taken(dest.records, Joined(RuleKey(draft)))
    && insert.row == Stored(Digest(insert.key), draft, Column(draft))
  }

  predicate SessionFits(s: State, dest: Destination, seen: Destination, session: W.Session) {
    var p := session.phase;
    && W.SessionHolds(s, seen, session)
    && (p.Answered? && p.reply.Err? ==> Refused(dest, session.Key()))
    && ((p.Claimed? || p.Answered?) && p.loaded.status == Succeeded ==> session.Key() in dest.records)
  }

  ghost predicate SessionsFit(o: Shared) {
    forall w <- o.sh.sessions :: SessionFits(o.sh.s, o.sh.dest, Seen(o, w), o.sh.sessions[w])
  }

  predicate OwnsStaged(o: Shared, w: nat)
    requires w in o.staged
  {
    && w in o.sh.sessions && o.sh.sessions[w].phase.Answered? && o.sh.sessions[w].phase.reply.Ok?
    && o.staged[w].key == o.sh.sessions[w].Key() && StagedFits(o.sh.dest, o.staged[w])
  }

  /** Uncommitted records belong to their writers and are of different keys and different invoices. */
  ghost predicate StagedApart(o: Shared) {
    && (forall w <- o.staged :: OwnsStaged(o, w))
    && (forall v, w :: v in o.staged && w in o.staged && v != w ==>
          o.staged[v].key != o.staged[w].key && o.staged[v].row.businessKey != o.staged[w].row.businessKey)
  }

  ghost predicate Inv(o: Shared) {
    && Core(o.sh.s, o.sh.dest) && o.sh.dest.Database? && W.IdsTrue(o.sh.s, o.sh.dest)
    && RecordsSettled(o.sh.s, o.sh.dest) && WrittenSettled(o.sh.s)
    && W.ClaimsExclusive(o.sh) && SessionsFit(o) && StagedApart(o)
  }

  // ---------- Service calls ----------

  lemma ServiceKeepsDatabase(o: Shared, call: Action)
    requires Inv(o)
    ensures Inv(Apply(o, W.Service(call)))
  {
    hide Core, StagedFits, Refused;
    if !call.Write? && !call.Outage? {
      var w := World(o.sh.s, o.sh.dest);
      ServiceKeeps(w, call);
      W.ServiceExtends(w, call);
      var o' := Apply(o, W.Service(call));
      SettledStays(o.sh.s, o'.sh.s);
      forall x | x in o'.sh.sessions ensures SessionFits(o'.sh.s, o'.sh.dest, Seen(o', x), o'.sh.sessions[x]) {
        assert SessionFits(o.sh.s, o.sh.dest, Seen(o, x), o.sh.sessions[x]);
        W.SessionStays(o.sh.s, Seen(o, x), o'.sh.s, Seen(o', x), o.sh.sessions[x]);
      }
      forall x | x in o'.staged ensures OwnsStaged(o', x) {
        assert OwnsStaged(o, x);
      }
    }
  }

  // ---------- Steps before the call ----------

  /** A session that has inserted no record is replaced by another such. */
  lemma SessionChanges(o: Shared, writer: nat, session: W.Session)
    requires Inv(o) && writer !in o.staged && SessionFits(o.sh.s, o.sh.dest, o.sh.dest, session)
    requires forall k :: session.Holds(k) ==> !W.Blocked(o.sh, writer, k)
    ensures Inv(o.(sh := o.sh.(sessions := o.sh.sessions[writer := session])))
  {
    hide Core, W.IdsTrue, RecordsSettled, WrittenSettled, SessionFits, StagedFits;
    var o' := o.(sh := o.sh.(sessions := o.sh.sessions[writer := session]));
    forall v, w, k | v in o'.sh.sessions && w in o'.sh.sessions &&
                     o'.sh.sessions[v].Holds(k) && o'.sh.sessions[w].Holds(k)
      ensures v == w
    {
      assert v == writer ==> !W.Blocked(o.sh, writer, k);
      assert w == writer ==> !W.Blocked(o.sh, writer, k);
    }
    forall x | x in o'.staged ensures OwnsStaged(o', x) {
      assert OwnsStaged(o, x);
    }
  }

  lemma EndKeeps(o: Shared, writer: nat)
    requires Inv(o)
    ensures Inv(Ends(o, writer))
  {
    hide Core, W.IdsTrue, RecordsSettled, WrittenSettled, SessionFits, StagedFits;
    var o' := Ends(o, writer);
    forall x | x in o'.staged ensures OwnsStaged(o', x) {
      assert OwnsStaged(o, x);
    }
  }

  /** A claim that finds a succeeded row finds its record committed. */
  lemma ClaimLoads(sh: W.Shared, writer: nat, now: int)
    requires writer in sh.sessions && W.SessionHolds(sh.s, sh.dest, sh.sessions[writer]) && WritesTrue(sh.s, sh.dest)
    requires !sh.sessions[writer].phase.Claimed? && !sh.sessions[writer].phase.Answered?
    ensures var sh' := W.NextStep(sh, writer, now);
            writer in sh'.sessions ==>
              var session := sh'.sessions[writer];
              && !session.phase.Answered?
              && (session.phase.Claimed? && session.phase.loaded.status == Succeeded ==>
                    session.Key() in sh.dest.records)
  {
  }

  lemma ReadKeeps(o: Shared, writer: nat, now: int)
    requires Inv(o) && writer in o.sh.sessions
    requires !o.sh.sessions[writer].phase.Claimed? && !o.sh.sessions[writer].phase.Answered?
    ensures Inv(o.(sh := W.NextStep(o.sh, writer, now)))
  {
    hide W.NextStep, W.SessionHolds, StagedFits, W.IdsTrue, WrittenSettled, RecordsSettled;
    var sh' := W.NextStep(o.sh, writer, now);
    assert SessionFits(o.sh.s, o.sh.dest, Seen(o, writer), o.sh.sessions[writer]);
    assert writer in o.staged ==> OwnsStaged(o, writer);
    W.ReadHolds(o.sh, writer, now);
    ClaimLoads(o.sh, writer, now);
    if sh' == W.Ends(o.sh, writer) {
      EndKeeps(o, writer);
      assert o.staged - {writer} == o.staged;
    } else if sh' != o.sh {
      SessionChanges(o, writer, sh'.sessions[writer]);
    }
  }

  // ---------- The call ----------

  /** The draft of a session past its checks names its invoice. */
  lemma SessionHasKey(s: State, seen: Destination, session: W.Session)
    requires RowsFit(s) && W.SessionHolds(s, seen, session) && session.phase.Claimed?
    ensures session.phase.e.draft.Ok? && session.phase.e.draft.value == session.Key().payloadHash.draft
    ensures BusinessKeyOf(session.Key().payloadHash.draft).Some? && ApprovedOnce(s, session.Key())
  {
    var t := session.phase.ticket;
    assert t.approval in s.approvals;
    SoundHasKey(t.hash.draft, s.documents[session.d].source);
  }

  /** What a call comes to. */
  lemma CallOutcome(dest: Destination, key: IdempotencyKey)
    requires dest.Database? && BusinessKeyOf(key.payloadHash.draft).Some?
    ensures var (after, reply) := CreateRecord(dest, key, key.payloadHash.draft);
            && (reply.Err? <==> Refused(dest, key))
            && (key in dest.records ==> after == dest && reply == Ok(CrmRecord(dest.records[key].externalId, false)))
            && (key !in dest.records && reply.Ok? ==>
                  && key in after.records && after == With(dest, Insert(key, after.records[key]))
                  && reply.value.externalId == after.records[key].externalId
                  && StagedFits(dest, Insert(key, after.records[key])))
            && (reply.Err? ==> after == dest)
  {
  }

  /** The session after the call, with the record it has inserted, if it has. */
  lemma CallFits(o: Shared, writer: nat)
    requires Inv(o) && writer in o.sh.sessions && o.sh.sessions[writer].phase.Claimed? && Call(o, writer) != o
    ensures var o', session := Call(o, writer), o.sh.sessions[writer];
            && writer !in o.staged && writer in o'.sh.sessions
            && var after := o'.sh.sessions[writer];
               && o'.sh == o.sh.(sessions := o.sh.sessions[writer := after])
               && after.phase.Answered? && after.d == session.d && after.Key() == session.Key()
               && (forall k :: after.Holds(k) <==> session.Holds(k))
               && SessionFits(o.sh.s, o.sh.dest, Seen(o', writer), after)
               && !Held(o, writer, session.Key(), Column(session.Key().payloadHash.draft))
               && (o'.staged == o.staged ||
                   (after.phase.reply.Ok? &&
                    writer in o'.staged && o'.staged == o.staged[writer := o'.staged[writer]] &&
                    o'.staged[writer].key == after.Key() && StagedFits(o.sh.dest, o'.staged[writer])))
  {
    hide W.IdsTrue, WrittenSettled, RecordsSettled, CreateRecord, DocumentsBound, InvoicesDistinct, AllPaid, Consistent;
    hide StagedFits, Held, Refused, WritesTrue, RecordsApproved;
    var session := o.sh.sessions[writer];
    assert writer in o.staged ==> OwnsStaged(o, writer);
    assert SessionFits(o.sh.s, o.sh.dest, o.sh.dest, session);
    SessionHasKey(o.sh.s, o.sh.dest, session);
    CallOutcome(o.sh.dest, session.Key());
  }

  lemma CallKeepsDatabase(o: Shared, writer: nat)
    requires Inv(o) && writer in o.sh.sessions && o.sh.sessions[writer].phase.Claimed?
    ensures Inv(Call(o, writer))
  {
    hide Core, W.IdsTrue, WrittenSettled, RecordsSettled, StagedFits, SessionFits, Call;
    var o' := Call(o, writer);
    if o' != o {
      CallFits(o, writer);
      forall x | x in o'.sh.sessions ensures SessionFits(o'.sh.s, o'.sh.dest, Seen(o', x), o'.sh.sessions[x]) {
        assert x != writer ==> Seen(o', x) == Seen(o, x);
      }
      forall x | x in o'.staged ensures OwnsStaged(o', x) {
        if x != writer { assert OwnsStaged(o, x); }
      }
      NewApart(o, o', writer);
    }
  }

  lemma NewApart(o: Shared, o': Shared, writer: nat)
    requires StagedApart(o) && writer in o.sh.sessions && !o.sh.sessions[writer].phase.Loaded?
    requires var key := o.sh.sessions[writer].Key();
             && !Held(o, writer, key, Column(key.payloadHash.draft))
             && (o'.staged == o.staged ||
                 (writer in o'.staged && o'.staged == o.staged[writer := o'.staged[writer]] &&
                  o'.staged[writer].key == key && StagedFits(o.sh.dest, o'.staged[writer])))
    ensures forall v, w :: v in o'.staged && w in o'.staged && v != w ==>
              o'.staged[v].key != o'.staged[w].key && o'.staged[v].row.businessKey != o'.staged[w].row.businessKey
  {
  }

  // ---------- The commit ----------

  /** The destination with the committing writer's record, if it has inserted one. */
  lemma CommitDestination(s: State, dest: Destination, insert: Insert)
    requires Core(s, dest) && dest.Database? && StagedFits(dest, insert) && ApprovedOnce(s, insert.key)
    ensures Core(s, With(dest, insert))
  {
    hide Core;
    CallKeeps(s, dest, insert.key);
    InsertIsCall(dest, insert);
  }

  lemma InsertIsCall(dest: Destination, insert: Insert)
    requires dest.Database? && StagedFits(dest, insert)
    ensures CreateRecord(dest, insert.key, insert.key.payloadHash.draft).0 == With(dest, insert)
  {
  }

  lemma RefusedStays(dest: Destination, insert: Insert, key: IdempotencyKey)
    requires Refused(dest, key) && StagedFits(dest, insert)
    ensures Refused(With(dest, insert), key)
  {
    var k :| k in dest.records && dest.records[k].businessKey == Some(Joined(RuleKey(key.payloadHash.draft)));
    assert With(dest, insert).records[k] == dest.records[k];
  }

  lemma StagedStays(dest: Destination, insert: Insert, other: Insert)
    requires StagedFits(dest, insert) && StagedFits(dest, other)
    requires insert.key != other.key && insert.row.businessKey != other.row.businessKey
    ensures StagedFits(With(dest, insert), other)
  {
    hide Joined, RuleKey, BusinessKeyOf;
    var column := Joined(RuleKey(other.key.payloadHash.draft));
    forall k | k in With(dest, insert).records
      ensures With(dest, insert).records[k].businessKey != Some(column)
    {
    }
  }

  /** A commit that succeeds leaves a succeeded row under its key, and one that fails has no record there. */
  lemma CommitSettles(s: State, dest: Destination, seen: Destination, session: W.Session)
    requires SessionFits(s, dest, seen, session) && session.phase.Answered?
    requires RecordsSettled(s, dest) && WritesTrue(s, dest) && WrittenSettled(s)
    requires seen == dest || (session.phase.reply.Ok? && seen.records.Keys == dest.records.Keys + {session.Key()})
    ensures var s' := W.Settled(s, session.Key(), session.phase);
            RecordsSettled(s', seen) && WrittenSettled(s')
  {
    W.CommitSettlesExactly(s, seen, session);
  }

  lemma CommitFits(s: State, dest: Destination, seen: Destination, session: W.Session,
                   theirs: Destination, theirs': Destination, other: W.Session)
    requires SessionFits(s, dest, seen, session) && session.phase.Answered?
    requires W.IdsTrue(s, seen) && WritesTrue(s, seen)
    requires SessionFits(s, dest, theirs, other) && forall k :: !(session.Holds(k) && other.Holds(k))
    requires forall k <- theirs.records :: k in theirs'.records && theirs'.records[k] == theirs.records[k]
    requires forall k <- dest.records :: k in seen.records
    requires other.phase.Answered? && other.phase.reply.Err? ==> Refused(seen, other.Key())
    ensures SessionFits(W.Settled(s, session.Key(), session.phase), seen, theirs', other)
  {
    hide Refused, W.Settled, W.IdsTrue, WritesTrue;
    W.CommitKeepsOther(s, seen, session, theirs, other);
    W.SessionStays(W.Settled(s, session.Key(), session.phase), theirs,
                  W.Settled(s, session.Key(), session.phase), theirs', other);
  }

  lemma OtherFits(o: Shared, writer: nat, other: nat)
    requires Inv(o) && writer in o.sh.sessions && o.sh.sessions[writer].phase.Answered?
    requires W.IdsTrue(o.sh.s, Seen(o, writer)) && WritesTrue(o.sh.s, Seen(o, writer))
    requires other in o.sh.sessions && other != writer
    ensures var o' := Commit(o, writer);
            SessionFits(o'.sh.s, o'.sh.dest, Seen(o', other), o.sh.sessions[other])
  {
    hide Core, RecordsSettled, WrittenSettled, W.SessionHolds, W.Settled, Refused, StagedFits, W.IdsTrue, WritesTrue;
    var session, theirs := o.sh.sessions[writer], o.sh.sessions[other];
    assert SessionFits(o.sh.s, o.sh.dest, Seen(o, writer), session);
    assert SessionFits(o.sh.s, o.sh.dest, Seen(o, other), theirs);
    if writer in o.staged {
      assert OwnsStaged(o, writer);
      StagedIsNew(o.sh.dest, o.staged[writer]);
      if theirs.phase.Answered? && theirs.phase.reply.Err? {
        RefusedStays(o.sh.dest, o.staged[writer], theirs.Key());
      }
    }
    CommitFits(o.sh.s, o.sh.dest, Seen(o, writer), session,
               Seen(o, other), Seen(Commit(o, writer), other), theirs);
  }

  lemma StagedIsNew(dest: Destination, insert: Insert)
    requires StagedFits(dest, insert)
    ensures insert.key !in dest.records
  {
  }

  lemma SeenHolds(o: Shared, writer: nat)
    requires Inv(o) && writer in o.sh.sessions && o.sh.sessions[writer].phase.Answered?
    ensures Core(o.sh.s, Seen(o, writer)) && W.IdsTrue(o.sh.s, Seen(o, writer))
    ensures Seen(o, writer).Database?
    ensures Seen(o, writer) == o.sh.dest ||
            (o.sh.sessions[writer].phase.reply.Ok? &&
             Seen(o, writer).records.Keys == o.sh.dest.records.Keys + {o.sh.sessions[writer].Key()})
  {
    hide Core, RecordsSettled, WrittenSettled, StagedFits, W.ClaimsExclusive;
    if writer in o.staged {
      assert OwnsStaged(o, writer);
      assert SessionFits(o.sh.s, o.sh.dest, Seen(o, writer), o.sh.sessions[writer]);
      StagedIsNew(o.sh.dest, o.staged[writer]);
      CommitDestination(o.sh.s, o.sh.dest, o.staged[writer]);
    }
  }

  lemma CommitStaged(o: Shared, writer: nat)
    requires StagedApart(o) && writer in o.sh.sessions && o.sh.sessions[writer].phase.Answered?
    ensures StagedApart(Commit(o, writer))
  {
    hide StagedFits, W.Settled;
    var o' := Commit(o, writer);
    forall x | x in o'.staged ensures OwnsStaged(o', x) {
      assert OwnsStaged(o, x);
      if writer in o.staged {
        assert OwnsStaged(o, writer);
        StagedStays(o.sh.dest, o.staged[writer], o.staged[x]);
      }
    }
  }

  lemma CommitKeepsClaims(o: Shared, writer: nat)
    requires W.ClaimsExclusive(o.sh) && writer in o.sh.sessions && o.sh.sessions[writer].phase.Answered?
    ensures W.ClaimsExclusive(Commit(o, writer).sh)
  {
  }

  lemma CommitKeeps(o: Shared, writer: nat)
    requires Inv(o) && writer in o.sh.sessions && o.sh.sessions[writer].phase.Answered?
    ensures Inv(Commit(o, writer))
  {
    hide DocumentsBound, RowsFit, RecordsApproved, InvoicesDistinct, AllPaid, Consistent, WritesTrue, W.IdsTrue;
    hide W.Settled, WrittenSettled, RecordsSettled, StagedApart, W.ClaimsExclusive, W.SessionHolds;
    var session, o' := o.sh.sessions[writer], Commit(o, writer);
    assert SessionFits(o.sh.s, o.sh.dest, Seen(o, writer), session);
    SeenHolds(o, writer);
    W.SettleKeepsCore(o.sh.s, Seen(o, writer), session);
    W.SettleKeepsIds(o.sh.s, Seen(o, writer), session);
    CommitSettles(o.sh.s, o.sh.dest, Seen(o, writer), session);
    CommitStaged(o, writer);
    CommitKeepsClaims(o, writer);
    forall x | x in o'.sh.sessions ensures SessionFits(o'.sh.s, o'.sh.dest, Seen(o', x), o'.sh.sessions[x]) {
      OtherFits(o, writer, x);
    }
  }

  lemma MoveKeeps(o: Shared, m: W.Move)
    requires Inv(o)
    ensures Inv(Apply(o, m))
  {
    hide Inv, W.NextStep, Call, Commit;
    match m
    case Service(call) => ServiceKeepsDatabase(o, call);
    case Begin(writer, d) => BeginKeeps(o, writer, d);
    case Advance(writer, now) =>
      if writer in o.sh.sessions {
        if o.sh.sessions[writer].phase.Claimed? { CallKeepsDatabase(o, writer); }
        else if o.sh.sessions[writer].phase.Answered? { CommitKeeps(o, writer); }
        else { ReadKeeps(o, writer, now); }
      }
    case Abort(writer) => EndKeeps(o, writer);
  }

  lemma BeginKeeps(o: Shared, writer: nat, d: DocumentId)
    requires Inv(o)
    ensures Inv(Apply(o, W.Begin(writer, d)))
  {
    hide Core, W.IdsTrue, RecordsSettled, WrittenSettled, StagedFits;
    if writer !in o.sh.sessions && d in o.sh.s.documents {
      assert writer in o.staged ==> OwnsStaged(o, writer);
      SessionChanges(o, writer, W.Session(d, W.Loaded(o.sh.s.documents[d])));
    }
  }

  lemma StartHolds()
    ensures Inv(Start())
  {
    Runs.StartHolds(false);
  }

  lemma {:induction false} RunKeeps(moves: seq<W.Move>)
    ensures Inv(Run(Start(), moves))
  {
    hide Inv, Apply;
    if moves == [] {
      StartHolds();
    } else {
      RunKeeps(moves[..|moves| - 1]);
      MoveKeeps(Run(Start(), moves[..|moves| - 1]), moves[|moves| - 1]);
    }
  }

  // ---------- What holds under any interleaving ----------

  /** A record and its succeeded row commit together: under any interleaving, a key has a record if and only if its row
      says succeeded, and the row names the record. */
  lemma {:induction false} RecordsAndRowsAgree(moves: seq<W.Move>, key: IdempotencyKey)
    ensures var sh := Run(Start(), moves).sh;
            && (key in sh.dest.records <==> key in sh.s.writes && sh.s.writes[key].status == Succeeded)
            && (key in sh.dest.records ==> sh.s.writes[key].externalId == Some(sh.dest.records[key].externalId))
  {
    RunKeeps(moves);
  }

  /** A written document's row says succeeded, and its approved version is recorded: with the record in the writer's
      transaction, no hypothesis is needed. */
  lemma {:induction false} WrittenIsRecorded(moves: seq<W.Move>, d: DocumentId)
    requires d in Run(Start(), moves).sh.s.documents && Run(Start(), moves).sh.s.documents[d].status == Written
    ensures var sh := Run(Start(), moves).sh;
            && sh.s.documents[d].approvedHash.Some?
            && var key := KeyOf(sh.s, d);
               && key in sh.s.writes && sh.s.writes[key].status == Succeeded
               && key in sh.dest.records && sh.dest.records[key].payload == key.payloadHash.draft
  {
    RunKeeps(moves);
    var key := KeyOfWritten(moves, d);
    RecordsAndRowsAgree(moves, key);
  }

  lemma {:induction false} KeyOfWritten(moves: seq<W.Move>, d: DocumentId) returns (key: IdempotencyKey)
    requires d in Run(Start(), moves).sh.s.documents && Run(Start(), moves).sh.s.documents[d].status == Written
    ensures Run(Start(), moves).sh.s.documents[d].approvedHash == Some(key.payloadHash) && key.documentId == d
  {
    RunKeeps(moves);
    assert DocumentBound(Run(Start(), moves).sh.s, d);
    key := KeyOf(Run(Start(), moves).sh.s, d);
  }

  /** Under any interleaving: each record holds the draft of its key, which was approved for the key's document and is
      sound for its source, and no two records are the same invoice. */
  lemma {:induction false} EveryRecordWasApproved(moves: seq<W.Move>, key: IdempotencyKey, other: IdempotencyKey)
    requires key in Run(Start(), moves).sh.dest.records
    ensures var sh := Run(Start(), moves).sh;
            && sh.dest.records[key].payload == key.payloadHash.draft && ApprovedOnce(sh.s, key)
            && key.documentId in sh.s.documents
            && Sound(key.payloadHash.draft, sh.s.documents[key.documentId].source)
            && (other in sh.dest.records && other != key ==>
                  RuleKey(sh.dest.records[other].payload) != RuleKey(sh.dest.records[key].payload))
  {
    RunKeeps(moves);
    assert ApprovedOnce(Run(Start(), moves).sh.s, key);
  }

  /** A call under a recorded key does not fail: it returns the record. */
  lemma {:induction false} RecordedKeysAnswer(moves: seq<W.Move>, writer: nat)
    requires var sh := Run(Start(), moves).sh;
             && writer in sh.sessions && sh.sessions[writer].phase.Answered?
             && sh.sessions[writer].Key() in sh.dest.records
    ensures var sh := Run(Start(), moves).sh;
            var p := sh.sessions[writer].phase;
            p.reply.Ok? && p.reply.value.externalId == sh.dest.records[sh.sessions[writer].Key()].externalId
  {
    RunKeeps(moves);
    var o := Run(Start(), moves);
    assert SessionFits(o.sh.s, o.sh.dest, Seen(o, writer), o.sh.sessions[writer]);
    assert writer in o.staged ==> OwnsStaged(o, writer);
  }

  // ---------- An undisturbed writer is the whole call ----------

  function Steps(o: Shared, writer: nat, now: int, n: nat): Shared {
    if n == 0 then o else Apply(Steps(o, writer, now, n - 1), W.Advance(writer, now))
  }

  function Rank(p: W.Phase): nat {
    match p
    case Loaded(_) => 0
    case Unsettled(_, _) => 1
    case Vetted(_, _) => 2
    case Matched(_, _, _) => 3
    case Claimed(_, _, _, _) => 4
    case Answered(_, _, _, _, _) => 5
  }

  lemma RankAfterStep(sh: W.Shared, writer: nat, now: int)
    ensures var after := W.Apply(sh, W.Advance(writer, now));
            writer in after.sessions ==>
              writer in sh.sessions && Rank(after.sessions[writer].phase) <= Rank(sh.sessions[writer].phase) + 1
  {
    hide CreateRecord, W.Settled, W.Blocked;
  }

  lemma {:induction false} OneRankAStep(sh: W.Shared, writer: nat, d: DocumentId, now: int, n: nat)
    requires writer !in sh.sessions
    ensures var after := W.Steps(W.Apply(sh, W.Begin(writer, d)), writer, now, n);
            writer in after.sessions ==> Rank(after.sessions[writer].phase) <= n
  {
    if n > 0 {
      hide W.Apply, Rank;
      OneRankAStep(sh, writer, d, now, n - 1);
      RankAfterStep(W.Steps(W.Apply(sh, W.Begin(writer, d)), writer, now, n - 1), writer, now);
    }
  }

  lemma SameStep(o: Shared, writer: nat, now: int)
    requires writer in o.sh.sessions ==> Rank(o.sh.sessions[writer].phase) < 4
    ensures Apply(o, W.Advance(writer, now)) == o.(sh := W.Apply(o.sh, W.Advance(writer, now)))
  {
    hide W.NextStep, Call, Commit;
  }

  /** Up to the claim, a step is a step of `Writers`. */
  lemma {:induction false} SameUntilClaimed(o: Shared, writer: nat, d: DocumentId, now: int, n: nat)
    requires writer !in o.sh.sessions && n <= 4
    ensures Steps(Apply(o, W.Begin(writer, d)), writer, now, n) ==
            o.(sh := W.Steps(W.Apply(o.sh, W.Begin(writer, d)), writer, now, n))
  {
    if n == 0 {
      assert Apply(o, W.Begin(writer, d)) == o.(sh := W.Apply(o.sh, W.Begin(writer, d)));
    } else {
      hide Apply, W.Apply;
      SameUntilClaimed(o, writer, d, now, n - 1);
      OneRankAStep(o.sh, writer, d, now, n - 1);
      SameStep(Steps(Apply(o, W.Begin(writer, d)), writer, now, n - 1), writer, now);
    }
  }

  lemma {:induction false} StepsAdd(o: Shared, writer: nat, now: int, m: nat, n: nat)
    ensures Steps(o, writer, now, m + n) == Steps(Steps(o, writer, now, m), writer, now, n)
  {
    hide Apply;
    if n > 0 {
      StepsAdd(o, writer, now, m, n - 1);
    }
  }

  lemma EndedStays(o: Shared, writer: nat, now: int, n: nat)
    requires writer !in o.sh.sessions
    ensures Steps(o, writer, now, n) == o
  {
  }

  const CALL_AND_COMMIT: nat := 2

  /** The call and the commit of a writer that is alone with its key and its invoice. */
  lemma CallAndCommit(o: Shared, writer: nat, now: int, session: W.Session)
    requires o.sh.dest.Database? && o.staged == map[]
    requires writer in o.sh.sessions && o.sh.sessions[writer] == session && session.phase.Claimed?
    requires session.phase.e.draft.Ok?
    ensures var p, key, after := session.phase, session.Key(), Steps(o, writer, now, CALL_AND_COMMIT);
            var (dest', reply) := CreateRecord(o.sh.dest, key, p.e.draft.value);
            && after.staged == map[] && after.sh.sessions == o.sh.sessions - {writer} && after.sh.dest == dest'
            && after.sh.s == W.Settled(o.sh.s, key, W.Answered(p.ticket, p.e, p.loaded, p.inserted, reply))
  {
    hide CreateRecord, W.Settled, W.NextStep;
    var o1 := Apply(o, W.Advance(writer, now));
    CallFrame(o.sh.dest, session.Key(), session.phase.e.draft.value);
    StepsAdd(o, writer, now, 1, 1);
    var p, key := session.phase, session.Key();
    var (dest', reply) := CreateRecord(o.sh.dest, key, p.e.draft.value);
    assert writer in o1.sh.sessions;
    assert o1.sh.sessions[writer] == W.Session(session.d, W.Answered(p.ticket, p.e, p.loaded, p.inserted, reply));
    assert Seen(o1, writer) == dest';
    assert o1.staged - {writer} == map[];
  }

  /** The cut is faithful here as well: a writer that no one disturbs does what `write_approved_record` does in one
      go with the database. */
  lemma SoloWriterIsAtomic(o: Shared, writer: nat, d: DocumentId, now: int)
    requires o.sh.dest.Database? && o.staged == map[]
    requires writer !in o.sh.sessions && d in o.sh.s.documents
    requires forall other, k :: other in o.sh.sessions && o.sh.sessions[other].Holds(k) ==> k.documentId != d
    ensures var after := Steps(Apply(o, W.Begin(writer, d)), writer, now, W.CHECKS + W.EFFECTS);
            var (s', dest', _) := WriteApprovedRecord(o.sh.s, o.sh.dest, d, now);
            after.sh.s == s' && after.sh.dest == dest' && after.sh.sessions == o.sh.sessions && after.staged == map[]
  {
    hide Steps, Apply, W.Steps, W.Apply, WriteApprovedRecord, Cleared, ClaimAndCall, CreateRecord, W.Settled;
    var sh3 := W.Steps(W.Apply(o.sh, W.Begin(writer, d)), writer, now, W.CHECKS);
    W.SoloChecks(o.sh, writer, d, now);
    SameUntilClaimed(o, writer, d, now, W.CHECKS);
    var o3 := o.(sh := sh3);
    StepsAdd(Apply(o, W.Begin(writer, d)), writer, now, W.CHECKS, W.EFFECTS);
    WriteByCases(o.sh.s, o.sh.dest, d, now);
    if Cleared(o.sh.s, d, now) {
      FromClaim(o, o3, writer, d, now);
    } else {
      EndedStays(o3, writer, now, W.EFFECTS);
    }
  }

  lemma FromClaim(o: Shared, o3: Shared, writer: nat, d: DocumentId, now: int)
    requires o.sh.dest.Database? && o.staged == map[]
    requires writer !in o.sh.sessions && d in o.sh.s.documents && Cleared(o.sh.s, d, now)
    requires forall other, k :: other in o.sh.sessions && o.sh.sessions[other].Holds(k) ==> k.documentId != d
    requires var ticket := W.Ticket(o.sh.s.documents[d].approvedHash.value,
                                    LatestApproval(o.sh.s.approvals, d).value, now);
             var e, seen := LatestExtraction(o.sh.s.extractions, d).value, W.FindWrite(o.sh.s, KeyOf(o.sh.s, d));
             o3 == o.(sh := o.sh.(sessions := o.sh.sessions[writer := W.Session(d, W.Matched(ticket, e, seen))]))
    ensures var after := Steps(o3, writer, now, W.EFFECTS);
            var (s', dest', _) := ClaimAndCall(o.sh.s, o.sh.dest, d, KeyOf(o.sh.s, d),
                                               LatestExtraction(o.sh.s.extractions, d).value);
            after.sh.s == s' && after.sh.dest == dest' && after.sh.sessions == o.sh.sessions && after.staged == map[]
  {
    hide ClaimAndCall, CreateRecord, W.Settled, Call, Commit;
    var key, session := KeyOf(o.sh.s, d), o3.sh.sessions[writer];
    assert !W.Blocked(o3.sh, writer, key);
    W.ClaimStep(o3.sh, writer, now, session, key);
    StepsAdd(o3, writer, now, 1, CALL_AND_COMMIT);
    var o4 := Apply(o3, W.Advance(writer, now));
    assert o4 == o3.(sh := W.Apply(o3.sh, W.Advance(writer, now)));
    assert Steps(o3, writer, now, 1) == o4;
    var claimed := o4.sh.sessions[writer];
    CallAndCommit(o4, writer, now, claimed);
    W.CommitIsSecondHalf(o.sh.s, o.sh.dest, key, session.phase.ticket, session.phase.e);
    assert o4.sh.sessions - {writer} == o.sh.sessions;
  }
}
