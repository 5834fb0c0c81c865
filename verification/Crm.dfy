/**
 The destination: app/providers/crm.py. Two implementations deduplicate, `MockCrm` by idempotency key and
 `DatabaseCrm` by idempotency key and by business key.
 */
module Crm {
  import opened Wrappers
  import opened Schema
  import opened Keys

  datatype CrmError = Unavailable | Rejected | Unspecified

  /** `CRM-00001` and so on for the mock; `CRM-` and the head of the key's digest for the database, with the whole
      key standing for the head. */
  datatype ExternalId = Serial(n: nat) | Digest(key: IdempotencyKey)

  datatype CrmRecord = CrmRecord(externalId: ExternalId, created: bool)

  /** A stored record; only the database keeps the business key as a column. */
  datatype Stored = Stored(externalId: ExternalId, payload: Draft, businessKey: Option<string>)

  /** The state of a destination. */
  datatype Destination =
    | Mock(records: map<IdempotencyKey, Stored>, calls: seq<IdempotencyKey>, failures: seq<CrmError>)
    | Database(records: map<IdempotencyKey, Stored>)

  type Reply = Result<CrmRecord, CrmError>

  function CreateInMock(dest: Destination, key: IdempotencyKey, payload: Draft): (Destination, Reply)
    requires dest.Mock?
  {
    var called := dest.(calls := dest.calls + [key]);
    if dest.failures != [] then (called.(failures := dest.failures[1..]), Err(dest.failures[0]))
    else if key in dest.records then (called, Ok(CrmRecord(dest.records[key].externalId, false)))
    else
      var externalId := Serial(|dest.records| + 1);
      (called.(records := dest.records[key := Stored(externalId, payload, None)]), Ok(CrmRecord(externalId, true)))
  }

  predicate Taken(records: map<IdempotencyKey, Stored>, businessKey: string) {
    exists k <- records :: records[k].businessKey == Some(businessKey)
  }

  function CreateInDatabase(dest: Destination, key: IdempotencyKey, payload: Draft): (Destination, Reply)
    requires dest.Database?
  {
    var business := BusinessKeyOf(payload);
    if business.None? then (dest, Err(Rejected))
    else
      var column := Joined(business.value);
      if key in dest.records then (dest, Ok(CrmRecord(dest.records[key].externalId, false)))
      else if Taken(dest.records, column) then (dest, Err(Rejected))
      else
        var row := Stored(Digest(key), payload, Some(column));
        (dest.(records := dest.records[key := row]), Ok(CrmRecord(Digest(key), true)))
  }

  function CreateRecord(dest: Destination, key: IdempotencyKey, payload: Draft): (Destination, Reply) {
    if dest.Mock? then CreateInMock(dest, key, payload) else CreateInDatabase(dest, key, payload)
  }

  class MockCrm {
    var records: map<IdempotencyKey, Stored>
    var calls: seq<IdempotencyKey>
    var failures: seq<CrmError>

    ghost function Contents(): Destination
      reads this
    {
      Mock(records, calls, failures)
    }

    constructor ()
      ensures Contents() == Mock(map[], [], [])
    {
      records, calls, failures := map[], [], [];
    }

    method CreateRecord(key: IdempotencyKey, payload: Draft) returns (reply: Reply)
      modifies this
      ensures (Contents(), reply) == CreateInMock(old(Contents()), key, payload)
    {
      calls := calls + [key];
      if failures != [] {
        reply := Err(failures[0]);
        failures := failures[1..];
        return;
      }
      if key in records {
        return Ok(CrmRecord(records[key].externalId, false));
      }
      var externalId := Serial(|records| + 1);
      records := records[key := Stored(externalId, payload, None)];
      return Ok(CrmRecord(externalId, true));
    }
  }

  class DatabaseCrm {
    /** The table `crm_record`. The unique constraint on the idempotency key makes it a map. */
    var rows: map<IdempotencyKey, Stored>

    ghost function Contents(): Destination
      reads this
    {
      Database(rows)
    }

    constructor ()
      ensures Contents() == Database(map[])
    {
      rows := map[];
    }

    /** An insert under the two unique constraints; the answer tells whether it went through. */
    method Insert(key: IdempotencyKey, row: Stored) returns (inserted: bool)
      requires row.businessKey.Some?
      modifies this
      ensures inserted <==> key !in old(rows) && !Taken(old(rows), row.businessKey.value)
      ensures rows == if inserted then old(rows)[key := row] else old(rows)
    {
      inserted := key !in rows && !Taken(rows, row.businessKey.value);
      if inserted {
        rows := rows[key := row];
      }
    }

    method CreateRecord(key: IdempotencyKey, payload: Draft) returns (reply: Reply)
      modifies this
      ensures (Contents(), reply) == CreateInDatabase(old(Contents()), key, payload)
    {
      var business := BusinessKeyOf(payload);
      if business.None? {
        return Err(Rejected);
      }
      var externalId := Digest(key);
      var inserted := Insert(key, Stored(externalId, payload, Some(Joined(business.value))));
      if !inserted {
        if key in rows {
          return Ok(CrmRecord(rows[key].externalId, false));
        }
        return Err(Rejected);
      }
      return Ok(CrmRecord(externalId, true));
    }
  }

  // ---------- What every destination keeps ----------

  /** The invoice of a record as the validator sees it is the one its column names. */
  ghost predicate ColumnsMatch(dest: Destination) {
    forall k <- dest.records ::
      var row := dest.records[k];
      row.businessKey == if dest.Database? then Some(Joined(RuleKey(row.payload))) else None
  }

  ghost predicate OnePerInvoice(dest: Destination) {
    forall j, k :: j in dest.records && k in dest.records && j != k ==>
                     RuleKey(dest.records[j].payload) != RuleKey(dest.records[k].payload)
  }

  ghost predicate OnePerSerial(dest: Destination) {
    && (forall k <- dest.records ::
          dest.records[k].externalId.Serial? && 1 <= dest.records[k].externalId.n <= |dest.records|)
    && (forall j, k :: j in dest.records && k in dest.records && j != k ==>
                         dest.records[j].externalId != dest.records[k].externalId)
  }

  /** The mock hands out each serial number once; the database holds each invoice once. */
  ghost predicate Consistent(dest: Destination) {
    && ColumnsMatch(dest)
    && (dest.Mock? ==> OnePerSerial(dest))
    && (dest.Database? ==> OnePerInvoice(dest) && forall k <- dest.records :: dest.records[k].externalId == Digest(k))
  }

  /** A column is taken exactly when a record for the same normalised supplier and number exists. */
  lemma TakenMeansRecorded(dest: Destination, payload: Draft)
    requires dest.Database? && ColumnsMatch(dest)
    ensures Taken(dest.records, Joined(RuleKey(payload))) <==>
            exists k <- dest.records :: RuleKey(dest.records[k].payload) == RuleKey(payload)
  {
    forall k | k in dest.records
      ensures dest.records[k].businessKey == Some(Joined(RuleKey(payload))) <==>
              RuleKey(dest.records[k].payload) == RuleKey(payload)
    {
      DestinationAgreesWithRule(dest.records[k].payload, payload);
    }
  }

  lemma MockKeepsSerials(dest: Destination, key: IdempotencyKey, payload: Draft)
    requires dest.Mock? && OnePerSerial(dest)
    ensures OnePerSerial(CreateInMock(dest, key, payload).0)
  {
    var after := CreateInMock(dest, key, payload).0;
    if key !in dest.records && after.records != dest.records {
      assert after.records.Keys == dest.records.Keys + {key};
    }
  }

  lemma DatabaseKeepsInvoices(dest: Destination, key: IdempotencyKey, payload: Draft)
    requires dest.Database? && ColumnsMatch(dest) && OnePerInvoice(dest)
    ensures OnePerInvoice(CreateInDatabase(dest, key, payload).0)
  {
    TakenMeansRecorded(dest, payload);
    var after := CreateInDatabase(dest, key, payload).0;
    forall j, k | j in after.records && k in after.records && j != k
      ensures RuleKey(after.records[j].payload) != RuleKey(after.records[k].payload)
    {
      assert j != key ==> j in dest.records;
      assert k != key ==> k in dest.records;
    }
  }

  lemma CreateKeepsConsistent(dest: Destination, key: IdempotencyKey, payload: Draft)
    requires Consistent(dest)
    ensures Consistent(CreateRecord(dest, key, payload).0)
  {
    hide OnePerSerial, OnePerInvoice, Joined, RuleKey;
    if dest.Mock? {
      MockKeepsSerials(dest, key, payload);
    } else {
      DatabaseKeepsInvoices(dest, key, payload);
    }
  }

  /** Each call does one of three things: it creates the record, it returns the one stored under the key, or it
      refuses and leaves the records as they are. Which one is decided by the key, the invoice and, for the mock,
      the injected failures. A stored record never changes. */
  lemma CallsDoOneOfThree(dest: Destination, key: IdempotencyKey, payload: Draft)
    requires Consistent(dest)
    ensures var (after, reply) := CreateRecord(dest, key, payload);
            var invoiceKnown := exists k <- dest.records :: RuleKey(dest.records[k].payload) == RuleKey(payload);
            var refused := if dest.Mock? then dest.failures != []
                           else payload.supplier.value == "" || payload.invoiceNumber.value == "" ||
                                (key !in dest.records && invoiceKnown);
            && (reply.Err? <==> refused)
            && (reply.Err? ==> after.records == dest.records)
            && (reply.Ok? ==> (reply.value.created <==> key !in dest.records))
            && (reply.Ok? && !reply.value.created ==> after.records == dest.records)
            && (reply.Ok? && reply.value.created ==>
                  after.records.Keys == dest.records.Keys + {key} && after.records[key].payload == payload)
            && (reply.Ok? ==> key in after.records && after.records[key].externalId == reply.value.externalId)
            && (forall k <- dest.records :: k in after.records && after.records[k] == dest.records[k])
  {
    hide OnePerSerial, OnePerInvoice, Joined, RuleKey;
    if dest.Database? {
      TakenMeansRecorded(dest, payload);
    }
  }

  /** What a refusal says, and what a call leaves behind besides records: the mock notes every call, answers the
      injected failure that is first in line and uses it up; the database only ever rejects. */
  lemma RefusalsAndTraces(dest: Destination, key: IdempotencyKey, payload: Draft)
    ensures var (after, reply) := CreateRecord(dest, key, payload);
            && after.Mock? == dest.Mock?
            && (dest.Database? && reply.Err? ==> reply.error == Rejected && after == dest)
            && (dest.Mock? ==>
                  && after.calls == dest.calls + [key]
                  && (dest.failures == [] ==> reply.Ok? && after.failures == [])
                  && (dest.failures != [] ==>
                        && reply == Err(dest.failures[0]) && [dest.failures[0]] + after.failures == dest.failures
                        && after.records == dest.records))
  {
  }

  /** The id of a record that is created, and of one that is found. */
  lemma AnswersNameRecords(dest: Destination, key: IdempotencyKey, payload: Draft)
    ensures var (after, reply) := CreateRecord(dest, key, payload);
            reply.Ok? ==>
              && key in after.records && reply.value.externalId == after.records[key].externalId
              && (reply.value.created <==> key !in dest.records)
              && (key !in dest.records ==>
                    reply.value.externalId == if dest.Mock? then Serial(|dest.records| + 1) else Digest(key))
  {
  }

  /** A call adds at most one record, under its key, and an answer names the record under its key. */
  lemma CallFrame(dest: Destination, key: IdempotencyKey, payload: Draft)
    ensures var (after, reply) := CreateRecord(dest, key, payload);
            && after.Mock? == dest.Mock?
            && (after.records == dest.records ||
                (key !in dest.records && key in after.records && after.records[key].payload == payload &&
                 after.records == dest.records[key := after.records[key]]))
            && (reply.Ok? ==> key in after.records && after.records[key].externalId == reply.value.externalId)
  {
  }

  lemma StoredStays(dest: Destination, key: IdempotencyKey, payload: Draft, k: IdempotencyKey)
    requires k in dest.records
    ensures k in CreateRecord(dest, key, payload).0.records
    ensures CreateRecord(dest, key, payload).0.records[k] == dest.records[k]
  {
  }

  datatype Call = Call(key: IdempotencyKey, payload: Draft)

  function AfterAll(dest: Destination, calls: seq<Call>): Destination {
    if calls == [] then dest
    else
      var last := calls[|calls| - 1];
      CreateRecord(AfterAll(dest, calls[..|calls| - 1]), last.key, last.payload).0
  }

  /** Over any calls, the database holds one record for each idempotency key and each invoice, the mock gives no
      external id twice, and what is stored stays. */
  lemma {:induction false} RunKeepsConsistent(dest: Destination, calls: seq<Call>)
    requires Consistent(dest)
    ensures Consistent(AfterAll(dest, calls)) && AfterAll(dest, calls).Mock? == dest.Mock?
    ensures forall k <- dest.records ::
              k in AfterAll(dest, calls).records && AfterAll(dest, calls).records[k] == dest.records[k]
  {
    if calls != [] {
      var last := calls[|calls| - 1];
      RunKeepsConsistent(dest, calls[..|calls| - 1]);
      CreateKeepsConsistent(AfterAll(dest, calls[..|calls| - 1]), last.key, last.payload);
      CallsDoOneOfThree(AfterAll(dest, calls[..|calls| - 1]), last.key, last.payload);
    }
  }
}
