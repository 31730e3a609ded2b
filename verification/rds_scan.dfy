/** The RDS/Aurora scanner: the sample size of a table, the record built for
    each table, the order in which tables and databases are visited, and the
    guards of the command line. MySQL, the RDS and Secrets Manager clients and
    the generative model are the environment `RdsEnv`; the list `results`
    that the processing functions append to is the class `ResultLog`. */
module RdsScan {
  import opened Common
  import ModelIds
  import Cli

  // ----- The sample size of a table -----

  /** A Python number. Whether sample_size is an int or a float decides the
      text of the LIMIT clause it is interpolated into. */
  datatype PyNum = PyInt(i: int) | PyFloat(f: real)
  {
    function Value(): real
    {
      match this
      case PyInt(i) => i as real
      case PyFloat(f) => f
    }
  }

  /** min(max(1, x), limit) with x = total_count * sample_rate a float and
      Python's max and min, which keep their first argument unless a later
      one is strictly larger (smaller). */
  function SizeFromScaled(x: real, limit: int): PyNum
  {
    var m := if x > 1.0 then PyFloat(x) else PyInt(1);
    if (limit as real) < m.Value() then PyInt(limit) else m
  }

  /** The sample size as written: total_count * sample_rate is never truncated. */
  function SampleSizeAsWritten(total: nat, rate: real, limit: int): PyNum
  {
    SizeFromScaled(total as real * rate, limit)
  }

  /** MySQL takes a LIMIT only as a non-negative integer constant: `LIMIT 20.0`
      and `LIMIT -1` are syntax errors. */
  predicate LimitAccepted(n: PyNum)
  {
    n.PyInt? && n.i >= 0
  }

  /** As written, the size is a float exactly when the scaled count lies
      strictly above 1 and no higher than the limit. */
  lemma AsWrittenIsFloat(x: real, limit: int)
    ensures SizeFromScaled(x, limit).PyFloat? <==> 1.0 < x <= limit as real
    ensures SizeFromScaled(x, limit).PyFloat? ==> SizeFromScaled(x, limit).f == x
  {
  }

  /** As written, MySQL accepts the query exactly when the limit is not
      negative and the scaled count is at most 1 or above the limit. */
  lemma AsWrittenAccepted(x: real, limit: int)
    ensures LimitAccepted(SizeFromScaled(x, limit)) <==> 0 <= limit && (x <= 1.0 || limit as real < x)
  {
  }

  /** The value as written lies within [1, limit], and an empty table gets
      the int 1. */
  lemma AsWrittenBounds(total: nat, rate: real, limit: int)
    requires limit >= 1
    ensures 1.0 <= SampleSizeAsWritten(total, rate, limit).Value() <= limit as real
    ensures total == 0 ==> SampleSizeAsWritten(total, rate, limit) == PyInt(1)
  {
  }

  /** With the default rate 0.2 and limit 10000, a table of 100 rows is
      sampled with `LIMIT 20.0`, which MySQL rejects; int() gives 20. */
  lemma DefaultRateRejected()
    ensures SampleSizeAsWritten(100, 0.2, 10000) == PyFloat(20.0)
    ensures !LimitAccepted(SampleSizeAsWritten(100, 0.2, 10000))
    ensures ClampedSize(100, 0.2, 10000) == 20
  {
    assert 100 as real * 0.2 == 20.0;
    assert Trunc(20.0) == 20;
  }

  /** The corrected size is int() of the size as written: the two agree
      whenever the one as written is an int. */
  lemma CorrectedTruncates(x: real, limit: int)
    ensures Min(Max(1, Trunc(x)), limit) == Trunc(SizeFromScaled(x, limit).Value())
  {
    var t := Trunc(x);
    if x > 1.0 {
      assert t >= 1;
      if limit as real < x {
        assert limit <= t;
      } else {
        assert t <= limit;
      }
    } else {
      assert t <= 1;
    }
  }

  /** The corrected size, ClampedSize, is an int within [1, limit] for every
      limit of at least 1, 1 for an empty table, and the query it forms is
      accepted exactly when the limit is not negative. */
  lemma SampleSizeBounds(total: nat, rate: real, limit: int)
    ensures limit >= 1 ==> 1 <= ClampedSize(total, rate, limit) <= limit
    ensures total == 0 && limit >= 1 ==> ClampedSize(total, rate, limit) == 1
    ensures ClampedSize(total, rate, limit) >= 0 <==> limit >= 0
    ensures ClampedSize(total, rate, limit) == Trunc(SampleSizeAsWritten(total, rate, limit).Value())
  {
    CorrectedTruncates(total as real * rate, limit);
    if total == 0 {
      assert total as real * rate == 0.0;
    }
  }

  // ----- The environment -----

  /** One row of a result set. */
  type Row = seq<Json>

  /** describe_db_clusters / describe_db_instances: an endpoint, a ClientError
      (reported, and the run ends), or a reply without the expected entry. */
  datatype Lookup = Found(endpoint: string) | ClientRejected | Malformed

  /** What the scanner reads from outside. A MySQL helper that catches an
      exception returns None; the sampler receives the LIMIT value. */
  datatype RdsEnv = RdsEnv(
    lookup: Lookup,
    secretFound: bool,
    databases: Option<seq<string>>,
    tables: string -> Option<seq<string>>,
    describe: (string, string) -> Option<seq<Row>>,
    count: (string, string) -> Option<nat>,
    sample: (string, string, nat) -> Option<seq<Row>>,
    converse: (string, seq<Row>, seq<Row>) -> CallOutcome,
    clock: (string, string) -> string)

  /** `ORDER BY RAND() LIMIT k` returns k rows, or every row of a smaller table. */
  ghost predicate ValidSampler(env: RdsEnv)
  {
    forall db: string, table: string, k: nat {:trigger env.sample(db, table, k)} ::
      env.sample(db, table, k).Some? && env.count(db, table).Some? ==>
        |env.sample(db, table, k).value| == Min(k, env.count(db, table).value)
  }

  /** What get_sample_data returns: the rows, the sample size and the count. */
  datatype Sample = Sample(rows: seq<Row>, size: nat, total: nat)

  /** get_sample_data as written: the size is not truncated, so a float
      size gives a `LIMIT` MySQL rejects and, like any failed query, makes
      the function return None. A sample's size is then an int, equal to the
      truncating ClampedSize of the count. */
  function GetSampleData(env: RdsEnv, db: string, table: string, rate: real, limit: int): (s: Option<Sample>)
    ensures s.Some? ==> env.count(db, table).Some? && s.value.total == env.count(db, table).value
    ensures s.Some? ==> LimitAccepted(SampleSizeAsWritten(s.value.total, rate, limit))
    ensures s.Some? ==> s.value.size == SampleSizeAsWritten(s.value.total, rate, limit).i
    ensures s.Some? ==> s.value.size == ClampedSize(s.value.total, rate, limit)
    ensures s.Some? ==> env.sample(db, table, s.value.size) == Some(s.value.rows)
    ensures env.count(db, table).Some? && !LimitAccepted(SampleSizeAsWritten(env.count(db, table).value, rate, limit)) ==>
      s.None?
  {
    match env.count(db, table)
    case None => None
    case Some(total) =>
      var n := SampleSizeAsWritten(total, rate, limit);
      if !LimitAccepted(n) then None
      else
        SampleSizeBounds(total, rate, limit);
        match env.sample(db, table, n.i)
        case None => None
        case Some(rows) => Some(Sample(rows, n.i, total))
  }

  /** get_sample_data with `int()` around total_count * sample_rate, as the
      S3 scanner truncates its folder sample. */
  function GetSampleDataCorrected(env: RdsEnv, db: string, table: string, rate: real, limit: int): (s: Option<Sample>)
    ensures s.Some? ==> env.count(db, table).Some? && s.value.total == env.count(db, table).value
    ensures s.Some? ==> s.value.size == ClampedSize(s.value.total, rate, limit)
    ensures s.Some? ==> env.sample(db, table, s.value.size) == Some(s.value.rows)
  {
    match env.count(db, table)
    case None => None
    case Some(total) =>
      var k := ClampedSize(total, rate, limit);
      if k < 0 then None
      else
        match env.sample(db, table, k)
        case None => None
        case Some(rows) => Some(Sample(rows, k, total))
  }

  /** Corrected, every table whose two queries succeed is sampled as long as
      the limit is not negative; no scaled count is rejected. */
  lemma CorrectedSamples(env: RdsEnv, db: string, table: string, rate: real, limit: int)
    ensures GetSampleDataCorrected(env, db, table, rate, limit).Some? <==>
      && env.count(db, table).Some?
      && limit >= 0
      && env.sample(db, table, ClampedSize(env.count(db, table).value, rate, limit)).Some?
  {
    if env.count(db, table).Some? {
      SampleSizeBounds(env.count(db, table).value, rate, limit);
    }
  }

  /** The two agree on every table whose size as written MySQL accepts; on
      every other table with a row count, only the corrected one can sample. */
  lemma CorrectedAgrees(env: RdsEnv, db: string, table: string, rate: real, limit: int)
    ensures env.count(db, table).None? || LimitAccepted(SampleSizeAsWritten(env.count(db, table).value, rate, limit)) ==>
      GetSampleData(env, db, table, rate, limit) == GetSampleDataCorrected(env, db, table, rate, limit)
    ensures env.count(db, table).Some? && !LimitAccepted(SampleSizeAsWritten(env.count(db, table).value, rate, limit)) ==>
      GetSampleData(env, db, table, rate, limit).None?
  {
    if env.count(db, table).Some? {
      SampleSizeBounds(env.count(db, table).value, rate, limit);
    }
  }

  // ----- The record of one table -----

  /** What every table of one run shares. */
  datatype TableScan = TableScan(region: string, dbIdentifier: string, sourceType: string,
                                 rate: real, limit: int)

  const IDENTITY_KEYS: set<string> := {"source_type", "region", "db_identifier", "db_name", "table_name"}
  const SIZE_KEYS: set<string> := {"sample_size", "total_row"}

  /** The fields set before the model is called. */
  function TableFields(scan: TableScan, db: string, table: string, s: Sample): (r: Record)
    ensures r.Keys == IDENTITY_KEYS + SIZE_KEYS
    ensures r["db_name"] == JStr(db) && r["table_name"] == JStr(table)
    ensures r["sample_size"] == JNum(s.size as real) && r["total_row"] == JNum(s.total as real)
  {
    map["source_type" := JStr(scan.sourceType), "region" := JStr(scan.region),
        "db_identifier" := JStr(scan.dbIdentifier), "db_name" := JStr(db), "table_name" := JStr(table),
        "sample_size" := JNum(s.size as real), "total_row" := JNum(s.total as real)]
  }

  /** The record once the model has answered: the reply merged over the
      fields with the token counts and a timestamp, or the error text and a
      timestamp. */
  function TableRecord(base: Record, call: CallOutcome, modelId: string, timestamp: string): Record
  {
    match call
    case Replied(reply) =>
      (base + reply.parsed)["input_token" := JNum(reply.inputTokens as real)]
        ["output_token" := JNum(reply.outputTokens as real)]["timestamp" := JStr(timestamp)]
    case CallFailed(reason) =>
      base["error" := JStr(ModelIds.CantInvoke(modelId, reason))]["timestamp" := JStr(timestamp)]
  }

  /** A success record holds the fields, the reply's keys and the usage keys;
      the usage keys are the service's, the reply's keys win over the fields. */
  lemma SuccessTableRecord(base: Record, reply: ModelReply, modelId: string, timestamp: string)
    ensures var r := TableRecord(base, Replied(reply), modelId, timestamp);
      && r.Keys == base.Keys + reply.parsed.Keys + {"input_token", "output_token", "timestamp"}
      && r["input_token"] == JNum(reply.inputTokens as real)
      && r["output_token"] == JNum(reply.outputTokens as real)
      && r["timestamp"] == JStr(timestamp)
      && (forall k :: k in reply.parsed && k != "input_token" && k != "output_token" && k != "timestamp" ==>
            r[k] == reply.parsed[k])
      && (forall k :: k in base && k !in reply.parsed && k != "input_token" && k != "output_token" && k != "timestamp" ==>
            r[k] == base[k])
  {
  }

  /** An error record holds the fields, `error` and `timestamp`, and nothing
      from the reply. */
  lemma ErrorTableRecord(base: Record, reason: string, modelId: string, timestamp: string)
    ensures var r := TableRecord(base, CallFailed(reason), modelId, timestamp);
      && r.Keys == base.Keys + {"error", "timestamp"}
      && r["error"] == JStr(ModelIds.CantInvoke(modelId, reason))
      && r["timestamp"] == JStr(timestamp)
      && (forall k :: k in base && k != "error" && k != "timestamp" ==> r[k] == base[k])
  {
  }

  /** What process_single_table does with one table: raise (a failed query
      leaves None to unpack or to measure), append nothing, or append a record. */
  datatype TableOutcome = TableCrashed | NoRecord | Appended(record: Record)

  function TableOutcomeOf(scan: TableScan, env: RdsEnv, db: string, table: string): TableOutcome
  {
    var schema := env.describe(db, table);
    var sample := GetSampleData(env, db, table, scan.rate, scan.limit);
    if sample.None? || schema.None? then TableCrashed
    else if |schema.value| > 0 && |sample.value.rows| > 0 then
      var modelId := ModelIds.RdsModelId(scan.region);
      var call := env.converse(modelId, sample.value.rows, schema.value);
      Appended(TableRecord(TableFields(scan, db, table, sample.value), call, modelId, env.clock(db, table)))
    else NoRecord
  }

  /** As written, a table whose scaled count lies strictly between 1 and
      the limit (or on the limit) gets a float `LIMIT`, so its unpacking on
      None raises: at the defaults 0.2 and 10000, every table of 6 to 50000
      rows. */
  lemma FloatLimitCrashes(scan: TableScan, env: RdsEnv, db: string, table: string, total: nat)
    requires env.count(db, table) == Some(total)
    requires 1.0 < total as real * scan.rate <= scan.limit as real
    ensures TableOutcomeOf(scan, env, db, table).TableCrashed?
  {
    AsWrittenIsFloat(total as real * scan.rate, scan.limit);
  }

  /** The records one table adds to the list. */
  function Contribution(o: TableOutcome): (rs: seq<Record>)
    ensures |rs| <= 1
  {
    if o.Appended? then [o.record] else []
  }

  /** A table whose queries succeed adds a record exactly when its schema is
      not empty, it holds a row and the limit is at least 1: an empty table
      adds nothing. */
  lemma TableAppendsIff(scan: TableScan, env: RdsEnv, db: string, table: string)
    requires ValidSampler(env)
    requires !TableOutcomeOf(scan, env, db, table).TableCrashed?
    ensures TableOutcomeOf(scan, env, db, table).Appended? <==>
      && |env.describe(db, table).value| > 0
      && env.count(db, table).value > 0
      && scan.limit >= 1
  {
    var sample := GetSampleData(env, db, table, scan.rate, scan.limit).value;
    var k := ClampedSize(sample.total, scan.rate, scan.limit);
    assert env.sample(db, table, k) == Some(sample.rows);
    assert |sample.rows| == Min(k, sample.total);
  }

  /** Every appended record names its table and carries sample_size and
      total_row, the sample size being ClampedSize of the row count, unless
      the reply itself holds those keys; an error record holds nothing else. */
  lemma AppendedRecordFields(scan: TableScan, env: RdsEnv, db: string, table: string)
    requires TableOutcomeOf(scan, env, db, table).Appended?
    ensures var r := TableOutcomeOf(scan, env, db, table).record;
      var total := env.count(db, table).value;
      var call := env.converse(ModelIds.RdsModelId(scan.region),
                               env.sample(db, table, ClampedSize(total, scan.rate, scan.limit)).value,
                               env.describe(db, table).value);
      && IDENTITY_KEYS + SIZE_KEYS <= r.Keys
      && "timestamp" in r && r["timestamp"] == JStr(env.clock(db, table))
      && (call.Replied? && "sample_size" !in call.reply.parsed ==>
            r["sample_size"] == JNum(ClampedSize(total, scan.rate, scan.limit) as real))
      && (call.Replied? && "table_name" !in call.reply.parsed ==> r["table_name"] == JStr(table))
      && (call.CallFailed? ==>
            && r.Keys == IDENTITY_KEYS + SIZE_KEYS + {"error", "timestamp"}
            && r["table_name"] == JStr(table)
            && r["sample_size"] == JNum(ClampedSize(total, scan.rate, scan.limit) as real)
            && r["error"] == JStr(ModelIds.CantInvoke(ModelIds.RdsModelId(scan.region), call.reason)))
  {
    var sample := GetSampleData(env, db, table, scan.rate, scan.limit).value;
    var modelId := ModelIds.RdsModelId(scan.region);
    var base := TableFields(scan, db, table, sample);
    var call := env.converse(modelId, sample.rows, env.describe(db, table).value);
    match call {
      case Replied(reply) => SuccessTableRecord(base, reply, modelId, env.clock(db, table));
      case CallFailed(reason) => ErrorTableRecord(base, reason, modelId, env.clock(db, table));
    }
  }

  // ----- The tables of a database, and the databases of a server -----

  /** The records a list of tables appends, given the outcome of each table,
      in list order; None once a table raises. */
  function Collect(outcomeOf: string -> TableOutcome, tables: seq<string>): Option<seq<Record>>
  {
    if tables == [] then Some([])
    else
      match Collect(outcomeOf, tables[..|tables| - 1])
      case None => None
      case Some(rs) =>
        var o := outcomeOf(tables[|tables| - 1]);
        if o.TableCrashed? then None else Some(rs + Contribution(o))
  }

  /** The outcome of each table of a database. */
  function OutcomeIn(scan: TableScan, env: RdsEnv, db: string): string -> TableOutcome
  {
    table => TableOutcomeOf(scan, env, db, table)
  }

  /** The records of the tables in list order. */
  function TablesRecords(scan: TableScan, env: RdsEnv, db: string, tables: seq<string>): Option<seq<Record>>
  {
    Collect(OutcomeIn(scan, env, db), tables)
  }

  /** process_database: None when SHOW TABLES fails or a table raises. */
  function DatabaseRecords(scan: TableScan, env: RdsEnv, db: string): Option<seq<Record>>
  {
    match env.tables(db)
    case None => None
    case Some(ts) => TablesRecords(scan, env, db, ts)
  }

  /** The collected records follow the tables: record j comes from table
      idx[j], the indices increase, and every table left out appended nothing. */
  lemma {:induction false} CollectOrder(outcomeOf: string -> TableOutcome, tables: seq<string>)
    returns (idx: seq<nat>)
    requires Collect(outcomeOf, tables).Some?
    ensures var rs := Collect(outcomeOf, tables).value;
      && |idx| == |rs| <= |tables|
      && (forall j :: 0 <= j < |idx| ==> idx[j] < |tables| && outcomeOf(tables[idx[j]]) == Appended(rs[j]))
      && (forall j, j' :: 0 <= j < j' < |idx| ==> idx[j] < idx[j'])
      && (forall i :: 0 <= i < |tables| && i !in idx ==> outcomeOf(tables[i]) == NoRecord)
  {
    if tables != [] {
      var init := tables[..|tables| - 1];
      var last := |tables| - 1;
      var idx' := CollectOrder(outcomeOf, init);
      assert forall i :: 0 <= i < |init| ==> init[i] == tables[i];
      if outcomeOf(tables[last]).Appended? {
        idx := idx' + [last];
      } else {
        idx := idx';
      }
    } else {
      idx := [];
    }
  }

  /** The tables' records are in table-list order, at most one per table. */
  lemma TablesRecordsOrder(scan: TableScan, env: RdsEnv, db: string, tables: seq<string>)
    returns (idx: seq<nat>)
    requires TablesRecords(scan, env, db, tables).Some?
    ensures var rs := TablesRecords(scan, env, db, tables).value;
      && |idx| == |rs| <= |tables|
      && (forall j :: 0 <= j < |idx| ==>
            idx[j] < |tables| && TableOutcomeOf(scan, env, db, tables[idx[j]]) == Appended(rs[j]))
      && (forall j, j' :: 0 <= j < j' < |idx| ==> idx[j] < idx[j'])
      && (forall i :: 0 <= i < |tables| && i !in idx ==> TableOutcomeOf(scan, env, db, tables[i]) == NoRecord)
  {
    idx := CollectOrder(OutcomeIn(scan, env, db), tables);
  }

  /** The collected records are missing exactly when some table raises. */
  lemma {:induction false} CollectCrash(outcomeOf: string -> TableOutcome, tables: seq<string>)
    ensures Collect(outcomeOf, tables).None? <==>
      exists i :: 0 <= i < |tables| && outcomeOf(tables[i]).TableCrashed?
  {
    if tables != [] {
      var init := tables[..|tables| - 1];
      CollectCrash(outcomeOf, init);
      assert forall i :: 0 <= i < |init| ==> init[i] == tables[i];
    }
  }

  /** The tables' records are missing exactly when some table raises. */
  lemma TablesRecordsCrash(scan: TableScan, env: RdsEnv, db: string, tables: seq<string>)
    ensures TablesRecords(scan, env, db, tables).None? <==>
      exists i :: 0 <= i < |tables| && TableOutcomeOf(scan, env, db, tables[i]).TableCrashed?
  {
    CollectCrash(OutcomeIn(scan, env, db), tables);
  }

  /** One more table of the list: appending its contribution, or raising. */
  lemma CollectStep(outcomeOf: string -> TableOutcome, tables: seq<string>, i: nat)
    requires i < |tables|
    ensures outcomeOf(tables[i]).TableCrashed? ==> Collect(outcomeOf, tables[..i + 1]).None?
    ensures !outcomeOf(tables[i]).TableCrashed? && Collect(outcomeOf, tables[..i]).Some? ==>
      Collect(outcomeOf, tables[..i + 1]) == Some(Collect(outcomeOf, tables[..i]).value + Contribution(outcomeOf(tables[i])))
  {
    assert tables[..i + 1][..i] == tables[..i];
  }

  /** A table that raises leaves every longer table list without records. */
  lemma {:induction false} CollectAbort(outcomeOf: string -> TableOutcome, tables: seq<string>, n: nat)
    requires 0 < n <= |tables|
    requires Collect(outcomeOf, tables[..n]).None?
    ensures Collect(outcomeOf, tables).None?
    decreases |tables| - n
  {
    if n < |tables| {
      assert tables[..n + 1][..n] == tables[..n];
      CollectAbort(outcomeOf, tables, n + 1);
    } else {
      assert tables[..n] == tables;
    }
  }

  /** The names a full scan skips. */
  const SYSTEM_DATABASES: set<string> := {"information_schema", "mysql", "performance_schema", "sys"}

  /** The records of a full scan over a database list, given the records of
      each database: system databases are skipped, and None once a database
      raises. */
  function FullScan(recordsOf: string -> Option<seq<Record>>, dbs: seq<string>): Option<seq<Record>>
  {
    if dbs == [] then Some([])
    else
      var db := dbs[|dbs| - 1];
      match FullScan(recordsOf, dbs[..|dbs| - 1])
      case None => None
      case Some(rs) =>
        if db in SYSTEM_DATABASES then Some(rs)
        else
          match recordsOf(db)
          case None => None
          case Some(more) => Some(rs + more)
  }

  /** The records of every database of a list, none skipped. */
  function EachDatabase(recordsOf: string -> Option<seq<Record>>, dbs: seq<string>): Option<seq<Record>>
  {
    if dbs == [] then Some([])
    else
      match EachDatabase(recordsOf, dbs[..|dbs| - 1])
      case None => None
      case Some(rs) =>
        match recordsOf(dbs[|dbs| - 1])
        case None => None
        case Some(more) => Some(rs + more)
  }

  /** The records of each database of the server. */
  function RecordsIn(scan: TableScan, env: RdsEnv): string -> Option<seq<Record>>
  {
    db => DatabaseRecords(scan, env, db)
  }

  /** recordsOf gives the records of every database of the server. The
      trigger keeps the records of a database out of sight until a proof
      names them. */
  ghost predicate GivesDatabaseRecords(recordsOf: string -> Option<seq<Record>>, scan: TableScan, env: RdsEnv)
  {
    forall db: string {:trigger DatabaseRecords(scan, env, db)} :: recordsOf(db) == DatabaseRecords(scan, env, db)
  }

  lemma RecordsInGives(scan: TableScan, env: RdsEnv)
    ensures GivesDatabaseRecords(RecordsIn(scan, env), scan, env)
  {
  }

  /** The records of a full scan over the SHOW DATABASES list. */
  function AllDatabasesRecords(scan: TableScan, env: RdsEnv, dbs: seq<string>): Option<seq<Record>>
  {
    FullScan(RecordsIn(scan, env), dbs)
  }

  /** The user databases of a list, in list order. */
  function UserDatabases(dbs: seq<string>): (us: seq<string>)
    ensures |us| <= |dbs|
  {
    if dbs == [] then []
    else
      var db := dbs[|dbs| - 1];
      UserDatabases(dbs[..|dbs| - 1]) + (if db in SYSTEM_DATABASES then [] else [db])
  }

  /** A user database is one of the list that is not a system database. */
  lemma {:induction false} UserDatabasesMembers(dbs: seq<string>)
    ensures forall x :: x in UserDatabases(dbs) <==> x in dbs && x !in SYSTEM_DATABASES
  {
    if dbs != [] {
      var init := dbs[..|dbs| - 1];
      UserDatabasesMembers(init);
      assert dbs == init + [dbs[|dbs| - 1]];
    }
  }

  /** A full scan is the scan of the user databases alone, every one of them
      scanned. */
  lemma {:induction false} FullScanSkipsSystem(recordsOf: string -> Option<seq<Record>>, dbs: seq<string>)
    ensures FullScan(recordsOf, dbs) == EachDatabase(recordsOf, UserDatabases(dbs))
  {
    if dbs != [] {
      var init := dbs[..|dbs| - 1];
      var db := dbs[|dbs| - 1];
      FullScanSkipsSystem(recordsOf, init);
      var us := UserDatabases(init);
      if db in SYSTEM_DATABASES {
        assert UserDatabases(dbs) == us;
      } else {
        var us' := us + [db];
        assert UserDatabases(dbs) == us';
        assert us'[..|us'| - 1] == us && us'[|us'| - 1] == db;
      }
    }
  }

  /** One more database of the list: skipped, appended, or raising. */
  lemma FullScanStep(recordsOf: string -> Option<seq<Record>>, dbs: seq<string>, i: nat)
    requires i < |dbs|
    ensures dbs[i] in SYSTEM_DATABASES ==> FullScan(recordsOf, dbs[..i + 1]) == FullScan(recordsOf, dbs[..i])
    ensures dbs[i] !in SYSTEM_DATABASES && FullScan(recordsOf, dbs[..i]).Some? && recordsOf(dbs[i]).Some? ==>
      FullScan(recordsOf, dbs[..i + 1]) == Some(FullScan(recordsOf, dbs[..i]).value + recordsOf(dbs[i]).value)
    ensures dbs[i] !in SYSTEM_DATABASES && recordsOf(dbs[i]).None? ==> FullScan(recordsOf, dbs[..i + 1]).None?
  {
    assert dbs[..i + 1][..i] == dbs[..i];
  }

  /** A database that raises leaves every longer database list without records. */
  lemma {:induction false} FullScanAbort(recordsOf: string -> Option<seq<Record>>, dbs: seq<string>, n: nat)
    requires 0 < n <= |dbs|
    requires FullScan(recordsOf, dbs[..n]).None?
    ensures FullScan(recordsOf, dbs).None?
    decreases |dbs| - n
  {
    if n < |dbs| {
      assert dbs[..n + 1][..n] == dbs[..n];
      FullScanAbort(recordsOf, dbs, n + 1);
    } else {
      assert dbs[..n] == dbs;
    }
  }

  // ----- The list the records are appended to -----

  /** The `results` list of main, which the processing functions append to. */
  class ResultLog {
    var records: seq<Record>

    constructor ()
      ensures records == []
    {
      records := [];
    }

    /** process_single_table: appends the table's record, if any. `crashed`
        stands for the exception a failed query raises. */
    method ProcessSingleTable(scan: TableScan, env: RdsEnv, db: string, table: string) returns (crashed: bool)
      modifies this
      ensures crashed <==> TableOutcomeOf(scan, env, db, table).TableCrashed?
      ensures !crashed ==> records == old(records) + Contribution(TableOutcomeOf(scan, env, db, table))
      ensures crashed ==> records == old(records)
    {
      var result: Record := map[];
      result := result["source_type" := JStr(scan.sourceType)];
      result := result["region" := JStr(scan.region)];
      result := result["db_identifier" := JStr(scan.dbIdentifier)];
      result := result["db_name" := JStr(db)];
      result := result["table_name" := JStr(table)];
      var schema := env.describe(db, table);
      var sample := GetSampleData(env, db, table, scan.rate, scan.limit);
      if sample.None? || schema.None? {
        return true;
      }
      crashed := false;
      var s := sample.value;
      if |schema.value| > 0 && |s.rows| > 0 {
        result := result["sample_size" := JNum(s.size as real)];
        result := result["total_row" := JNum(s.total as real)];
        assert result == TableFields(scan, db, table, s);
        var modelId := ModelIds.RdsModelId(scan.region);
        var response := env.converse(modelId, s.rows, schema.value);
        match response {
          case Replied(reply) =>
            result := result + reply.parsed;
            result := result["input_token" := JNum(reply.inputTokens as real)];
            result := result["output_token" := JNum(reply.outputTokens as real)];
            result := result["timestamp" := JStr(env.clock(db, table))];
          case CallFailed(reason) =>
            result := result["error" := JStr(ModelIds.CantInvoke(modelId, reason))];
            result := result["timestamp" := JStr(env.clock(db, table))];
        }
        records := records + [result];
      }
    }

    /** process_database: the tables of SHOW TABLES, one after the other. */
    method ProcessDatabase(scan: TableScan, env: RdsEnv, db: string,
                           ghost recordsOf: string -> Option<seq<Record>>) returns (crashed: bool)
      requires GivesDatabaseRecords(recordsOf, scan, env)
      modifies this
      ensures crashed <==> recordsOf(db).None?
      ensures !crashed ==> records == old(records) + recordsOf(db).value
      ensures |old(records)| <= |records| && records[..|old(records)|] == old(records)
    {
      assert recordsOf(db) == DatabaseRecords(scan, env, db);
      var tableList := env.tables(db);
      if tableList.None? {
        return true;
      }
      var ts := tableList.value;
      ghost var outcomeOf := OutcomeIn(scan, env, db);
      var i := 0;
      while i < |ts|
        invariant 0 <= i <= |ts|
        invariant Collect(outcomeOf, ts[..i]).Some?
        invariant records == old(records) + Collect(outcomeOf, ts[..i]).value
      {
        var c := ProcessSingleTable(scan, env, db, ts[i]);
        assert outcomeOf(ts[i]) == TableOutcomeOf(scan, env, db, ts[i]);
        CollectStep(outcomeOf, ts, i);
        if c {
          CollectAbort(outcomeOf, ts, i + 1);
          return true;
        }
        AppendAssoc(old(records), Collect(outcomeOf, ts[..i]).value, Contribution(outcomeOf(ts[i])));
        i := i + 1;
      }
      assert ts[..i] == ts;
      crashed := false;
    }

    /** The loop of main over SHOW DATABASES, skipping the system databases. */
    method ProcessAllDatabases(scan: TableScan, env: RdsEnv, dbs: seq<string>,
                               ghost recordsOf: string -> Option<seq<Record>>) returns (crashed: bool)
      requires GivesDatabaseRecords(recordsOf, scan, env)
      modifies this
      ensures crashed <==> FullScan(recordsOf, dbs).None?
      ensures !crashed ==> records == old(records) + FullScan(recordsOf, dbs).value
      ensures |old(records)| <= |records| && records[..|old(records)|] == old(records)
    {
      var i := 0;
      while i < |dbs|
        invariant 0 <= i <= |dbs|
        invariant FullScan(recordsOf, dbs[..i]).Some?
        invariant records == old(records) + FullScan(recordsOf, dbs[..i]).value
      {
        FullScanStep(recordsOf, dbs, i);
        if dbs[i] !in SYSTEM_DATABASES {
          var c := ProcessDatabase(scan, env, dbs[i], recordsOf);
          if c {
            FullScanAbort(recordsOf, dbs, i + 1);
            return true;
          }
          AppendAssoc(old(records), FullScan(recordsOf, dbs[..i]).value, recordsOf(dbs[i]).value);
        }
        i := i + 1;
      }
      assert dbs[..i] == dbs;
      crashed := false;
    }
  }

  // ----- One run of the script -----

  /** The command-line arguments that shape a run. */
  datatype RdsArgs = RdsArgs(dbIdentifier: string, dbType: string, region: string,
                             dbName: Option<string>, tableName: Option<string>,
                             rate: real, limit: int)

  /** How a run ends: an early return with a message, an exception, the
      prompt declined, or the records saved to the output file. */
  datatype RdsOutcome =
    | TableNeedsDatabase
    | LookupFailed
    | MissingDatabase
    | MissingTable
    | Cancelled
    | Crashed
    | Saved(records: seq<Record>)

  /** "Aurora" for a cluster, "RDS" for an instance. */
  function SourceType(dbType: string): string
  {
    if dbType == "aurora" then "Aurora" else "RDS"
  }

  function ScanOf(args: RdsArgs): TableScan
  {
    TableScan(args.region, args.dbIdentifier, SourceType(args.dbType), args.rate, args.limit)
  }

  /** The records of the chosen target: one table, one database, or every
      user database. */
  function TargetRecords(args: RdsArgs, env: RdsEnv): Option<seq<Record>>
  {
    var scan := ScanOf(args);
    if Cli.Truthy(args.dbName) then
      if Cli.Truthy(args.tableName) then
        var o := TableOutcomeOf(scan, env, args.dbName.value, args.tableName.value);
        if o.TableCrashed? then None else Some(Contribution(o))
      else DatabaseRecords(scan, env, args.dbName.value)
    else
      match env.databases
      case None => None
      case Some(dbs) => AllDatabasesRecords(scan, env, dbs)
  }

  /** The checks main makes once connected: the named database, and then the
      named table, must exist. None lets the run go on. */
  function TargetCheck(args: RdsArgs, env: RdsEnv): Option<RdsOutcome>
  {
    if !Cli.Truthy(args.dbName) then None
    else
      match env.databases
      case None => Some(Crashed)
      case Some(dbs) =>
        if args.dbName.value !in dbs then Some(MissingDatabase)
        else if !Cli.Truthy(args.tableName) then None
        else
          match env.tables(args.dbName.value)
          case None => Some(Crashed)
          case Some(ts) => if args.tableName.value !in ts then Some(MissingTable) else None
  }

  /** main, from the argument guard to the saved file. */
  function RdsRun(args: RdsArgs, env: RdsEnv, answer: string): RdsOutcome
  {
    if Cli.Truthy(args.tableName) && !Cli.Truthy(args.dbName) then TableNeedsDatabase
    else if env.lookup.ClientRejected? then LookupFailed
    else if env.lookup.Malformed? || !env.secretFound then Crashed
    else if TargetCheck(args, env).Some? then TargetCheck(args, env).value
    else if !Cli.Confirmed(answer) then Cancelled
    else
      match TargetRecords(args, env)
      case None => Crashed
      case Some(rs) => Saved(rs)
  }

  /** main, with the records gathered in a ResultLog. */
  method RunRds(args: RdsArgs, env: RdsEnv, answer: string) returns (outcome: RdsOutcome)
    ensures outcome == RdsRun(args, env, answer)
  {
    if Cli.Truthy(args.tableName) && !Cli.Truthy(args.dbName) {
      return TableNeedsDatabase;
    }
    match env.lookup {
      case ClientRejected => return LookupFailed;
      case Malformed => return Crashed;
      case Found(_) =>
    }
    if !env.secretFound {
      return Crashed;
    }
    var check := TargetCheck(args, env);
    if check.Some? {
      return check.value;
    }
    if !Cli.Confirmed(answer) {
      return Cancelled;
    }
    var scan := ScanOf(args);
    var log := new ResultLog();
    var crashed: bool;
    if Cli.Truthy(args.dbName) {
      if Cli.Truthy(args.tableName) {
        crashed := log.ProcessSingleTable(scan, env, args.dbName.value, args.tableName.value);
      } else {
        RecordsInGives(scan, env);
        crashed := log.ProcessDatabase(scan, env, args.dbName.value, RecordsIn(scan, env));
      }
    } else {
      if env.databases.None? {
        return Crashed;
      }
      RecordsInGives(scan, env);
      crashed := log.ProcessAllDatabases(scan, env, env.databases.value, RecordsIn(scan, env));
    }
    if crashed {
      return Crashed;
    }
    outcome := Saved(log.records);
  }

  /** `--table-name` without `--db-name` ends the run before any service is
      asked: the environment plays no part. */
  lemma TableWithoutDatabase(args: RdsArgs, env: RdsEnv, other: RdsEnv, answer: string)
    requires Cli.Truthy(args.tableName) && !Cli.Truthy(args.dbName)
    ensures RdsRun(args, env, answer) == RdsRun(args, other, answer) == TableNeedsDatabase
  {
  }

  /** A saved run was confirmed, found its endpoint, and found the database
      and table it was told to scan; its records are those of the target. */
  lemma SavedRun(args: RdsArgs, env: RdsEnv, answer: string)
    requires RdsRun(args, env, answer).Saved?
    ensures Cli.Confirmed(answer)
    ensures env.lookup.Found? && env.secretFound
    ensures Cli.Truthy(args.tableName) ==> Cli.Truthy(args.dbName)
    ensures Cli.Truthy(args.dbName) ==> env.databases.Some? && args.dbName.value in env.databases.value
    ensures Cli.Truthy(args.dbName) && Cli.Truthy(args.tableName) ==>
      env.tables(args.dbName.value).Some? && args.tableName.value in env.tables(args.dbName.value).value
    ensures TargetRecords(args, env) == Some(RdsRun(args, env, answer).records)
  {
  }

  /** As written, a confirmed scan of one named table whose size comes out
      a float ends in an exception, and no file is written; corrected, the
      same table would be sampled. */
  lemma FloatLimitRunCrashes(args: RdsArgs, env: RdsEnv, answer: string, total: nat)
    requires Cli.Truthy(args.dbName) && Cli.Truthy(args.tableName)
    requires env.lookup.Found? && env.secretFound && TargetCheck(args, env).None? && Cli.Confirmed(answer)
    requires env.count(args.dbName.value, args.tableName.value) == Some(total)
    requires 1.0 < total as real * args.rate <= args.limit as real
    ensures RdsRun(args, env, answer) == Crashed
  {
    var scan := ScanOf(args);
    var x := total as real * args.rate;
    assert x == total as real * scan.rate;
    assert 1.0 < x;
    FloatLimitCrashes(scan, env, args.dbName.value, args.tableName.value, total);
  }

  /** A declined prompt saves nothing, whatever the databases hold. */
  lemma DeclinedRunCancelled(args: RdsArgs, env: RdsEnv, answer: string)
    requires !Cli.Confirmed(answer)
    ensures !RdsRun(args, env, answer).Saved?
  {
  }
}
