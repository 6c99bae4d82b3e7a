/**
 * Database bootstrap (lib/db-init.ts): which of the required tables are
 * missing, which of them get created, and how the outcome is reported. The
 * database answers (table listings, creation errors, probe errors) are
 * parameters.
 */
module DbInit {
  import opened Common
  import opened Strings

  /** The tables `ensureDatabaseTables` probes, in its order. */
  const PROBED_TABLES: seq<string> := [
    "chat_messages", "applications", "job_alerts", "resumes", "follow_ups", "resume_scores", "job_matches",
    "industry_benchmarks", "salary_data", "optimized_resumes", "user_preferences", "company_insights",
    "profile_versions", "profiles"]

  /** The tables the initialisers require, in their order. */
  const REQUIRED_TABLES: seq<string> := [
    "profiles", "chat_messages", "applications", "resumes", "follow_ups", "job_alerts", "resume_scores",
    "job_matches", "industry_benchmarks", "salary_data", "optimized_resumes", "user_preferences",
    "company_insights", "profile_versions"]

  /** `REQUIRED_TABLES.filter((table) => !existingTables.includes(table))` */
  function MissingTables(existing: seq<string>): seq<string>
  {
    Filter(REQUIRED_TABLES, (t: string) => t !in existing)
  }

  /** The missing tables are the required ones not listed, in the required order. */
  lemma MissingTablesInOrder(existing: seq<string>, t: string)
    ensures t in MissingTables(existing) <==> t in REQUIRED_TABLES && t !in existing
    ensures SubsequenceOf(MissingTables(existing), REQUIRED_TABLES)
    ensures MissingTables(existing) == [] <==> forall i :: 0 <= i < |REQUIRED_TABLES| ==> REQUIRED_TABLES[i] in existing
  {
    FilterMembers(REQUIRED_TABLES, (t: string) => t !in existing, t);
    FilterInOrder(REQUIRED_TABLES, (t: string) => t !in existing);
    if MissingTables(existing) == [] {
      forall i | 0 <= i < |REQUIRED_TABLES| ensures REQUIRED_TABLES[i] in existing {
        FilterMembers(REQUIRED_TABLES, (t: string) => t !in existing, REQUIRED_TABLES[i]);
      }
    } else {
      var m := MissingTables(existing)[0];
      FilterMembers(REQUIRED_TABLES, (t: string) => t !in existing, m);
    }
  }

  /** The outcome both initialisers report. */
  datatype InitResult = InitResult(success: bool, error: Option<string>, created: seq<string>, message: string)

  const ALL_EXIST := "All required tables already exist"

  function CreatedMessage(created: seq<string>, missing: seq<string>): string
  {
    "Created " + Decimal(|created|) + " of " + Decimal(|missing|) + " missing tables"
  }

  /** The tables whose creation goes through, given which creations fail. */
  function Created(missing: seq<string>, createFails: string -> bool): seq<string>
  {
    Filter(missing, (t: string) => !createFails(t))
  }

  /** The loop over the missing tables that collects the ones created. */
  method CreateTables(missing: seq<string>, createFails: string -> bool) returns (created: seq<string>)
    ensures created == Created(missing, createFails)
  {
    created := [];
    var i := 0;
    while i < |missing|
      invariant 0 <= i <= |missing|
      invariant created == Created(missing[..i], createFails)
    {
      var table := missing[i];
      if !createFails(table) {
        created := created + [table];
      }
      FilterSnoc(missing[..i], table, (t: string) => !createFails(t));
      assert missing[..i + 1] == missing[..i] + [table];
      i := i + 1;
    }
    assert missing[..i] == missing;
  }

  /** The report once the existing tables are known and the missing ones were attempted. */
  function Report(existing: seq<string>, createFails: string -> bool): InitResult
  {
    var missing := MissingTables(existing);
    if |missing| == 0 then InitResult(true, None, [], ALL_EXIST)
    else
      var created := Created(missing, createFails);
      InitResult(|created| == |missing|, None, created, CreatedMessage(created, missing))
  }

  /**
   * Every report lists as created exactly the missing tables whose creation
   * went through, in order, and succeeds iff none failed.
   */
  lemma ReportIsFaithful(existing: seq<string>, createFails: string -> bool, t: string)
    ensures var r := Report(existing, createFails);
      && SubsequenceOf(r.created, MissingTables(existing))
      && (t in r.created <==> t in MissingTables(existing) && !createFails(t))
      && (r.success <==> forall i :: 0 <= i < |MissingTables(existing)| ==> !createFails(MissingTables(existing)[i]))
      && (r.success <==> r.created == MissingTables(existing))
  {
    ReportCreatedInOrder(existing, createFails, t);
    ReportSucceedsIffAllCreated(existing, createFails);
  }

  lemma ReportCreatedInOrder(existing: seq<string>, createFails: string -> bool, t: string)
    ensures var r := Report(existing, createFails);
      && SubsequenceOf(r.created, MissingTables(existing))
      && (t in r.created <==> t in MissingTables(existing) && !createFails(t))
  {
    var missing := MissingTables(existing);
    FilterInOrder(missing, (t: string) => !createFails(t));
    FilterMembers(missing, (t: string) => !createFails(t), t);
  }

  lemma ReportSucceedsIffAllCreated(existing: seq<string>, createFails: string -> bool)
    ensures var r := Report(existing, createFails);
      && (r.success <==> forall i :: 0 <= i < |MissingTables(existing)| ==> !createFails(MissingTables(existing)[i]))
      && (r.success <==> r.created == MissingTables(existing))
  {
    FilterKeepsAll(MissingTables(existing), (t: string) => !createFails(t));
  }

  /** With nothing missing, the report is a success that created nothing. */
  lemma NothingMissing(existing: seq<string>, createFails: string -> bool)
    requires forall i :: 0 <= i < |REQUIRED_TABLES| ==> REQUIRED_TABLES[i] in existing
    ensures Report(existing, createFails) == InitResult(true, None, [], ALL_EXIST)
  {
    MissingTablesInOrder(existing, "");
  }

  /** `initWithSupabaseRPC`, given the `get_tables` answer and which `create_table` calls fail. */
  function RpcInit(existing: Result<seq<string>>, createFails: string -> bool): InitResult
  {
    match existing
    case Err(message) => InitResult(false, Some(message), [], "Failed to check existing tables with RPC")
    case Ok(tables) => Report(tables, createFails)
  }

  method InitWithSupabaseRpc(existing: Result<seq<string>>, createFails: string -> bool) returns (r: InitResult)
    ensures r == RpcInit(existing, createFails)
  {
    if existing.Err? {
      return InitResult(false, Some(existing.error), [], "Failed to check existing tables with RPC");
    }
    var missingTables := MissingTables(existing.value);
    if |missingTables| == 0 {
      return InitResult(true, None, [], ALL_EXIST);
    }
    var createdTables := CreateTables(missingTables, createFails);
    r := InitResult(|createdTables| == |missingTables|, None, createdTables, CreatedMessage(createdTables, missingTables));
  }

  /**
   * `initWithPostgres`, given the table listing (an error when the
   * transaction's queries throw, which rolls back and rethrows) and which
   * schema statements fail.
   */
  function PostgresInit(existing: Result<seq<string>>, createFails: string -> bool): Result<InitResult>
  {
    match existing
    case Err(message) => Err(message)
    case Ok(tables) => Ok(Report(tables, createFails))
  }

  method InitWithPostgres(existing: Result<seq<string>>, createFails: string -> bool) returns (r: Result<InitResult>)
    ensures r == PostgresInit(existing, createFails)
  {
    if existing.Err? {
      return Err(existing.error);
    }
    var missingTables := MissingTables(existing.value);
    if |missingTables| == 0 {
      return Ok(InitResult(true, None, [], ALL_EXIST));
    }
    var createdTables := CreateTables(missingTables, createFails);
    r := Ok(InitResult(|createdTables| == |missingTables|, None, createdTables, CreatedMessage(createdTables, missingTables)));
  }

  const INIT_FAILED := "Failed to initialize database. See logs for details."

  /**
   * `initializeDatabase`: the RPC route first, and the Postgres route only
   * when that is unsuccessful; a Postgres failure becomes a failed report.
   * `triedPostgres` is whether the second route ran.
   */
  method InitializeDatabase(
    rpcTables: Result<seq<string>>, rpcFails: string -> bool, pgTables: Result<seq<string>>, pgFails: string -> bool)
    returns (r: InitResult, triedPostgres: bool)
    ensures triedPostgres <==> !RpcInit(rpcTables, rpcFails).success
    ensures !triedPostgres ==> r == RpcInit(rpcTables, rpcFails)
    ensures triedPostgres && pgTables.Ok? ==> r == Report(pgTables.value, pgFails)
    ensures triedPostgres && pgTables.Err? ==> r == InitResult(false, Some(pgTables.error), [], INIT_FAILED)
  {
    var result := InitWithSupabaseRpc(rpcTables, rpcFails);
    if result.success {
      return result, false;
    }
    triedPostgres := true;
    var pg := InitWithPostgres(pgTables, pgFails);
    if pg.Err? {
      return InitResult(false, Some(pg.error), [], INIT_FAILED), true;
    }
    r := pg.value;
  }

  /** The SQL a table is created with: its own statement, or the generic one. */
  datatype Schema = Listed(table: string) | Generic(sql: string)

  /** The tables with a statement of their own. */
  const SCHEMA_TABLES: set<string> := {
    "profiles", "chat_messages", "applications", "resumes", "follow_ups", "job_alerts", "resume_scores",
    "job_matches", "industry_benchmarks", "salary_data", "optimized_resumes", "user_preferences",
    "company_insights", "profile_versions"}

  const GENERIC_HEAD := "\n      "
  const GENERIC_COLUMNS :=
    "\n" +
    "        id UUID PRIMARY KEY DEFAULT gen_random_uuid(),\n" +
    "        user_id UUID NOT NULL,\n" +
    "        created_at TIMESTAMP WITH TIME ZONE DEFAULT now()\n" +
    "      )\n    "

  function CreateClause(tableName: string): string
  {
    "CREATE TABLE IF NOT EXISTS " + tableName + " ("
  }

  /** The statement for a table with no statement of its own: an id, a user id and a creation time. */
  function GenericSchema(tableName: string): string
  {
    GENERIC_HEAD + CreateClause(tableName) + GENERIC_COLUMNS
  }

  /** The generic statement creates the table it is asked for. */
  lemma GenericSchemaNamesTable(tableName: string)
    ensures Contains(GenericSchema(tableName), CreateClause(tableName))
  {
    ContainsInfix(GENERIC_HEAD, CreateClause(tableName), GENERIC_COLUMNS);
  }

  /** `getTableSchema`: a listed table's own statement, otherwise the generic one. */
  function GetTableSchema(tableName: string): (s: Schema)
    ensures s.Listed? <==> tableName in SCHEMA_TABLES
    ensures s.Listed? ==> s.table == tableName
    ensures s.Generic? ==> s.sql == GenericSchema(tableName)
  {
    if tableName in SCHEMA_TABLES then Listed(tableName) else Generic(GenericSchema(tableName))
  }

  /** Both lists name the same fourteen tables, and each of them has a statement of its own. */
  lemma RequiredTablesHaveSchemas()
    ensures |REQUIRED_TABLES| == |PROBED_TABLES| == 14
    ensures forall t :: t in REQUIRED_TABLES <==> t in PROBED_TABLES
    ensures forall t :: t in REQUIRED_TABLES <==> t in SCHEMA_TABLES
  {
  }

  /** What probing a table with a zero-row select yields. */
  datatype Probe = Found | ProbeError(message: string) | ProbeThrew

  /** A table counts as missing when the probe throws, or errors naming a relation that does not exist. */
  predicate TableMissing(p: Probe)
  {
    p.ProbeThrew? || (p.ProbeError? && Contains(p.message, "relation") && Contains(p.message, "does not exist"))
  }

  datatype EnsureResult = EnsureResult(success: bool, created: seq<string>)

  /**
   * `ensureDatabaseTables`: probes each table in turn and reports every
   * missing one as created, whatever its creation request then does.
   */
  method EnsureDatabaseTables(probe: string -> Probe) returns (r: EnsureResult)
    ensures r.success
    ensures r.created == Filter(PROBED_TABLES, (t: string) => TableMissing(probe(t)))
  {
    var missingTables := [];
    var i := 0;
    while i < |PROBED_TABLES|
      invariant 0 <= i <= |PROBED_TABLES|
      invariant missingTables == Filter(PROBED_TABLES[..i], (t: string) => TableMissing(probe(t)))
    {
      var table := PROBED_TABLES[i];
      match probe(table) {
        case Found =>
        case ProbeError(message) =>
          if Contains(message, "relation") && Contains(message, "does not exist") {
            missingTables := missingTables + [table];
          }
        case ProbeThrew =>
          missingTables := missingTables + [table];
      }
      FilterSnoc(PROBED_TABLES[..i], table, (t: string) => TableMissing(probe(t)));
      assert PROBED_TABLES[..i + 1] == PROBED_TABLES[..i] + [table];
      i := i + 1;
    }
    assert PROBED_TABLES[..i] == PROBED_TABLES;
    r := EnsureResult(true, missingTables);
  }

  /** A probed table is reported iff its probe says it is missing; the report keeps the probe order. */
  lemma EnsureReportsMissing(probe: string -> Probe, t: string)
    ensures var created := Filter(PROBED_TABLES, (t: string) => TableMissing(probe(t)));
      && (t in created <==> t in PROBED_TABLES && TableMissing(probe(t)))
      && SubsequenceOf(created, PROBED_TABLES)
  {
    FilterMembers(PROBED_TABLES, (t: string) => TableMissing(probe(t)), t);
    FilterInOrder(PROBED_TABLES, (t: string) => TableMissing(probe(t)));
  }
}
