/**
 * The provisioning workflow of src/tenant/models.py over an explicit world:
 * the databases on the server, the db.json registry, the in-memory
 * settings.DATABASES map, the databases migrated so far, the user tables
 * and the log of outbound calls in the order they were made.
 *
 * Each external step (CREATE DATABASE, the migration engine, the rollback
 * statement, the ORM) is abstract: its success or failure is an input.
 * Exceptions are the Raised status of a Run.
 */
module Workflow {
  import opened Wrappers
  import Json
  import Models
  import DbConfig
  import Registry
  import Accounts

  datatype Call =
    | CatalogSave(tenant: string)                 // super().save(): the tenant row is written
    | Execute(statement: string)                  // a statement on the administrative connection
    | RegistryWrite(key: string)                  // add_to_local_json rewrote db.json
    | SettingsWrite(alias: string)                // settings.DATABASES[alias] was assigned
    | Migrate(database: string)                   // the migration engine was invoked
    | SuperuserStep(database: string, username: string) // create_superuser was invoked

  datatype World = World(
    databases: set<string>,
    registry: Registry.Store,
    settings: map<string, Json.Value>,
    migrated: set<string>,
    tables: Accounts.AuthTables,
    calls: seq<Call>)

  datatype Error =
    | SpacesInDbName      // the exception Tenant.save raises
    | RegistryUnreadable  // json.load rejected db.json
    | DatabaseError       // a statement on the administrative connection failed
    | MigrationError      // the migration engine failed
    | OrmError            // an ORM call of create_superuser failed

  datatype Status = Completed | Raised(error: Error)

  datatype Run = Run(world: World, status: Status)

  /** How each abstract step turns out in one provisioning attempt. */
  datatype Outcomes = Outcomes(createDatabase: bool, migrate: bool, rollback: bool, orm: Accounts.Fault)

  /** The statement create_db issues to create the database; the name is formatted in unquoted. */
  function CreateSql(dbName: string): string
  {
    "CREATE DATABASE " + dbName + ";"
  }

  /** The statement create_db issues in its exception handler. */
  function DeleteSql(dbName: string): string
  {
    "DELETE DATABASE " + dbName + ";"
  }

  /** The calls a run made after those of `w`. */
  function NewCalls(w: World, r: Run): seq<Call>
    requires |w.calls| <= |r.world.calls|
  {
    r.world.calls[|w.calls|..]
  }

  /** add_to_local_json(config, key): db.json is read, extended and rewritten. */
  function AddToLocalJson(w: World, config: Json.Value, key: string): (r: Run)
    ensures r.status.Raised? <==> w.registry.Unreadable?
    ensures r.status.Raised? ==> r.world == w
    ensures r.status.Completed? ==>
      r.world == w.(registry := Registry.Upsert(w.registry, key, config).value,
                    calls := w.calls + [RegistryWrite(key)])
  {
    match Registry.Upsert(w.registry, key, config)
    case None => Run(w, Raised(RegistryUnreadable))
    case Some(store) => Run(w.(registry := store, calls := w.calls + [RegistryWrite(key)]), Completed)
  }

  /** internal_migrate(db): the migration engine run against `db`. */
  function InternalMigrate(w: World, dbName: string, ok: bool): (r: Run)
    ensures r.world.calls == w.calls + [Migrate(dbName)]
    ensures r.status.Completed? <==> ok
    ensures r.world.migrated == if ok then w.migrated + {dbName} else w.migrated
    ensures r.world.(migrated := w.migrated, calls := w.calls) == w
  {
    Run(w.(migrated := if ok then w.migrated + {dbName} else w.migrated, calls := w.calls + [Migrate(dbName)]),
        if ok then Completed else Raised(MigrationError))
  }

  /** create_superuser(username, email, password, db). */
  function CreateSuperuser(w: World, username: string, email: string, password: string,
                           dbName: string, fault: Accounts.Fault): (r: Run)
    ensures r.world.calls == w.calls + [SuperuserStep(dbName, username)]
    ensures r.world.(tables := w.tables, calls := w.calls) == w
    ensures r.status.Raised? <==> Accounts.EnsureSuperuser(w.tables, username, email, password, dbName, fault).raised
    ensures r.world.tables == Accounts.EnsureSuperuser(w.tables, username, email, password, dbName, fault).tables
  {
    var e := Accounts.EnsureSuperuser(w.tables, username, email, password, dbName, fault);
    Run(w.(tables := e.tables, calls := w.calls + [SuperuserStep(dbName, username)]),
        if e.raised then Raised(OrmError) else Completed)
  }

  /** The try block of create_db: create, register, publish, migrate. */
  function TryBlock(w: World, dbName: string, o: Outcomes): Run
  {
    var issued := w.(calls := w.calls + [Execute(CreateSql(dbName))]);
    if !o.createDatabase then Run(issued, Raised(DatabaseError))
    else
      var registered := AddToLocalJson(issued.(databases := issued.databases + {dbName}),
                                       DbConfig.MakeConfig(dbName), dbName);
      if registered.status.Raised? then registered
      else
        var w1 := registered.world;
        var published := w1.(settings := w1.settings[dbName := DbConfig.MakeConfig(dbName)],
                             calls := w1.calls + [SettingsWrite(dbName)]);
        InternalMigrate(published, dbName, o.migrate)
  }

  /** The exception handler of create_db: the rollback statement, itself unguarded. */
  function Handler(w: World, dbName: string, ok: bool): Run
  {
    Run(w.(calls := w.calls + [Execute(DeleteSql(dbName))]), if ok then Completed else Raised(DatabaseError))
  }

  /** The account step of create_db: create_superuser when the tenant has a client. */
  function ClientStep(w: World, t: Models.Tenant, fault: Accounts.Fault): Run
  {
    match t.client
    case None => Run(w, Completed)
    case Some(c) => CreateSuperuser(w, c.username, c.email, c.password, t.dbName, fault)
  }

  /**
   * create_db, the post_save receiver. It never looks at the `created`
   * flag, so it has no such input: every run begins with CREATE DATABASE,
   * whatever the world already holds, and only ever appends to the log.
   */
  function CreateDb(w: World, t: Models.Tenant, o: Outcomes): (r: Run)
    ensures |r.world.calls| > |w.calls| && r.world.calls[..|w.calls|] == w.calls
    ensures r.world.calls[|w.calls|] == Execute(CreateSql(t.dbName))
  {
    // sql.Identifier(t.dbName).string is the name itself
    var dbName := t.dbName;
    var attempt := TryBlock(w, dbName, o);
    var handled := if attempt.status.Raised? then Handler(attempt.world, dbName, o.rollback) else attempt;
    if handled.status.Raised? then handled else ClientStep(handled.world, t, o.orm)
  }

  /** Tenant.save: the space check, the row write, then the post_save receiver. */
  function Save(w: World, t: Models.Tenant, o: Outcomes): (r: Run)
    ensures r.status == Raised(SpacesInDbName) <==> ' ' in t.dbName
    ensures ' ' in t.dbName ==> r.world == w
  {
    Models.SpaceCheckExact(t.dbName);
    if !Models.PassesSpaceCheck(t.dbName) then Run(w, Raised(SpacesInDbName))
    else CreateDb(w.(calls := w.calls + [CatalogSave(t.name)]), t, o)
  }

  /** The try block of create_db got past every step. */
  predicate TrySucceeds(w: World, o: Outcomes)
  {
    o.createDatabase && !w.registry.Unreadable? && o.migrate
  }

  /**
   * When CREATE DATABASE fails, neither the registry nor settings gains an
   * entry, the migration engine is never invoked, and the rollback
   * statement is issued straight after.
   */
  lemma CreateFailureLeavesNoEntries(w: World, t: Models.Tenant, o: Outcomes)
    requires !o.createDatabase
    ensures var r := CreateDb(w, t, o);
      && r.world.registry == w.registry
      && r.world.settings == w.settings
      && r.world.migrated == w.migrated
      && r.world.databases == w.databases
      && NewCalls(w, r)[..2] == [Execute(CreateSql(t.dbName)), Execute(DeleteSql(t.dbName))]
      && Migrate(t.dbName) !in NewCalls(w, r)
      && RegistryWrite(t.dbName) !in NewCalls(w, r)
  {
  }

  /**
   * When db.json cannot be read, settings is left untouched and migration
   * never runs; the database just created stays and the rollback statement
   * follows.
   */
  lemma RegistryFailureLeavesSettings(w: World, t: Models.Tenant, o: Outcomes)
    requires o.createDatabase && w.registry.Unreadable?
    ensures var r := CreateDb(w, t, o);
      && r.world.registry == w.registry
      && r.world.settings == w.settings
      && r.world.migrated == w.migrated
      && r.world.databases == w.databases + {t.dbName}
      && NewCalls(w, r)[..2] == [Execute(CreateSql(t.dbName)), Execute(DeleteSql(t.dbName))]
      && SettingsWrite(t.dbName) !in NewCalls(w, r)
      && Migrate(t.dbName) !in NewCalls(w, r)
  {
  }

  /**
   * Once the database is created and db.json is readable, the effects come
   * in the order registry write, settings update, migration, whether or not
   * migration succeeds. The settings entry holds make_config(db_name); the
   * registry entry does too when db.json was missing or held an object, and
   * any other content is written back unchanged by the upsert.
   */
  lemma ProvisioningOrder(w: World, t: Models.Tenant, o: Outcomes)
    requires o.createDatabase && !w.registry.Unreadable?
    ensures var r := CreateDb(w, t, o);
      && |NewCalls(w, r)| >= 4
      && NewCalls(w, r)[..4] == [Execute(CreateSql(t.dbName)), RegistryWrite(t.dbName),
                                 SettingsWrite(t.dbName), Migrate(t.dbName)]
      && t.dbName in r.world.databases
      && r.world.registry == Registry.Upsert(w.registry, t.dbName, DbConfig.MakeConfig(t.dbName)).value
      && t.dbName in r.world.settings && r.world.settings[t.dbName] == DbConfig.MakeConfig(t.dbName)
      && (Registry.HoldsMapping(w.registry) ==>
            Registry.Entries(r.world.registry)[t.dbName] == DbConfig.MakeConfig(t.dbName))
      && (t.dbName in r.world.migrated <==> o.migrate || t.dbName in w.migrated)
  {
    var n := t.dbName;
    var issued := w.(calls := w.calls + [Execute(CreateSql(n))]);
    var created := issued.(databases := issued.databases + {n});
    var registered := AddToLocalJson(created, DbConfig.MakeConfig(n), n);
    assert registered.world.calls == w.calls + [Execute(CreateSql(n)), RegistryWrite(n)];
  }

  /**
   * When migration fails on a db.json that was missing or held an object,
   * the registry and settings entries for the database, both
   * make_config(db_name), are left in place: the handler
   * only issues the rollback statement and removes nothing.
   */
  lemma MigrateFailureKeepsEntries(w: World, t: Models.Tenant, o: Outcomes)
    requires o.createDatabase && Registry.HoldsMapping(w.registry) && !o.migrate
    ensures var r := CreateDb(w, t, o);
      && NewCalls(w, r)[..5] == [Execute(CreateSql(t.dbName)), RegistryWrite(t.dbName),
                                 SettingsWrite(t.dbName), Migrate(t.dbName), Execute(DeleteSql(t.dbName))]
      && t.dbName in Registry.Entries(r.world.registry)
      && Registry.Entries(r.world.registry)[t.dbName] == DbConfig.MakeConfig(t.dbName)
      && t.dbName in r.world.settings && r.world.settings[t.dbName] == DbConfig.MakeConfig(t.dbName)
      && t.dbName in r.world.databases
  {
    ProvisioningOrder(w, t, o);
  }

  /**
   * The rollback statement is not guarded: when it fails, the exception
   * leaves create_db, the account step is skipped, and the last call made is
   * the rollback itself.
   */
  lemma FailedRollbackSkipsAccount(w: World, t: Models.Tenant, o: Outcomes)
    requires !TrySucceeds(w, o) && !o.rollback
    ensures var r := CreateDb(w, t, o);
      && r.status == Raised(DatabaseError)
      && r.world.tables == w.tables
      && r.world.calls[|r.world.calls| - 1] == Execute(DeleteSql(t.dbName))
      && (forall u :: SuperuserStep(t.dbName, u) !in NewCalls(w, r))
  {
  }

  /**
   * Unless the rollback statement raised, create_superuser runs for the
   * tenant's client whether or not the earlier steps succeeded, and it is
   * the only step that touches the user tables.
   */
  lemma AccountStepRunsRegardless(w: World, t: Models.Tenant, o: Outcomes)
    requires t.client.Some? && (TrySucceeds(w, o) || o.rollback)
    ensures var r := CreateDb(w, t, o);
      var c := t.client.value;
      var e := Accounts.EnsureSuperuser(w.tables, c.username, c.email, c.password, t.dbName, o.orm);
      && r.world.calls[|r.world.calls| - 1] == SuperuserStep(t.dbName, c.username)
      && r.world.tables == e.tables
      && (r.status == Raised(OrmError) <==> e.raised)
      && (r.status.Completed? <==> !e.raised)
  {
  }

  /** Without a client, the user tables are never touched. */
  lemma NoClientNoAccounts(w: World, t: Models.Tenant, o: Outcomes)
    requires t.client.None?
    ensures CreateDb(w, t, o).world.tables == w.tables
    ensures CreateDb(w, t, o).status.Completed? <==> TrySucceeds(w, o) || o.rollback
  {
  }

  /**
   * A provisioning attempt in which every step succeeds leaves the database
   * created and migrated, and registered in db.json and in settings under
   * its own name with make_config(db_name), every other entry unchanged.
   */
  lemma FullSuccess(w: World, t: Models.Tenant, o: Outcomes)
    requires o.createDatabase && o.migrate && o.orm.NoFault? && Registry.HoldsMapping(w.registry)
    ensures var r := CreateDb(w, t, o);
      && r.status.Completed?
      && t.dbName in r.world.databases && t.dbName in r.world.migrated
      && Registry.HoldsMapping(r.world.registry)
      && Registry.Entries(r.world.registry) == Registry.Entries(w.registry)[t.dbName := DbConfig.MakeConfig(t.dbName)]
      && r.world.settings == w.settings[t.dbName := DbConfig.MakeConfig(t.dbName)]
  {
    ProvisioningOrder(w, t, o);
    Registry.UpsertEntries(w.registry, t.dbName, DbConfig.MakeConfig(t.dbName));
    if t.client.Some? {
      AccountStepRunsRegardless(w, t, o);
    } else {
      NoClientNoAccounts(w, t, o);
    }
    var r := CreateDb(w, t, o);
    assert r.world.settings == w.settings[t.dbName := DbConfig.MakeConfig(t.dbName)];
  }

  /**
   * In such an attempt the client's administrator exists in the tenant's
   * database; when the username was new there, it is a superuser and staff
   * member whose credential is the hash of the client's password.
   */
  lemma FullSuccessAdministrator(w: World, t: Models.Tenant, o: Outcomes)
    requires o.createDatabase && o.migrate && o.orm.NoFault? && !w.registry.Unreadable?
    requires t.client.Some?
    ensures var r := CreateDb(w, t, o);
      var c := t.client.value;
      && c.username in Accounts.TableOf(r.world.tables, t.dbName)
      && (c.username !in Accounts.TableOf(w.tables, t.dbName) ==>
            Accounts.TableOf(r.world.tables, t.dbName)[c.username] == Accounts.Superuser(c.email, c.password))
  {
    AccountStepRunsRegardless(w, t, o);
  }

  /** A name without spaces goes on to the row write and create_db. */
  lemma SaveWithValidName(w: World, t: Models.Tenant, o: Outcomes)
    requires ' ' !in t.dbName
    ensures Save(w, t, o) == CreateDb(w.(calls := w.calls + [CatalogSave(t.name)]), t, o)
  {
    Models.SpaceCheckExact(t.dbName);
  }

  /**
   * create_db runs on every save with a valid name: from any world,
   * including one an earlier save of the same tenant left behind, a save
   * writes the row and then issues CREATE DATABASE again.
   */
  lemma EverySaveReprovisions(w: World, t: Models.Tenant, o: Outcomes)
    requires ' ' !in t.dbName
    ensures var r := Save(w, t, o);
      && |r.world.calls| >= |w.calls| + 2
      && r.world.calls[..|w.calls|] == w.calls
      && r.world.calls[|w.calls|] == CatalogSave(t.name)
      && r.world.calls[|w.calls| + 1] == Execute(CreateSql(t.dbName))
  {
    SaveWithValidName(w, t, o);
    var saved := w.(calls := w.calls + [CatalogSave(t.name)]);
    var r := CreateDb(saved, t, o);
    assert r.world.calls[..|saved.calls|] == saved.calls;
    assert r.world.calls[..|w.calls|] == saved.calls[..|w.calls|];
  }

  /**
   * When the try block succeeds, the calls made are exactly CREATE
   * DATABASE, the registry write, the settings update, the migration and,
   * for a tenant with a client, the account step.
   */
  lemma SuccessTrace(w: World, t: Models.Tenant, o: Outcomes)
    requires TrySucceeds(w, o)
    ensures var r := CreateDb(w, t, o);
      r.world.calls == w.calls + [Execute(CreateSql(t.dbName)), RegistryWrite(t.dbName),
                                  SettingsWrite(t.dbName), Migrate(t.dbName)]
                               + (if t.client.Some? then [SuperuserStep(t.dbName, t.client.value.username)] else [])
  {
    var n := t.dbName;
    var attempt := TryBlock(w, n, o);
    assert attempt.world.calls == w.calls + [Execute(CreateSql(n)), RegistryWrite(n), SettingsWrite(n), Migrate(n)];
  }

  /** The tenant of the end-to-end scenario and a run in which every step succeeds. */
  const Acme := Models.Tenant("acme", "acme_db", Some(Models.Client("root", "root@acme.test", "secret")))
  const AllSucceed := Outcomes(true, true, true, Accounts.NoFault)

  /**
   * Tenant "acme" (database "acme_db", client "root") provisioned on a first
   * run (db.json missing, no accounts yet) with every step succeeding:
   * db.json is created holding the one entry, settings gains it, the
   * database is created and migrated, and "root" is its administrator with
   * a hashed password.
   */
  lemma AcmeScenario(w: World, t: Models.Tenant)
    requires t == Acme && w.registry.Absent? && w.tables == map[]
    ensures var r := CreateDb(w, t, AllSucceed);
      && r.status == Completed
      && r.world.registry == Registry.Stored(Json.Object(map["acme_db" := DbConfig.MakeConfig("acme_db")]))
      && r.world.settings == w.settings["acme_db" := DbConfig.MakeConfig("acme_db")]
      && r.world.databases == w.databases + {"acme_db"}
      && r.world.migrated == w.migrated + {"acme_db"}
      && r.world.tables == map["acme_db" := map["root" := Accounts.Account("root@acme.test", true, true, Accounts.Hashed("secret"))]]
  {
    FullSuccess(w, t, AllSucceed);
    AccountStepRunsRegardless(w, t, AllSucceed);
    ProvisioningOrder(w, t, AllSucceed);
  }

  /** The same run makes exactly these calls, in this order. */
  lemma AcmeCalls(w: World, t: Models.Tenant)
    requires t == Acme && w.registry.Absent?
    ensures CreateDb(w, t, AllSucceed).world.calls == w.calls +
      [Execute("CREATE DATABASE acme_db;"), RegistryWrite("acme_db"), SettingsWrite("acme_db"),
       Migrate("acme_db"), SuperuserStep("acme_db", "root")]
  {
    SuccessTrace(w, t, AllSucceed);
    assert CreateSql("acme_db") == "CREATE DATABASE acme_db;";
  }

  /** Tenant "bad name" is refused by Tenant.save with no call made, whatever the world. */
  lemma BadNameScenario(w: World, o: Outcomes)
    ensures Save(w, Models.Tenant("bad", "bad name", None), o) == Run(w, Raised(SpacesInDbName))
  {
    assert "bad name"[3] == ' ';
  }
}
