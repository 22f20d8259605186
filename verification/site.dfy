/**
 * The provisioning code as it runs: one object holds the state the Python
 * functions change in place (the server's databases, db.json, the global
 * settings.DATABASES, the migrated databases, the user tables and the log
 * of outbound calls), and each function is a method that updates it step
 * by step. Every method is proved to leave exactly the world the matching
 * function of module Workflow describes.
 */
module Runtime {
  import opened Wrappers
  import Json
  import Models
  import DbConfig
  import Registry
  import Accounts
  import opened Workflow

  class Site {
    var databases: set<string>
    var registry: Registry.Store
    var settings: map<string, Json.Value>
    var migrated: set<string>
    var tables: Accounts.AuthTables
    var calls: seq<Call>

    /** The state of the site as a value. */
    function Snapshot(): World
      reads this
    {
      World(databases, registry, settings, migrated, tables, calls)
    }

    constructor (w: World)
      ensures Snapshot() == w
    {
      databases, registry, settings := w.databases, w.registry, w.settings;
      migrated, tables, calls := w.migrated, w.tables, w.calls;
    }

    /** add_to_local_json(config, key). */
    method AddToLocalJson(config: Json.Value, key: string) returns (status: Status)
      modifies this
      ensures Snapshot() == Workflow.AddToLocalJson(old(Snapshot()), config, key).world
      ensures status == Workflow.AddToLocalJson(old(Snapshot()), config, key).status
    {
      var existing: Json.Value;
      if registry.Absent? {
        // first run: the file is created holding {}
        registry := Registry.Stored(Json.Object(map[]));
        existing := Json.Object(map[]);
      } else if registry.Unreadable? {
        return Raised(RegistryUnreadable);
      } else {
        existing := registry.value;
      }
      if existing.Object? {
        existing := Json.Object(existing.fields[key := config]);
      }
      registry := Registry.Stored(existing);
      calls := calls + [RegistryWrite(key)];
      status := Completed;
    }

    /** internal_migrate(db): the engine's outcome is `ok`. */
    method InternalMigrate(dbName: string, ok: bool) returns (status: Status)
      modifies this
      ensures Snapshot() == Workflow.InternalMigrate(old(Snapshot()), dbName, ok).world
      ensures status == Workflow.InternalMigrate(old(Snapshot()), dbName, ok).status
    {
      calls := calls + [Migrate(dbName)];
      if ok {
        migrated := migrated + {dbName};
        status := Completed;
      } else {
        status := Raised(MigrationError);
      }
    }

    /** create_superuser(username, email, password, db); `fault` is the first ORM call that raises. */
    method CreateSuperuser(username: string, email: string, password: string, dbName: string,
                           fault: Accounts.Fault) returns (status: Status)
      modifies this
      ensures Snapshot() == Workflow.CreateSuperuser(old(Snapshot()), username, email, password, dbName, fault).world
      ensures status == Workflow.CreateSuperuser(old(Snapshot()), username, email, password, dbName, fault).status
    {
      calls := calls + [SuperuserStep(dbName, username)];
      if fault.LookupFails? {
        return Raised(OrmError);
      }
      var table := Accounts.TableOf(tables, dbName);
      if username !in table {
        if fault.InsertFails? {
          return Raised(OrmError);
        }
        var user := Accounts.Account(email, true, true, Accounts.Blank);
        tables := tables[dbName := table[username := user]];
        user := user.(password := Accounts.Hashed(password));
        if fault.SaveFails? {
          // set_password changed the object only; the stored row keeps no password
          return Raised(OrmError);
        }
        tables := tables[dbName := table[username := user]];
      }
      status := Completed;
    }

    /** create_db, the post_save receiver for a saved tenant. */
    method CreateDb(t: Models.Tenant, o: Outcomes) returns (status: Status)
      modifies this
      ensures Snapshot() == Workflow.CreateDb(old(Snapshot()), t, o).world
      ensures status == Workflow.CreateDb(old(Snapshot()), t, o).status
    {
      ghost var w := Snapshot();
      // sql.Identifier(t.dbName).string is the name itself
      var dbName := t.dbName;
      var failure: Option<Error> := None;
      // try:
      calls := calls + [Execute(CreateSql(dbName))];
      if !o.createDatabase {
        failure := Some(DatabaseError);
      } else {
        databases := databases + {dbName};
        var registered := AddToLocalJson(DbConfig.MakeConfig(dbName), dbName);
        if registered.Raised? {
          failure := Some(registered.error);
        } else {
          settings := settings[dbName := DbConfig.MakeConfig(dbName)];
          calls := calls + [SettingsWrite(dbName)];
          var migrate := InternalMigrate(dbName, o.migrate);
          if migrate.Raised? {
            failure := Some(migrate.error);
          }
        }
      }
      assert Snapshot() == TryBlock(w, dbName, o).world;
      // except: the rollback statement, outside any handler of its own
      if failure.Some? {
        calls := calls + [Execute(DeleteSql(dbName))];
        if !o.rollback {
          return Raised(DatabaseError);
        }
      }
      status := Completed;
      if t.client.Some? {
        var c := t.client.value;
        status := CreateSuperuser(c.username, c.email, c.password, dbName, o.orm);
      }
    }

    /** Tenant.save: the space check, the row write, then post_save's create_db. */
    method Save(t: Models.Tenant, o: Outcomes) returns (status: Status)
      modifies this
      ensures Snapshot() == Workflow.Save(old(Snapshot()), t, o).world
      ensures status == Workflow.Save(old(Snapshot()), t, o).status
    {
      var pieces := Models.Split(t.dbName, ' ');
      if |pieces| > 1 {
        return Raised(SpacesInDbName);
      }
      calls := calls + [CatalogSave(t.name)];
      status := CreateDb(t, o);
    }
  }
}
