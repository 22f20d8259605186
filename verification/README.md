# Tenant provisioning, modelled in Dafny

This project models the tenant-provisioning workflow of `src/tenant/models.py`:

- `Tenant.save` refuses a `db_name` that `split(" ")` cuts into more than one piece. Otherwise it writes the row, and the `post_save` receiver `create_db` runs.
- `create_db` issues `CREATE DATABASE`. It then registers `make_config(db_name)` in the `db.json` registry (`add_to_local_json`), publishes the same record in `settings.DATABASES`, and runs the migration engine.
- Any exception in those steps is caught. The handler issues the rollback statement, which has no handler of its own.
- When the tenant has a client, `create_superuser` then creates that client's administrator inside the tenant's database, unless the username is already taken.

Every external collaborator is an abstract step whose success or failure is an input (`Workflow.Outcomes`, `Accounts.Fault`): the database server, the migration engine and the ORM. The state they act on is explicit:

- the databases on the server;
- the registry file, which is missing, holds a JSON value, or holds text `json.load` rejects;
- the `settings.DATABASES` map;
- the migrated databases;
- the user table of each database;
- the log of outbound calls, in the order they were made.

Layout:

- `wrappers.dfy`: `Option`.
- `json.dfy`: the JSON values the registry and the settings map hold.
- `models.dfy`: `Client`, `Tenant`, Python's `str.split` and the space check of `Tenant.save`.
- `config.dfy`: `make_config`, and the `default` connection of the project's fixture as an independent reference.
- `registry.dfy`: the registry file and the upsert that `add_to_local_json` performs on it.
- `accounts.dfy`: per-database user tables and `create_superuser`'s "create unless present" step.
- `workflow.dfy`: the world as a value, one function per source function, and the lemmas about the failure policy of `create_db`.
- `site.dfy`: class `Site`, which holds that state in mutable fields. Each state-changing source function (`add_to_local_json`, `internal_migrate`, `create_superuser`, `create_db`, `Tenant.save`) is a method that updates the fields step by step, and each method is proved to produce exactly the world that the matching `Workflow` function describes.

What the code does, and the model with it, at points where a reader might expect otherwise:

- Only the space character (U+0020) is refused, not all whitespace. Tabs, newlines and the empty name pass (`Models.OtherWhitespacePasses`).
- The rollback statement is `DELETE DATABASE <name>;`, not `DROP DATABASE`.
- A failure to read `db.json` is caught by the same handler as every other step. The settings update and migration are skipped and the rollback statement is issued; the account step still runs unless that statement raises.
- When migration fails, the settings entry stays in place, and so does the registry entry when `db.json` was missing or held an object. Any other readable `db.json` content is written back unchanged and never holds an entry.
- A failure while creating the account is not caught inside `create_db`. It propagates out of it (`OrmError`).
- Nothing serialises concurrent registry upserts.

## Model

| member | source | states |
|---|---|---|
| Models.Split | src/tenant/models.py:30 | `str.split` with a one-character separator always gives at least one piece, and no piece contains the separator |
| Models.JoinSplit | src/tenant/models.py:30 | joining the pieces with the separator gives back the original string, so the split loses nothing |
| Models.SplitCount | src/tenant/models.py:30 | `split(" ")` gives exactly one more piece than the string has spaces |
| Models.SpaceCheckExact | src/tenant/models.py:29-31 | the check `len(db_name.split(" ")) > 1` (predicate `Models.PassesSpaceCheck`, line 30) rejects a name exactly when it contains a space character |
| Models.OtherWhitespacePasses | src/tenant/models.py:29-31 | names containing a tab or a newline pass the check, and so does the empty name; "bad name" is rejected |
| DbConfig.MakeConfig | src/tenant/models.py:59-80 | the record is an object whose `NAME` field is the given database name |
| DbConfig.MakeConfigKeys | src/tenant/models.py:59-80 | the record has exactly the thirteen connection keys, from ENGINE to TEST |
| DbConfig.OnlyNameVaries | src/tenant/models.py:59-80 | apart from `NAME`, every field (ENGINE, USER, PASSWORD, HOST, PORT, AUTOCOMMIT, TEST, ...) is the same for every name |
| DbConfig.MakeConfigInjective | src/tenant/models.py:59-80 | two records are equal exactly when their names are, so a record identifies its database |
| DbConfig.DefaultConnection | src/tenant/tests.py:1-24 | the fixture's `default` connection is an object with a `NAME` field |
| DbConfig.TenantConfigMatchesDefault | src/tenant/models.py:59-80 | a tenant's record differs from the fixture's `default` connection only in `NAME`; for `tenantdefault` it equals it |
| Registry.Upsert | src/tenant/models.py:41-57 | the upsert raises exactly when the file cannot be read. For a missing file or an object, the new key set is the old one plus the key, the key maps to the config, and every other key keeps its value. Any other stored value is written back unchanged |
| Registry.UpsertEntries | src/tenant/models.py:45-54 | on a missing file (bootstrapped to `{}`) or an object, the result is the old mapping updated with `key := config` |
| Registry.UpsertIdempotent | src/tenant/models.py:41-57 | repeating an upsert with the same arguments leaves the file as the first one did |
| Registry.UpsertsCommute | src/tenant/models.py:41-57 | two sequential upserts of different keys give the same file in either order, so neither entry is lost |
| Accounts.EnsureSuperuser | src/tenant/models.py:85-99 | It raises exactly when the lookup fails, or when the username is new and a later ORM call fails. An existing username, or a failed lookup or insert, changes no table. Databases other than `db` never change. A new username with no failure gets a superuser and staff account whose credential is the hash of the password. If the final save fails, the new row has no password |
| Accounts.AddsExactlyOne | src/tenant/models.py:87-95 | for a new username, exactly one account is added, to `db`'s table only: superuser, staff, with the hashed password. Existing accounts are unchanged |
| Accounts.EnsureIdempotent | src/tenant/models.py:85-99 | after one successful call, a second call with the same arguments changes no table, whichever ORM call would fail in it |
| Workflow.AddToLocalJson | src/tenant/models.py:41-57 | it raises exactly when `db.json` is unreadable, and then nothing changes. Otherwise the registry becomes the upsert's result, one registry write is logged, and nothing else changes |
| Workflow.InternalMigrate | src/tenant/models.py:82-83 | the migration call is logged. The database is added to the migrated set exactly when migration succeeds. Nothing else changes |
| Workflow.CreateSuperuser | src/tenant/models.py:85-99 | the step is logged. The user tables become those of the create-unless-present step, which also decides whether it raises. Nothing else changes |
| Workflow.CreateDb | src/tenant/models.py:102-127 | built from `Workflow.TryBlock` (the try block, lines 112-116), `Workflow.Handler` (the unguarded handler, lines 117-119) and `Workflow.ClientStep` (lines 121-127), with the statement texts `Workflow.CreateSql` (line 113) and `Workflow.DeleteSql` (line 119); every run only appends to the call log, and its first call is `CREATE DATABASE <db_name>;`, whatever the world holds (no existence check, and the `created` flag is not read) |
| Workflow.Save | src/tenant/models.py:29-33 | `Tenant.save` raises the space error exactly when `db_name` contains a space, and then nothing is saved or provisioned |
| Workflow.CreateFailureLeavesNoEntries | src/tenant/models.py:112-119 | when `CREATE DATABASE` fails, the registry, settings, migrated set and databases are unchanged, migration is never invoked, and the rollback statement comes next |
| Workflow.RegistryFailureLeavesSettings | src/tenant/models.py:113-119 | when `db.json` cannot be read, settings and the registry are unchanged, neither the settings update nor migration happens, the created database stays, and the rollback statement is issued |
| Workflow.ProvisioningOrder | src/tenant/models.py:113-116 | after a successful create with a readable registry, the calls run in the order create, registry write, settings update, migrate. The settings entry holds `make_config(db_name)`. The registry entry holds it too when `db.json` was missing or held an object; otherwise `db.json` is written back unchanged and holds no entry. The database counts as migrated exactly when migration succeeded (or it was migrated before) |
| Workflow.MigrateFailureKeepsEntries | src/tenant/models.py:113-119 | when migration fails and `db.json` was missing or held an object, the rollback statement follows it. The registry and settings entries, both `make_config(db_name)`, stay in place, and so does the database |
| Workflow.FailedRollbackSkipsAccount | src/tenant/models.py:117-127 | when a step failed and the unguarded rollback statement raises, the error escapes `create_db`, no user table changes, the account step is never invoked, and the rollback is the last call |
| Workflow.AccountStepRunsRegardless | src/tenant/models.py:112-127 | unless the rollback raised, a tenant with a client gets `create_superuser(client.username, client.email, client.password, db_name)` whether or not the earlier steps succeeded. It is the last call, the only change to the user tables, and it alone decides the outcome |
| Workflow.NoClientNoAccounts | src/tenant/models.py:121-127 | without a client the user tables never change, and the run completes exactly when the try block succeeded or the rollback did not raise |
| Workflow.FullSuccess | src/tenant/models.py:112-116 | when every step succeeds on a readable mapping, the run completes. The database is created and migrated. The registry and settings are the old mappings plus `db_name ↦ make_config(db_name)` |
| Workflow.FullSuccessAdministrator | src/tenant/models.py:121-127 | in a fully successful run, the client's username exists in the tenant's database. If it was new there, it is a superuser and staff account with the hashed password |
| Workflow.SuccessTrace | src/tenant/models.py:112-127 | when the try block succeeds, the calls are exactly create, registry write, settings update, migrate and, with a client, the account step |
| Workflow.SaveWithValidName | src/tenant/models.py:29-33 | a name without spaces goes on to the row write and then to `create_db` |
| Workflow.EverySaveReprovisions | src/tenant/models.py:102-113 | from any world, including one an earlier save of the same tenant left behind, saving with a valid name writes the row and issues `CREATE DATABASE` again |
| Workflow.AcmeScenario | src/tenant/models.py:102-127 | the example scenario: tenant `acme`/`acme_db` with client `root`, run on a first run where every step succeeds, gives the registry `{acme_db: make_config("acme_db")}`, that entry in settings, the database created and migrated, and `root` as a hashed-password superuser |
| Workflow.AcmeCalls | src/tenant/models.py:102-127 | the same run makes exactly the calls `CREATE DATABASE acme_db;`, registry write, settings update, migrate, account step |
| Workflow.BadNameScenario | src/tenant/models.py:29-31 | saving a tenant whose `db_name` is "bad name" raises the space error and leaves the world unchanged, with no call made |
| Runtime.Site.AddToLocalJson | src/tenant/models.py:41-57 | the in-place read, bootstrap, modify and rewrite of `db.json` leaves exactly the world and status of `Workflow.AddToLocalJson` |
| Runtime.Site.InternalMigrate | src/tenant/models.py:82-83 | leaves exactly the world and status of `Workflow.InternalMigrate` |
| Runtime.Site.CreateSuperuser | src/tenant/models.py:85-99 | the lookup, create, `set_password` and save sequence leaves exactly the world and status of `Workflow.CreateSuperuser`, including a failed save leaving a row without a password |
| Runtime.Site.CreateDb | src/tenant/models.py:102-127 | the step-by-step try/except, the unguarded rollback and the client step leave exactly the world and status of `Workflow.CreateDb` |
| Runtime.Site.Save | src/tenant/models.py:29-33 | the split check, the row write and the `post_save` call leave exactly the world and status of `Workflow.Save` |

## Left out

- The `psycopg2` connection (connect, isolation level, cursor): it is assumed to open. A connection failure, which would raise before any effect, is not modelled.
- The effect of the rollback statement on the server: the model records that `DELETE DATABASE <name>;` was issued, and whether it raised is an input. It claims no effect on the set of databases, because whether the server drops anything for that statement is outside this code.
- Server-side rules for `CREATE DATABASE`, such as refusing a name that already exists: its outcome is an input. The server's folding of unquoted identifiers to lower case is not modelled either: a created database is recorded under `db_name` as written, the same key that `NAME`, the registry and settings use.
- `sql.Identifier(db_name).string` is taken to return the name unchanged. The statement text is formatted from the name without quoting.
- The migration engine (`call_command("migrate", ...)`): its outcome is an input, and success marks the database as migrated.
- The Django ORM and auth internals: the user model, the real hashing algorithm (a credential is `Hashed(password)`), and field length and uniqueness constraints, including an `IntegrityError` from saving a duplicate tenant.
- `post_save` dispatch: `Save` calls `CreateDb` directly after the abstract row write (`CatalogSave`).
- File-system details of `db.json`: path building, `indent=4` formatting, I/O errors other than unparsable content, and the short-lived `{}` file written on the first run (folded into the upsert). Floating-point JSON values are not modelled.
- The ORM's dependence on the world: its outcome (`Accounts.Fault`) is an input independent of the state, so the model lets `create_superuser` succeed against a database that was never created, migrated or put into `settings.DATABASES`, where the real ORM would raise. The user tables therefore over-approximate the reachable states; no lemma relies on such a run.
- Concurrent upserts to the registry. The code has no locking, and the model is sequential.
- `print` logging and the `__str__` methods.
