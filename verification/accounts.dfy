/**
 * create_superuser: the user table of each tenant database and the
 * "create the administrator unless the username is taken" step on it.
 *
 * Every ORM call is an abstract step; which of them fails, if any, is an
 * input. The password goes through set_password, a one-way hash that is
 * left abstract: a stored credential is Hashed(p), never the text p.
 */
module Accounts {
  datatype Credential = Blank | Hashed(secret: string)

  datatype Account = Account(email: string, isSuperuser: bool, isStaff: bool, password: Credential)

  /** The user table of one database, keyed by username. */
  type Table = map<string, Account>

  /** The user tables of all databases, keyed by database alias. */
  type AuthTables = map<string, Table>

  /**
   * The first ORM call of create_superuser that raises: the existence query,
   * the insert done by create(), or the save() after set_password.
   */
  datatype Fault = NoFault | LookupFails | InsertFails | SaveFails

  datatype Ensured = Ensured(tables: AuthTables, raised: bool)

  /** The user table of `db` (empty when nothing was ever stored there). */
  function TableOf(tables: AuthTables, db: string): Table
  {
    if db in tables then tables[db] else map[]
  }

  /** The administrator create_superuser means to leave behind. */
  function Superuser(email: string, password: string): Account
  {
    Account(email, true, true, Hashed(password))
  }

  /** create_superuser(username, email, password, db) on `tables`. */
  function EnsureSuperuser(tables: AuthTables, username: string, email: string, password: string,
                           db: string, fault: Fault): (r: Ensured)
    ensures r.raised <==> fault.LookupFails? || (username !in TableOf(tables, db) && !fault.NoFault?)
    ensures username in TableOf(tables, db) || fault.LookupFails? || fault.InsertFails? ==>
      r.tables == tables
    ensures forall d :: d != db ==> TableOf(r.tables, d) == TableOf(tables, d)
    ensures username !in TableOf(tables, db) && fault.NoFault? ==>
      TableOf(r.tables, db) == TableOf(tables, db)[username := Superuser(email, password)]
    ensures username !in TableOf(tables, db) && fault.SaveFails? ==>
      TableOf(r.tables, db) == TableOf(tables, db)[username := Account(email, true, true, Blank)]
  {
    var table := TableOf(tables, db);
    if fault.LookupFails? then Ensured(tables, true)
    else if username in table then Ensured(tables, false)
    else if fault.InsertFails? then Ensured(tables, true)
    else if fault.SaveFails? then Ensured(tables[db := table[username := Account(email, true, true, Blank)]], true)
    else Ensured(tables[db := table[username := Superuser(email, password)]], false)
  }

  /**
   * When the username is new and nothing fails, exactly one account is
   * added, to `db` only, and it is a superuser and staff member whose
   * credential is the hash of the password.
   */
  lemma AddsExactlyOne(tables: AuthTables, username: string, email: string, password: string, db: string)
    requires username !in TableOf(tables, db)
    ensures var after := EnsureSuperuser(tables, username, email, password, db, NoFault).tables;
      && TableOf(after, db).Keys == TableOf(tables, db).Keys + {username}
      && |TableOf(after, db)| == |TableOf(tables, db)| + 1
      && TableOf(after, db)[username].isSuperuser
      && TableOf(after, db)[username].isStaff
      && TableOf(after, db)[username].password == Hashed(password)
      && (forall u :: u in TableOf(tables, db) ==> TableOf(after, db)[u] == TableOf(tables, db)[u])
  {
    var after := EnsureSuperuser(tables, username, email, password, db, NoFault).tables;
    assert TableOf(after, db).Keys == TableOf(tables, db).Keys + {username};
    assert |TableOf(tables, db).Keys + {username}| == |TableOf(tables, db).Keys| + 1;
  }

  /**
   * After one successful call, a second one with the same arguments changes
   * nothing, whichever ORM call would fail in it.
   */
  lemma EnsureIdempotent(tables: AuthTables, username: string, email: string, password: string,
                         db: string, fault: Fault)
    requires !EnsureSuperuser(tables, username, email, password, db, NoFault).raised
    ensures var once := EnsureSuperuser(tables, username, email, password, db, NoFault).tables;
      EnsureSuperuser(once, username, email, password, db, fault).tables == once
  {
    var once := EnsureSuperuser(tables, username, email, password, db, NoFault).tables;
    assert username in TableOf(once, db);
  }
}
