/**
 * make_config: the connection record every tenant database is registered
 * with. It is one dictionary literal in which only "NAME" depends on the
 * argument.
 */
module DbConfig {
  import opened Json

  /** The keys of every connection record. */
  const ConfigKeys: set<string> := {
    "ENGINE", "NAME", "USER", "PASSWORD", "HOST", "PORT", "ATOMIC_REQUESTS",
    "AUTOCOMMIT", "CONN_MAX_AGE", "CONN_HEALTH_CHECKS", "OPTIONS",
    "TIME_ZONE", "TEST"
  }

  /** Every field of the record except "NAME": the same for every database. */
  const SharedFields: map<string, Value> := map[
    "ENGINE" := Str("django.db.backends.postgresql_psycopg2"),
    "USER" := Str("admin"),
    "PASSWORD" := Str("admin"),
    "HOST" := Str("localhost"),
    "PORT" := Str("5432"),
    "ATOMIC_REQUESTS" := Bool(false),
    "AUTOCOMMIT" := Bool(true),
    "CONN_MAX_AGE" := Int(0),
    "CONN_HEALTH_CHECKS" := Bool(false),
    "OPTIONS" := Object(map[]),
    "TIME_ZONE" := Null,
    "TEST" := Object(map[
      "CHARSET" := Null,
      "COLLATION" := Null,
      "MIGRATE" := Bool(true),
      "MIRROR" := Null,
      "NAME" := Null
    ])
  ]

  /** The connection record for the database `name`. */
  function MakeConfig(name: string): (config: Value)
    ensures config.Object? && "NAME" in config.fields && config.fields["NAME"] == Str(name)
  {
    Object(SharedFields["NAME" := Str(name)])
  }

  /** The record has exactly the thirteen connection keys. */
  lemma MakeConfigKeys(name: string)
    ensures MakeConfig(name).fields.Keys == ConfigKeys
  {
  }

  /** Apart from "NAME", every field is the same for every database name. */
  lemma OnlyNameVaries(a: string, b: string)
    ensures MakeConfig(a).fields - {"NAME"} == MakeConfig(b).fields - {"NAME"}
  {
  }

  /** Different names give different records, so a record identifies its database. */
  lemma MakeConfigInjective(a: string, b: string)
    ensures MakeConfig(a) == MakeConfig(b) <==> a == b
  {
    if MakeConfig(a) == MakeConfig(b) {
      assert MakeConfig(a).fields["NAME"] == MakeConfig(b).fields["NAME"];
    }
  }

  /**
   * The "default" connection of the project's test fixture, written out
   * on its own: the catalog database every tenant database is created from.
   */
  function DefaultConnection(): (config: Value)
    ensures config.Object? && "NAME" in config.fields
  {
    Object(map[
      "ENGINE" := Str("django.db.backends.postgresql_psycopg2"),
      "NAME" := Str("tenantdefault"),
      "USER" := Str("admin"),
      "PASSWORD" := Str("admin"),
      "HOST" := Str("localhost"),
      "PORT" := Str("5432"),
      "ATOMIC_REQUESTS" := Bool(false),
      "AUTOCOMMIT" := Bool(true),
      "CONN_MAX_AGE" := Int(0),
      "CONN_HEALTH_CHECKS" := Bool(false),
      "OPTIONS" := Object(map[]),
      "TIME_ZONE" := Null,
      "TEST" := Object(map[
        "CHARSET" := Null,
        "COLLATION" := Null,
        "MIGRATE" := Bool(true),
        "MIRROR" := Null,
        "NAME" := Null
      ])
    ])
  }

  /**
   * A tenant's record differs from the default connection in its "NAME"
   * alone: same server, same credentials, same options.
   */
  lemma TenantConfigMatchesDefault(name: string)
    ensures MakeConfig(name).fields - {"NAME"} == DefaultConnection().fields - {"NAME"}
    ensures MakeConfig("tenantdefault") == DefaultConnection()
  {
  }
}
