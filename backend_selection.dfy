/**
 * `hasMysqlEnv`: the route's choice, made afresh on every request, between the MySQL
 * database and the JSON document file. The process environment is a map from variable
 * name to value; an unset variable is a missing key.
 */
module BackendSelection {
  import opened JsText

  datatype Backend = Relational | JsonFile

  /** The four connection settings, in the order the source tests them. */
  const MysqlKeys: seq<string> := ["MYSQL_HOST", "MYSQL_USER", "MYSQL_PASSWORD", "MYSQL_DATABASE"]

  /** An environment variable is set when its value is truthy: present and not the empty string. */
  predicate IsSet(env: map<string, string>, key: string) {
    Truthy(Lookup(env, key))
  }

  /** `hasMysqlEnv`: true when every one of the four settings is set. */
  function HasMysqlEnv(env: map<string, string>): (r: bool)
    ensures r <==> forall i | 0 <= i < |MysqlKeys| :: IsSet(env, MysqlKeys[i])
  {
    assert MysqlKeys[0] == "MYSQL_HOST" && MysqlKeys[1] == "MYSQL_USER";
    assert MysqlKeys[2] == "MYSQL_PASSWORD" && MysqlKeys[3] == "MYSQL_DATABASE";
    IsSet(env, "MYSQL_HOST") && IsSet(env, "MYSQL_USER")
    && IsSet(env, "MYSQL_PASSWORD") && IsSet(env, "MYSQL_DATABASE")
  }

  /** The store both GET and POST use for one request: the database only when all four settings are set. */
  function SelectBackend(env: map<string, string>): (r: Backend)
    ensures r == Relational <==> forall key | key in MysqlKeys :: IsSet(env, key)
  {
    assert forall key | key in MysqlKeys :: key == MysqlKeys[0] || key == MysqlKeys[1] || key == MysqlKeys[2] || key == MysqlKeys[3];
    assert MysqlKeys[0] in MysqlKeys && MysqlKeys[1] in MysqlKeys && MysqlKeys[2] in MysqlKeys && MysqlKeys[3] in MysqlKeys;
    if HasMysqlEnv(env) then Relational else JsonFile
  }

  /** One missing or empty setting is enough to fall back to the JSON file, whatever the others hold. */
  lemma PartialConfigSelectsJsonFile(env: map<string, string>, key: string)
    requires key in MysqlKeys && !IsSet(env, key)
    ensures SelectBackend(env) == JsonFile
  {
    var i :| 0 <= i < |MysqlKeys| && MysqlKeys[i] == key;
    assert !IsSet(env, MysqlKeys[i]);
  }

  /** With all four set, the database is used. */
  lemma FullConfigSelectsRelational(env: map<string, string>)
    requires forall key | key in MysqlKeys :: IsSet(env, key)
    ensures SelectBackend(env) == Relational
  {
    forall i | 0 <= i < |MysqlKeys| ensures IsSet(env, MysqlKeys[i]) {
      assert MysqlKeys[i] in MysqlKeys;
    }
  }

  /** Only the four settings matter: two environments that agree on them select the same store. */
  lemma SelectionDependsOnlyOnMysqlKeys(env: map<string, string>, env': map<string, string>)
    requires forall key | key in MysqlKeys :: IsSet(env, key) == IsSet(env', key)
    ensures SelectBackend(env) == SelectBackend(env')
  {
    forall i | 0 <= i < |MysqlKeys| ensures IsSet(env, MysqlKeys[i]) == IsSet(env', MysqlKeys[i]) {
      assert MysqlKeys[i] in MysqlKeys;
    }
  }
}
