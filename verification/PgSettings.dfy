/** How the settings that end up in postgresql.conf are computed (lib/postgresMgr.js). */
module PgSettings {
  import opened Wrappers

  /** A configuration file, or a set of updates to one: setting name to value. */
  type Conf = map<string, string>

  const READ_ONLY := "default_transaction_read_only"
  const SYNCHRONOUS_COMMIT := "synchronous_commit"
  const SYNCHRONOUS_STANDBY_NAMES := "synchronous_standby_names"

  /** The value is quoted twice, as PostgreSQL 9.6 demands. */
  function FormatStandbyName(name: string): string {
    "'\"" + name + "\"'"
  }

  /** The value as Postgres reads it: a quoted string that holds one quoted name. */
  function Listed(value: string): Option<string> {
    var n := |value|;
    if n >= 4 && value[0] == '\'' && value[1] == '\"' && value[n - 2] == '\"' && value[n - 1] == '\''
    then Some(value[2..n - 2]) else None
  }

  /** Postgres reads the name that was written. */
  lemma FormattedIsListed(name: string)
    ensures Listed(FormatStandbyName(name)) == Some(name)
  {
    var value := FormatStandbyName(name);
    assert value[2..|value| - 2] == name;
  }

  const BUILT_IN: Conf := map[SYNCHRONOUS_COMMIT := "remote_write"]

  function Section(tunables: map<string, Conf>, name: string): Conf {
    if name in tunables then tunables[name] else map[]
  }

  /** The settings derived from the tunables file: each section read later overwrites the earlier ones. */
  function GetTunables(tunables: map<string, Conf>, version: string, major: string): Conf {
    var options := BUILT_IN + Section(tunables, "common");
    var options := options + Section(tunables, major);
    options + Section(tunables, version)
  }

  /** `_updatePgConf`: the shipped template, overwritten by the tunables merged with the role's updates. */
  function UpdatedPgConf(shipped: Conf, additional: Conf, updates: Conf): Conf {
    shipped + (additional + updates)
  }

  function Lookup(conf: Conf, key: string): Option<string> {
    if key in conf then Some(conf[key]) else None
  }

  /** The value of the first layer that defines the key. */
  function FirstDefined(layers: seq<Conf>, key: string): Option<string> {
    if layers == [] then None
    else if key in layers[0] then Some(layers[0][key])
    else FirstDefined(layers[1..], key)
  }

  /** The sections of these names that the file has, in this order; the others count as empty. */
  function Layers(shipped: Conf, tunables: map<string, Conf>, version: string, major: string, updates: Conf): seq<Conf> {
    [updates,
     if version in tunables then tunables[version] else map[],
     if major in tunables then tunables[major] else map[],
     if "common" in tunables then tunables["common"] else map[],
     map[SYNCHRONOUS_COMMIT := "remote_write"],
     shipped]
  }

  lemma {:induction false} FirstDefinedCons(first: Conf, rest: seq<Conf>, key: string)
    ensures FirstDefined([first] + rest, key) == if key in first then Some(first[key]) else FirstDefined(rest, key)
  {
    assert ([first] + rest)[1..] == rest;
  }

  /** Precedence: role update, full version, major version, common, built-in default, shipped template. */
  lemma EffectiveSetting(shipped: Conf, tunables: map<string, Conf>, version: string, major: string, updates: Conf, key: string)
    ensures Lookup(UpdatedPgConf(shipped, GetTunables(tunables, version, major), updates), key)
         == FirstDefined(Layers(shipped, tunables, version, major, updates), key)
  {
    var v, m, c := Section(tunables, version), Section(tunables, major), Section(tunables, "common");
    FirstDefinedCons(updates, [v, m, c, BUILT_IN, shipped], key);
    FirstDefinedCons(v, [m, c, BUILT_IN, shipped], key);
    FirstDefinedCons(m, [c, BUILT_IN, shipped], key);
    FirstDefinedCons(c, [BUILT_IN, shipped], key);
    FirstDefinedCons(BUILT_IN, [shipped], key);
    FirstDefinedCons(shipped, [], key);
    assert Layers(shipped, tunables, version, major, updates) == [updates] + [v, m, c, BUILT_IN, shipped];
    assert [v, m, c, BUILT_IN, shipped] == [v] + [m, c, BUILT_IN, shipped];
    assert [m, c, BUILT_IN, shipped] == [m] + [c, BUILT_IN, shipped];
    assert [c, BUILT_IN, shipped] == [c] + [BUILT_IN, shipped];
    assert [BUILT_IN, shipped] == [BUILT_IN] + [shipped];
    assert [shipped] == [shipped] + [];
  }

  lemma ThreeLayers(updates: Conf, additional: Conf, shipped: Conf, key: string)
    ensures Lookup(UpdatedPgConf(shipped, additional, updates), key) == FirstDefined([updates, additional, shipped], key)
  {
    FirstDefinedCons(updates, [additional, shipped], key);
    FirstDefinedCons(additional, [shipped], key);
    FirstDefinedCons(shipped, [], key);
    assert [updates, additional, shipped] == [updates] + [additional, shipped];
    assert [additional, shipped] == [additional] + [shipped];
    assert [shipped] == [shipped] + [];
  }

  /** New transactions cannot write. Only the literal value that the manager itself writes is trusted. */
  predicate ReadOnly(conf: Conf) {
    Lookup(conf, READ_ONLY) == Some("on")
  }

  /** Commits wait for the named standby, since it is what Postgres reads in the file. */
  predicate NamesStandby(conf: Conf, stdby: string) {
    SYNCHRONOUS_STANDBY_NAMES in conf && Listed(conf[SYNCHRONOUS_STANDBY_NAMES]) == Some(stdby)
  }

  lemma UpdateNamesStandby(shipped: Conf, additional: Conf, updates: Conf, stdby: string)
    requires NamesStandby(updates, stdby)
    ensures NamesStandby(UpdatedPgConf(shipped, additional, updates), stdby)
  {
  }
}
