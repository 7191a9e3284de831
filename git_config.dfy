/** The persisted git settings of each collection
    (packages/bruno-electron/src/store/git-config.js): a map from collection
    path to a record, with a shallow-merge `set`, a `get` that gives null
    for an unknown path, and `remove`. The electron-store file behind it is
    modelled as the map itself, and the clock as a parameter. */
module GitConfig {
  import opened JsRuntime

  /** A field value of a stored record. */
  datatype ConfigValue = Flag(flag: bool) | Text(text: string)

  /** A stored record: field name to value. */
  type Config = map<string, ConfigValue>

  const UpdatedAt := "updatedAt"

  /** `configs[path] || null`: a record is an object, so any stored record
      is returned, and null only when the path has none. */
  function Lookup(configs: map<string, Config>, path: string): (r: Option<Config>)
    ensures r.None? <==> path !in configs
    ensures r.Some? ==> r.value == configs[path]
  {
    if path in configs then Some(configs[path]) else None
  }

  /** `{...previous, ...config, updatedAt: now}`: the previous record (none
      when undefined) overlaid by the new fields, stamped with `now`. */
  function Merged(previous: Option<Config>, config: Config, now: string): (c: Config)
    ensures c.Keys == (if previous.Some? then previous.value.Keys else {}) + config.Keys + {UpdatedAt}
    ensures c[UpdatedAt] == Text(now)
    ensures forall k :: k in config && k != UpdatedAt ==> c[k] == config[k]
    ensures forall k :: previous.Some? && k in previous.value && k !in config && k != UpdatedAt
                        ==> c[k] == previous.value[k]
  {
    var base := if previous.Some? then previous.value else map[];
    (base + config)[UpdatedAt := Text(now)]
  }

  /** The map after setGitConfig(path, config) at time `now`. */
  function Stored(configs: map<string, Config>, path: string, config: Config, now: string): map<string, Config> {
    configs[path := Merged(Lookup(configs, path), config, now)]
  }

  /** After setGitConfig(p, c), getGitConfig(p) holds every field of `c`
      except a caller's updatedAt, which is always replaced by `now`. */
  lemma SetThenGet(configs: map<string, Config>, path: string, config: Config, now: string)
    ensures var r := Lookup(Stored(configs, path, config, now), path);
      && r.Some?
      && r.value[UpdatedAt] == Text(now)
      && forall k :: k in config && k != UpdatedAt ==> k in r.value && r.value[k] == config[k]
  {
  }

  /** setGitConfig and removeGitConfig leave every other path's record as
      it was. */
  lemma OthersUntouched(configs: map<string, Config>, path: string, other: string, config: Config, now: string)
    requires other != path
    ensures Lookup(Stored(configs, path, config, now), other) == Lookup(configs, other)
    ensures Lookup(configs - {path}, other) == Lookup(configs, other)
  {
  }

  /** After removeGitConfig(p), getGitConfig(p) is null. */
  lemma RemoveThenGet(configs: map<string, Config>, path: string)
    ensures Lookup(configs - {path}, path).None?
  {
  }

  /** Two merges in a row are one merge of both overlays, the later one
      winning, stamped with the later time. */
  lemma MergedTwice(previous: Option<Config>, first: Config, second: Config, t1: string, t2: string)
    ensures Merged(Some(Merged(previous, first, t1)), second, t2) == Merged(previous, first + second, t2)
  {
    var a := Merged(Some(Merged(previous, first, t1)), second, t2);
    var b := Merged(previous, first + second, t2);
    assert a.Keys == b.Keys;
    forall k | k in a ensures a[k] == b[k] {
      if k != UpdatedAt && k !in second && k !in first {
        assert a[k] == previous.value[k];
      }
    }
  }

  class GitConfigStore {
    /** The `gitConfigs` entry of the store. */
    var gitConfigs: map<string, Config>

    /** A store opened on what was persisted before. */
    constructor (persisted: map<string, Config>)
      ensures gitConfigs == persisted
    {
      gitConfigs := persisted;
    }

    function GetGitConfig(path: string): (r: Option<Config>)
      reads this
      ensures r == Lookup(gitConfigs, path)
    {
      Lookup(gitConfigs, path)
    }

    method SetGitConfig(path: string, config: Config, now: string)
      modifies this
      ensures gitConfigs == Stored(old(gitConfigs), path, config, now)
    {
      var configs := gitConfigs;
      configs := configs[path := Merged(Lookup(configs, path), config, now)];
      gitConfigs := configs;
    }

    method RemoveGitConfig(path: string)
      modifies this
      ensures gitConfigs == old(gitConfigs) - {path}
      ensures GetGitConfig(path).None?
    {
      var configs := gitConfigs;
      configs := configs - {path};
      gitConfigs := configs;
    }

    function GetAllGitConfigs(): (r: map<string, Config>)
      reads this
      ensures forall p :: p in r <==> GetGitConfig(p).Some?
      ensures forall p :: p in r ==> GetGitConfig(p) == Some(r[p])
    {
      gitConfigs
    }
  }
}
