/**
 * The persistence half of app/src/lib/playlists.ts: the storage directory with its two
 * documents (the current `playlists.yaml` and the legacy `videourls.yaml`), the one-shot
 * legacy migration, `loadPlaylists` with its ordered fallback, `savePlaylists`, and
 * `createPlaylist` drawing from an id generator.
 *
 * Each operation is given twice: as a pure function of the storage state (the
 * specification, about which the lemmas speak) and as a method on the `Store` class
 * that follows the source's control flow and is proved to agree with that function.
 * The YAML parser and dumper, and whether the disk accepts a directory or a write,
 * are the environment `Env`; the random ids are an injected `IdSource`.
 */
module PlaylistStore {
  import opened Wrappers
  import opened Playlists

  /** How a JavaScript call ended: with a value, or by throwing. */
  datatype Completion<T> = Normal(value: T) | Threw

  /** The storage directory: each document's text if the file exists, and whether the directory exists. */
  datatype Disk = Disk(current: Option<string>, legacy: Option<string>, dirExists: bool)

  /**
   * What the store cannot see into: parsing a current or legacy document (`None` when
   * reading or parsing throws), serialising a configuration (`None` when it throws),
   * and whether creating the directory and writing the file succeed.
   */
  datatype Env = Env(
    parseConfig: string -> Option<ConfigFields>,
    parseLegacy: string -> Option<StreamFields>,
    dump: PlaylistsConfig -> Option<string>,
    canMkdir: bool,
    canWrite: bool)

  /** Both documents live in the storage directory, so a present document means the directory exists. */
  predicate DiskValid(disk: Disk) {
    (disk.current.Some? || disk.legacy.Some?) ==> disk.dirExists
  }

  /** The assumption on the YAML pair: a dumped configuration parses back to all of its keys. */
  ghost predicate DumpParses(env: Env) {
    forall c :: env.dump(c).Some? ==> env.parseConfig(env.dump(c).value) == Some(Fields(c))
  }

  /** The configuration built from a parsed legacy document: one active playlist called "Default". */
  function MigratedConfig(id: string, data: StreamFields): PlaylistsConfig {
    PlaylistsConfig(id, [Playlist(id, "Default", "tv", MergeStreams(data))])
  }

  /** `migrateFromLegacy`, with `id` the id the generator would hand out next. */
  function MigrateSpec(legacy: Option<string>, env: Env, id: string): Option<PlaylistsConfig> {
    if legacy.None? then None
    else
      match env.parseLegacy(legacy.value)
      case None => None
      case Some(data) => Some(MigratedConfig(id, data))
  }

  /** Migration yields nothing when the legacy document is missing or cannot be read and parsed. */
  lemma MigrationAbsent(legacy: Option<string>, env: Env, id: string)
    ensures MigrateSpec(legacy, env, id).Some? <==> legacy.Some? && env.parseLegacy(legacy.value).Some?
  {
  }

  /**
   * A successful migration holds exactly one playlist, named "Default" with icon "tv",
   * carrying the legacy quadrants with every missing one as "", and that playlist is active.
   */
  lemma MigrationShape(legacy: Option<string>, env: Env, id: string)
    requires MigrateSpec(legacy, env, id).Some?
    ensures var m := MigrateSpec(legacy, env, id).value;
            var data := env.parseLegacy(legacy.value).value;
            |m.playlists| == 1 && m.playlists[0].id == id &&
            m.playlists[0].name == "Default" && m.playlists[0].icon == "tv" &&
            (forall q :: m.playlists[0].streams.Get(q) == if q in data then data[q] else "") &&
            m.activePlaylist == m.playlists[0].id &&
            GetActivePlaylist(m) == Some(m.playlists[0])
  {
  }

  /** What `savePlaylists` returns and leaves behind. */
  datatype Saved = Saved(result: Completion<bool>, disk: Disk)

  /**
   * `savePlaylists`: create the directory if it is missing (outside the `try`, so a
   * failure there throws), then serialise and write; either of those failing returns false.
   */
  function SaveSpec(disk: Disk, env: Env, c: PlaylistsConfig): Saved {
    if !disk.dirExists && !env.canMkdir then Saved(Threw, disk)
    else
      var d := disk.(dirExists := true);
      match env.dump(c)
      case None => Saved(Normal(false), d)
      case Some(text) =>
        if env.canWrite then Saved(Normal(true), d.(current := Some(text)))
        else Saved(Normal(false), d)
  }

  /**
   * Save returns true exactly when serialising and writing succeed, and then the current
   * document is the serialised configuration; false leaves the document as it was; it
   * throws only when the directory is missing and cannot be created. The legacy document
   * is never touched, and a valid disk stays valid.
   */
  lemma SaveOutcome(disk: Disk, env: Env, c: PlaylistsConfig)
    ensures var s := SaveSpec(disk, env, c);
            (s.result == Threw <==> !disk.dirExists && !env.canMkdir) &&
            (s.result == Normal(true) <==> (disk.dirExists || env.canMkdir) && env.dump(c).Some? && env.canWrite) &&
            (s.result == Normal(true) ==> s.disk.current == env.dump(c)) &&
            (s.result != Normal(true) ==> s.disk.current == disk.current) &&
            s.disk.legacy == disk.legacy &&
            (DiskValid(disk) ==> DiskValid(s.disk))
  {
  }

  /** What `loadPlaylists` returns, the disk it leaves, and the generator position after it. */
  datatype Loaded = Loaded(config: PlaylistsConfig, disk: Disk, next: nat)

  /** The current document, parsed, if it exists and parses. */
  function ParsedCurrent(disk: Disk, env: Env): Option<ConfigFields> {
    if disk.current.Some? then env.parseConfig(disk.current.value) else None
  }

  /**
   * `loadPlaylists`: the current document merged over the defaults if it exists and
   * parses; otherwise the legacy migration, saved (its result ignored) and returned;
   * otherwise the defaults. The migration draws id `mint(next)`. On a valid disk the
   * legacy document's presence means the directory exists, so that save cannot throw.
   */
  function LoadSpec(disk: Disk, env: Env, mint: nat -> string, next: nat): Loaded
    requires DiskValid(disk)
  {
    match ParsedCurrent(disk, env)
    case Some(data) => Loaded(MergeConfig(data), disk, next)
    case None =>
      match MigrateSpec(disk.legacy, env, mint(next))
      case Some(m) => Loaded(m, SaveSpec(disk, env, m).disk, next + 1)
      case None => Loaded(DefaultConfig, disk, next)
  }

  /**
   * A current document that parses decides the result alone: the legacy document is not
   * consulted, nothing is written, no id is drawn, a missing `activePlaylist` reads as ""
   * and present keys are taken verbatim.
   */
  lemma LoadPrefersCurrent(disk: Disk, env: Env, mint: nat -> string, next: nat)
    requires DiskValid(disk)
    requires disk.current.Some? && env.parseConfig(disk.current.value).Some?
    ensures var data := env.parseConfig(disk.current.value).value;
            var l := LoadSpec(disk, env, mint, next);
            l.disk == disk && l.next == next &&
            l.config.activePlaylist == data.activePlaylist.GetOr("") &&
            l.config.playlists == data.playlists.GetOr([])
  {
  }

  /**
   * A missing or unparsable current document falls through to the migration, whose
   * result is saved and returned whatever the save reports.
   */
  lemma LoadFallsThroughToMigration(disk: Disk, env: Env, mint: nat -> string, next: nat)
    requires DiskValid(disk)
    requires ParsedCurrent(disk, env).None?
    requires MigrateSpec(disk.legacy, env, mint(next)).Some?
    ensures var m := MigrateSpec(disk.legacy, env, mint(next)).value;
            var l := LoadSpec(disk, env, mint, next);
            l.config == m && l.next == next + 1 && l.disk == SaveSpec(disk, env, m).disk &&
            ActiveValid(l.config)
  {
    var m := MigrateSpec(disk.legacy, env, mint(next)).value;
    assert m.playlists[0].id == m.activePlaylist;
  }

  /** With neither document usable, the result is the empty configuration and nothing changes. */
  lemma LoadFallsBackToDefaults(disk: Disk, env: Env, mint: nat -> string, next: nat)
    requires DiskValid(disk)
    requires ParsedCurrent(disk, env).None?
    requires disk.legacy.None? || env.parseLegacy(disk.legacy.value).None?
    ensures LoadSpec(disk, env, mint, next) == Loaded(PlaylistsConfig("", []), disk, next)
  {
  }

  /** Loading keeps the disk valid, and the only write it makes is the migrated configuration. */
  lemma LoadKeepsDiskValid(disk: Disk, env: Env, mint: nat -> string, next: nat)
    requires DiskValid(disk)
    ensures var l := LoadSpec(disk, env, mint, next);
            DiskValid(l.disk) && l.disk.legacy == disk.legacy &&
            (l.disk != disk ==> l.next == next + 1 && l.disk.current == env.dump(l.config))
  {
  }

  /** Round trip, under the YAML assumption: a configuration saved successfully loads back unchanged. */
  lemma SaveLoadRoundTrip(disk: Disk, env: Env, c: PlaylistsConfig, mint: nat -> string, next: nat)
    requires DiskValid(disk)
    requires DumpParses(env)
    requires SaveSpec(disk, env, c).result == Normal(true)
    ensures var d := SaveSpec(disk, env, c).disk;
            LoadSpec(d, env, mint, next) == Loaded(c, d, next)
  {
  }

  /**
   * The migration runs at most once: when its save succeeds, a second load reads back
   * the same single-playlist configuration from the current document, draws no id and
   * writes nothing.
   */
  lemma MigrationRunsOnce(disk: Disk, env: Env, mint: nat -> string, next: nat)
    requires DiskValid(disk)
    requires DumpParses(env)
    requires ParsedCurrent(disk, env).None?
    requires MigrateSpec(disk.legacy, env, mint(next)).Some?
    requires SaveSpec(disk, env, MigrateSpec(disk.legacy, env, mint(next)).value).result == Normal(true)
    ensures var first := LoadSpec(disk, env, mint, next);
            var second := LoadSpec(first.disk, env, mint, first.next);
            first.disk.current.Some? && second == first
  {
  }

  /** A JavaScript array of playlists: an object that every holder of the reference sees change. */
  class PlaylistArray {
    var items: seq<Playlist>

    constructor (items: seq<Playlist>)
      ensures this.items == items
    {
      this.items := items;
    }

    /** `Array.prototype.push`. */
    method Push(p: Playlist)
      modifies this
      ensures items == old(items) + [p]
    {
      items := items + [p];
    }
  }

  /** A configuration object as the handlers hold it: a string field and a reference to an array. */
  class ConfigObject {
    var activePlaylist: string
    var playlists: PlaylistArray

    /** A configuration with an array of its own. */
    constructor (c: PlaylistsConfig)
      ensures fresh(playlists) && Value() == c
    {
      activePlaylist := c.activePlaylist;
      playlists := new PlaylistArray(c.playlists);
    }

    /** A configuration sharing the array `arr` (what an object spread does with an array field). */
    constructor Sharing(activePlaylist: string, arr: PlaylistArray)
      ensures this.activePlaylist == activePlaylist && playlists == arr
    {
      this.activePlaylist := activePlaylist;
      playlists := arr;
    }

    function Value(): PlaylistsConfig
      reads this, playlists
    {
      PlaylistsConfig(activePlaylist, playlists.items)
    }
  }

  /** The injected id generator: the n-th id handed out is `mint(n)`, and `mint` never repeats. */
  class IdSource {
    const mint: nat -> string
    var next: nat

    ghost predicate Valid() {
      Injective(mint)
    }

    /** The ids handed out so far. */
    ghost function Issued(): set<string>
      reads this
    {
      set i: nat | i < next :: mint(i)
    }

    constructor (mint: nat -> string)
      requires Injective(mint)
      ensures Valid() && this.mint == mint && next == 0 && Issued() == {}
    {
      this.mint := mint;
      next := 0;
    }

    /** `nanoid()`: an id never handed out before. */
    method Fresh() returns (id: string)
      requires Valid()
      modifies this
      ensures id == mint(old(next)) && next == old(next) + 1
      ensures id !in old(Issued()) && Issued() == old(Issued()) + {id}
    {
      id := mint(next);
      next := next + 1;
      assert forall i: nat :: i < next ==> (mint(i) == id <==> i == next - 1);
    }
  }

  /**
   * `createPlaylist`: a new playlist whose id is fresh from the generator, with `name`
   * and `icon` as given and the supplied streams or, when none, all quadrants empty.
   */
  method CreatePlaylist(ids: IdSource, name: string, icon: string, streams: Option<StreamSettings>) returns (p: Playlist)
    requires ids.Valid()
    modifies ids
    ensures p == NewPlaylist(ids.mint(old(ids.next)), name, icon, streams)
    ensures p.id !in old(ids.Issued()) && ids.next == old(ids.next) + 1
  {
    var id := ids.Fresh();
    p := NewPlaylist(id, name, icon, streams);
  }

  /**
   * The storage directory as one object: the two document slots, whether the directory
   * exists, the environment, and the array `DEFAULT_CONFIG.playlists`, which lives as
   * long as the module does.
   */
  class Store {
    var current: Option<string>
    var legacy: Option<string>
    var dirExists: bool
    const env: Env
    const defaultPlaylists: PlaylistArray

    ghost predicate Valid()
      reads this
    {
      DiskValid(OnDisk())
    }

    function OnDisk(): Disk
      reads this
    {
      Disk(current, legacy, dirExists)
    }

    constructor (disk: Disk, env: Env)
      requires DiskValid(disk)
      ensures Valid() && OnDisk() == disk && this.env == env
      ensures fresh(defaultPlaylists) && defaultPlaylists.items == []
    {
      current, legacy, dirExists := disk.current, disk.legacy, disk.dirExists;
      this.env := env;
      defaultPlaylists := new PlaylistArray([]);
    }

    /** `migrateFromLegacy`; an id is drawn only once the legacy document has parsed. */
    method MigrateFromLegacy(ids: IdSource) returns (migrated: Option<PlaylistsConfig>)
      requires ids.Valid()
      modifies ids
      ensures migrated == MigrateSpec(legacy, env, ids.mint(old(ids.next)))
      ensures ids.next == old(ids.next) + (if migrated.Some? then 1 else 0)
    {
      if legacy.None? {
        return None;
      }
      var data := env.parseLegacy(legacy.value);
      if data.None? {
        // reading or parsing threw: logged, and the migration is abandoned
        return None;
      }
      var playlistId := ids.Fresh();
      return Some(MigratedConfig(playlistId, data.value));
    }

    /** `savePlaylists`. */
    method SavePlaylists(c: PlaylistsConfig) returns (result: Completion<bool>)
      requires Valid()
      modifies this
      ensures Valid()
      ensures Saved(result, OnDisk()) == SaveSpec(old(OnDisk()), env, c)
    {
      if !dirExists {
        if !env.canMkdir {
          return Threw;
        }
        dirExists := true;
      }
      var text := env.dump(c);
      if text.None? || !env.canWrite {
        // serialising or writing threw: logged, and reported as false
        return Normal(false);
      }
      current := text;
      return Normal(true);
    }

    /**
     * `loadPlaylists`, with the defaults copied into a fresh array. The configuration it
     * returns shares nothing with the store or with earlier results.
     */
    method LoadPlaylists(ids: IdSource) returns (config: ConfigObject)
      requires Valid() && ids.Valid()
      modifies this, ids
      ensures Valid()
      ensures fresh(config) && fresh(config.playlists)
      ensures Loaded(config.Value(), OnDisk(), ids.next) == LoadSpec(old(OnDisk()), env, ids.mint, old(ids.next))
    {
      ghost var disk := OnDisk();
      if current.Some? {
        var data := env.parseConfig(current.value);
        if data.Some? {
          config := new ConfigObject(MergeConfig(data.value));
          return;
        }
        // a parse failure is logged and falls through to the migration
      }
      var migrated := MigrateFromLegacy(ids);
      if migrated.Some? {
        // the legacy document lies in the storage directory, so the save cannot reach mkdir
        var saved := SavePlaylists(migrated.value);
        assert saved.Normal?;
        config := new ConfigObject(migrated.value);
        return;
      }
      config := new ConfigObject(DefaultConfig);
    }

    /** The fallbacks of `loadPlaylists` whose result takes `DEFAULT_CONFIG.playlists` by reference. */
    predicate SharesDefaults(disk: Disk)
    {
      match ParsedCurrent(disk, env)
      case Some(data) => data.playlists.None?
      case None => !(disk.legacy.Some? && env.parseLegacy(disk.legacy.value).Some?)
    }

    /**
     * `loadPlaylists` as written: `{ ...DEFAULT_CONFIG }` and `{ ...DEFAULT_CONFIG, ...data }`
     * copy only the top level, so when the defaults supply `playlists` the result holds the
     * module's own default array, with whatever has been pushed onto it since.
     */
    method LoadPlaylistsAsWritten(ids: IdSource) returns (config: ConfigObject)
      requires Valid() && ids.Valid()
      modifies this, ids
      ensures Valid() && fresh(config)
      ensures config.playlists == defaultPlaylists <==> SharesDefaults(old(OnDisk()))
      ensures !SharesDefaults(old(OnDisk())) ==> fresh(config.playlists)
      ensures var l := LoadSpec(old(OnDisk()), env, ids.mint, old(ids.next));
              OnDisk() == l.disk && ids.next == l.next &&
              config.Value() == if SharesDefaults(old(OnDisk())) then l.config.(playlists := defaultPlaylists.items) else l.config
      ensures defaultPlaylists.items == old(defaultPlaylists.items)
    {
      if current.Some? {
        var data := env.parseConfig(current.value);
        if data.Some? {
          var merged := MergeConfig(data.value);
          if data.value.playlists.Some? {
            config := new ConfigObject(merged);
          } else {
            config := new ConfigObject.Sharing(merged.activePlaylist, defaultPlaylists);
          }
          return;
        }
      }
      var migrated := MigrateFromLegacy(ids);
      if migrated.Some? {
        var saved := SavePlaylists(migrated.value);
        assert saved.Normal?;
        config := new ConfigObject(migrated.value);
        return;
      }
      config := new ConfigObject.Sharing(DefaultConfig.activePlaylist, defaultPlaylists);
    }
  }

  /** The generator used by the two scenarios below: the n-th id is n letters long. */
  function Tally(n: nat): (id: string)
    ensures |id| == n
  {
    seq(n, _ => 'x')
  }

  /**
   * The shared default array as written: with no document on disk and writes failing, a
   * load, the push of a new playlist onto its result and a failed save (a POST that
   * answers 500) leave the next load returning that unsaved playlist.
   */
  method SharedDefaultsLeak() returns (before: PlaylistsConfig, saved: Completion<bool>, after: PlaylistsConfig)
    ensures before == PlaylistsConfig("", []) && saved == Normal(false)
    ensures |after.playlists| == 1 && after.playlists[0].name == "News"
  {
    var env := Env(_ => None, _ => None, _ => Some("doc"), true, false);
    var store := new Store(Disk(None, None, false), env);
    var ids := new IdSource(Tally);
    var first := store.LoadPlaylistsAsWritten(ids);
    before := first.Value();
    var p := CreatePlaylist(ids, "News", "tv", None);
    first.playlists.Push(p);
    saved := store.SavePlaylists(first.Value());
    var second := store.LoadPlaylistsAsWritten(ids);
    after := second.Value();
  }

  /** The same sequence against the corrected load: the next load is empty again. */
  method DefaultsDoNotLeak() returns (before: PlaylistsConfig, saved: Completion<bool>, after: PlaylistsConfig)
    ensures before == PlaylistsConfig("", []) && saved == Normal(false)
    ensures after == PlaylistsConfig("", [])
  {
    var env := Env(_ => None, _ => None, _ => Some("doc"), true, false);
    var store := new Store(Disk(None, None, false), env);
    var ids := new IdSource(Tally);
    var first := store.LoadPlaylists(ids);
    before := first.Value();
    var p := CreatePlaylist(ids, "News", "tv", None);
    first.playlists.Push(p);
    saved := store.SavePlaylists(first.Value());
    var second := store.LoadPlaylists(ids);
    after := second.Value();
  }
}
