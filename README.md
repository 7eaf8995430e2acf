# Playlist configuration store of tvgrid, in Dafny

This project models the playlist store of tvgrid, a four-quadrant video wall. The store keeps
one YAML document, `playlists.yaml`, in a storage directory. The document holds the id of the
active playlist and an ordered list of playlists. Each playlist has an id, a name, an icon and
one stream URL per quadrant. The model covers:

- the domain records and their defaults, the shallow merges a parsed document goes through, the
  record a new playlist gets, and the lookup of the active playlist (`playlists.dfy`, module
  `Playlists`);
- the store (`storage.dfy`, module `PlaylistStore`). This covers the one-shot migration from the
  legacy flat document `videourls.yaml`, `loadPlaylists` with its ordered fallback (current
  document, then migration, then defaults), `savePlaylists`, and `createPlaylist` drawing ids
  from an injected generator;
- the two request handlers that change the configuration (`playlists_api.dfy` for
  `api/playlists/index.ts`, `active_api.dfy` for `api/playlists/active.ts`), with their
  answers reduced to a `Response` value (`http.dfy`).

Each operation that touches storage appears twice. One version is a pure function of a `Disk`
value: the two document texts and whether the directory exists. The other is a method on the
`Store` class that follows the source's control flow: early returns, a parse failure that falls
through, and a save whose result is ignored. Each method is proved equal to its function. The
lemmas about the functions state the properties.

Configurations the handlers mutate are heap objects. `ConfigObject` has a string field and a
reference to a `PlaylistArray`, so a push made through one reference is seen through every
other. `Store.LoadPlaylistsAsWritten` and the scenario `SharedDefaultsLeak` use this to show
the finding below. The handlers `Get`, `Post` and `Put`, their specification functions and
the lemmas about them run over the corrected `Store.LoadPlaylists`.

What the model abstracts:

- The YAML parser and dumper are the fields of `Env`. A read failure is treated as a parse
  failure, because both sit inside the same `try`.
- The success of `mkdirSync` and `writeFileSync` are two booleans in `Env`.
- `nanoid` is an `IdSource` whose n-th id is `mint(n)`, where `mint` is assumed injective.
- The save/load round trip is proved only under the assumption `DumpParses`: a dumped
  configuration parses back to all of its keys.

Where the code departs from the documented design of the store, the model follows the code:

- `savePlaylists` can throw. `mkdirSync` sits outside the `try` (`app/src/lib/playlists.ts:104-106`).
  The model returns `Threw` when the directory is missing and cannot be created. Both handlers
  catch that throw and answer 400 ("Invalid request body"), not 500.
- `loadPlaylists` never throws. Both documents live in the storage directory, so whenever a
  migration is saved the directory exists and `mkdirSync` is not reached. This is the `Store`
  invariant `DiskValid`.
- POST activates the new playlist only when `activePlaylist` is "". This is not "when it is the
  first playlist": an active id that names no playlist is left dangling.

## Model

| member | source | states |
|---|---|---|
| `Playlists.MergeStreams` | app/src/lib/playlists.ts:60 | every quadrant the legacy document names keeps its value; every other quadrant is "" |
| `Playlists.MergeConfigDefaults` | app/src/lib/playlists.ts:85 | a missing `activePlaylist` becomes "", a missing `playlists` becomes []; a present key is taken verbatim, with no defaulting inside playlists (shallow merge) |
| `Playlists.MergeCompleteDocument` | app/src/lib/playlists.ts:85 | a document holding both keys merges back to exactly the configuration it describes |
| `Playlists.NewPlaylist` | app/src/lib/playlists.ts:118-125 | name and icon pass through unchanged; supplied streams are used, otherwise all four quadrants are "" |
| `Playlists.FindIndex` | app/src/lib/playlists.ts:128 | the index of the FIRST playlist with the id, or none exactly when no playlist has it |
| `Playlists.GetActivePlaylist` | app/src/lib/playlists.ts:127-129 | returns a playlist of the configuration whose id is the active id, the first such; none iff no playlist carries the active id |
| `PlaylistStore.MigrationAbsent` | app/src/lib/playlists.ts:53-75 | migration yields a configuration iff the legacy document exists and can be read and parsed |
| `PlaylistStore.MigrationShape` | app/src/lib/playlists.ts:58-71 | a migrated configuration has exactly one playlist, "Default" with icon "tv", with the legacy quadrants ("" where missing); it is active and `getActivePlaylist` finds it |
| `PlaylistStore.SaveOutcome` | app/src/lib/playlists.ts:100-116 | save returns true iff serialising and writing succeed, and then the document is the serialised config; false leaves the document as it was; it throws iff the directory is missing and mkdir fails |
| `PlaylistStore.LoadPrefersCurrent` | app/src/lib/playlists.ts:81-85 | a current document that parses decides the result alone: no legacy read, no write, no id drawn, missing `activePlaylist` is "" |
| `PlaylistStore.LoadFallsThroughToMigration` | app/src/lib/playlists.ts:86-95 | a missing or unparsable current document falls through to migration; the migrated config is saved and returned whatever the save reports, and it satisfies the active-id invariant |
| `PlaylistStore.LoadFallsBackToDefaults` | app/src/lib/playlists.ts:91-97 | with neither document usable, load returns `activePlaylist == ""` and no playlists, and changes nothing |
| `PlaylistStore.LoadKeepsDiskValid` | app/src/lib/playlists.ts:78-98 | load keeps the disk invariant, never touches the legacy document, and its only write is the migrated config, which also draws one id |
| `PlaylistStore.SaveLoadRoundTrip` | app/src/lib/playlists.ts:81-111 | under the YAML assumption, a configuration saved successfully loads back unchanged |
| `PlaylistStore.MigrationRunsOnce` | app/src/lib/playlists.ts:91-95 | once a migration's save succeeds, the next load returns the same configuration from the current document, drawing no id and writing nothing |
| `PlaylistStore.IdSource.Fresh` | app/src/lib/playlists.ts:120 | the generator returns an id it has never returned before |
| `PlaylistStore.CreatePlaylist` | app/src/lib/playlists.ts:118-125 | `createPlaylist`: a fresh id from the generator, name and icon as given, the supplied streams or empty ones |
| `PlaylistStore.Store.MigrateFromLegacy` | app/src/lib/playlists.ts:50-76 | `migrateFromLegacy` equals `MigrateSpec`; an id is drawn only when the legacy document parsed |
| `PlaylistStore.Store.SavePlaylists` | app/src/lib/playlists.ts:100-116 | `savePlaylists` equals `SaveSpec` and keeps the disk invariant |
| `PlaylistStore.Store.LoadPlaylists` | app/src/lib/playlists.ts:78-98 | `loadPlaylists` (corrected) equals `LoadSpec`, and the returned object and its array are fresh |
| `PlaylistStore.Store.LoadPlaylistsAsWritten` | app/src/lib/playlists.ts:78-98 | `loadPlaylists` as written: the result's array IS `DEFAULT_CONFIG.playlists` exactly when the defaults supply `playlists`, and then holds whatever was pushed onto it |
| `PlaylistStore.SharedDefaultsLeak` | app/src/lib/playlists.ts:85-97 | with no documents and failing writes: load, push a playlist, failed save, load again; the second load returns the unsaved playlist |
| `PlaylistStore.DefaultsDoNotLeak` | app/src/lib/playlists.ts:97 | the same sequence with the corrected load: the second load is empty again |
| `PlaylistsApi.AddPlaylistAppends` | app/src/pages/api/playlists/index.ts:29 | the new playlist is the last element; all earlier playlists are unchanged and keep their order |
| `PlaylistsApi.AddPlaylistActivates` | app/src/pages/api/playlists/index.ts:31-33 | the active id becomes the new id when it was ""; otherwise it is unchanged |
| `PlaylistsApi.AddPlaylistRestoresInvariant` | app/src/pages/api/playlists/index.ts:29-33 | if the active id was "" or named a playlist, afterwards it names a playlist that `getActivePlaylist` finds |
| `PlaylistsApi.AddPlaylistKeepsIdsUnique` | app/src/pages/api/playlists/index.ts:29 | appending a playlist with a new id keeps ids unique |
| `PlaylistsApi.PostKeepsIdsUnique` | app/src/pages/api/playlists/index.ts:26-29 | given generator-issued, unique ids in the loaded configuration, the configuration POST saves has unique ids |
| `PlaylistsApi.PostRejectsInvalid` | app/src/pages/api/playlists/index.ts:16-24 | a non-JSON body, or a falsy name or icon, answers 400 with no load, create or save |
| `PlaylistsApi.PostOutcome` | app/src/pages/api/playlists/index.ts:35-51 | a valid POST answers 201 with the new playlist iff the save returned true, 500 iff false, 400 iff it threw |
| `PlaylistsApi.PostPersists` | app/src/pages/api/playlists/index.ts:26-45 | after a 201 (YAML assumption), the next load is the earlier config with the new playlist appended, and the active playlist resolves |
| `PlaylistsApi.Get` | app/src/pages/api/playlists/index.ts:6-12 | GET answers the loaded configuration unchanged |
| `PlaylistsApi.Post` | app/src/pages/api/playlists/index.ts:14-52 | the in-place POST (push, conditional activation, save) equals `PostSpec` |
| `ActiveApi.SetActiveResolves` | app/src/pages/api/playlists/active.ts:28 | setting an existing id changes only the active id; `getActivePlaylist` then returns a playlist with that id |
| `ActiveApi.PutRejectsInvalid` | app/src/pages/api/playlists/active.ts:8-16 | a non-JSON body or a falsy id answers 400 with no load or save |
| `ActiveApi.PutNotFound` | app/src/pages/api/playlists/active.ts:18-26 | an id no loaded playlist has answers 404, and the handler saves nothing beyond what the load itself wrote |
| `ActiveApi.PutOutcome` | app/src/pages/api/playlists/active.ts:28-46 | for an existing id, what is saved differs from the loaded config only in the active id; 200 iff the save returned true, 500 iff false, 400 iff it threw |
| `ActiveApi.PutPersists` | app/src/pages/api/playlists/active.ts:20-40 | after a 200 (YAML assumption), the next load has the same playlists and `getActivePlaylist` finds the requested one |
| `ActiveApi.Put` | app/src/pages/api/playlists/active.ts:6-47 | the in-place PUT (existence scan, assignment, save) equals `PutSpec` |

## Left out

- YAML parsing and dumping (`js-yaml`) are the abstract functions of `Env`. The save/load round trip is the assumption `DumpParses`; it is not proved.
- Parsed documents are typed. A legacy document is a map from quadrant to string. A current document is two optional keys whose playlists are complete records. The model therefore does not capture extra keys (a spread keeps them), non-string values, or a playlist entry with a missing quadrant (the shallow merge returns it as is).
- Path computation (`getStoragePath`, `getLegacyStoragePath`) is not modelled. The two paths are the two document slots of `Disk`, in one directory.
- A failed or partial `writeFileSync` is modelled as leaving the document unchanged. Torn writes are not modelled.
- `console.error` logging is not modelled.
- `nanoid` randomness is replaced by the injective generator `IdSource`. Id uniqueness rests on that assumption. For ids read from disk it rests on `IdsIssuedBefore`.
- HTTP plumbing is reduced to `Response`: `Response` objects, headers, JSON encoding and `await request.json()` (an unparsable body is `None`). A throw escaping GET is not modelled because none can occur.
- `PlaylistsApi.Get`, `PlaylistsApi.Post` and `ActiveApi.Put` load through the corrected `Store.LoadPlaylists`, not the as-written load. They therefore do not show the shared default array: a playlist pushed by an earlier POST whose save failed is not carried into a later GET, POST or PUT (see "## Findings").
- `PlaylistsApi.Post` takes a typed request body. The handler reads its JSON fields unchecked. A partial or non-object `streams` (such as `{"topLeft": "a"}`) is stored verbatim by `createPlaylist`, and no later load fills in its missing quadrants, because the merge is shallow. A truthy non-string `name` or `icon` (such as `5` or `[]`) passes the falsy check and is stored. None of these is modelled.
- `ActiveApi.Put` takes the requested id as a string. A truthy non-string `activePlaylist` in the JSON body is not modelled.
- The update and delete handlers of `api/playlists/[id].ts` are not part of this model. So is the reassignment of the active id on delete.
- Concurrent read-modify-write between requests is not modelled. Each handler runs alone on the store.
- The environment (`canMkdir`, `canWrite`, the parser) is fixed for the lifetime of a `Store`. Failures that come and go are not modelled.

## Findings

| source | as written | input that shows it | evidently intended | confidence | as-written member | corrected member |
|---|---|---|---|---|---|---|
| app/src/lib/playlists.ts:85-97 | `{ ...DEFAULT_CONFIG }` and `{ ...DEFAULT_CONFIG, ...data }` copy only the top level, so the returned `playlists` is the module's `DEFAULT_CONFIG.playlists` array, and POST pushes onto it (app/src/pages/api/playlists/index.ts:29); the playlist whose POST failed then also reaches the configuration saved by a later successful POST (`[News, P2]` instead of `[P2]`) or by a PUT that selects it | no document on disk and writes failing: POST `{name: "News", icon: "tv"}` answers 500, yet the next GET returns `{activePlaylist: "", playlists: [News]}` | every load that falls back to the defaults returns a fresh empty list | high (not executed) | `PlaylistStore.Store.LoadPlaylistsAsWritten`, `PlaylistStore.SharedDefaultsLeak` | `PlaylistStore.Store.LoadPlaylists`, `PlaylistStore.DefaultsDoNotLeak` |
