/**
 * app/src/pages/api/playlists/active.ts: PUT selects the active playlist, after checking
 * that a playlist with the requested id exists.
 */
module ActiveApi {
  import opened Wrappers
  import opened Playlists
  import opened PlaylistStore
  import opened Http

  /** The field PUT reads from its JSON body. */
  datatype PutBody = PutBody(activePlaylist: Option<string>)

  /** Line 28 of the handler: only the active id changes. */
  function SetActive(c: PlaylistsConfig, id: string): PlaylistsConfig {
    c.(activePlaylist := id)
  }

  /**
   * Setting an id that some playlist has changes nothing but the active id, keeps the
   * invariant, and makes `getActivePlaylist` return a playlist with exactly that id.
   */
  lemma SetActiveResolves(c: PlaylistsConfig, id: string)
    requires HasId(c.playlists, id)
    ensures SetActive(c, id).playlists == c.playlists
    ensures SetActive(c, id).activePlaylist == id
    ensures ActiveValid(SetActive(c, id))
    ensures GetActivePlaylist(SetActive(c, id)).Some? && GetActivePlaylist(SetActive(c, id)).value.id == id
  {
  }

  /** PUT, with `body` None when the request body is not JSON. */
  function PutSpec(disk: Disk, env: Env, mint: nat -> string, next: nat, body: Option<PutBody>): Handled
    requires DiskValid(disk)
  {
    if body.None? || !Truthy(body.value.activePlaylist) then
      Handled(BadRequest, disk, next)
    else
      var id := body.value.activePlaylist.value;
      var l := LoadSpec(disk, env, mint, next);
      if !HasId(l.config.playlists, id) then
        Handled(NotFound, l.disk, l.next)
      else
        var s := SaveSpec(l.disk, env, SetActive(l.config, id));
        Handled(AfterSave(s.result, Ok), s.disk, l.next)
  }

  /** A body that is not JSON, or has no active id, is answered 400 before anything is loaded or saved. */
  lemma PutRejectsInvalid(disk: Disk, env: Env, mint: nat -> string, next: nat, body: Option<PutBody>)
    requires DiskValid(disk)
    requires body.None? || !Truthy(body.value.activePlaylist)
    ensures PutSpec(disk, env, mint, next, body) == Handled(BadRequest, disk, next)
  {
  }

  /**
   * An id no loaded playlist has is answered 404 and the handler saves nothing: the disk
   * is as the load left it.
   */
  lemma PutNotFound(disk: Disk, env: Env, mint: nat -> string, next: nat, id: string)
    requires DiskValid(disk)
    requires id != ""
    requires !HasId(LoadSpec(disk, env, mint, next).config.playlists, id)
    ensures var l := LoadSpec(disk, env, mint, next);
            PutSpec(disk, env, mint, next, Some(PutBody(Some(id)))) == Handled(NotFound, l.disk, l.next)
  {
  }

  /**
   * For an existing id: 200 when the save returns true, 500 when it returns false, 400
   * when it throws, and what is saved is the loaded configuration with only the active id changed.
   */
  lemma PutOutcome(disk: Disk, env: Env, mint: nat -> string, next: nat, id: string)
    requires DiskValid(disk)
    requires id != ""
    requires HasId(LoadSpec(disk, env, mint, next).config.playlists, id)
    ensures var l := LoadSpec(disk, env, mint, next);
            var s := SaveSpec(l.disk, env, l.config.(activePlaylist := id));
            var h := PutSpec(disk, env, mint, next, Some(PutBody(Some(id))));
            h.disk == s.disk &&
            (h.response == Ok <==> s.result == Normal(true)) &&
            (h.response == ServerError <==> s.result == Normal(false)) &&
            (h.response == BadRequest <==> s.result == Threw)
  {
  }

  /**
   * After a 200, and under the YAML round-trip assumption, the next load has the same
   * playlists, and `getActivePlaylist` on it finds the requested playlist.
   */
  lemma PutPersists(disk: Disk, env: Env, mint: nat -> string, next: nat, id: string)
    requires DiskValid(disk)
    requires DumpParses(env)
    requires PutSpec(disk, env, mint, next, Some(PutBody(Some(id)))).response == Ok
    ensures var before := LoadSpec(disk, env, mint, next).config;
            var h := PutSpec(disk, env, mint, next, Some(PutBody(Some(id))));
            var after := LoadSpec(h.disk, env, mint, h.next).config;
            after.playlists == before.playlists && after.activePlaylist == id &&
            GetActivePlaylist(after).Some? && GetActivePlaylist(after).value.id == id
  {
    var l := LoadSpec(disk, env, mint, next);
    SaveLoadRoundTrip(l.disk, env, SetActive(l.config, id), mint, l.next);
    SetActiveResolves(l.config, id);
  }

  /** PUT; the configuration is mutated in place before it is saved. */
  method Put(store: Store, ids: IdSource, body: Option<PutBody>) returns (response: Response)
    requires store.Valid() && ids.Valid()
    modifies store, ids
    ensures store.Valid()
    ensures Handled(response, store.OnDisk(), ids.next) == PutSpec(old(store.OnDisk()), store.env, ids.mint, old(ids.next), body)
  {
    if body.None? {
      return BadRequest;
    }
    var activePlaylist := body.value.activePlaylist;
    if !Truthy(activePlaylist) {
      return BadRequest;
    }
    var config := store.LoadPlaylists(ids);
    var playlistExists := HasId(config.playlists.items, activePlaylist.value);
    if !playlistExists {
      return NotFound;
    }
    config.activePlaylist := activePlaylist.value;
    var saved := store.SavePlaylists(config.Value());
    response := AfterSave(saved, Ok);
  }
}
