/**
 * app/src/pages/api/playlists/index.ts: GET answers the loaded configuration; POST
 * creates a playlist, appends it, activates it when nothing is active, and saves.
 */
module PlaylistsApi {
  import opened Wrappers
  import opened Playlists
  import opened PlaylistStore
  import opened Http

  /** The fields POST reads from its JSON body. */
  datatype PostBody = PostBody(name: Option<string>, icon: Option<string>, streams: Option<StreamSettings>)

  /** Lines 29-33 of the handler: push the playlist, and make it active if no playlist is. */
  function AddPlaylist(c: PlaylistsConfig, p: Playlist): PlaylistsConfig {
    PlaylistsConfig(if c.activePlaylist == "" then p.id else c.activePlaylist, c.playlists + [p])
  }

  /** The new playlist is the last element; every earlier playlist stays where it was, unchanged. */
  lemma AddPlaylistAppends(c: PlaylistsConfig, p: Playlist)
    ensures var r := AddPlaylist(c, p);
            |r.playlists| == |c.playlists| + 1 && r.playlists[|c.playlists|] == p &&
            forall i :: 0 <= i < |c.playlists| ==> r.playlists[i] == c.playlists[i]
  {
  }

  /** The new playlist becomes active exactly when no playlist was; otherwise the active id stays. */
  lemma AddPlaylistActivates(c: PlaylistsConfig, p: Playlist)
    ensures c.activePlaylist == "" ==> AddPlaylist(c, p).activePlaylist == p.id
    ensures c.activePlaylist != "" ==> AddPlaylist(c, p).activePlaylist == c.activePlaylist
  {
  }

  /**
   * If the active id was "" or named a playlist, afterwards it names a playlist, which
   * `getActivePlaylist` then finds.
   */
  lemma AddPlaylistRestoresInvariant(c: PlaylistsConfig, p: Playlist)
    requires ActiveValid(c)
    ensures HasId(AddPlaylist(c, p).playlists, AddPlaylist(c, p).activePlaylist)
    ensures GetActivePlaylist(AddPlaylist(c, p)).Some?
  {
    var r := AddPlaylist(c, p);
    if c.activePlaylist == "" {
      assert r.playlists[|c.playlists|].id == r.activePlaylist;
    } else {
      var i :| 0 <= i < |c.playlists| && c.playlists[i].id == c.activePlaylist;
      assert r.playlists[i].id == r.activePlaylist;
    }
  }

  /** Appending a playlist whose id is new keeps ids unique. */
  lemma AddPlaylistKeepsIdsUnique(c: PlaylistsConfig, p: Playlist)
    requires UniqueIds(c.playlists) && !HasId(c.playlists, p.id)
    ensures UniqueIds(AddPlaylist(c, p).playlists)
  {
  }

  /** GET: the loaded configuration, unchanged. */
  function GetSpec(disk: Disk, env: Env, mint: nat -> string, next: nat): Handled
    requires DiskValid(disk)
  {
    var l := LoadSpec(disk, env, mint, next);
    Handled(Listed(l.config), l.disk, l.next)
  }

  /** POST, with `body` None when the request body is not JSON. */
  function PostSpec(disk: Disk, env: Env, mint: nat -> string, next: nat, body: Option<PostBody>): Handled
    requires DiskValid(disk)
  {
    if body.None? || !Truthy(body.value.name) || !Truthy(body.value.icon) then
      Handled(BadRequest, disk, next)
    else
      var l := LoadSpec(disk, env, mint, next);
      var p := NewPlaylist(mint(l.next), body.value.name.value, body.value.icon.value, body.value.streams);
      var s := SaveSpec(l.disk, env, AddPlaylist(l.config, p));
      Handled(AfterSave(s.result, Created(p)), s.disk, l.next + 1)
  }

  /** A body that is not JSON, or lacks a name or an icon, is answered 400 before anything is loaded, created or saved. */
  lemma PostRejectsInvalid(disk: Disk, env: Env, mint: nat -> string, next: nat, body: Option<PostBody>)
    requires DiskValid(disk)
    requires body.None? || !Truthy(body.value.name) || !Truthy(body.value.icon)
    ensures PostSpec(disk, env, mint, next, body) == Handled(BadRequest, disk, next)
  {
  }

  /**
   * On a valid request: 201 carrying the new playlist when the save returns true, 500
   * when it returns false, 400 when it throws; the new playlist has the requested name
   * and icon and a fresh id.
   */
  lemma PostOutcome(disk: Disk, env: Env, mint: nat -> string, next: nat, body: PostBody)
    requires DiskValid(disk)
    requires Truthy(body.name) && Truthy(body.icon)
    ensures var l := LoadSpec(disk, env, mint, next);
            var h := PostSpec(disk, env, mint, next, Some(body));
            var p := NewPlaylist(mint(l.next), body.name.value, body.icon.value, body.streams);
            var s := SaveSpec(l.disk, env, AddPlaylist(l.config, p));
            (h.response == Created(p) <==> s.result == Normal(true)) &&
            (h.response == ServerError <==> s.result == Normal(false)) &&
            (h.response == BadRequest <==> s.result == Threw) &&
            h.response.Status() in {201, 400, 500}
  {
  }

  /**
   * After a 201, and under the YAML round-trip assumption, the next load sees the
   * configuration that was loaded with the new playlist appended, and the active id
   * names a playlist if it was "" or named one before.
   */
  lemma PostPersists(disk: Disk, env: Env, mint: nat -> string, next: nat, body: PostBody)
    requires DiskValid(disk)
    requires DumpParses(env)
    requires Truthy(body.name) && Truthy(body.icon)
    requires PostSpec(disk, env, mint, next, Some(body)).response.Created?
    ensures var before := LoadSpec(disk, env, mint, next).config;
            var h := PostSpec(disk, env, mint, next, Some(body));
            var after := LoadSpec(h.disk, env, mint, h.next).config;
            after == AddPlaylist(before, h.response.playlist) &&
            after.playlists[..|before.playlists|] == before.playlists &&
            (ActiveValid(before) ==> GetActivePlaylist(after).Some?)
  {
    var l := LoadSpec(disk, env, mint, next);
    var p := NewPlaylist(mint(l.next), body.name.value, body.icon.value, body.streams);
    var c := AddPlaylist(l.config, p);
    SaveLoadRoundTrip(l.disk, env, c, mint, l.next + 1);
    if ActiveValid(l.config) {
      AddPlaylistRestoresInvariant(l.config, p);
    }
  }

  /** Every playlist in `c` carries an id the generator handed out before position `next`. */
  ghost predicate IdsIssuedBefore(c: PlaylistsConfig, mint: nat -> string, next: nat) {
    forall k :: 0 <= k < |c.playlists| ==> exists i: nat :: i < next && mint(i) == c.playlists[k].id
  }

  /**
   * Ids stay unique: if the loaded playlists have distinct ids, all drawn from the
   * generator, the configuration a valid POST saves has distinct ids too.
   */
  lemma PostKeepsIdsUnique(disk: Disk, env: Env, mint: nat -> string, next: nat, body: PostBody)
    requires DiskValid(disk)
    requires Injective(mint)
    requires Truthy(body.name) && Truthy(body.icon)
    requires var l := LoadSpec(disk, env, mint, next);
             UniqueIds(l.config.playlists) && IdsIssuedBefore(l.config, mint, l.next)
    ensures var l := LoadSpec(disk, env, mint, next);
            var p := NewPlaylist(mint(l.next), body.name.value, body.icon.value, body.streams);
            UniqueIds(AddPlaylist(l.config, p).playlists)
  {
  }

  /** GET. */
  method Get(store: Store, ids: IdSource) returns (response: Response)
    requires store.Valid() && ids.Valid()
    modifies store, ids
    ensures store.Valid()
    ensures Handled(response, store.OnDisk(), ids.next) == GetSpec(old(store.OnDisk()), store.env, ids.mint, old(ids.next))
  {
    var config := store.LoadPlaylists(ids);
    response := Listed(config.Value());
  }

  /** POST; the configuration is mutated in place before it is saved. */
  method Post(store: Store, ids: IdSource, body: Option<PostBody>) returns (response: Response)
    requires store.Valid() && ids.Valid()
    modifies store, ids
    ensures store.Valid()
    ensures Handled(response, store.OnDisk(), ids.next) == PostSpec(old(store.OnDisk()), store.env, ids.mint, old(ids.next), body)
  {
    if body.None? {
      return BadRequest;
    }
    var b := body.value;
    if !Truthy(b.name) || !Truthy(b.icon) {
      return BadRequest;
    }
    var config := store.LoadPlaylists(ids);
    var playlist := CreatePlaylist(ids, b.name.value, b.icon.value, b.streams);
    config.playlists.Push(playlist);
    if config.activePlaylist == "" {
      config.activePlaylist := playlist.id;
    }
    var saved := store.SavePlaylists(config.Value());
    response := AfterSave(saved, Created(playlist));
  }
}
