/**
 * The playlist configuration domain of app/src/lib/playlists.ts: the records the
 * store persists, the defaults a parsed document is merged over, the record a new
 * playlist gets, and the lookup of the active playlist. Everything here is pure;
 * storage, the id generator and the request handlers are in other modules.
 */
module Playlists {
  import opened Wrappers

  /** The four video quadrants of the display wall. */
  datatype Quadrant = TopLeft | TopRight | BottomLeft | BottomRight

  /** One stream URL per quadrant. */
  datatype StreamSettings = StreamSettings(topLeft: string, topRight: string, bottomLeft: string, bottomRight: string)
  {
    function Get(q: Quadrant): string {
      match q
      case TopLeft => topLeft
      case TopRight => topRight
      case BottomLeft => bottomLeft
      case BottomRight => bottomRight
    }
  }

  datatype Playlist = Playlist(id: string, name: string, icon: string, streams: StreamSettings)

  /** The whole persisted document: the id of the selected playlist (or "") and the playlists in order. */
  datatype PlaylistsConfig = PlaylistsConfig(activePlaylist: string, playlists: seq<Playlist>)

  const DefaultStreams := StreamSettings("", "", "", "")

  const DefaultConfig := PlaylistsConfig("", [])

  /** A parsed legacy document: the quadrant keys it holds and their values. */
  type StreamFields = map<Quadrant, string>

  /** A parsed current-format document: each top-level key, present or absent. */
  datatype ConfigFields = ConfigFields(activePlaylist: Option<string>, playlists: Option<seq<Playlist>>)

  /** The document a complete configuration is written as: every top-level key present. */
  function Fields(c: PlaylistsConfig): ConfigFields {
    ConfigFields(Some(c.activePlaylist), Some(c.playlists))
  }

  /** One quadrant of `{ ...DEFAULT_STREAMS, ...data }`: the document's value if it has the key. */
  function Spread(data: StreamFields, q: Quadrant): string {
    if q in data then data[q] else DefaultStreams.Get(q)
  }

  /**
   * `{ ...DEFAULT_STREAMS, ...data }`: every quadrant the legacy document names keeps
   * its value, every other quadrant is the empty string.
   */
  function MergeStreams(data: StreamFields): (s: StreamSettings)
    ensures forall q :: s.Get(q) == if q in data then data[q] else ""
  {
    StreamSettings(Spread(data, TopLeft), Spread(data, TopRight), Spread(data, BottomLeft), Spread(data, BottomRight))
  }

  /** `{ ...DEFAULT_CONFIG, ...data }`: a top-level override, one key at a time. */
  function MergeConfig(data: ConfigFields): PlaylistsConfig {
    PlaylistsConfig(data.activePlaylist.GetOr(DefaultConfig.activePlaylist), data.playlists.GetOr(DefaultConfig.playlists))
  }

  /**
   * The merge fills a missing `activePlaylist` with "" and a missing `playlists` with the
   * empty list, and is shallow: a present key is taken verbatim, playlists and their
   * streams included, with no defaulting inside it.
   */
  lemma MergeConfigDefaults(data: ConfigFields)
    ensures data.activePlaylist.None? ==> MergeConfig(data).activePlaylist == ""
    ensures data.playlists.None? ==> MergeConfig(data).playlists == []
    ensures data.activePlaylist.Some? ==> MergeConfig(data).activePlaylist == data.activePlaylist.value
    ensures data.playlists.Some? ==> MergeConfig(data).playlists == data.playlists.value
  {
  }

  /** A document that holds both keys merges back to exactly the configuration it came from. */
  lemma MergeCompleteDocument(c: PlaylistsConfig)
    ensures MergeConfig(Fields(c)) == c
  {
  }

  /**
   * The record `createPlaylist` builds once its id is drawn: name and icon unchanged,
   * the supplied streams, or all four quadrants empty when none were supplied.
   */
  function NewPlaylist(id: string, name: string, icon: string, streams: Option<StreamSettings>): (p: Playlist)
    ensures p.id == id && p.name == name && p.icon == icon
    ensures streams.Some? ==> p.streams == streams.value
    ensures streams.None? ==> forall q :: p.streams.Get(q) == ""
  {
    Playlist(id, name, icon, streams.GetOr(DefaultStreams))
  }

  /** Some playlist in `ps` has id `id` (`playlists.some(p => p.id === id)`). */
  predicate HasId(ps: seq<Playlist>, id: string) {
    exists i :: 0 <= i < |ps| && ps[i].id == id
  }

  /** No two playlists share an id. */
  ghost predicate UniqueIds(ps: seq<Playlist>) {
    forall i, j :: 0 <= i < j < |ps| ==> ps[i].id != ps[j].id
  }

  /** The configuration invariant: the active id is "" or names some playlist. */
  ghost predicate ActiveValid(c: PlaylistsConfig) {
    c.activePlaylist == "" || HasId(c.playlists, c.activePlaylist)
  }

  /** The position of the first playlist with id `id`, if any (the scan `Array.prototype.find` does). */
  function FindIndex(ps: seq<Playlist>, id: string): (r: Option<nat>)
    ensures r.Some? ==> r.value < |ps| && ps[r.value].id == id
    ensures r.Some? ==> forall j :: 0 <= j < r.value ==> ps[j].id != id
    ensures r.None? <==> !HasId(ps, id)
  {
    if |ps| == 0 then None
    else if ps[0].id == id then Some(0)
    else
      match FindIndex(ps[1..], id)
      case None => None
      case Some(k) => Some(k + 1)
  }

  /**
   * `getActivePlaylist`: the first playlist whose id is the active id; none when no id
   * matches, which includes an empty active id that no playlist carries.
   */
  function GetActivePlaylist(c: PlaylistsConfig): (r: Option<Playlist>)
    ensures r.Some? ==> r.value in c.playlists && r.value.id == c.activePlaylist
    ensures r.Some? ==> exists k :: 0 <= k < |c.playlists| && c.playlists[k] == r.value &&
                                    forall j :: 0 <= j < k ==> c.playlists[j].id != c.activePlaylist
    ensures r.None? <==> !HasId(c.playlists, c.activePlaylist)
  {
    match FindIndex(c.playlists, c.activePlaylist)
    case None => None
    case Some(k) => Some(c.playlists[k])
  }

  /** A generator that never hands out the same id twice. */
  ghost predicate Injective(mint: nat -> string) {
    forall i: nat, j: nat :: mint(i) == mint(j) ==> i == j
  }
}
