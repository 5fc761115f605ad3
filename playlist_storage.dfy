/** data_processing/playlist_data/storage.py: the record of the playlist made for a venue and month. */
module PlaylistStorage {
  import opened Values
  import opened Store

  /** `Path(city_path) / venue_key / f"playlist_{month}.yaml"` */
  function PlaylistFilePath(cityPath: string, venueKey: string, month: string): string {
    cityPath + "/" + venueKey + "/playlist_" + month + ".yaml"
  }

  /** The YAML record save_playlist_info writes, keys in this order. */
  function PlaylistRecord(venueKey: string, month: string, playlistUrl: Value, created: string): Value {
    Object([("venue", Str(venueKey)), ("month", Str(month)), ("playlist_url", playlistUrl), ("created", Str(created))])
  }

  /** save_playlist_info: creates the venue's directory and writes the record over any earlier one.
      `created` is the time of the call in ISO format. */
  method SavePlaylistInfo(store: FileStore, venueKey: string, month: string, playlistUrl: Value,
                          cityPath: string, created: string)
    modifies store
    ensures store.dirs == old(store.dirs) + DirChain(cityPath + "/" + venueKey)
    ensures store.files == old(store.files)[PlaylistFilePath(cityPath, venueKey, month) :=
      Doc(PlaylistRecord(venueKey, month, playlistUrl, created))]
  {
    store.MakeDirs(cityPath + "/" + venueKey);
    store.Write(PlaylistFilePath(cityPath, venueKey, month), Doc(PlaylistRecord(venueKey, month, playlistUrl, created)));
  }
}
