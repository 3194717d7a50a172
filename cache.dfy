/**
 The media cache is the flat `music` folder: a track `<id>` is cached when the
 folder holds a file named `<id>.mp4`. Both handlers that fetch videos read the
 folder listing once and scan that snapshot for the name.
 */
module Cache {

  const Folder: string := "music"
  const Extension: string := ".mp4"

  /** The cache file name of a track. */
  function FileName(id: string): string
  {
    id + Extension
  }

  /** Cache hit rule: some name in the snapshot is `<id>.mp4`. */
  predicate IsCached(files: seq<string>, id: string)
  {
    FileName(id) in files
  }

  /** The linear scan of the snapshot that stops at the first file named `<id>.mp4`. */
  method FindCached(files: seq<string>, id: string) returns (found: bool, at: nat)
    ensures found <==> IsCached(files, id)
    ensures found ==> at < |files| && files[at] == FileName(id) && FileName(id) !in files[..at]
  {
    var name := FileName(id);
    found, at := false, 0;
    while at < |files|
      invariant at <= |files|
      invariant name !in files[..at]
    {
      if files[at] == name {
        found := true;
        return;
      }
      at := at + 1;
    }
  }

  /**
   The single-video handler: on a hit it plays the listed file, otherwise it
   downloads into a new file `music/<id>.mp4` and plays that. Either way the
   file played has the same path; only a miss downloads. `id` is the id of the
   resolved video (`video.ID`), which the handler gets by passing its argument,
   an id or a URL, to the video client; that resolution is not part of this model.
   */
  method PlayVideo(id: string, files: seq<string>) returns (downloaded: bool, path: string)
    ensures downloaded <==> !IsCached(files, id)
    ensures path == Folder + "/" + FileName(id)
  {
    var found, at := FindCached(files, id);
    if found {
      // fmt.Sprintf("%s/%s", Folder, f.Name()) of the matching entry
      path := Folder + "/" + files[at];
      downloaded := false;
    } else {
      // the name passed to os.Create, which file.Name() returns
      path := "music/" + id + ".mp4";
      downloaded := true;
    }
  }
}
