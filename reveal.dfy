/** The "Reveal File In Finder" actions: the directory each selected clip's
    media lives in, the file-browser command that opens it, and the scope
    checks. The command is returned rather than started. */
module Reveal {
  import opened Py

  /** `path.rsplit('/', 1)[0]`: everything before the last '/', or the whole
      path when it has none. */
  function TrimToDir(path: string): (r: string)
    ensures '/' !in path ==> r == path
    ensures '/' in path ==> exists name :: path == r + "/" + name && '/' !in name
    ensures |r| <= |path|
  {
    var parts := RSplitOnce(path, '/');
    if |parts| == 2 then
      assert path == parts[0] + "/" + parts[1];
      parts[0]
    else parts[0]
  }

  /** The directory is the prefix before a final file name. */
  lemma TrimToDirOf(dir: string, name: string)
    requires '/' !in name
    ensures TrimToDir(dir + "/" + name) == dir
  {
    RSplitOnceAt(dir, '/', name);
  }

  /** `open_finder`: the command started for a directory on the given system. */
  function Opener(system: string, dir: string): (cmd: seq<string>)
    ensures |cmd| == 2 && cmd[1] == dir
    ensures cmd[0] == if system == "Darwin" then "open" else "xdg-open"
  {
    if system == "Darwin" then ["open", dir] else ["xdg-open", dir]
  }

  /** The directory to open, or None when it is empty. */
  function DirToOpen(path: string): (r: Option<string>)
    ensures r.Some? <==> TrimToDir(path) != ""
    ensures r.Some? ==> r.value == TrimToDir(path)
  {
    var dir := TrimToDir(path);
    if dir != "" then Some(dir) else None
  }

  /** A file directly under the root opens nothing. */
  lemma RootFileOpensNothing(name: string)
    requires '/' !in name
    ensures DirToOpen("/" + name).None?
  {
    TrimToDirOf("", name);
    assert "" + "/" + name == "/" + name;
  }

  // ---------------------------------------------------------------- reveal_clip

  datatype Segment = Segment(filePath: string)
  datatype Track = Track(segments: seq<Segment>)
  datatype Version = Version(tracks: seq<Track>)
  /** A media-panel selection item; `isClip` is `isinstance(item, flame.PyClip)`.
      `versions` is None when the item has no `versions` attribute at all, as
      a reel or a folder selected beside a clip. */
  datatype Clip = Clip(isClip: bool, versions: Option<seq<Version>>)

  /** `item.versions[0].tracks[0].segments[0].file_path`: AttributeError when
      the item has no versions, IndexError when any of the lists is empty. */
  function FirstFilePath(item: Clip): (r: Result<string>)
    ensures item.versions.None? ==> r == Err(AttributeError)
    ensures item.versions.Some? && r.Err? ==> r.error == IndexError
    ensures r.Ok? <==> item.versions.Some? && |item.versions.value| > 0 && |item.versions.value[0].tracks| > 0 && |item.versions.value[0].tracks[0].segments| > 0
    ensures r.Ok? ==> r.value == item.versions.value[0].tracks[0].segments[0].filePath
  {
    match item.versions
    case None => Err(AttributeError)
    case Some(versions) =>
      if |versions| == 0 || |versions[0].tracks| == 0 || |versions[0].tracks[0].segments| == 0 then Err(IndexError)
      else Ok(versions[0].tracks[0].segments[0].filePath)
  }

  /** The commands the loop starts, and whether it ran to the end. */
  datatype Outcome = Outcome(commands: seq<seq<string>>, status: Status)

  /** `reveal_clip`: one command per clip whose directory is not empty, in
      selection order, stopping at the first item without a file path. */
  function RevealClip(system: string, selection: seq<Clip>): (r: Outcome)
    ensures |r.commands| <= |selection|
    ensures r.status.Done? <==> forall i :: 0 <= i < |selection| ==> FirstFilePath(selection[i]).Ok?
    ensures r.status.Fail? ==> r.status.error == IndexError || r.status.error == AttributeError
    ensures forall k :: 0 <= k < |r.commands| ==> |r.commands[k]| == 2 && r.commands[k][0] == (if system == "Darwin" then "open" else "xdg-open")
    decreases |selection|
  {
    if |selection| == 0 then Outcome([], Done)
    else
      match FirstFilePath(selection[0])
      case Err(e) => Outcome([], Fail(e))
      case Ok(path) =>
        var rest := RevealClip(system, selection[1..]);
        assert rest.status.Done? <==> forall i :: 1 <= i < |selection| ==> FirstFilePath(selection[i]).Ok? by {
          assert forall i :: 1 <= i < |selection| ==> selection[i] == selection[1..][i - 1];
        }
        match DirToOpen(path)
        case None => rest
        case Some(dir) => Outcome([Opener(system, dir)] + rest.commands, rest.status)
  }

  /** Every path found is opened at its directory, in order; clips whose
      directory is empty are skipped. */
  lemma {:induction false} RevealClipOpens(system: string, selection: seq<Clip>, paths: seq<string>)
    requires |paths| == |selection|
    requires forall i :: 0 <= i < |selection| ==> FirstFilePath(selection[i]) == Ok(paths[i])
    ensures RevealClip(system, selection) == Outcome(OpenAll(system, paths), Done)
    decreases |selection|
  {
    if |selection| > 0 {
      RevealClipOpens(system, selection[1..], paths[1..]);
    }
  }

  /** When item `k` is the first without a file path, the directories of
      the items before it have already been opened, in order, and the loop
      ends with that item's error. */
  lemma {:induction false} RevealClipStops(system: string, selection: seq<Clip>, paths: seq<string>, k: nat)
    requires k < |selection| && |paths| == k
    requires forall i :: 0 <= i < k ==> FirstFilePath(selection[i]) == Ok(paths[i])
    requires FirstFilePath(selection[k]).Err?
    ensures RevealClip(system, selection) == Outcome(OpenAll(system, paths), Fail(FirstFilePath(selection[k]).error))
    decreases k
  {
    if k > 0 {
      assert forall i :: 0 <= i < k - 1 ==> selection[1..][i] == selection[i + 1];
      RevealClipStops(system, selection[1..], paths[1..], k - 1);
    }
  }

  /** The commands for a list of file paths, skipping empty directories. */
  function OpenAll(system: string, paths: seq<string>): (r: seq<seq<string>>)
    ensures |r| <= |paths|
  {
    if |paths| == 0 then []
    else
      match DirToOpen(paths[0])
      case None => OpenAll(system, paths[1..])
      case Some(dir) => [Opener(system, dir)] + OpenAll(system, paths[1..])
  }

  // ---------------------------------------------------------------- reveal_batch_clip

  /** A Batch selection item: its `type` and its `media_path` as `str()` prints it. */
  datatype BatchItem = BatchItem(itemType: string, mediaPath: Option<string>)

  /** The directory of one Batch clip: None paths are skipped; otherwise the
      first and last characters of the printed path are dropped first. */
  function BatchClipDir(item: BatchItem): (r: Option<string>)
    ensures item.mediaPath.None? ==> r.None?
    ensures item.mediaPath.Some? ==> r == DirToOpen(Unquote(item.mediaPath.value))
  {
    match item.mediaPath
    case None => None
    case Some(p) => DirToOpen(Unquote(p))
  }

  /** A quoted media path opens the directory inside the quotes. */
  lemma QuotedMediaPath(dir: string, name: string)
    requires '/' !in name && dir != ""
    ensures BatchClipDir(BatchItem("Clip", Some("'" + dir + "/" + name + "'"))) == Some(dir)
  {
    var q := "'" + dir + "/" + name + "'";
    assert Unquote(q) == dir + "/" + name by {
      assert q[1..|q| - 1] == dir + "/" + name;
    }
    TrimToDirOf(dir, name);
  }

  /** `reveal_batch_clip`: one command per item with a non-empty directory, in order. */
  function RevealBatchClip(system: string, selection: seq<BatchItem>): (r: seq<seq<string>>)
    ensures |r| <= |selection|
    ensures (forall i :: 0 <= i < |selection| ==> selection[i].mediaPath.None?) ==> r == []
    decreases |selection|
  {
    if |selection| == 0 then []
    else
      var rest := RevealBatchClip(system, selection[1..]);
      assert forall i :: 1 <= i < |selection| ==> selection[i] == selection[1..][i - 1];
      match BatchClipDir(selection[0])
      case None => rest
      case Some(dir) => [Opener(system, dir)] + rest
  }

  /** The printed media paths of the items that have one, unquoted, in
      selection order. */
  function MediaPaths(selection: seq<BatchItem>): seq<string>
    decreases |selection|
  {
    if |selection| == 0 then []
    else
      match selection[0].mediaPath
      case None => MediaPaths(selection[1..])
      case Some(p) => [Unquote(p)] + MediaPaths(selection[1..])
  }

  /** The Batch reveal opens exactly what the clip reveal would open for the
      unquoted media paths, in selection order: items without a path are
      skipped, and so are paths whose directory is empty. */
  lemma {:induction false} RevealBatchClipOpens(system: string, selection: seq<BatchItem>)
    ensures RevealBatchClip(system, selection) == OpenAll(system, MediaPaths(selection))
    decreases |selection|
  {
    if |selection| > 0 {
      RevealBatchClipOpens(system, selection[1..]);
      match selection[0].mediaPath
      case None =>
      case Some(p) =>
        var ps := [Unquote(p)] + MediaPaths(selection[1..]);
        assert ps[0] == Unquote(p) && ps[1..] == MediaPaths(selection[1..]);
    }
  }

  // ---------------------------------------------------------------- scopes

  /** `scope_batch_clip`: some selected item has type 'Clip'. */
  function ScopeBatchClip(selection: seq<BatchItem>): (r: bool)
    ensures r <==> exists i :: 0 <= i < |selection| && selection[i].itemType == "Clip"
  {
    if |selection| == 0 then false
    else if selection[0].itemType == "Clip" then true
    else
      var r := ScopeBatchClip(selection[1..]);
      assert forall i :: 1 <= i < |selection| ==> selection[i] == selection[1..][i - 1];
      r
  }

  /** `scope_clip`: some selected item is a clip. */
  function ScopeClip(selection: seq<Clip>): (r: bool)
    ensures r <==> exists i :: 0 <= i < |selection| && selection[i].isClip
  {
    if |selection| == 0 then false
    else if selection[0].isClip then true
    else
      var r := ScopeClip(selection[1..]);
      assert forall i :: 1 <= i < |selection| ==> selection[i] == selection[1..][i - 1];
      r
  }
}
