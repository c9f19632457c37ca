/** The MediaHub action that imports each selected file into a new Batch
    group set to the clip's length, with a Render node after it, and the
    scope check that offers the action only for files with a three-character
    extension. What the host reports after the import (the nodes of the new
    Batch group and the start times of the clips on its second reel) is an
    input. */
module ImportBatchGroup {
  import opened Py

  // ---------------------------------------------------------------- scopeFile

  /** `\w` without the locale and unicode flags; re.I leaves it unchanged. */
  predicate IsWordChar(c: char) {
    'a' <= c <= 'z' || 'A' <= c <= 'Z' || '0' <= c <= '9' || c == '_'
  }

  /** The last four characters of `s` are a dot and three word characters. */
  predicate EndsWithExtension(s: string) {
    |s| >= 4 && s[|s| - 4] == '.' && IsWordChar(s[|s| - 3]) && IsWordChar(s[|s| - 2]) && IsWordChar(s[|s| - 1])
  }

  /** `re.search(r'\.\w{3}$', path, re.I)` finds a match: `$` holds at the end
      of the string and just before a final newline. */
  predicate HasExtension(path: string) {
    EndsWithExtension(path) || (|path| > 0 && path[|path| - 1] == '\n' && EndsWithExtension(path[..|path| - 1]))
  }

  /** `scopeFile`: true iff some selected path has a three-character extension. */
  function ScopeFile(paths: seq<string>): (r: bool)
    ensures r <==> exists i :: 0 <= i < |paths| && HasExtension(paths[i])
    ensures |paths| == 0 ==> !r
  {
    if |paths| == 0 then false
    else if HasExtension(paths[0]) then true
    else
      var r := ScopeFile(paths[1..]);
      assert forall i :: 1 <= i < |paths| ==> paths[i] == paths[1..][i - 1];
      r
  }

  /** A dot followed by three word characters at the end is accepted. */
  lemma ThreeCharExtension(name: string, ext: string)
    requires |ext| == 3 && forall i :: 0 <= i < 3 ==> IsWordChar(ext[i])
    ensures HasExtension(name + "." + ext)
  {
    var s := name + "." + ext;
    assert s[|s| - 4] == '.' && s[|s| - 3] == ext[0] && s[|s| - 2] == ext[1] && s[|s| - 1] == ext[2];
  }

  /** A four-character extension such as ".tiff" is refused. */
  lemma FourCharExtension(name: string, ext: string)
    requires |ext| == 4 && forall i :: 0 <= i < 4 ==> IsWordChar(ext[i])
    ensures !HasExtension(name + "." + ext)
  {
    var s := name + "." + ext;
    assert s[|s| - 4] == ext[0] && s[|s| - 1] == ext[3];
  }

  /** A path without a dot is refused. */
  lemma NoDot(path: string)
    requires '.' !in path
    ensures !HasExtension(path)
  {
    if |path| >= 4 {
      assert path[|path| - 4] in path;
    }
    if |path| >= 5 && path[|path| - 1] == '\n' {
      var t := path[..|path| - 1];
      assert t[|t| - 4] == path[|t| - 4];
      assert path[|t| - 4] in path;
    }
  }

  // ---------------------------------------------------------------- importClip

  /** A node of the new Batch group, as the loop over `flame.batch.nodes` reads it. */
  datatype BatchNode = BatchNode(name: string, duration: int)

  /** One selected file and what the host reports once it is imported. */
  datatype ImportInput = ImportInput(path: string, nodes: seq<BatchNode>, plateStartTimes: seq<string>)

  const NewBatchName: string := "New Batch"
  const NewBatchDuration: int := 100
  const SchematicReels: seq<string> := ["Elements", "Plates", "PreRenders", "Ref"]
  const ShelfReels: seq<string> := ["Renders"]
  /** The reel the file is imported into. */
  const ImportReel: string := "Plates"

  /** The Batch group `create_batch_group` returns, whose name and duration the
      loop overwrites. */
  class BatchGroup {
    var name: string
    var duration: int
    const reels: seq<string>
    const shelfReels: seq<string>

    constructor(name: string, duration: int, reels: seq<string>, shelfReels: seq<string>)
      ensures this.name == name && this.duration == duration
      ensures this.reels == reels && this.shelfReels == shelfReels
    {
      this.name := name;
      this.duration := duration;
      this.reels := reels;
      this.shelfReels := shelfReels;
    }

    /** `for clip in flame.batch.nodes`: every node overwrites the name and the
        duration, so the last one wins; the loop variable survives the loop. */
    method TakeNodes(nodes: seq<BatchNode>, clip: Option<BatchNode>) returns (last: Option<BatchNode>)
      modifies this`name, this`duration
      ensures nodes == [] ==> last == clip && name == old(name) && duration == old(duration)
      ensures nodes != [] ==> last == Some(nodes[|nodes| - 1])
      ensures nodes != [] ==> name == nodes[|nodes| - 1].name && duration == nodes[|nodes| - 1].duration
    {
      last := clip;
      for i := 0 to |nodes|
        invariant i == 0 ==> last == clip && name == old(name) && duration == old(duration)
        invariant i > 0 ==> last == Some(nodes[i - 1]) && name == nodes[i - 1].name && duration == nodes[i - 1].duration
      {
        last := Some(nodes[i]);
        name := nodes[i].name;
        duration := nodes[i].duration;
      }
    }
  }

  /** The Render node's attributes as the action leaves them. */
  datatype RenderNode = RenderNode(rangeEnd: int, sourceTimecode: string, recordTimecode: string,
                                   name: string, posX: int, posY: int)

  /** The state one selected file leaves behind. */
  datatype Imported = Imported(groupName: string, groupDuration: int, reels: seq<string>, shelfReels: seq<string>,
                               clipPath: string, clipReel: string, render: RenderNode, renderInput: BatchNode)

  /** The loop variable after `for clip in flame.batch.nodes` has run over
      the new group's nodes: the last node, or the old value when there is none. */
  function NextClip(item: ImportInput, clip: Option<BatchNode>): (next: Option<BatchNode>)
    ensures item.nodes == [] ==> next == clip
    ensures item.nodes != [] ==> next == Some(item.nodes[|item.nodes| - 1])
  {
    if item.nodes == [] then clip else Some(item.nodes[|item.nodes| - 1])
  }

  /** What one pass of the loop over the selection leaves behind, given the
      loop variable `clip` left by the previous file. The group takes the name
      and duration of its last node; the Render node reads the loop variable,
      so NameError when no node was ever seen; IndexError when reel 1 has no
      clip to read the start time from, which the source meets first. */
  function ImportOf(item: ImportInput, clip: Option<BatchNode>): (r: Result<Imported>)
    ensures item.plateStartTimes == [] ==> r == Err(IndexError)
    ensures item.plateStartTimes != [] && NextClip(item, clip).None? ==> r == Err(NameError)
    ensures r.Ok? <==> item.plateStartTimes != [] && NextClip(item, clip).Some?
    ensures r.Ok? ==> r.value.reels == SchematicReels && r.value.shelfReels == ShelfReels
    ensures r.Ok? ==> r.value.clipPath == item.path && r.value.clipReel == ImportReel
    ensures r.Ok? && item.nodes == [] ==> r.value.groupName == NewBatchName && r.value.groupDuration == NewBatchDuration
    ensures r.Ok? && item.nodes != [] ==> r.value.groupName == item.nodes[|item.nodes| - 1].name && r.value.groupDuration == item.nodes[|item.nodes| - 1].duration
    ensures r.Ok? ==> r.value.renderInput == NextClip(item, clip).value
    ensures r.Ok? ==> r.value.render == RenderNode(r.value.renderInput.duration, item.plateStartTimes[0], item.plateStartTimes[0], "<batch iteration>", 400, -30)
  {
    var next := NextClip(item, clip);
    if item.plateStartTimes == [] then Err(IndexError)
    else if next.None? then Err(NameError)
    else
      var name := if item.nodes == [] then NewBatchName else next.value.name;
      var duration := if item.nodes == [] then NewBatchDuration else next.value.duration;
      Ok(Imported(name, duration, SchematicReels, ShelfReels, item.path, ImportReel,
                  RenderNode(next.value.duration, item.plateStartTimes[0], item.plateStartTimes[0], "<batch iteration>", 400, -30),
                  next.value))
  }

  /** The body of the loop over the selection. `clip` is the loop variable left
      by the previous file: when the new group has no node it is what the
      Render node reads, and NameError when there is none. */
  method ImportClip(item: ImportInput, clip: Option<BatchNode>) returns (r: Result<Imported>, next: Option<BatchNode>)
    ensures next == NextClip(item, clip)
    ensures r == ImportOf(item, clip)
    ensures item.plateStartTimes == [] ==> r == Err(IndexError)
    ensures item.plateStartTimes != [] && next.None? ==> r == Err(NameError)
    ensures r.Ok? <==> item.plateStartTimes != [] && next.Some?
    ensures r.Ok? ==> r.value.reels == SchematicReels && r.value.shelfReels == ShelfReels
    ensures r.Ok? ==> r.value.clipPath == item.path && r.value.clipReel == ImportReel
    ensures r.Ok? && item.nodes == [] ==> r.value.groupName == NewBatchName && r.value.groupDuration == NewBatchDuration
    ensures r.Ok? && item.nodes != [] ==> r.value.groupName == next.value.name && r.value.groupDuration == next.value.duration
    ensures r.Ok? ==> r.value.render == RenderNode(next.value.duration, item.plateStartTimes[0], item.plateStartTimes[0], "<batch iteration>", 400, -30)
    ensures r.Ok? ==> r.value.renderInput == next.value
  {
    var batchGroup := new BatchGroup(NewBatchName, NewBatchDuration, SchematicReels, ShelfReels);
    next := batchGroup.TakeNodes(item.nodes, clip);
    if |item.plateStartTimes| == 0 {
      return Err(IndexError), next;
    }
    var clipTimecode := item.plateStartTimes[0];
    if next.None? {
      return Err(NameError), next;
    }
    var renderNode := RenderNode(next.value.duration, clipTimecode, clipTimecode, "<batch iteration>", 400, -30);
    r := Ok(Imported(batchGroup.name, batchGroup.duration, batchGroup.reels, batchGroup.shelfReels,
                     item.path, ImportReel, renderNode, next.value));
  }

  /** The node the loop variable holds after the first `i` files. */
  function LastNodeBefore(items: seq<ImportInput>, i: nat): (r: Option<BatchNode>)
    requires i <= |items|
    ensures i > 0 && items[i - 1].nodes != [] ==> r == Some(items[i - 1].nodes[|items[i - 1].nodes| - 1])
    ensures r.None? <==> forall j :: 0 <= j < i ==> items[j].nodes == []
  {
    if i == 0 then None
    else if items[i - 1].nodes != [] then Some(items[i - 1].nodes[|items[i - 1].nodes| - 1])
    else LastNodeBefore(items, i - 1)
  }

  /** The `j`-th file was imported from its own path and its reel 1 had a
      clip; the Render node reads the loop variable as it stands after it. */
  predicate ImportedFrom(items: seq<ImportInput>, j: nat, d: Imported)
    requires j < |items|
  {
    items[j].plateStartTimes != [] && d.clipPath == items[j].path && Some(d.renderInput) == LastNodeBefore(items, j + 1)
  }

  /** `importClip`: the files imported before the first error, and how it
      ended. Each done file is exactly what its pass of the loop computes
      from the loop variable the earlier files left; a failure is the next
      file's own error. */
  method ImportSelection(items: seq<ImportInput>) returns (done: seq<Imported>, s: Status)
    ensures |done| <= |items| && (s.Done? <==> |done| == |items|)
    ensures forall j {:trigger done[j]} :: 0 <= j < |done| ==> ImportOf(items[j], LastNodeBefore(items, j)) == Ok(done[j])
    ensures s.Fail? ==> ImportOf(items[|done|], LastNodeBefore(items, |done|)) == Err(s.error)
    ensures forall j :: 0 <= j < |done| ==> ImportedFrom(items, j, done[j])
    ensures s.Fail? ==> items[|done|].plateStartTimes == [] ==> s.error == IndexError
    ensures s.Fail? ==> items[|done|].plateStartTimes != [] ==> s.error == NameError && LastNodeBefore(items, |done| + 1).None?
  {
    done := [];
    var clip: Option<BatchNode> := None;
    var i := 0;
    while i < |items|
      invariant 0 <= i <= |items| && |done| == i
      invariant clip == LastNodeBefore(items, i)
      invariant forall j {:trigger done[j]} :: 0 <= j < i ==> ImportOf(items[j], LastNodeBefore(items, j)) == Ok(done[j])
    {
      var r;
      r, clip := ImportClip(items[i], clip);
      assert clip == LastNodeBefore(items, i + 1);
      if r.Err? {
        return done, Fail(r.error);
      }
      done := done + [r.value];
      i := i + 1;
    }
    s := Done;
  }
}
