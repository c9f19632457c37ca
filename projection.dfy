/** Projection_Creator_v1_2.py: the action setup is saved to a text file,
    searched line by line and patched in place.

    The script's helpers talk through module globals (`itemLine`,
    `itemValue`, `childNum`, `cameraParentName`, `nodeCameraNameLine`), and
    every search reads the setup file as it is on disk at that moment. The
    `Globals` datatype is that state together with the file's lines; the
    `*Step` functions say what each helper does to it, and class
    `ActionScript` runs the helpers as the script does, by loops that update
    its fields. Host calls (creating, renaming and connecting nodes, saving
    the setup) are replaced by their results, passed in as inputs. */
module ProjectionCreator {
  import opened Py

  /** A node of the action schematic: its name and its `type`. */
  datatype Node = Node(name: string, nodeType: string)

  /** The module globals the helpers share, and the lines of the setup file
      currently saved at `actionFileName` (as `readlines()` returns them). A
      global that was never assigned in this session is None. */
  datatype Globals = Globals(
    file: seq<string>,
    itemLine: Option<nat>,
    itemValue: Option<string>,
    childNum: int,
    cameraParentName: Option<string>,
    nodeCameraNameLine: Option<nat>)

  // ------------------------------------------------------------ line search

  /** The first line at or after index `k` that contains `item`. */
  function FirstMatchFrom(lines: seq<string>, item: string, k: nat): (r: Option<nat>)
    ensures r.Some? ==> k <= r.value < |lines| && Contains(lines[r.value], item)
    ensures r.Some? ==> forall j :: k <= j < r.value ==> !Contains(lines[j], item)
    ensures r.None? ==> forall j :: k <= j < |lines| ==> !Contains(lines[j], item)
    decreases |lines| - k
  {
    if k >= |lines| then None
    else if Contains(lines[k], item) then Some(k)
    else FirstMatchFrom(lines, item, k + 1)
  }

  /** The last line that contains `item`. */
  function LastMatch(lines: seq<string>, item: string): (r: Option<nat>)
    ensures r.Some? ==> r.value < |lines| && Contains(lines[r.value], item)
    ensures r.Some? ==> forall j :: r.value < j < |lines| ==> !Contains(lines[j], item)
    ensures r.None? ==> forall j :: 0 <= j < |lines| ==> !Contains(lines[j], item)
    decreases |lines|
  {
    if |lines| == 0 then None
    else if Contains(lines[|lines| - 1], item) then Some(|lines| - 1)
    else LastMatch(lines[..|lines| - 1], item)
  }

  /** `line.rsplit(' ', 1)[1]`: the text after the last space, the line's
      newline included; IndexError when the line has no space. */
  function LastToken(line: string): (r: Result<string>)
    ensures r.Ok? <==> ' ' in line
    ensures r.Ok? ==> ' ' !in r.value
  {
    match LastIndexOf(line, ' ')
    case Some(k) => Ok(line[k + 1..])
    case None => Err(IndexError)
  }

  /** The token is the second part of `rsplit(' ', 1)`: what follows the
      line's last space. */
  lemma LastTokenSplits(line: string)
    requires ' ' in line
    ensures |RSplitOnce(line, ' ')| == 2 && LastToken(line) == Ok(RSplitOnce(line, ' ')[1])
    ensures exists head :: line == head + " " + LastToken(line).value
  {
    var parts := RSplitOnce(line, ' ');
    assert line == parts[0] + " " + parts[1];
  }

  /** findLine(item): `itemLine` becomes the 1-based number of the first line
      containing `item`; without such a line it keeps its previous value. */
  function FindLineStep(g: Globals, item: string): (r: Globals)
    ensures r == g.(itemLine := r.itemLine)
  {
    match FirstMatchFrom(g.file, item, 0)
    case Some(i) => g.(itemLine := Some(i + 1))
    case None => g
  }

  /** findLine leaves in `itemLine` the 1-based number of the first line
      containing `item`, and changes nothing when no line does. */
  lemma FindLineFirst(g: Globals, item: string)
    ensures (exists i :: 0 <= i < |g.file| && Contains(g.file[i], item)) ==>
      (var r := FindLineStep(g, item);
       r.itemLine.Some? && 1 <= r.itemLine.value <= |g.file| && Contains(g.file[r.itemLine.value - 1], item) &&
       forall j :: 0 <= j < r.itemLine.value - 1 ==> !Contains(g.file[j], item))
    ensures (forall i :: 0 <= i < |g.file| ==> !Contains(g.file[i], item)) ==> FindLineStep(g, item) == g
  {
  }

  /** findLineLoop(item, k): `itemLine` becomes the 0-based index of the first
      line at or after index k containing `item`; past the end, IndexError. */
  function FindLineLoopStep(g: Globals, item: string, k: nat): (r: Result<Globals>)
    ensures r.Ok? ==> r.value == g.(itemLine := r.value.itemLine)
  {
    match FirstMatchFrom(g.file, item, k)
    case Some(i) => Ok(g.(itemLine := Some(i)))
    case None => Err(IndexError)
  }

  /** findLineLoop settles on the smallest index from `k` on whose line
      contains `item`, and runs off the end (IndexError) iff there is none. */
  lemma FindLineLoopFirst(g: Globals, item: string, k: nat)
    ensures var r := FindLineLoopStep(g, item, k);
      (r.Ok? ==>
        r.value.itemLine.Some? && k <= r.value.itemLine.value < |g.file| &&
        Contains(g.file[r.value.itemLine.value], item) &&
        forall j :: k <= j < r.value.itemLine.value ==> !Contains(g.file[j], item)) &&
      (r.Err? <==> forall j :: k <= j < |g.file| ==> !Contains(g.file[j], item)) &&
      (r.Err? ==> r.error == IndexError)
  {
  }

  /** getLineValue(n): `itemValue` becomes the last token of 1-based line n;
      a number outside the file leaves it as it was. */
  function GetLineValueStep(g: Globals, n: int): (r: Result<Globals>)
    ensures r.Ok? ==> r.value == g.(itemValue := r.value.itemValue)
  {
    if 1 <= n <= |g.file| then
      var token :- LastToken(g.file[n - 1]);
      Ok(g.(itemValue := Some(token)))
    else Ok(g)
  }

  /** getLineValue fails only on a line of the file without a space; on a
      line of the file it reads that line's last token, and outside the
      file it changes nothing. */
  lemma GetLineValueToken(g: Globals, n: int)
    ensures var r := GetLineValueStep(g, n);
      (r.Err? <==> 1 <= n <= |g.file| && ' ' !in g.file[n - 1]) &&
      (r.Ok? && 1 <= n <= |g.file| ==> r.value.itemValue.Some? && LastToken(g.file[n - 1]) == Ok(r.value.itemValue.value)) &&
      (!(1 <= n <= |g.file|) ==> r == Ok(g))
  {
  }

  /** getLineValue(n) followed by a read of `itemValue`, which raises
      NameError while the global was never assigned. */
  function ReadValueStep(g: Globals, n: int): (r: Result<(Globals, string)>)
    ensures r.Ok? ==> r.value.0 == g.(itemValue := Some(r.value.1))
  {
    var g1 :- GetLineValueStep(g, n);
    var value :- Defined(g1.itemValue);
    Ok((g1, value))
  }

  /** Inside the file, the read gives the line's last token, or IndexError
      when the line has no space; outside it, the value read before, or
      NameError when nothing was. */
  lemma ReadValueOf(g: Globals, n: int)
    ensures 1 <= n <= |g.file| ==>
      (var r := ReadValueStep(g, n);
       (r.Ok? <==> ' ' in g.file[n - 1]) && (r.Err? ==> r.error == IndexError) &&
       (r.Ok? ==> LastToken(g.file[n - 1]) == Ok(r.value.1)))
    ensures !(1 <= n <= |g.file|) ==>
      ReadValueStep(g, n) == (if g.itemValue.Some? then Ok((g, g.itemValue.value)) else Err(NameError))
  {
  }

  // ------------------------------------------------------------ findParent

  /** The parent named by the token of a `Name` line: the token without its
      last character (the newline); the scene root is no parent. */
  function ParentName(token: string): Option<string> {
    var name := DropLast(token);
    if name == "scene" then None else Some(name)
  }

  /** findParent from line `i` (Python indexing, so negative values count
      from the end): the index of the nearest line at or before `i` that
      contains 'Name', and the parent that line names. */
  function ParentScan(lines: seq<string>, i: int): Result<(int, Option<string>)>
    decreases i + |lines|
  {
    match PyIndex(|lines|, i)
    case None => Err(IndexError)
    case Some(j) =>
      if Contains(lines[j], "Name") then
        var token :- LastToken(lines[j]);
        Ok((i, ParentName(token)))
      else ParentScan(lines, i - 1)
  }

  /** What the scan settles on: a line at or before `i`, inside the list,
      that contains 'Name' and has a token, which names the parent. */
  lemma {:induction false} ParentScanFinds(lines: seq<string>, i: int)
    requires ParentScan(lines, i).Ok?
    ensures ParentScan(lines, i).value.0 <= i && PyIndex(|lines|, ParentScan(lines, i).value.0).Some?
    ensures var line := lines[PyIndex(|lines|, ParentScan(lines, i).value.0).value];
      Contains(line, "Name") && LastToken(line).Ok? && ParentScan(lines, i).value.1 == ParentName(LastToken(line).value)
    decreases i + |lines|
  {
    var j := PyIndex(|lines|, i).value;
    if !Contains(lines[j], "Name") {
      assert ParentScan(lines, i) == ParentScan(lines, i - 1);
      ParentScanFinds(lines, i - 1);
    }
  }

  /** Every line the scan steps over on its way back lacks 'Name'. */
  lemma {:induction false} ParentScanSkips(lines: seq<string>, i: int, m: int)
    requires ParentScan(lines, i).Ok?
    requires ParentScan(lines, i).value.0 < m <= i
    ensures PyIndex(|lines|, m).Some? && !Contains(lines[PyIndex(|lines|, m).value], "Name")
    decreases i + |lines|
  {
    var j := PyIndex(|lines|, i).value;
    if Contains(lines[j], "Name") {
      assert false;
    } else {
      assert ParentScan(lines, i) == ParentScan(lines, i - 1);
      if m < i {
        ParentScanSkips(lines, i - 1, m);
      }
    }
  }

  /** findParent(): scans back from `childNum`, leaving `childNum` at the
      `Name` line and setting `cameraParentName`. */
  function FindParentStep(g: Globals): (r: Result<Globals>)
    ensures r.Ok? ==> r.value == g.(childNum := r.value.childNum, cameraParentName := r.value.cameraParentName)
  {
    var found :- ParentScan(g.file, g.childNum);
    Ok(g.(childNum := found.0, cameraParentName := found.1))
  }

  /** From a line at or after the nearest `Name` line, findParent reaches
      exactly that line and reads the parent from it. */
  lemma {:induction false} ParentScanNearest(lines: seq<string>, i: int, j: nat)
    requires j <= i < |lines|
    requires Contains(lines[j], "Name") && LastToken(lines[j]).Ok?
    requires forall m :: j < m <= i ==> !Contains(lines[m], "Name")
    ensures ParentScan(lines, i) == Ok((j, ParentName(LastToken(lines[j]).value)))
    decreases i - j
  {
    if i == j {
      ParentScanHit(lines, i);
    } else {
      ParentScanMiss(lines, i);
      ParentScanNearest(lines, i - 1, j);
    }
  }

  /** One step of the scan on a line that names the parent. */
  lemma ParentScanHit(lines: seq<string>, i: nat)
    requires i < |lines| && Contains(lines[i], "Name") && LastToken(lines[i]).Ok?
    ensures ParentScan(lines, i) == Ok((i, ParentName(LastToken(lines[i]).value)))
  {
    assert PyIndex(|lines|, i) == Some(i);
  }

  /** One step of the scan past a line without 'Name'. */
  lemma ParentScanMiss(lines: seq<string>, i: nat)
    requires i < |lines| && !Contains(lines[i], "Name")
    ensures ParentScan(lines, i) == ParentScan(lines, i - 1)
  {
    assert PyIndex(|lines|, i) == Some(i);
  }

  // ------------------------------------------------------ getResultCamera

  /** `actionCameraList[k].name`, where the list is the placeholder string
      'null camera' followed by the action's cameras: index 0 is the string,
      which has no `name` (AttributeError). */
  function CameraAt(cameras: seq<string>, k: int): (r: Result<string>)
    ensures r.Ok? <==> PyIndex(|cameras| + 1, k).Some? && PyIndex(|cameras| + 1, k).value != 0
    ensures r.Ok? ==> r.value == cameras[PyIndex(|cameras| + 1, k).value - 1]
  {
    match PyIndex(|cameras| + 1, k)
    case None => Err(IndexError)
    case Some(j) => if j == 0 then Err(AttributeError) else Ok(cameras[j - 1])
  }

  /** The list index of the result camera: the value after 'ResultCamChannel'
      plus one, or 1 when the action has a single camera. */
  function ResultCameraIndex(channel: int, cameras: seq<string>): int {
    if |cameras| + 1 == 2 then 1 else channel + 1
  }

  /** findLine(item) then getLineValue(itemLine + offset): the last token of
      the line `offset` lines after the first line containing `item`. */
  function ValueAfterStep(g: Globals, item: string, offset: nat): (r: Result<(Globals, string)>)
    ensures r.Ok? ==> r.value.0.file == g.file
    ensures r.Ok? && FirstMatchFrom(g.file, item, 0).Some? && FirstMatchFrom(g.file, item, 0).value + offset < |g.file| ==>
      LastToken(g.file[FirstMatchFrom(g.file, item, 0).value + offset]) == Ok(r.value.1)
  {
    var g1 := FindLineStep(g, item);
    var line :- Defined(g1.itemLine);
    var g2 :- GetLineValueStep(g1, line + offset);
    var value :- Defined(g2.itemValue);
    Ok((g2, value))
  }

  /** findLine('Child ' + number), `childNum = itemLine`, findParent(). */
  function ChildParentStep(g: Globals, number: string): (r: Result<Globals>)
    ensures r.Ok? ==> r.value.file == g.file
  {
    var g1 := FindLineStep(g, "Child " + number);
    var childLine :- Defined(g1.itemLine);
    FindParentStep(g1.(childNum := childLine))
  }

  /** getResultCamera(): save the setup, read the result camera's channel
      (three lines after 'ResultCamChannel'), the camera's number (the line
      after its name), then find its `Child <number>` line and from there its
      parent. */
  function ResultCameraStep(g: Globals, saved: seq<string>, cameras: seq<string>): (r: Result<Globals>)
    ensures r.Ok? ==> r.value.file == saved && r.value.nodeCameraNameLine == g.nodeCameraNameLine
  {
    var channel :- ValueAfterStep(g.(file := saved), "ResultCamChannel", 3);
    var n :- ToInt(channel.1);
    var cameraName :- CameraAt(cameras, ResultCameraIndex(n, cameras));
    var number :- ValueAfterStep(channel.0, cameraName, 1);
    ChildParentStep(number.0, number.1)
  }

  /** With a single camera, that camera is the result camera whatever the
      channel says. */
  lemma SingleCameraIsResult(channel: int, camera: string)
    ensures CameraAt([camera], ResultCameraIndex(channel, [camera])) == Ok(camera)
  {
  }

  /** When `item` first occurs on 0-based line `i` and the line `offset`
      further on has a space, findLine then getLineValue reads that line's
      last token. */
  lemma ValueAfterFound(g: Globals, item: string, offset: nat, i: nat)
    requires FirstMatchFrom(g.file, item, 0) == Some(i)
    requires i + offset < |g.file| && LastToken(g.file[i + offset]).Ok?
    ensures var token := LastToken(g.file[i + offset]).value;
      ValueAfterStep(g, item, offset) == Ok((g.(itemLine := Some(i + 1), itemValue := Some(token)), token))
  {
    assert FindLineStep(g, item) == g.(itemLine := Some(i + 1));
  }

  /** When `Child <number>` first occurs on 0-based line `child` and `j` is
      the nearest 'Name' line at or before the line after it, the lookup
      records the parent line `j` names and leaves `childNum` at `j`. */
  lemma ChildParentFound(g: Globals, number: string, child: nat, j: nat)
    requires FirstMatchFrom(g.file, "Child " + number, 0) == Some(child)
    requires j <= child + 1 < |g.file| && Contains(g.file[j], "Name") && LastToken(g.file[j]).Ok?
    requires forall m :: j < m <= child + 1 ==> !Contains(g.file[m], "Name")
    ensures ChildParentStep(g, number) ==
      Ok(g.(itemLine := Some(child + 1), childNum := j, cameraParentName := ParentName(LastToken(g.file[j]).value)))
  {
    assert FindLineStep(g, "Child " + number) == g.(itemLine := Some(child + 1));
    ParentScanNearest(g.file, child + 1, j);
  }

  /** Once the channel, the camera and its number are read, getResultCamera
      comes down to the `Child <number>` lookup in the saved setup. */
  lemma ResultCameraReaches(g: Globals, saved: seq<string>, cameras: seq<string>,
                            c: nat, n: int, cameraName: string, k: nat, number: string)
    requires FirstMatchFrom(saved, "ResultCamChannel", 0) == Some(c) && c + 3 < |saved|
    requires LastToken(saved[c + 3]).Ok? && ParseInt(LastToken(saved[c + 3]).value) == Some(n)
    requires CameraAt(cameras, ResultCameraIndex(n, cameras)) == Ok(cameraName)
    requires FirstMatchFrom(saved, cameraName, 0) == Some(k) && k + 1 < |saved| && LastToken(saved[k + 1]) == Ok(number)
    ensures ResultCameraStep(g, saved, cameras) ==
      ChildParentStep(g.(file := saved, itemLine := Some(k + 1), itemValue := Some(number)), number)
  {
    var g0 := g.(file := saved);
    var token := LastToken(saved[c + 3]).value;
    ValueAfterFound(g0, "ResultCamChannel", 3, c);
    var g1 := g0.(itemLine := Some(c + 1), itemValue := Some(token));
    assert ValueAfterStep(g0, "ResultCamChannel", 3) == Ok((g1, token));
    assert ToInt(token) == Ok(n);
    ValueAfterFound(g1, cameraName, 1, k);
    assert g1.(itemLine := Some(k + 1), itemValue := Some(number)) == g.(file := saved, itemLine := Some(k + 1), itemValue := Some(number));
  }

  /** getResultCamera end to end: with the 'ResultCamChannel' line at `c`
      and an integer channel three lines on, the result camera picked from
      the action's cameras, its name first on line `k` with its number on
      the next line, and the nearest 'Name' line `j` at or before the line
      after `Child <number>`, the parent recorded is the one line `j` names,
      and `childNum` is left at `j`. */
  lemma ResultCameraFound(g: Globals, saved: seq<string>, cameras: seq<string>,
                          c: nat, n: int, cameraName: string, k: nat, number: string, child: nat, j: nat)
    requires FirstMatchFrom(saved, "ResultCamChannel", 0) == Some(c) && c + 3 < |saved|
    requires LastToken(saved[c + 3]).Ok? && ParseInt(LastToken(saved[c + 3]).value) == Some(n)
    requires CameraAt(cameras, ResultCameraIndex(n, cameras)) == Ok(cameraName)
    requires FirstMatchFrom(saved, cameraName, 0) == Some(k) && k + 1 < |saved| && LastToken(saved[k + 1]) == Ok(number)
    requires FirstMatchFrom(saved, "Child " + number, 0) == Some(child)
    requires j <= child + 1 < |saved| && Contains(saved[j], "Name") && LastToken(saved[j]).Ok?
    requires forall m :: j < m <= child + 1 ==> !Contains(saved[m], "Name")
    ensures var r := ResultCameraStep(g, saved, cameras);
      r.Ok? && r.value.cameraParentName == ParentName(LastToken(saved[j]).value) && r.value.childNum == j
  {
    ResultCameraReaches(g, saved, cameras, c, n, cameraName, k, number);
    ChildParentFound(g.(file := saved, itemLine := Some(k + 1), itemValue := Some(number)), number, child, j);
  }

  // ------------------------------------------------------------ naming

  /** A candidate of nameProjectorNode / nameDiffuseNode / nameCameraNode:
      `base_n`, cut back at its last '_' when it ends in '0'. */
  function Candidate(base: string, n: nat): string {
    var name := base + "_" + NatToStr(n);
    if EndsWith(name, '0') then RSplitOnce(name, '_')[0] else name
  }

  /** Candidates 0, 10, 20, ... are the bare base; the others carry `_n`. */
  lemma CandidateShape(base: string, n: nat)
    ensures Candidate(base, n) == if n % 10 == 0 then base else base + "_" + NatToStr(n)
  {
    var digits := NatToStr(n);
    assert '_' !in digits by {
      assert forall i :: 0 <= i < |digits| ==> IsDigit(digits[i]);
    }
    assert base + "_" + digits == base + ['_'] + digits;
    RSplitOnceAt(base, '_', digits);
  }

  function Pow10(k: nat): (p: nat)
    ensures p >= 1
  {
    if k == 0 then 1 else 10 * Pow10(k - 1)
  }

  function MaxLength(names: seq<string>): (m: nat)
    ensures forall i :: 0 <= i < |names| ==> |names[i]| <= m
    decreases |names|
  {
    if |names| == 0 then 0
    else
      var rest := MaxLength(names[1..]);
      assert forall i :: 1 <= i < |names| ==> names[i] == names[1..][i - 1];
      if |names[0]| > rest then |names[0]| else rest
  }

  lemma {:induction false} LongNumeral(n: nat, k: nat)
    requires n >= Pow10(k)
    ensures |NatToStr(n)| > k
    decreases k
  {
    if k > 0 {
      LongNumeral(n / 10, k - 1);
    }
  }

  /** A suffix number whose candidate is longer than every taken name. */
  function NameBound(names: seq<string>): nat {
    Pow10(MaxLength(names) + 1) + 1
  }

  lemma NameBoundFree(base: string, names: seq<string>)
    ensures Candidate(base, NameBound(names)) !in names
  {
    var k := MaxLength(names) + 1;
    var n := NameBound(names);
    assert n % 10 == 1;
    CandidateShape(base, n);
    LongNumeral(n, k);
  }

  /** The candidate with suffix number `n` is already a name in use. */
  predicate Taken(base: string, names: seq<string>, n: nat) {
    Candidate(base, n) in names
  }

  /** The first suffix number, from `n` on, whose candidate is not taken. */
  function FreeIndexFrom(base: string, names: seq<string>, n: nat): (m: nat)
    requires n <= NameBound(names)
    ensures n <= m && !Taken(base, names, m)
    ensures forall j :: n <= j < m ==> Taken(base, names, j)
    decreases NameBound(names) - n
  {
    if !Taken(base, names, n) then n
    else
      NameBoundFree(base, names);
      assert n != NameBound(names);
      FreeIndexFrom(base, names, n + 1)
  }

  /** The name the recursive name generators settle on: the first candidate,
      counting from 0, that is not in use. */
  function UniqueName(base: string, names: seq<string>): (r: string)
    ensures r !in names
    ensures r == Candidate(base, FreeIndexFrom(base, names, 0))
  {
    Candidate(base, FreeIndexFrom(base, names, 0))
  }

  /** The generated name is the base itself, or the base with a suffix `_n`
      whose last digit is not 0, and every smaller candidate was in use. */
  lemma UniqueNameShape(base: string, names: seq<string>)
    ensures var n := FreeIndexFrom(base, names, 0);
      (forall j :: 0 <= j < n ==> Taken(base, names, j)) &&
      (UniqueName(base, names) == base || (n % 10 != 0 && UniqueName(base, names) == base + "_" + NatToStr(n)))
  {
    CandidateShape(base, FreeIndexFrom(base, names, 0));
  }

  /** With the base free, the first candidate (n = 0) is taken: the bare base. */
  lemma UniqueNameFreeBase(base: string, names: seq<string>)
    requires base !in names
    ensures UniqueName(base, names) == base
  {
    CandidateShape(base, 0);
  }

  function CameraBase(frame: int): string { "frame_" + IntToStr(frame) }
  function ProjectorBase(frame: int): string { "projector_frm_" + IntToStr(frame) }
  function DiffuseBase(frame: int): string { "diffuse_frm_" + IntToStr(frame) }

  // ------------------------------------------------------------ scans

  /** The loop over the saved setup for 'Node Camera' lines. It also calls
      `next(actionFile)` to read the following line, which the enumeration
      then never sees and does not count, so `num` falls one behind for each
      camera block passed. A camera whose next line mentions neither 'right'
      nor 'left' sets `nodeCameraNameLine` to `num`; a 'Node Camera' line at
      the very end raises StopIteration. */
  function CameraScan(lines: seq<string>, i: nat, num: nat, found: Option<nat>): Result<Option<nat>>
    decreases |lines| - i
  {
    if i >= |lines| then Ok(found)
    else if Contains(lines[i], "Node Camera") then
      if i + 1 >= |lines| then Err(StopIteration)
      else
        var next := lines[i + 1];
        var found' := if !Contains(next, "right") && !Contains(next, "left") then Some(num) else found;
        CameraScan(lines, i + 2, num + 1, found')
    else CameraScan(lines, i + 1, num + 1, found)
  }

  lemma {:induction false} CameraScanNoCamera(lines: seq<string>, i: nat, num: nat, found: Option<nat>)
    requires forall k :: i <= k < |lines| ==> !Contains(lines[k], "Node Camera")
    ensures CameraScan(lines, i, num, found) == Ok(found)
    decreases |lines| - i
  {
    if i < |lines| {
      CameraScanNoCamera(lines, i + 1, num + 1, found);
    }
  }

  lemma {:induction false} CameraScanReaches(lines: seq<string>, i: nat, c: nat, found: Option<nat>)
    requires i <= c < |lines|
    requires forall k :: i <= k < c ==> !Contains(lines[k], "Node Camera")
    ensures CameraScan(lines, i, i + 1, found) == CameraScan(lines, c, c + 1, found)
    decreases c - i
  {
    if i < c {
      CameraScanReaches(lines, i + 1, c, found);
    }
  }

  /** With a single 'Node Camera' block, whose next line is not a stereo eye,
      the scan yields that line's true 1-based number. */
  lemma CameraScanSingle(lines: seq<string>, c: nat, previous: Option<nat>)
    requires c + 1 < |lines| && Contains(lines[c], "Node Camera")
    requires !Contains(lines[c + 1], "right") && !Contains(lines[c + 1], "left")
    requires forall k :: 0 <= k < |lines| && k != c ==> !Contains(lines[k], "Node Camera")
    ensures CameraScan(lines, 0, 1, previous) == Ok(Some(c + 1))
  {
    CameraScanReaches(lines, 0, c, previous);
    CameraScanNoCamera(lines, c + 2, c + 2, Some(c + 1));
  }

  /** The undercount: with two camera blocks, headers on lines 1 and 3, the
      second is reported as line 2, because the line after the first header
      was read by `next()` and not counted. */
  lemma CameraScanUndercounts(lines: seq<string>, previous: Option<nat>)
    requires |lines| == 4
    requires Contains(lines[0], "Node Camera") && Contains(lines[2], "Node Camera")
    requires !Contains(lines[1], "right") && !Contains(lines[1], "left")
    requires !Contains(lines[3], "right") && !Contains(lines[3], "left")
    ensures CameraScan(lines, 0, 1, previous) == Ok(Some(2))
  {
    assert CameraScan(lines, 4, 3, Some(2)) == Ok(Some(2));
    assert CameraScan(lines, 2, 2, Some(1)) == Ok(Some(2));
  }

  // ------------------------------------------------------------ patching

  function PosXText(v: string): string { "        PosX " + v + "\n" }
  function PosYText(v: string): string { "        PosY " + v + "\n" }
  function MapCameraText(k: int): string { "                        MapCamera " + IntToStr(k) + "\n" }
  const MapCoordText := "                        MapCoordType PROJECTION\n"

  /** scopeGeo: some selected node is a Surface or a Geom. */
  predicate IsGeo(n: Node) { n.nodeType == "Surface" || n.nodeType == "Geom" }

  function ScopeGeo(selection: seq<Node>): (r: bool)
    ensures r <==> exists i :: 0 <= i < |selection| && IsGeo(selection[i])
    decreases |selection|
  {
    if |selection| == 0 then false
    else if IsGeo(selection[0]) then true
    else
      var r := ScopeGeo(selection[1..]);
      assert forall i :: 1 <= i < |selection| ==> selection[i] == selection[1..][i - 1];
      r
  }

  /** `for n in selection: geoNameLine = ...; geoType = n.type` leaves the
      last node; with no node, `geoType` is unset. */
  function LastNode(selection: seq<Node>): (r: Result<Node>)
    ensures r.Ok? <==> |selection| > 0
    ensures r.Ok? ==> r.value == selection[|selection| - 1]
  {
    if |selection| == 0 then Err(NameError) else Ok(selection[|selection| - 1])
  }

  /** findLine(name) then findLineLoop('PosX', itemLine): the 0-based index
      of the PosX line found, plus one. When the name is in the file, the
      search starts on the line after it; otherwise at the line `itemLine`
      still holds. */
  function PosXLineStep(g: Globals, name: string): (r: Result<(Globals, nat)>)
    ensures r.Ok? ==> r.value.0.file == g.file && PosXTarget(g.file, name, r.value.1)
  {
    var g1 := FindLineStep(g, name);
    var start :- Defined(g1.itemLine);
    var g2 :- FindLineLoopStep(g1, "PosX", start);
    var at :- Defined(g2.itemLine);
    Ok((g2, at + 1))
  }

  /** `at` is one past the 0-based index of the first PosX line after the
      first line naming `name`, when there is such a line. */
  predicate PosXTarget(lines: seq<string>, name: string, at: nat)
  {
    at >= 1 &&
    (FirstMatchFrom(lines, name, 0).Some? ==>
      FirstMatchFrom(lines, "PosX", FirstMatchFrom(lines, name, 0).value + 1) == Some(at - 1))
  }

  /** The 0-based index of the first PosX line after the first line that
      names `name`; None when either is missing. */
  function PosXAfter(lines: seq<string>, name: string): Option<nat> {
    match FirstMatchFrom(lines, name, 0)
    case None => None
    case Some(i) => FirstMatchFrom(lines, "PosX", i + 1)
  }

  /** With `name` in the file, the PosX search succeeds iff a PosX line
      follows the name's line, and otherwise runs off the end (IndexError). */
  lemma PosXLineOutcome(g: Globals, name: string)
    requires FirstMatchFrom(g.file, name, 0).Some?
    ensures var r := PosXLineStep(g, name);
      (r.Ok? <==> PosXAfter(g.file, name).Some?) && (r.Err? ==> r.error == IndexError) &&
      (r.Ok? ==> r.value == (g.(itemLine := PosXAfter(g.file, name)), PosXAfter(g.file, name).value + 1))
  {
  }

  // ---------------------------------------------- createCameraProjection

  /** What the host supplies to createCameraProjection. */
  datatype CameraInput = CameraInput(
    saved: seq<string>,      // setup saved by getResultCamera
    cameras: seq<string>,    // names of the action's camera nodes, in order
    frame: int,              // the batch's current frame
    selection: seq<Node>,    // the selected geometry
    nodeNames: seq<string>,  // names of the action's nodes once the projector exists
    resaved: seq<string>)    // setup saved once the projector is named

  /** The outcome: the names given, where the base position came from, the
      0-based indices written (each PosY line follows its PosX line), the
      four values and the patched lines. */
  datatype CameraPatch = CameraPatch(
    cameraName: string,
    projectorName: string,
    fromProjector: bool,
    baseX: string,
    geoPosXLine: nat,
    projectorAt: nat,
    cameraAt: nat,
    projectorX: string,
    projectorY: string,
    cameraX: string,
    cameraY: string,
    contents: seq<string>)

  /** The base position comes from the last projector's block of the saved
      setup (PosX and PosY 7 and 8 lines below the node line) when there is
      one, and otherwise from the geometry's PosX/PosY lines in the resaved
      setup. */
  predicate BaseRead(inp: CameraInput, p: CameraPatch)
  {
    ProjectorBaseRead(inp.saved, p.fromProjector, p.baseX, p.projectorY) &&
    GeoBaseRead(inp.resaved, !p.fromProjector, p.geoPosXLine, p.baseX, p.projectorY)
  }

  predicate ProjectorBaseRead(saved: seq<string>, fromProjector: bool, x: string, y: string)
  {
    (fromProjector <==> LastMatch(saved, "Node Projector").Some?) &&
    (fromProjector && LastMatch(saved, "Node Projector").value + 9 <= |saved| ==>
      var i := LastMatch(saved, "Node Projector").value;
      LastToken(saved[i + 7]) == Ok(x) && LastToken(saved[i + 8]) == Ok(y))
  }

  predicate GeoBaseRead(resaved: seq<string>, fromGeo: bool, geoPosXLine: nat, x: string, y: string)
  {
    fromGeo && geoPosXLine + 1 <= |resaved| ==>
      geoPosXLine >= 1 &&
      LastToken(resaved[geoPosXLine - 1]) == Ok(x) &&
      LastToken(resaved[geoPosXLine]) == Ok(y)
  }

  /** The lines written are those after the first PosX line that follows
      each new node's name. */
  predicate TargetsFound(lines: seq<string>, p: CameraPatch)
  {
    Targets(lines, p.projectorName, p.cameraName, p.projectorAt, p.cameraAt)
  }

  predicate Targets(lines: seq<string>, projectorName: string, cameraName: string, projectorAt: nat, cameraAt: nat)
  {
    PosXTarget(lines, projectorName, projectorAt) && PosXTarget(lines, cameraName, cameraAt)
  }

  /** Both nodes go 300 to the right of the base; the projector keeps the
      base height and the camera sits 150 above it. */
  predicate PositionsOffset(p: CameraPatch)
  {
    ParseInt(p.baseX).Some? && ParseInt(p.projectorY).Some? &&
    p.projectorX == IntToStr(ParseInt(p.baseX).value + 300) &&
    p.cameraX == p.projectorX &&
    p.cameraY == IntToStr(ParseInt(p.projectorY).value + 150)
  }

  /** The patched lines are the resaved setup with the four positions written. */
  predicate Patched(lines: seq<string>, p: CameraPatch)
  {
    CameraContents(lines, p.projectorAt, p.projectorX, p.projectorY, p.cameraAt, p.cameraX, p.cameraY) == Ok(p.contents)
  }

  /** The loop over the saved setup for 'Node Projector' lines: the 1-based
      PosX and PosY lines of the last block, its header's number plus 7 and
      plus 8, or 0 and 0 without a block. */
  method ProjectorBlockLines(lines: seq<string>) returns (x: nat, y: nat)
    ensures LastMatch(lines, "Node Projector").None? ==> x == 0 && y == 0
    ensures LastMatch(lines, "Node Projector").Some? ==>
      x == LastMatch(lines, "Node Projector").value + 1 + 7 && y == x + 1
  {
    x, y := 0, 0;
    var num := 1;
    while num <= |lines|
      invariant 1 <= num <= |lines| + 1
      invariant LastMatch(lines[..num - 1], "Node Projector").None? ==> x == 0 && y == 0
      invariant LastMatch(lines[..num - 1], "Node Projector").Some? ==>
        x == LastMatch(lines[..num - 1], "Node Projector").value + 1 + 7 && y == x + 1
    {
      assert lines[..num][..num - 1] == lines[..num - 1];
      if Contains(lines[num - 1], "Node Projector") {
        x, y := num + 7, num + 8;
      }
      num := num + 1;
    }
    assert lines[..|lines|] == lines;
  }

  /** The projector's X (300 right of the base) and the camera's Y (150
      above the base Y), as `str(int(...) + ...)`. */
  function Positions(baseX: string, baseY: string): (r: Result<(string, string)>)
    ensures r.Ok? <==> ParseInt(baseX).Some? && ParseInt(baseY).Some?
    ensures r.Ok? ==> ParseInt(r.value.0) == Some(ParseInt(baseX).value + 300)
    ensures r.Ok? ==> ParseInt(r.value.1) == Some(ParseInt(baseY).value + 150)
    ensures r.Ok? ==> r.value == (IntToStr(ParseInt(baseX).value + 300), IntToStr(ParseInt(baseY).value + 150))
  {
    var x :- ToInt(baseX);
    var y :- ToInt(baseY);
    ParseIntOfIntToStrBare(x + 300);
    ParseIntOfIntToStrBare(y + 150);
    Ok((IntToStr(x + 300), IntToStr(y + 150)))
  }

  /** `contents[at]` and `contents[at + 1]` become the PosX and PosY lines. */
  function WritePosition(lines: seq<string>, at: nat, x: string, y: string): (r: Result<seq<string>>)
    ensures r.Ok? <==> at + 1 < |lines|
    ensures r.Err? ==> r.error == IndexError
    ensures r.Ok? ==> |r.value| == |lines| && r.value[at] == PosXText(x) && r.value[at + 1] == PosYText(y)
    ensures r.Ok? ==> forall k :: 0 <= k < |lines| && k != at && k != at + 1 ==> r.value[k] == lines[k]
  {
    var c1 :- SetAt(lines, at, PosXText(x));
    SetAt(c1, at + 1, PosYText(y))
  }

  /** The camera projection's patch: the projector's PosX/PosY lines, then
      the camera's. It rewrites those four lines and nothing else; where the
      camera's lines coincide with the projector's, the camera's win. */
  function CameraContents(lines: seq<string>, projectorAt: nat, px: string, py: string, cameraAt: nat, cx: string, cy: string)
    : (r: Result<seq<string>>)
    ensures r.Ok? <==> projectorAt + 1 < |lines| && cameraAt + 1 < |lines|
    ensures r.Err? ==> r.error == IndexError
    ensures r.Ok? ==> |r.value| == |lines| && r.value[cameraAt] == PosXText(cx) && r.value[cameraAt + 1] == PosYText(cy)
    ensures r.Ok? && projectorAt != cameraAt && projectorAt != cameraAt + 1 ==> r.value[projectorAt] == PosXText(px)
    ensures r.Ok? && projectorAt + 1 != cameraAt && projectorAt + 1 != cameraAt + 1 ==> r.value[projectorAt + 1] == PosYText(py)
    ensures r.Ok? ==> forall k :: 0 <= k < |lines| && k != projectorAt && k != projectorAt + 1 && k != cameraAt && k != cameraAt + 1 ==>
      r.value[k] == lines[k]
  {
    var c1 :- WritePosition(lines, projectorAt, px, py);
    WritePosition(c1, cameraAt, cx, cy)
  }

  /** `contents[i] = text` on the list read back from the setup. */
  method SetLine(contents: array<string>, i: nat, text: string) returns (s: Status)
    modifies contents
    ensures Agrees(s, SetAt(old(contents[..]), i, text))
    ensures s.Done? ==> contents[..] == SetAt(old(contents[..]), i, text).value
  {
    if i < contents.Length {
      contents[i] := text;
      s := Done;
    } else {
      s := Fail(IndexError);
    }
  }

  /** The PosX and PosY writes of one node. */
  method SetPosition(contents: array<string>, at: nat, x: string, y: string) returns (s: Status)
    modifies contents
    ensures Agrees(s, WritePosition(old(contents[..]), at, x, y))
    ensures s.Done? ==> contents[..] == WritePosition(old(contents[..]), at, x, y).value
  {
    s := SetLine(contents, at, PosXText(x));
    if s.Done? {
      s := SetLine(contents, at + 1, PosYText(y));
    }
  }

  /** readlines(), the four writes, and the lines joined back. */
  method PatchCamera(lines: seq<string>, projectorAt: nat, px: string, py: string, cameraAt: nat, cx: string, cy: string)
    returns (r: Result<seq<string>>)
    ensures r == CameraContents(lines, projectorAt, px, py, cameraAt, cx, cy)
  {
    var contents := new string[|lines|](i requires 0 <= i < |lines| => lines[i]);
    assert contents[..] == lines;
    var s := SetPosition(contents, projectorAt, px, py);
    if s.Fail? {
      return Err(s.error);
    }
    s := SetPosition(contents, cameraAt, cx, cy);
    if s.Fail? {
      return Err(s.error);
    }
    r := Ok(contents[..]);
  }

  /** The end of createCameraProjection: pick the base position, offset it
      and write both nodes' positions into the resaved lines. */
  method PatchedCamera(lines: seq<string>, cameraName: string, projectorName: string,
                       fromProjector: bool, nodeX: string, nodeY: string,
                       geoLine: nat, geoX: string, geoY: string, projectorAt: nat, cameraAt: nat)
    returns (r: Result<CameraPatch>)
    ensures r == CameraPatchOf(lines, cameraName, projectorName, fromProjector, nodeX, nodeY, geoLine, geoX, geoY, projectorAt, cameraAt)
    ensures var baseX := if fromProjector then nodeX else geoX;
      var baseY := if fromProjector then nodeY else geoY;
      (r.Ok? <==> ParseInt(baseX).Some? && ParseInt(baseY).Some? && projectorAt + 1 < |lines| && cameraAt + 1 < |lines|) &&
      (r.Err? ==> r.error == (if ParseInt(baseX).Some? && ParseInt(baseY).Some? then IndexError else ValueError))
    ensures r.Ok? ==> r.value.cameraName == cameraName && r.value.projectorName == projectorName
    ensures r.Ok? ==> r.value.fromProjector == fromProjector && r.value.geoPosXLine == geoLine
    ensures r.Ok? ==> r.value.projectorAt == projectorAt && r.value.cameraAt == cameraAt
    ensures r.Ok? ==> r.value.baseX == (if fromProjector then nodeX else geoX)
    ensures r.Ok? ==> r.value.projectorY == (if fromProjector then nodeY else geoY)
    ensures r.Ok? ==> PositionsOffset(r.value) && Patched(lines, r.value)
  {
    var baseX := if fromProjector then nodeX else geoX;
    var baseY := if fromProjector then nodeY else geoY;
    var pos := Positions(baseX, baseY);
    if pos.Err? {
      return Err(pos.error);
    }
    var contents := PatchCamera(lines, projectorAt, pos.value.0, baseY, cameraAt, pos.value.0, pos.value.1);
    if contents.Err? {
      return Err(contents.error);
    }
    r := Ok(CameraPatch(cameraName, projectorName, fromProjector, baseX, geoLine, projectorAt, cameraAt,
                        pos.value.0, baseY, pos.value.0, pos.value.1, contents.value));
  }

  /** What PatchedCamera computes: the base position (the projector
      block's when there was one, else the geometry's), offset, and both
      nodes' positions written. A base value that is not an integer raises
      ValueError, a position line past the end IndexError. */
  function CameraPatchOf(lines: seq<string>, cameraName: string, projectorName: string,
                         fromProjector: bool, nodeX: string, nodeY: string,
                         geoLine: nat, geoX: string, geoY: string, projectorAt: nat, cameraAt: nat)
    : (r: Result<CameraPatch>)
    ensures var baseX := if fromProjector then nodeX else geoX;
      var baseY := if fromProjector then nodeY else geoY;
      (r.Ok? <==> ParseInt(baseX).Some? && ParseInt(baseY).Some? && projectorAt + 1 < |lines| && cameraAt + 1 < |lines|) &&
      (r.Err? ==> r.error == (if ParseInt(baseX).Some? && ParseInt(baseY).Some? then IndexError else ValueError))
    ensures r.Ok? ==> r.value.cameraName == cameraName && r.value.projectorName == projectorName
    ensures r.Ok? ==> r.value.fromProjector == fromProjector && r.value.geoPosXLine == geoLine
    ensures r.Ok? ==> r.value.projectorAt == projectorAt && r.value.cameraAt == cameraAt
    ensures r.Ok? ==> r.value.baseX == (if fromProjector then nodeX else geoX)
    ensures r.Ok? ==> r.value.projectorY == (if fromProjector then nodeY else geoY)
    ensures r.Ok? ==> PositionsOffset(r.value) && Patched(lines, r.value)
  {
    var baseX := if fromProjector then nodeX else geoX;
    var baseY := if fromProjector then nodeY else geoY;
    var pos :- Positions(baseX, baseY);
    var contents :- CameraContents(lines, projectorAt, pos.0, baseY, cameraAt, pos.0, pos.1);
    Ok(CameraPatch(cameraName, projectorName, fromProjector, baseX, geoLine, projectorAt, cameraAt,
                   pos.0, baseY, pos.0, pos.1, contents))
  }

  /** A method's result and the step function that specifies it: the same
      outcome, the same error, the same value. */
  predicate Yields<T(==)>(r: Result<T>, step: Result<(Globals, T)>) {
    (r.Ok? <==> step.Ok?) && (r.Err? ==> r.error == step.error) && (r.Ok? ==> r.value == step.value.1)
  }

  /** The 'Node Projector' loop over the saved setup and, when it found a
      block, the reads of the last block's PosX and PosY lines: whether a
      block was found, and the two values ("" without a block). */
  function ProjectorBaseStep(g: Globals): (r: Result<(Globals, bool, string, string)>)
    ensures r.Ok? ==> r.value.0.file == g.file && (r.value.1 <==> LastMatch(g.file, "Node Projector").Some?)
  {
    match LastMatch(g.file, "Node Projector")
    case None => Ok((g, false, "", ""))
    case Some(i) =>
      var px :- ReadValueStep(g, i + 8);
      var py :- ReadValueStep(px.0, i + 9);
      Ok((py.0, true, px.1, py.1))
  }

  /** Without a projector block nothing is read. With a block whose PosX
      and PosY lines are in the file, the reads succeed iff both lines have
      a space, and give their last tokens; otherwise IndexError. */
  lemma ProjectorBaseOutcome(g: Globals)
    ensures LastMatch(g.file, "Node Projector").None? ==> ProjectorBaseStep(g) == Ok((g, false, "", ""))
    ensures LastMatch(g.file, "Node Projector").Some? && LastMatch(g.file, "Node Projector").value + 9 <= |g.file| ==>
      (var i := LastMatch(g.file, "Node Projector").value;
       var r := ProjectorBaseStep(g);
       (r.Ok? <==> ' ' in g.file[i + 7] && ' ' in g.file[i + 8]) && (r.Err? ==> r.error == IndexError) &&
       (r.Ok? ==> r.value.1 && LastToken(g.file[i + 7]) == Ok(r.value.2) && LastToken(g.file[i + 8]) == Ok(r.value.3)))
  {
    match LastMatch(g.file, "Node Projector")
    case None =>
    case Some(i) =>
      if i + 9 <= |g.file| {
        ReadValueOf(g, i + 8);
        if ReadValueStep(g, i + 8).Ok? {
          ReadValueOf(ReadValueStep(g, i + 8).value.0, i + 9);
        }
      }
  }

  /** The searches of createCameraProjection in the resaved setup: the
      geometry's PosX line (only for a Surface or a Geom), then the
      projector's and the camera's. The geometry's line and the
      projector's and the camera's write indices. */
  function TargetsStep(g: Globals, geo: Node, projectorName: string, cameraName: string)
    : (r: Result<(Globals, nat, nat, nat)>)
  {
    var geoAt :- if IsGeo(geo) then PosXLineStep(g, "Name " + geo.name) else Ok((g, 0));
    var projector :- PosXLineStep(geoAt.0, projectorName);
    var camera :- PosXLineStep(projector.0, cameraName);
    Ok((camera.0, geoAt.1, projector.1, camera.1))
  }

  /** With every name in the file, the searches succeed iff each name is
      followed by a PosX line, and otherwise run off the end (IndexError). */
  lemma TargetsOutcome(g: Globals, geo: Node, projectorName: string, cameraName: string)
    requires IsGeo(geo) ==> FirstMatchFrom(g.file, "Name " + geo.name, 0).Some?
    requires FirstMatchFrom(g.file, projectorName, 0).Some? && FirstMatchFrom(g.file, cameraName, 0).Some?
    ensures var r := TargetsStep(g, geo, projectorName, cameraName);
      var lines := g.file;
      var at := PosXAfter(lines, "Name " + geo.name);
      (r.Ok? <==> (IsGeo(geo) ==> at.Some?) && PosXAfter(lines, projectorName).Some? && PosXAfter(lines, cameraName).Some?) &&
      (r.Err? ==> r.error == IndexError) &&
      (r.Ok? ==>
        r.value.0 == g.(itemLine := PosXAfter(lines, cameraName)) &&
        r.value.1 == (if IsGeo(geo) then at.value + 1 else 0) &&
        r.value.2 == PosXAfter(lines, projectorName).value + 1 && r.value.3 == PosXAfter(lines, cameraName).value + 1)
  {
    var g1 := g;
    if IsGeo(geo) {
      PosXLineOutcome(g, "Name " + geo.name);
      if PosXAfter(g.file, "Name " + geo.name).None? {
        return;
      }
      g1 := PosXLineStep(g, "Name " + geo.name).value.0;
    }
    PosXLineOutcome(g1, projectorName);
    if PosXAfter(g.file, projectorName).Some? {
      PosXLineOutcome(PosXLineStep(g1, projectorName).value.0, cameraName);
    }
  }

  /** The searches, then the reads of the geometry's position; for a node
      that is not geometry `geoPosXLineNum` is unset and reading it raises
      NameError. The geometry's line, the write indices and the position
      read. */
  function LocateStep(g: Globals, geo: Node, projectorName: string, cameraName: string)
    : (r: Result<(Globals, nat, nat, nat, string, string)>)
    ensures r.Ok? ==> r.value.0.file == g.file
  {
    var targets :- TargetsStep(g, geo, projectorName, cameraName);
    if !IsGeo(geo) then Err(NameError)
    else
      var position :- PositionStep(targets.0, targets.1);
      Ok((position.0, targets.1, targets.2, targets.3, position.1, position.2))
  }

  /** getLineValue(n) and getLineValue(n + 1): a node's PosX and PosY values. */
  function PositionStep(g: Globals, n: nat): (r: Result<(Globals, string, string)>)
    ensures r.Ok? ==> r.value.0 == g.(itemValue := Some(r.value.2))
  {
    var x :- ReadValueStep(g, n);
    var y :- ReadValueStep(x.0, n + 1);
    Ok((y.0, x.1, y.1))
  }

  /** All the names in the file: for a node that is not geometry, the
      searches end in IndexError when a PosX line is missing, and in
      NameError when both are found. */
  lemma LocateNotGeometry(g: Globals, geo: Node, projectorName: string, cameraName: string)
    requires !IsGeo(geo)
    requires FirstMatchFrom(g.file, projectorName, 0).Some? && FirstMatchFrom(g.file, cameraName, 0).Some?
    ensures LocateStep(g, geo, projectorName, cameraName) ==
      if PosXAfter(g.file, projectorName).Some? && PosXAfter(g.file, cameraName).Some? then Err(NameError) else Err(IndexError)
  {
    TargetsOutcome(g, geo, projectorName, cameraName);
  }

  /** All the names in the file, for geometry: the step succeeds iff every
      name is followed by a PosX line and the geometry's PosX and PosY lines
      have a space (the PosY read repeats the PosX value when the PosX line
      is the last one); it then returns the three PosX lines found and the
      geometry's position. Every failure is IndexError. */
  lemma LocateGeometry(g: Globals, geo: Node, projectorName: string, cameraName: string)
    requires IsGeo(geo) && FirstMatchFrom(g.file, "Name " + geo.name, 0).Some?
    requires FirstMatchFrom(g.file, projectorName, 0).Some? && FirstMatchFrom(g.file, cameraName, 0).Some?
    ensures var r := LocateStep(g, geo, projectorName, cameraName);
      var lines := g.file;
      var at := PosXAfter(lines, "Name " + geo.name);
      (r.Ok? <==>
        at.Some? && PosXAfter(lines, projectorName).Some? && PosXAfter(lines, cameraName).Some? &&
        ' ' in lines[at.value] && (at.value + 1 < |lines| ==> ' ' in lines[at.value + 1])) &&
      (r.Err? ==> r.error == IndexError) &&
      (r.Ok? ==>
        r.value.1 == at.value + 1 &&
        r.value.2 == PosXAfter(lines, projectorName).value + 1 && r.value.3 == PosXAfter(lines, cameraName).value + 1 &&
        LastToken(lines[at.value]) == Ok(r.value.4) &&
        LastToken(if at.value + 1 < |lines| then lines[at.value + 1] else lines[at.value]) == Ok(r.value.5))
  {
    TargetsOutcome(g, geo, projectorName, cameraName);
    var t := TargetsStep(g, geo, projectorName, cameraName);
    if t.Ok? {
      var lines := g.file;
      var at := t.value.1;
      assert t.value.0.file == lines && 1 <= at <= |lines|;
      ReadValueOf(t.value.0, at);
      var rx := ReadValueStep(t.value.0, at);
      if rx.Ok? {
        assert rx.value.0.file == lines && rx.value.0.itemValue == Some(rx.value.1);
        ReadValueOf(rx.value.0, at + 1);
        var ry := ReadValueStep(rx.value.0, at + 1);
        assert ry.Ok? ==> LastToken(if at < |lines| then lines[at] else lines[at - 1]) == Ok(ry.value.1);
      }
    }
  }

  /** A name followed by a PosX line is searched to one past that line. */
  lemma PosXLineFound(g: Globals, name: string, at: nat)
    requires PosXAfter(g.file, name) == Some(at)
    ensures PosXLineStep(g, name) == Ok((g.(itemLine := Some(at)), at + 1))
  {
    PosXLineOutcome(g, name);
  }

  /** When every name is followed by a PosX line, the searches succeed
      with the indices one past those lines. */
  lemma TargetsReached(g: Globals, geo: Node, projectorName: string, cameraName: string,
                       geoAt: nat, projectorAt: nat, cameraAt: nat)
    requires IsGeo(geo) && PosXAfter(g.file, "Name " + geo.name) == Some(geoAt)
    requires PosXAfter(g.file, projectorName) == Some(projectorAt) && PosXAfter(g.file, cameraName) == Some(cameraAt)
    ensures TargetsStep(g, geo, projectorName, cameraName) ==
      Ok((g.(itemLine := Some(cameraAt)), geoAt + 1, projectorAt + 1, cameraAt + 1))
  {
    PosXLineFound(g, "Name " + geo.name, geoAt);
    PosXLineFound(g.(itemLine := Some(geoAt)), projectorName, projectorAt);
    PosXLineFound(g.(itemLine := Some(projectorAt)), cameraName, cameraAt);
  }

  /** Two lines of the file holding tokens x and y are read as the
      position (x, y). */
  lemma PositionRead(g: Globals, n: nat, x: string, y: string)
    requires 1 <= n < |g.file| && LastToken(g.file[n - 1]) == Ok(x) && LastToken(g.file[n]) == Ok(y)
    ensures PositionStep(g, n) == Ok((g.(itemValue := Some(y)), x, y))
  {
    ReadValueOf(g, n);
    ReadValueOf(g.(itemValue := Some(x)), n + 1);
  }

  /** When every name is followed by a PosX line and the geometry's two
      lines after its PosX line hold tokens x and y, the searches and reads
      succeed with those indices and values. */
  lemma LocateFound(g: Globals, geo: Node, projectorName: string, cameraName: string,
                    geoAt: nat, projectorAt: nat, cameraAt: nat, x: string, y: string)
    requires IsGeo(geo) && PosXAfter(g.file, "Name " + geo.name) == Some(geoAt)
    requires PosXAfter(g.file, projectorName) == Some(projectorAt) && PosXAfter(g.file, cameraName) == Some(cameraAt)
    requires geoAt + 1 < |g.file| && LastToken(g.file[geoAt]) == Ok(x) && LastToken(g.file[geoAt + 1]) == Ok(y)
    ensures LocateStep(g, geo, projectorName, cameraName) ==
      Ok((g.(itemLine := Some(cameraAt), itemValue := Some(y)), geoAt + 1, projectorAt + 1, cameraAt + 1, x, y))
  {
    TargetsReached(g, geo, projectorName, cameraName, geoAt, projectorAt, cameraAt);
    PositionRead(g.(itemLine := Some(cameraAt)), geoAt + 1, x, y);
  }

  /** createCameraProjection once both new nodes are named, with the
      saved setup in `g`: the base read, the last selected node, the
      searches in the resaved setup, the patch; the patched lines are
      written back over the file. */
  function PlaceCameraStep(g: Globals, inp: CameraInput, projectorName: string, cameraName: string)
    : (r: Result<(Globals, CameraPatch)>)
  {
    var base :- ProjectorBaseStep(g);
    var geo :- LastNode(inp.selection);
    var located :- LocateStep(base.0.(file := inp.resaved), geo, projectorName, cameraName);
    var patch :- CameraPatchOf(inp.resaved, cameraName, projectorName, base.1, base.2, base.3,
                               located.1, located.4, located.5, located.2, located.3);
    Ok((located.0.(file := patch.contents), patch))
  }

  /** createCameraProjection(): getResultCamera, the new camera's name,
      then the placement. */
  function CameraProjectionStep(g: Globals, inp: CameraInput): (r: Result<(Globals, CameraPatch)>)
  {
    var g1 :- ResultCameraStep(g, inp.saved, inp.cameras);
    PlaceCameraStep(g1, inp, UniqueName(ProjectorBase(inp.frame), inp.nodeNames),
                    UniqueName(CameraBase(inp.frame), ["null camera"] + inp.cameras))
  }

  /** What the camera placement needs of the resaved setup: the last
      selected node is geometry, its name line and each new node's name
      line are followed by a PosX line (at 0-based `geoAt`, `projectorAt`
      and `cameraAt`), the geometry's PosX and PosY lines have a space, and
      the lines written lie inside the file. */
  predicate Placeable(inp: CameraInput, projectorName: string, cameraName: string, geoAt: nat, projectorAt: nat, cameraAt: nat)
  {
    var lines := inp.resaved;
    |inp.selection| > 0 && IsGeo(inp.selection[|inp.selection| - 1]) &&
    PosXAfter(lines, "Name " + inp.selection[|inp.selection| - 1].name) == Some(geoAt) &&
    PosXAfter(lines, projectorName) == Some(projectorAt) &&
    PosXAfter(lines, cameraName) == Some(cameraAt) &&
    geoAt + 1 < |lines| && ' ' in lines[geoAt] && ' ' in lines[geoAt + 1] &&
    projectorAt + 2 < |lines| && cameraAt + 2 < |lines|
  }

  /** Once the base read, the last node and the searches succeed, the
      placement is the patch of the resaved setup from what they read. */
  lemma PlaceCameraThrough(g: Globals, inp: CameraInput, projectorName: string, cameraName: string,
                           g0: Globals, fromProjector: bool, nodeX: string, nodeY: string,
                           g1: Globals, geoLine: nat, projectorAt: nat, cameraAt: nat, geoX: string, geoY: string)
    requires ProjectorBaseStep(g) == Ok((g0, fromProjector, nodeX, nodeY)) && |inp.selection| > 0
    requires LocateStep(g0.(file := inp.resaved), inp.selection[|inp.selection| - 1], projectorName, cameraName) ==
      Ok((g1, geoLine, projectorAt, cameraAt, geoX, geoY))
    ensures var patch := CameraPatchOf(inp.resaved, cameraName, projectorName, fromProjector, nodeX, nodeY,
                                       geoLine, geoX, geoY, projectorAt, cameraAt);
      PlaceCameraStep(g, inp, projectorName, cameraName) ==
        if patch.Ok? then Ok((g1.(file := patch.value.contents), patch.value)) else Err(patch.error)
  {
  }

  /** Once the base read succeeds and the last selected node is geometry
      whose PosX line and the new nodes' PosX lines are found, with the
      geometry's tokens x and y, the placement comes down to the patch from
      what was read. */
  lemma PlaceCameraLocated(g: Globals, inp: CameraInput, projectorName: string, cameraName: string,
                           g0: Globals, fromProjector: bool, nodeX: string, nodeY: string,
                           geoAt: nat, projectorAt: nat, cameraAt: nat, x: string, y: string)
    requires ProjectorBaseStep(g) == Ok((g0, fromProjector, nodeX, nodeY))
    requires |inp.selection| > 0 && IsGeo(inp.selection[|inp.selection| - 1])
    requires PosXAfter(inp.resaved, "Name " + inp.selection[|inp.selection| - 1].name) == Some(geoAt)
    requires PosXAfter(inp.resaved, projectorName) == Some(projectorAt) && PosXAfter(inp.resaved, cameraName) == Some(cameraAt)
    requires geoAt + 1 < |inp.resaved| && LastToken(inp.resaved[geoAt]) == Ok(x) && LastToken(inp.resaved[geoAt + 1]) == Ok(y)
    ensures var patch := CameraPatchOf(inp.resaved, cameraName, projectorName, fromProjector, nodeX, nodeY,
                                       geoAt + 1, x, y, projectorAt + 1, cameraAt + 1);
      var r := PlaceCameraStep(g, inp, projectorName, cameraName);
      (r.Ok? <==> patch.Ok?) && (r.Err? ==> r.error == patch.error) && (r.Ok? ==> r.value.1 == patch.value)
  {
    var lg := g0.(file := inp.resaved);
    LocateFound(lg, inp.selection[|inp.selection| - 1], projectorName, cameraName, geoAt, projectorAt, cameraAt, x, y);
    PlaceCameraThrough(g, inp, projectorName, cameraName, g0, fromProjector, nodeX, nodeY,
                       lg.(itemLine := Some(cameraAt), itemValue := Some(y)), geoAt + 1, projectorAt + 1, cameraAt + 1, x, y);
  }

  /** The patch places both new nodes from the base position (x, y): 300
      to the right, the camera 150 above, written on the lines after their
      PosX lines. */
  predicate PlacedFrom(lines: seq<string>, projectorName: string, cameraName: string, projectorAt: nat, cameraAt: nat,
                       p: CameraPatch, x: string, y: string)
  {
    ParseInt(x).Some? && ParseInt(y).Some? &&
    p.cameraName == cameraName && p.projectorName == projectorName &&
    p.projectorX == IntToStr(ParseInt(x).value + 300) && p.projectorY == y &&
    p.cameraX == p.projectorX && p.cameraY == IntToStr(ParseInt(y).value + 150) &&
    p.projectorAt == projectorAt + 1 && p.cameraAt == cameraAt + 1 &&
    Patched(lines, p)
  }

  /** The patch from base position (x, y), taken from the projector block
      or from the geometry, exists iff both values are integers (ValueError
      otherwise) once the projector's and the camera's PosX lines are two
      or more lines before the end. */
  lemma CameraPatchPlaced(lines: seq<string>, projectorName: string, cameraName: string,
                          fromProjector: bool, nodeX: string, nodeY: string,
                          geoLine: nat, geoX: string, geoY: string, projectorAt: nat, cameraAt: nat)
    requires projectorAt + 2 < |lines| && cameraAt + 2 < |lines|
    ensures var patch := CameraPatchOf(lines, cameraName, projectorName, fromProjector, nodeX, nodeY,
                                       geoLine, geoX, geoY, projectorAt + 1, cameraAt + 1);
      var x := if fromProjector then nodeX else geoX;
      var y := if fromProjector then nodeY else geoY;
      (patch.Ok? <==> ParseInt(x).Some? && ParseInt(y).Some?) && (patch.Err? ==> patch.error == ValueError) &&
      (patch.Ok? ==> patch.value.fromProjector == fromProjector &&
                     PlacedFrom(lines, projectorName, cameraName, projectorAt, cameraAt, patch.value, x, y))
  {
  }

  /** Without a projector block in the saved setup, a placeable resaved
      setup comes down to the patch from the geometry's position: the same
      outcome, the same error, the same patch. */
  lemma PlaceCameraGeometryPatch(g: Globals, inp: CameraInput, projectorName: string, cameraName: string,
                                 geoAt: nat, projectorAt: nat, cameraAt: nat, x: string, y: string)
    requires LastMatch(g.file, "Node Projector").None?
    requires Placeable(inp, projectorName, cameraName, geoAt, projectorAt, cameraAt)
    requires LastToken(inp.resaved[geoAt]) == Ok(x) && LastToken(inp.resaved[geoAt + 1]) == Ok(y)
    ensures var patch := CameraPatchOf(inp.resaved, cameraName, projectorName, false, "", "", geoAt + 1, x, y,
                                       projectorAt + 1, cameraAt + 1);
      var r := PlaceCameraStep(g, inp, projectorName, cameraName);
      (r.Ok? <==> patch.Ok?) && (r.Err? ==> r.error == patch.error) && (r.Ok? ==> r.value.1 == patch.value)
  {
    assert ProjectorBaseStep(g) == Ok((g, false, "", "")) by {
      ProjectorBaseOutcome(g);
    }
    PlaceCameraLocated(g, inp, projectorName, cameraName, g, false, "", "", geoAt, projectorAt, cameraAt, x, y);
  }

  /** Without a projector block in the saved setup, a placeable resaved
      setup is patched iff the geometry's PosX and PosY values are integers
      (ValueError otherwise), from the geometry's position. */
  lemma PlaceCameraFromGeometry(g: Globals, inp: CameraInput, projectorName: string, cameraName: string,
                                geoAt: nat, projectorAt: nat, cameraAt: nat, x: string, y: string)
    requires LastMatch(g.file, "Node Projector").None?
    requires Placeable(inp, projectorName, cameraName, geoAt, projectorAt, cameraAt)
    requires LastToken(inp.resaved[geoAt]) == Ok(x) && LastToken(inp.resaved[geoAt + 1]) == Ok(y)
    ensures var r := PlaceCameraStep(g, inp, projectorName, cameraName);
      (r.Ok? <==> ParseInt(x).Some? && ParseInt(y).Some?) && (r.Err? ==> r.error == ValueError) &&
      (r.Ok? ==> !r.value.1.fromProjector && PlacedFrom(inp.resaved, projectorName, cameraName, projectorAt, cameraAt, r.value.1, x, y))
  {
    PlaceCameraGeometryPatch(g, inp, projectorName, cameraName, geoAt, projectorAt, cameraAt, x, y);
    CameraPatchPlaced(inp.resaved, projectorName, cameraName, false, "", "", geoAt + 1, x, y, projectorAt, cameraAt);
  }

  /** With a projector block whose PosX and PosY lines are in the saved
      setup and have a space, a placeable resaved setup comes down to the
      patch from the block's position: the same outcome, the same error, the
      same patch. */
  lemma PlaceCameraProjectorPatch(g: Globals, inp: CameraInput, projectorName: string, cameraName: string,
                                  i: nat, geoAt: nat, projectorAt: nat, cameraAt: nat, x: string, y: string)
    requires LastMatch(g.file, "Node Projector") == Some(i)
    requires i + 9 <= |g.file| && LastToken(g.file[i + 7]) == Ok(x) && LastToken(g.file[i + 8]) == Ok(y)
    requires Placeable(inp, projectorName, cameraName, geoAt, projectorAt, cameraAt)
    ensures var tx := LastToken(inp.resaved[geoAt]).value;
      var ty := LastToken(inp.resaved[geoAt + 1]).value;
      var patch := CameraPatchOf(inp.resaved, cameraName, projectorName, true, x, y, geoAt + 1, tx, ty,
                                 projectorAt + 1, cameraAt + 1);
      var r := PlaceCameraStep(g, inp, projectorName, cameraName);
      (r.Ok? <==> patch.Ok?) && (r.Err? ==> r.error == patch.error) && (r.Ok? ==> r.value.1 == patch.value)
  {
    assert ProjectorBaseStep(g) == Ok((g.(itemValue := Some(y)), true, x, y)) by {
      PositionRead(g, i + 8, x, y);
    }
    PlaceCameraLocated(g, inp, projectorName, cameraName, g.(itemValue := Some(y)), true, x, y, geoAt, projectorAt, cameraAt,
                       LastToken(inp.resaved[geoAt]).value, LastToken(inp.resaved[geoAt + 1]).value);
  }

  /** With a projector block whose PosX and PosY lines are in the saved
      setup and have a space, a placeable resaved setup is patched iff the
      block's values are integers (ValueError otherwise), from the block's
      position. */
  lemma PlaceCameraFromProjector(g: Globals, inp: CameraInput, projectorName: string, cameraName: string,
                                 i: nat, geoAt: nat, projectorAt: nat, cameraAt: nat, x: string, y: string)
    requires LastMatch(g.file, "Node Projector") == Some(i)
    requires i + 9 <= |g.file| && LastToken(g.file[i + 7]) == Ok(x) && LastToken(g.file[i + 8]) == Ok(y)
    requires Placeable(inp, projectorName, cameraName, geoAt, projectorAt, cameraAt)
    ensures var r := PlaceCameraStep(g, inp, projectorName, cameraName);
      (r.Ok? <==> ParseInt(x).Some? && ParseInt(y).Some?) && (r.Err? ==> r.error == ValueError) &&
      (r.Ok? ==> r.value.1.fromProjector && PlacedFrom(inp.resaved, projectorName, cameraName, projectorAt, cameraAt, r.value.1, x, y))
  {
    PlaceCameraProjectorPatch(g, inp, projectorName, cameraName, i, geoAt, projectorAt, cameraAt, x, y);
    CameraPatchPlaced(inp.resaved, projectorName, cameraName, true, x, y, geoAt + 1,
                      LastToken(inp.resaved[geoAt]).value, LastToken(inp.resaved[geoAt + 1]).value, projectorAt, cameraAt);
  }

  /** Once the base read succeeds, an empty selection, or a last node that
      is not geometry while both new nodes' PosX lines are found, ends in
      NameError. */
  lemma PlaceCameraNotGeometry(g: Globals, inp: CameraInput, projectorName: string, cameraName: string)
    requires ProjectorBaseStep(g).Ok?
    requires |inp.selection| == 0 ||
      (!IsGeo(inp.selection[|inp.selection| - 1]) &&
       PosXAfter(inp.resaved, projectorName).Some? && PosXAfter(inp.resaved, cameraName).Some?)
    ensures PlaceCameraStep(g, inp, projectorName, cameraName) == Err(NameError)
  {
    if |inp.selection| > 0 {
      var base := ProjectorBaseStep(g).value;
      LocateNotGeometry(base.0.(file := inp.resaved), inp.selection[|inp.selection| - 1], projectorName, cameraName);
    }
  }

  /** createCameraProjection() end to end, without a projector block in
      the saved setup: once getResultCamera succeeds, a placeable resaved
      setup is patched iff the geometry's PosX and PosY values are integers
      (ValueError otherwise), from the geometry's position, under the two
      names the naming gives. */
  lemma CameraProjectionFromGeometry(g: Globals, inp: CameraInput, projectorName: string, cameraName: string,
                                     geoAt: nat, projectorAt: nat, cameraAt: nat, x: string, y: string)
    requires projectorName == UniqueName(ProjectorBase(inp.frame), inp.nodeNames)
    requires cameraName == UniqueName(CameraBase(inp.frame), ["null camera"] + inp.cameras)
    requires ResultCameraStep(g, inp.saved, inp.cameras).Ok?
    requires LastMatch(inp.saved, "Node Projector").None?
    requires Placeable(inp, projectorName, cameraName, geoAt, projectorAt, cameraAt)
    requires LastToken(inp.resaved[geoAt]) == Ok(x) && LastToken(inp.resaved[geoAt + 1]) == Ok(y)
    ensures var r := CameraProjectionStep(g, inp);
      (r.Ok? <==> ParseInt(x).Some? && ParseInt(y).Some?) && (r.Err? ==> r.error == ValueError) &&
      (r.Ok? ==> !r.value.1.fromProjector && PlacedFrom(inp.resaved, projectorName, cameraName, projectorAt, cameraAt, r.value.1, x, y))
  {
    var g1 := ResultCameraStep(g, inp.saved, inp.cameras).value;
    PlaceCameraFromGeometry(g1, inp, projectorName, cameraName, geoAt, projectorAt, cameraAt, x, y);
  }

  /** createCameraProjection() end to end, with a projector block in the
      saved setup whose PosX and PosY lines have a space: once
      getResultCamera succeeds, a placeable resaved setup is patched iff the
      block's values are integers (ValueError otherwise), from the block's
      position, under the two names the naming gives. */
  lemma CameraProjectionFromProjector(g: Globals, inp: CameraInput, projectorName: string, cameraName: string,
                                      i: nat, geoAt: nat, projectorAt: nat, cameraAt: nat, x: string, y: string)
    requires projectorName == UniqueName(ProjectorBase(inp.frame), inp.nodeNames)
    requires cameraName == UniqueName(CameraBase(inp.frame), ["null camera"] + inp.cameras)
    requires ResultCameraStep(g, inp.saved, inp.cameras).Ok?
    requires LastMatch(inp.saved, "Node Projector") == Some(i)
    requires i + 9 <= |inp.saved| && LastToken(inp.saved[i + 7]) == Ok(x) && LastToken(inp.saved[i + 8]) == Ok(y)
    requires Placeable(inp, projectorName, cameraName, geoAt, projectorAt, cameraAt)
    ensures var r := CameraProjectionStep(g, inp);
      (r.Ok? <==> ParseInt(x).Some? && ParseInt(y).Some?) && (r.Err? ==> r.error == ValueError) &&
      (r.Ok? ==> r.value.1.fromProjector && PlacedFrom(inp.resaved, projectorName, cameraName, projectorAt, cameraAt, r.value.1, x, y))
  {
    var g1 := ResultCameraStep(g, inp.saved, inp.cameras).value;
    assert g1.file == inp.saved;
    PlaceCameraFromProjector(g1, inp, projectorName, cameraName, i, geoAt, projectorAt, cameraAt, x, y);
  }

  /** A failing getResultCamera ends createCameraProjection() with its
      error, before anything is named or placed. */
  lemma CameraProjectionNoResultCamera(g: Globals, inp: CameraInput)
    requires ResultCameraStep(g, inp.saved, inp.cameras).Err?
    ensures CameraProjectionStep(g, inp) == Err(ResultCameraStep(g, inp.saved, inp.cameras).error)
  {
  }

  // --------------------------------------------- createDiffuseProjection

  /** What the host supplies to createDiffuseProjection. */
  datatype DiffuseInput = DiffuseInput(
    saved: seq<string>,      // setup saved by getResultCamera
    cameras: seq<string>,    // names of the action's camera nodes, in order
    frame: int,              // the batch's current frame
    nodeNames: seq<string>,  // names of the action's nodes once the map exists
    resaved: seq<string>)    // setup saved once the map is named

  /** The outcome: the camera used and whether it was already there, its
      index in the camera list, the map's name, the PosX line of the camera
      the scan found and its X, the 0-based indices written, the values
      and the patched lines. */
  datatype DiffusePatch = DiffusePatch(
    cameraName: string,
    cameraExists: bool,
    cameraIndex: nat,
    diffuseName: string,
    sourceAt: nat,
    sourceX: int,
    cameraAt: nat,
    mapCameraAt: nat,
    mapCoordAt: nat,
    cameraX: string,
    cameraY: string,
    contents: seq<string>)

  /** The first position of `x` in `xs` (`list.index`). */
  function IndexOf(xs: seq<string>, x: string): (r: nat)
    requires x in xs
    ensures r < |xs| && xs[r] == x && x !in xs[..r]
    decreases |xs|
  {
    if xs[0] == x then 0
    else
      var r := IndexOf(xs[1..], x);
      assert xs[..r + 1] == [xs[0]] + xs[1..][..r];
      r + 1
  }

  /** createCurFrameCamera in diffuse mode: the camera `frame_<frame>` is
      reused when the action has it, and otherwise created, which appends
      it to the action's cameras. The index is into 'null camera' followed
      by the cameras. */
  function DiffuseCamera(cameras: seq<string>, frame: int): (bool, nat) {
    var listed := ["null camera"] + cameras;
    if CameraBase(frame) in listed then (true, IndexOf(listed, CameraBase(frame)))
    else (false, |cameras| + 1)
  }

  /** MapCamera is written with the camera's 0-based position among the
      action's cameras, counting a created camera as appended last. */
  lemma DiffuseCameraIndex(cameras: seq<string>, frame: int)
    ensures var (exists_, index) := DiffuseCamera(cameras, frame);
      var all := if exists_ then cameras else cameras + [CameraBase(frame)];
      (exists_ <==> CameraBase(frame) in cameras) &&
      1 <= index && index - 1 < |all| && all[index - 1] == CameraBase(frame) &&
      CameraBase(frame) !in all[..index - 1]
  {
    var listed := ["null camera"] + cameras;
    var name := CameraBase(frame);
    assert name != "null camera" by {
      assert name[0] == 'f';
    }
    if name in listed {
      var i := IndexOf(listed, name);
      assert i != 0;
      assert listed[..i] == ["null camera"] + cameras[..i - 1];
    } else {
      assert name !in cameras;
      assert (cameras + [name])[..|cameras|] == cameras;
    }
  }

  /** What the diffuse projection read from the saved setup: the scan
      settled on a camera, `sourceAt` is the first PosX line after the line
      numbered by the scan (the number used as a 0-based index), `x` is that
      line's token as an integer and `y` the next line's token, or again the
      PosX token when the PosX line is the last one. */
  predicate SourceRead(saved: seq<string>, previous: Option<nat>, sourceAt: nat, x: int, y: string)
  {
    CameraScan(saved, 0, 1, previous).Ok? && CameraScan(saved, 0, 1, previous).value.Some? &&
    FirstMatchFrom(saved, "PosX", CameraScan(saved, 0, 1, previous).value.value) == Some(sourceAt) &&
    LastToken(saved[sourceAt]).Ok? && ParseInt(LastToken(saved[sourceAt]).value) == Some(x) &&
    LastToken(if sourceAt + 1 < |saved| then saved[sourceAt + 1] else saved[sourceAt]) == Ok(y)
  }

  /** `str(int(str(x)) + d)`: the number `d` past `x`, written out. */
  function Shifted(x: int, d: int): (r: string)
    ensures r == IntToStr(x + d)
  {
    ParseIntOfIntToStrBare(x);
    IntToStr(ParseInt(IntToStr(x)).value + d)
  }

  /** The diffuse patch: the new camera's PosX/PosY lines when the camera
      was just created, then the map's MapCamera and MapCoordType lines (21
      and 23 lines after the map's name line). Those lines change and no
      others; where they coincide, the later write wins. */
  function DiffuseContents(lines: seq<string>, cameraExists: bool, cameraAt: nat, x: string, y: string,
                           mapCameraAt: nat, mapCoordAt: nat, index: nat): (r: Result<seq<string>>)
    ensures r.Ok? <==> (cameraExists || cameraAt + 1 < |lines|) && mapCameraAt < |lines| && mapCoordAt < |lines|
    ensures r.Err? ==> r.error == IndexError
    ensures r.Ok? ==> |r.value| == |lines| && r.value[mapCoordAt] == MapCoordText
    ensures r.Ok? && mapCameraAt != mapCoordAt ==> r.value[mapCameraAt] == MapCameraText(index - 1)
    ensures r.Ok? && !cameraExists && cameraAt != mapCameraAt && cameraAt != mapCoordAt ==>
      r.value[cameraAt] == PosXText(x)
    ensures r.Ok? && !cameraExists && cameraAt + 1 != mapCameraAt && cameraAt + 1 != mapCoordAt ==>
      r.value[cameraAt + 1] == PosYText(y)
    ensures r.Ok? ==> forall k :: 0 <= k < |lines| && k != mapCameraAt && k != mapCoordAt && (cameraExists || (k != cameraAt && k != cameraAt + 1)) ==>
      r.value[k] == lines[k]
  {
    var c1 :- if cameraExists then Ok(lines) else WritePosition(lines, cameraAt, x, y);
    var c2 :- SetAt(c1, mapCameraAt, MapCameraText(index - 1));
    SetAt(c2, mapCoordAt, MapCoordText)
  }

  /** readlines(), the diffuse writes, and the lines joined back. */
  method PatchDiffuse(lines: seq<string>, cameraExists: bool, cameraAt: nat, x: string, y: string,
                      mapCameraAt: nat, mapCoordAt: nat, index: nat) returns (r: Result<seq<string>>)
    ensures r == DiffuseContents(lines, cameraExists, cameraAt, x, y, mapCameraAt, mapCoordAt, index)
  {
    var contents := new string[|lines|](i requires 0 <= i < |lines| => lines[i]);
    assert contents[..] == lines;
    var s: Status := Done;
    if !cameraExists {
      s := SetPosition(contents, cameraAt, x, y);
      if s.Fail? {
        return Err(s.error);
      }
    }
    s := SetLine(contents, mapCameraAt, MapCameraText(index - 1));
    if s.Fail? {
      return Err(s.error);
    }
    s := SetLine(contents, mapCoordAt, MapCoordText);
    if s.Fail? {
      return Err(s.error);
    }
    r := Ok(contents[..]);
  }

  /** The 1-based line `findLine(name)` leaves in `itemLine`: the first line
      naming `name`, or the previous value when none does. */
  function LineOf(lines: seq<string>, name: string, previous: nat): nat {
    match FirstMatchFrom(lines, name, 0)
    case Some(i) => i + 1
    case None => previous
  }

  /** The lines written: the map's line is found by name (keeping the
      source PosX index when the map's name is absent), the camera's PosX
      line is the first one after the camera's name line (searched from the
      map's line when the camera's name is absent). */
  predicate DiffuseTargets(lines: seq<string>, p: DiffusePatch)
  {
    DiffuseTargetsAt(lines, p.diffuseName, p.cameraName, p.sourceAt, p.mapCameraAt, p.mapCoordAt, p.cameraAt)
  }

  predicate DiffuseTargetsAt(lines: seq<string>, diffuseName: string, cameraName: string,
                             sourceAt: nat, mapCameraAt: nat, mapCoordAt: nat, cameraAt: nat)
  {
    var mapLine := LineOf(lines, diffuseName, sourceAt);
    mapCameraAt == mapLine + 21 && mapCoordAt == mapLine + 23 &&
    cameraAt >= 1 && FirstMatchFrom(lines, "PosX", LineOf(lines, cameraName, mapLine)) == Some(cameraAt - 1)
  }

  /** The patched lines are the resaved setup with the diffuse writes. */
  predicate DiffusePatched(lines: seq<string>, p: DiffusePatch)
  {
    DiffuseContents(lines, p.cameraExists, p.cameraAt, p.cameraX, p.cameraY, p.mapCameraAt, p.mapCoordAt, p.cameraIndex) == Ok(p.contents)
  }

  /** Everything createDiffuseProjection promises about its outcome: what
      it read, the camera it used and where it put it, the map's name, and
      the lines it wrote. */
  predicate DiffuseDone(inp: DiffuseInput, previous: Option<nat>, p: DiffusePatch)
  {
    SourceRead(inp.saved, previous, p.sourceAt, p.sourceX, p.cameraY) &&
    p.cameraName == CameraBase(inp.frame) &&
    (p.cameraExists, p.cameraIndex) == DiffuseCamera(inp.cameras, inp.frame) &&
    p.cameraX == IntToStr(p.sourceX + 200) &&
    p.diffuseName == UniqueName(DiffuseBase(inp.frame), inp.nodeNames) &&
    DiffuseTargets(inp.resaved, p) && DiffusePatched(inp.resaved, p)
  }

  /** The 'Node Camera' loop of createDiffuseProjection. */
  method ScanNodeCameras(lines: seq<string>, previous: Option<nat>) returns (r: Result<Option<nat>>)
    ensures r == CameraScan(lines, 0, 1, previous)
  {
    var i, num, found := 0, 1, previous;
    while i < |lines|
      invariant CameraScan(lines, i, num, found) == CameraScan(lines, 0, 1, previous)
      decreases |lines| - i
    {
      if Contains(lines[i], "Node Camera") {
        if i + 1 >= |lines| {
          return Err(StopIteration);
        }
        var next := lines[i + 1];
        if !Contains(next, "right") && !Contains(next, "left") {
          found := Some(num);
        }
        i, num := i + 2, num + 1;
      } else {
        i, num := i + 1, num + 1;
      }
    }
    r := Ok(found);
  }

  /** getLineValue(at + 1) read as `int(...)`, then getLineValue(at + 2):
      the scanned camera's X and Y tokens, its PosX line being 0-based
      line `at`. */
  function SourceValuesStep(g: Globals, at: nat): (r: Result<(Globals, int, string)>)
    ensures r.Ok? ==> r.value.0 == g.(itemValue := Some(r.value.2))
  {
    var px :- ReadValueStep(g, at + 1);
    var x :- ToInt(px.1);
    var py :- ReadValueStep(px.0, at + 2);
    Ok((py.0, x, py.1))
  }

  /** On a PosX line of the file, the X token must be an integer
      (ValueError otherwise) and both lines read must have a space
      (IndexError otherwise); the Y token comes from the next line, or from
      the PosX line again when it is the last one. */
  lemma SourceValuesOf(g: Globals, at: nat)
    requires at < |g.file|
    ensures var r := SourceValuesStep(g, at);
      var lines := g.file;
      var xOk := LastToken(lines[at]).Ok? && ParseInt(LastToken(lines[at]).value).Some?;
      (r.Ok? <==> xOk && (at + 1 < |lines| ==> ' ' in lines[at + 1])) &&
      (r.Err? ==> r.error == (if LastToken(lines[at]).Ok? && !xOk then ValueError else IndexError)) &&
      (r.Ok? ==> ParseInt(LastToken(lines[at]).value) == Some(r.value.1) &&
                 LastToken(if at + 1 < |lines| then lines[at + 1] else lines[at]) == Ok(r.value.2))
  {
    ReadValueOf(g, at + 1);
    var px := ReadValueStep(g, at + 1);
    if px.Ok? {
      ReadValueOf(px.value.0, at + 2);
    }
  }

  /** createDiffuseProjection's reads of the saved setup: the 'Node Camera'
      scan (which assigns the global even when it settles on nothing), then
      findLineLoop('PosX') from the line it settled on and the reads of the
      camera's position. The PosX index, X and Y. */
  function SourceCameraStep(g: Globals): (r: Result<(Globals, nat, int, string)>)
    ensures r.Ok? ==> r.value.0.file == g.file && r.value.0.itemLine == Some(r.value.1)
  {
    var scanned :- CameraScan(g.file, 0, 1, g.nodeCameraNameLine);
    var start :- Defined(scanned);
    var g1 :- FindLineLoopStep(g.(nodeCameraNameLine := scanned), "PosX", start);
    var at :- Defined(g1.itemLine);
    var values :- SourceValuesStep(g1, at);
    Ok((values.0, at, values.1, values.2))
  }

  /** The reads fail with the scan's error, with NameError when the scan
      settled on no camera, and with IndexError when no PosX line follows
      the line it settled on. */
  lemma SourceCameraFails(g: Globals)
    ensures var scanned := CameraScan(g.file, 0, 1, g.nodeCameraNameLine);
      (scanned.Err? ==> SourceCameraStep(g) == Err(scanned.error)) &&
      (scanned == Ok(None) ==> SourceCameraStep(g) == Err(NameError)) &&
      (scanned.Ok? && scanned.value.Some? && FirstMatchFrom(g.file, "PosX", scanned.value.value).None? ==>
        SourceCameraStep(g) == Err(IndexError))
  {
  }

  /** Once the scan settles on line `start` and a PosX line `at` follows
      it, the reads succeed iff that line's token is an integer (ValueError
      otherwise) and both lines read have a space (IndexError otherwise),
      and they read what the diffuse projection records. */
  lemma SourceCameraFound(g: Globals, start: nat, at: nat)
    requires CameraScan(g.file, 0, 1, g.nodeCameraNameLine) == Ok(Some(start))
    requires FirstMatchFrom(g.file, "PosX", start) == Some(at)
    ensures var r := SourceCameraStep(g);
      var lines := g.file;
      var xOk := LastToken(lines[at]).Ok? && ParseInt(LastToken(lines[at]).value).Some?;
      (r.Ok? <==> xOk && (at + 1 < |lines| ==> ' ' in lines[at + 1])) &&
      (r.Err? ==> r.error == (if LastToken(lines[at]).Ok? && !xOk then ValueError else IndexError)) &&
      (r.Ok? ==> r.value.1 == at && SourceRead(lines, g.nodeCameraNameLine, at, r.value.2, r.value.3))
  {
    var g1 := g.(nodeCameraNameLine := Some(start), itemLine := Some(at));
    assert FindLineLoopStep(g.(nodeCameraNameLine := Some(start)), "PosX", start) == Ok(g1);
    SourceValuesOf(g1, at);
  }

  /** The rest of createDiffuseProjection in the resaved setup, `itemLine`
      holding the source camera's PosX index: findLine on the map's name
      (MapCamera and MapCoordType are 21 and 23 lines on), findLine on the
      camera's name, findLineLoop('PosX') from there, and the writes, the
      camera placed at X `x + 200` when it was created. The camera's name,
      whether it existed and its index are what createCurFrameCamera left
      in its globals. */
  function WriteDiffuseStep(g: Globals, lines: seq<string>, diffuseName: string, cameraName: string,
                            cameraExists: bool, cameraIndex: nat, sourceAt: nat, x: int, y: string)
    : (r: Result<(Globals, DiffusePatch)>)
  {
    var found :- DiffuseLinesStep(g.(file := lines), diffuseName, cameraName);
    var p :- DiffuseWriteOf(lines, diffuseName, cameraName, cameraExists, cameraIndex, sourceAt, x, y, found.1, found.2);
    Ok((found.0.(file := p.contents), p))
  }

  /** The writes once the map's line and the camera's PosX index are
      found, and what they record. */
  function DiffuseWriteOf(lines: seq<string>, diffuseName: string, cameraName: string,
                          cameraExists: bool, cameraIndex: nat, sourceAt: nat, x: int, y: string,
                          mapLine: nat, posX: nat): (r: Result<DiffusePatch>)
    ensures r.Ok? ==>
      r.value.cameraName == cameraName && r.value.diffuseName == diffuseName &&
      r.value.cameraExists == cameraExists && r.value.cameraIndex == cameraIndex &&
      r.value.sourceAt == sourceAt && r.value.sourceX == x &&
      r.value.cameraX == IntToStr(x + 200) && r.value.cameraY == y &&
      r.value.cameraAt == posX + 1 && r.value.mapCameraAt == mapLine + 21 && r.value.mapCoordAt == mapLine + 23 &&
      DiffusePatched(lines, r.value)
  {
    var contents :- DiffuseContents(lines, cameraExists, posX + 1, IntToStr(x + 200), y, mapLine + 21, mapLine + 23, cameraIndex);
    Ok(DiffusePatch(cameraName, cameraExists, cameraIndex, diffuseName, sourceAt, x, posX + 1,
                    mapLine + 21, mapLine + 23, IntToStr(x + 200), y, contents))
  }

  /** The searches of the diffuse writes: findLine on the map's name,
      findLine on the camera's name, findLineLoop('PosX') from there. The
      map's line and the PosX line's index. */
  function DiffuseLinesStep(g: Globals, diffuseName: string, cameraName: string): (r: Result<(Globals, nat, nat)>)
  {
    var g1 := FindLineStep(g, diffuseName);
    var mapLine :- Defined(g1.itemLine);
    var g2 := FindLineStep(g1, cameraName);
    var cameraLine :- Defined(g2.itemLine);
    var g3 :- FindLineLoopStep(g2, "PosX", cameraLine);
    var posX :- Defined(g3.itemLine);
    Ok((g3, mapLine, posX))
  }

  /** With `itemLine` holding a line number, the searches succeed iff a
      PosX line follows the camera's line (IndexError otherwise); the map's
      line falls back on that number when its name is absent. */
  lemma DiffuseLinesOf(g: Globals, diffuseName: string, cameraName: string, previous: nat)
    requires g.itemLine == Some(previous)
    ensures var r := DiffuseLinesStep(g, diffuseName, cameraName);
      var mapLine := LineOf(g.file, diffuseName, previous);
      var posX := FirstMatchFrom(g.file, "PosX", LineOf(g.file, cameraName, mapLine));
      (r.Ok? <==> posX.Some?) && (r.Err? ==> r.error == IndexError) &&
      (r.Ok? ==> r.value.1 == mapLine && r.value.2 == posX.value)
  {
    var mapLine := LineOf(g.file, diffuseName, previous);
    var g1 := FindLineStep(g, diffuseName);
    assert g1.itemLine == Some(mapLine);
    var g2 := FindLineStep(g1, cameraName);
    assert g2.itemLine == Some(LineOf(g.file, cameraName, mapLine));
  }

  /** With `itemLine` holding the source camera's PosX index and a PosX
      line `posX` after the camera's line, the writes come down to the
      diffuse patch of the resaved setup: the same outcome, the same error,
      and the patch recording what was written where. */
  lemma WriteDiffuseReaches(g: Globals, lines: seq<string>, diffuseName: string, cameraName: string,
                            cameraExists: bool, cameraIndex: nat, sourceAt: nat, x: int, y: string, mapLine: nat, posX: nat)
    requires g.itemLine == Some(sourceAt)
    requires mapLine == LineOf(lines, diffuseName, sourceAt)
    requires FirstMatchFrom(lines, "PosX", LineOf(lines, cameraName, mapLine)) == Some(posX)
    ensures var r := WriteDiffuseStep(g, lines, diffuseName, cameraName, cameraExists, cameraIndex, sourceAt, x, y);
      var w := DiffuseWriteOf(lines, diffuseName, cameraName, cameraExists, cameraIndex, sourceAt, x, y, mapLine, posX);
      (r.Ok? <==> w.Ok?) && (r.Err? ==> r.error == w.error) && (r.Ok? ==> r.value.1 == w.value)
  {
    DiffuseLinesOf(g.(file := lines), diffuseName, cameraName, sourceAt);
  }

  /** What the diffuse writes record once the lines are found: the names
      and the camera given, the source camera read, the camera's X shifted
      by 200, and lines written where and as the diffuse projection says. */
  predicate DiffuseWrote(lines: seq<string>, diffuseName: string, cameraName: string,
                         cameraExists: bool, cameraIndex: nat, sourceAt: nat, x: int, y: string, p: DiffusePatch)
  {
    p.cameraName == cameraName && p.diffuseName == diffuseName &&
    p.cameraExists == cameraExists && p.cameraIndex == cameraIndex &&
    p.sourceAt == sourceAt && p.sourceX == x &&
    p.cameraX == IntToStr(x + 200) && p.cameraY == y &&
    DiffuseTargets(lines, p) && DiffusePatched(lines, p)
  }

  /** The lines the diffuse writes target, once a PosX line `posX`
      follows the camera's line. */
  lemma DiffuseTargetsFound(lines: seq<string>, diffuseName: string, cameraName: string, sourceAt: nat, posX: nat)
    requires FirstMatchFrom(lines, "PosX", LineOf(lines, cameraName, LineOf(lines, diffuseName, sourceAt))) == Some(posX)
    ensures var mapLine := LineOf(lines, diffuseName, sourceAt);
      DiffuseTargetsAt(lines, diffuseName, cameraName, sourceAt, mapLine + 21, mapLine + 23, posX + 1)
  {
  }

  /** Once the lines to write are known, a successful write records what
      the diffuse writes record. */
  lemma DiffuseWriteWrote(lines: seq<string>, diffuseName: string, cameraName: string,
                          cameraExists: bool, cameraIndex: nat, sourceAt: nat, x: int, y: string,
                          mapLine: nat, posX: nat)
    requires DiffuseTargetsAt(lines, diffuseName, cameraName, sourceAt, mapLine + 21, mapLine + 23, posX + 1)
    ensures var w := DiffuseWriteOf(lines, diffuseName, cameraName, cameraExists, cameraIndex, sourceAt, x, y, mapLine, posX);
      w.Ok? ==> DiffuseWrote(lines, diffuseName, cameraName, cameraExists, cameraIndex, sourceAt, x, y, w.value)
  {
  }

  /** With `itemLine` holding the source camera's PosX index and a PosX
      line `posX` after the camera's line, the writes succeed iff every line
      written is in the resaved setup, and fail with IndexError otherwise. */
  lemma WriteDiffuseBounds(g: Globals, lines: seq<string>, diffuseName: string, cameraName: string,
                           cameraExists: bool, cameraIndex: nat, sourceAt: nat, x: int, y: string, posX: nat)
    requires g.itemLine == Some(sourceAt)
    requires FirstMatchFrom(lines, "PosX", LineOf(lines, cameraName, LineOf(lines, diffuseName, sourceAt))) == Some(posX)
    ensures var r := WriteDiffuseStep(g, lines, diffuseName, cameraName, cameraExists, cameraIndex, sourceAt, x, y);
      var mapLine := LineOf(lines, diffuseName, sourceAt);
      (r.Ok? <==> (cameraExists || posX + 2 < |lines|) && mapLine + 23 < |lines|) &&
      (r.Err? ==> r.error == IndexError)
  {
    var mapLine := LineOf(lines, diffuseName, sourceAt);
    WriteDiffuseReaches(g, lines, diffuseName, cameraName, cameraExists, cameraIndex, sourceAt, x, y, mapLine, posX);
  }

  /** In the same setting, a successful write records what the diffuse
      projection says, at the lines it names. */
  lemma WriteDiffuseRecords(g: Globals, lines: seq<string>, diffuseName: string, cameraName: string,
                            cameraExists: bool, cameraIndex: nat, sourceAt: nat, x: int, y: string, posX: nat)
    requires g.itemLine == Some(sourceAt)
    requires FirstMatchFrom(lines, "PosX", LineOf(lines, cameraName, LineOf(lines, diffuseName, sourceAt))) == Some(posX)
    ensures var r := WriteDiffuseStep(g, lines, diffuseName, cameraName, cameraExists, cameraIndex, sourceAt, x, y);
      r.Ok? ==> DiffuseWrote(lines, diffuseName, cameraName, cameraExists, cameraIndex, sourceAt, x, y, r.value.1)
  {
    var mapLine := LineOf(lines, diffuseName, sourceAt);
    WriteDiffuseReaches(g, lines, diffuseName, cameraName, cameraExists, cameraIndex, sourceAt, x, y, mapLine, posX);
    DiffuseTargetsFound(lines, diffuseName, cameraName, sourceAt, posX);
    DiffuseWriteWrote(lines, diffuseName, cameraName, cameraExists, cameraIndex, sourceAt, x, y, mapLine, posX);
  }


  /** Both together: the writes succeed iff every line written is in the
      resaved setup (IndexError otherwise), and write where the diffuse
      projection records and what it records. */
  lemma WriteDiffuseFound(g: Globals, lines: seq<string>, diffuseName: string, cameraName: string,
                          cameraExists: bool, cameraIndex: nat, sourceAt: nat, x: int, y: string, posX: nat)
    requires g.itemLine == Some(sourceAt)
    requires FirstMatchFrom(lines, "PosX", LineOf(lines, cameraName, LineOf(lines, diffuseName, sourceAt))) == Some(posX)
    ensures var r := WriteDiffuseStep(g, lines, diffuseName, cameraName, cameraExists, cameraIndex, sourceAt, x, y);
      var mapLine := LineOf(lines, diffuseName, sourceAt);
      (r.Ok? <==> (cameraExists || posX + 2 < |lines|) && mapLine + 23 < |lines|) &&
      (r.Err? ==> r.error == IndexError) &&
      (r.Ok? ==> DiffuseWrote(lines, diffuseName, cameraName, cameraExists, cameraIndex, sourceAt, x, y, r.value.1))
  {
    WriteDiffuseBounds(g, lines, diffuseName, cameraName, cameraExists, cameraIndex, sourceAt, x, y, posX);
    WriteDiffuseRecords(g, lines, diffuseName, cameraName, cameraExists, cameraIndex, sourceAt, x, y, posX);
  }

  /** With `itemLine` holding the source camera's PosX index, the writes
      succeed iff a PosX line follows the camera's line and every line
      written is in the resaved setup; otherwise IndexError. They write
      where the diffuse projection records and what it records. */
  lemma WriteDiffuseOutcome(g: Globals, lines: seq<string>, diffuseName: string, cameraName: string,
                            cameraExists: bool, cameraIndex: nat, sourceAt: nat, x: int, y: string)
    requires g.itemLine == Some(sourceAt)
    ensures var r := WriteDiffuseStep(g, lines, diffuseName, cameraName, cameraExists, cameraIndex, sourceAt, x, y);
      var mapLine := LineOf(lines, diffuseName, sourceAt);
      var posX := FirstMatchFrom(lines, "PosX", LineOf(lines, cameraName, mapLine));
      (r.Ok? <==> posX.Some? && (cameraExists || posX.value + 2 < |lines|) && mapLine + 23 < |lines|) &&
      (r.Err? ==> r.error == IndexError) &&
      (r.Ok? ==> DiffuseWrote(lines, diffuseName, cameraName, cameraExists, cameraIndex, sourceAt, x, y, r.value.1))
  {
    var posX := FirstMatchFrom(lines, "PosX", LineOf(lines, cameraName, LineOf(lines, diffuseName, sourceAt)));
    if posX.Some? {
      WriteDiffuseFound(g, lines, diffuseName, cameraName, cameraExists, cameraIndex, sourceAt, x, y, posX.value);
    } else {
      DiffuseLinesOf(g.(file := lines), diffuseName, cameraName, sourceAt);
    }
  }

  /** createDiffuseProjection from the scan on, the map named
      `diffuseName`. */
  function PlaceDiffuseStep(g: Globals, inp: DiffuseInput, diffuseName: string): (r: Result<(Globals, DiffusePatch)>)
  {
    var source :- SourceCameraStep(g);
    var camera := DiffuseCamera(inp.cameras, inp.frame);
    WriteDiffuseStep(source.0, inp.resaved, diffuseName, CameraBase(inp.frame), camera.0, camera.1, source.1, source.2, source.3)
  }

  /** createDiffuseProjection(): getResultCamera, then the scan, the reads
      and the writes, the map named by nameDiffuseNode. */
  function DiffuseProjectionStep(g: Globals, inp: DiffuseInput): (r: Result<(Globals, DiffusePatch)>)
  {
    var g1 :- ResultCameraStep(g, inp.saved, inp.cameras);
    PlaceDiffuseStep(g1, inp, UniqueName(DiffuseBase(inp.frame), inp.nodeNames))
  }

  /** createDiffuseProjection from the scan on fails with the scan's
      error, with NameError when the scan settled on no camera, and with
      IndexError when no PosX line follows the line it settled on. */
  lemma PlaceDiffuseFails(g: Globals, inp: DiffuseInput, diffuseName: string)
    ensures var scanned := CameraScan(g.file, 0, 1, g.nodeCameraNameLine);
      var r := PlaceDiffuseStep(g, inp, diffuseName);
      (scanned.Err? ==> r == Err(scanned.error)) &&
      (scanned == Ok(None) ==> r == Err(NameError)) &&
      (scanned.Ok? && scanned.value.Some? && FirstMatchFrom(g.file, "PosX", scanned.value.value).None? ==>
        r == Err(IndexError))
  {
    SourceCameraFails(g);
  }

  /** Once the scan of the saved setup settles on line `start` and a PosX
      line `at` follows it: createDiffuseProjection from the scan on
      succeeds iff the camera's X token is an integer, both lines read have
      a space, a PosX line follows the camera's line in the resaved setup
      and every line written is in it. It fails with ValueError on an X
      that is no integer and with IndexError otherwise; on success it read
      the camera at `at` and wrote what the diffuse writes record. */
  lemma PlaceDiffuseFound(g: Globals, inp: DiffuseInput, diffuseName: string, start: nat, at: nat)
    requires g.file == inp.saved
    requires CameraScan(inp.saved, 0, 1, g.nodeCameraNameLine) == Ok(Some(start))
    requires FirstMatchFrom(inp.saved, "PosX", start) == Some(at)
    ensures var r := PlaceDiffuseStep(g, inp, diffuseName);
      var lines := inp.saved;
      var xOk := LastToken(lines[at]).Ok? && ParseInt(LastToken(lines[at]).value).Some?;
      var readOk := xOk && (at + 1 < |lines| ==> ' ' in lines[at + 1]);
      var camera := DiffuseCamera(inp.cameras, inp.frame);
      var mapLine := LineOf(inp.resaved, diffuseName, at);
      var posX := FirstMatchFrom(inp.resaved, "PosX", LineOf(inp.resaved, CameraBase(inp.frame), mapLine));
      var writeOk := posX.Some? && (camera.0 || posX.value + 2 < |inp.resaved|) && mapLine + 23 < |inp.resaved|;
      (r.Ok? <==> readOk && writeOk) &&
      (r.Err? ==> r.error == (if LastToken(lines[at]).Ok? && !xOk then ValueError else IndexError)) &&
      (r.Ok? ==> SourceRead(lines, g.nodeCameraNameLine, at, r.value.1.sourceX, r.value.1.cameraY) &&
                 DiffuseWrote(inp.resaved, diffuseName, CameraBase(inp.frame), camera.0, camera.1, at,
                              r.value.1.sourceX, r.value.1.cameraY, r.value.1))
  {
    SourceCameraFound(g, start, at);
    var source := SourceCameraStep(g);
    if source.Ok? {
      var camera := DiffuseCamera(inp.cameras, inp.frame);
      WriteDiffuseOutcome(source.value.0, inp.resaved, diffuseName, CameraBase(inp.frame), camera.0, camera.1,
                          at, source.value.2, source.value.3);
    }
  }

  /** Reading the source camera and writing what the diffuse writes
      record, under the names the naming gives, is everything the diffuse
      projection promises. */
  lemma DiffuseWroteDone(inp: DiffuseInput, previous: Option<nat>, p: DiffusePatch)
    requires SourceRead(inp.saved, previous, p.sourceAt, p.sourceX, p.cameraY)
    requires var camera := DiffuseCamera(inp.cameras, inp.frame);
      DiffuseWrote(inp.resaved, UniqueName(DiffuseBase(inp.frame), inp.nodeNames), CameraBase(inp.frame),
                   camera.0, camera.1, p.sourceAt, p.sourceX, p.cameraY, p)
    ensures DiffuseDone(inp, previous, p)
  {
  }

  /** createDiffuseProjection() fails as getResultCamera does when that
      fails. */
  lemma DiffuseProjectionNoResultCamera(g: Globals, inp: DiffuseInput)
    requires ResultCameraStep(g, inp.saved, inp.cameras).Err?
    ensures DiffuseProjectionStep(g, inp) == Err(ResultCameraStep(g, inp.saved, inp.cameras).error)
  {
  }

  /** createDiffuseProjection() end to end, once getResultCamera succeeds:
      it fails with the scan's error, with NameError when the scan settles
      on no camera, and with IndexError when no PosX line follows. */
  lemma DiffuseProjectionFails(g: Globals, inp: DiffuseInput)
    requires ResultCameraStep(g, inp.saved, inp.cameras).Ok?
    ensures var scanned := CameraScan(inp.saved, 0, 1, g.nodeCameraNameLine);
      var r := DiffuseProjectionStep(g, inp);
      (scanned.Err? ==> r == Err(scanned.error)) &&
      (scanned == Ok(None) ==> r == Err(NameError)) &&
      (scanned.Ok? && scanned.value.Some? && FirstMatchFrom(inp.saved, "PosX", scanned.value.value).None? ==>
        r == Err(IndexError))
  {
    var g1 := ResultCameraStep(g, inp.saved, inp.cameras).value;
    PlaceDiffuseFails(g1, inp, UniqueName(DiffuseBase(inp.frame), inp.nodeNames));
  }

  /** createDiffuseProjection() end to end, once getResultCamera succeeds
      and the scan settles on line `start` with a PosX line `at` after it:
      the projection succeeds iff the reads and the writes find what they
      need (ValueError on an X that is no integer, IndexError otherwise),
      and then does everything the diffuse projection promises. */
  lemma DiffuseProjectionFound(g: Globals, inp: DiffuseInput, start: nat, at: nat)
    requires ResultCameraStep(g, inp.saved, inp.cameras).Ok?
    requires CameraScan(inp.saved, 0, 1, g.nodeCameraNameLine) == Ok(Some(start))
    requires FirstMatchFrom(inp.saved, "PosX", start) == Some(at)
    ensures var r := DiffuseProjectionStep(g, inp);
      var lines := inp.saved;
      var xOk := LastToken(lines[at]).Ok? && ParseInt(LastToken(lines[at]).value).Some?;
      var readOk := xOk && (at + 1 < |lines| ==> ' ' in lines[at + 1]);
      var camera := DiffuseCamera(inp.cameras, inp.frame);
      var mapLine := LineOf(inp.resaved, UniqueName(DiffuseBase(inp.frame), inp.nodeNames), at);
      var posX := FirstMatchFrom(inp.resaved, "PosX", LineOf(inp.resaved, CameraBase(inp.frame), mapLine));
      var writeOk := posX.Some? && (camera.0 || posX.value + 2 < |inp.resaved|) && mapLine + 23 < |inp.resaved|;
      (r.Ok? <==> readOk && writeOk) &&
      (r.Err? ==> r.error == (if LastToken(lines[at]).Ok? && !xOk then ValueError else IndexError)) &&
      (r.Ok? ==> DiffuseDone(inp, g.nodeCameraNameLine, r.value.1))
  {
    var g1 := ResultCameraStep(g, inp.saved, inp.cameras).value;
    var r := DiffuseProjectionStep(g, inp);
    assert r == PlaceDiffuseStep(g1, inp, UniqueName(DiffuseBase(inp.frame), inp.nodeNames));
    PlaceDiffuseFound(g1, inp, UniqueName(DiffuseBase(inp.frame), inp.nodeNames), start, at);
    if r.Ok? {
      DiffuseWroteDone(inp, g.nodeCameraNameLine, r.value.1);
    }
  }

  // ------------------------------------------------------------ the script

  /** The module globals and the setup file on disk, updated as the
      script's functions update them. */
  class ActionScript {
    var file: seq<string>
    var itemLine: Option<nat>
    var itemValue: Option<string>
    var childNum: int
    var cameraParentName: Option<string>
    var nodeCameraNameLine: Option<nat>

    function State(): Globals
      reads this
    {
      Globals(file, itemLine, itemValue, childNum, cameraParentName, nodeCameraNameLine)
    }

    /** A session on a saved setup, in which no global has been assigned
        yet (`childNum` is always assigned before it is read). */
    constructor (setup: seq<string>)
      ensures State() == Globals(setup, None, None, 0, None, None)
    {
      file := setup;
      itemLine := None;
      itemValue := None;
      childNum := 0;
      cameraParentName := None;
      nodeCameraNameLine := None;
    }

    /** findLine */
    method FindLine(item: string)
      modifies this`itemLine
      ensures State() == FindLineStep(old(State()), item)
    {
      var num := 1;
      while num <= |file|
        invariant 1 <= num <= |file| + 1
        invariant FirstMatchFrom(file, item, 0) == FirstMatchFrom(file, item, num - 1)
        invariant itemLine == old(itemLine)
      {
        if Contains(file[num - 1], item) {
          itemLine := Some(num);
          return;
        }
        num := num + 1;
      }
    }

    /** findLineLoop; its recursion on the next index is a loop here. */
    method FindLineLoop(item: string, k: nat) returns (s: Status)
      modifies this`itemLine
      ensures Agrees(s, FindLineLoopStep(old(State()), item, k))
      ensures s.Done? ==> State() == FindLineLoopStep(old(State()), item, k).value
    {
      var n := k;
      while n < |file|
        invariant k <= n
        invariant FirstMatchFrom(file, item, k) == FirstMatchFrom(file, item, n)
        decreases |file| - n
      {
        if Contains(file[n], item) {
          itemLine := Some(n);
          return Done;
        }
        n := n + 1;
      }
      s := Fail(IndexError);
    }

    /** getLineValue */
    method GetLineValue(n: int) returns (s: Status)
      modifies this`itemValue
      ensures Agrees(s, GetLineValueStep(old(State()), n))
      ensures s.Done? ==> State() == GetLineValueStep(old(State()), n).value
      ensures s.Done? && 1 <= n <= |file| ==> itemValue.Some? && LastToken(file[n - 1]) == Ok(itemValue.value)
      ensures s.Done? && !(1 <= n <= |file|) ==> itemValue == old(itemValue)
    {
      var num := 1;
      while num <= |file|
        invariant 1 <= num <= |file| + 1
        invariant 1 <= n <= |file| ==> num <= n
        invariant itemValue == old(itemValue)
      {
        if num == n {
          var parts := RSplitOnce(file[num - 1], ' ');
          if |parts| < 2 {
            return Fail(IndexError);
          }
          itemValue := Some(parts[1]);
          return Done;
        }
        num := num + 1;
      }
      s := Done;
    }

    /** findParent; its recursion on the previous line is a loop here. */
    method FindParent() returns (s: Status)
      modifies this`childNum, this`cameraParentName
      ensures Agrees(s, ParentScan(file, old(childNum)))
      ensures s.Done? ==> ParentScan(file, old(childNum)) == Ok((childNum, cameraParentName))
    {
      var lines := file;
      ghost var goal := ParentScan(lines, childNum);
      while true
        invariant ParentScan(lines, childNum) == goal
        decreases childNum + |lines|
      {
        var at := PyIndex(|lines|, childNum);
        if at.None? {
          assert ParentScan(lines, childNum) == Err(IndexError);
          return Fail(IndexError);
        }
        var line := lines[at.value];
        if Contains(line, "Name") {
          var parts := RSplitOnce(line, ' ');
          if |parts| < 2 {
            assert ParentScan(lines, childNum) == Err(IndexError);
            return Fail(IndexError);
          }
          assert ParentScan(lines, childNum) == Ok((childNum, ParentName(parts[1])));
          cameraParentName := ParentName(parts[1]);
          return Done;
        }
        assert ParentScan(lines, childNum) == ParentScan(lines, childNum - 1);
        childNum := childNum - 1;
      }
    }

    /** findLine(item) then getLineValue(itemLine + offset). */
    method ValueAfter(item: string, offset: nat) returns (s: Status, value: string)
      modifies this`itemLine, this`itemValue
      ensures Agrees(s, ValueAfterStep(old(State()), item, offset))
      ensures s.Done? ==>
        State() == ValueAfterStep(old(State()), item, offset).value.0 && value == ValueAfterStep(old(State()), item, offset).value.1
    {
      value := "";
      FindLine(item);
      if itemLine.None? {
        return Fail(NameError), "";
      }
      s := GetLineValue(itemLine.value + offset);
      if s.Fail? {
        return;
      }
      if itemValue.None? {
        return Fail(NameError), "";
      }
      value := itemValue.value;
    }

    /** The end of getResultCamera, from the camera's number. */
    method ChildParent(number: string) returns (s: Status)
      modifies this`itemLine, this`childNum, this`cameraParentName
      ensures Agrees(s, ChildParentStep(old(State()), number))
      ensures s.Done? ==> State() == ChildParentStep(old(State()), number).value
    {
      FindLine("Child " + number);
      if itemLine.None? {
        return Fail(NameError);
      }
      childNum := itemLine.value;
      s := FindParent();
    }

    /** getResultCamera: `saved` is the setup the host writes. */
    method GetResultCamera(saved: seq<string>, cameras: seq<string>) returns (s: Status)
      modifies this
      ensures Agrees(s, ResultCameraStep(old(State()), saved, cameras))
      ensures s.Done? ==> State() == ResultCameraStep(old(State()), saved, cameras).value
    {
      file := saved;
      var channel;
      s, channel := ValueAfter("ResultCamChannel", 3);
      if s.Fail? {
        return;
      }
      var n := ToInt(channel);
      if n.Err? {
        return Fail(n.error);
      }
      var camera := CameraAt(cameras, ResultCameraIndex(n.value, cameras));
      if camera.Err? {
        return Fail(camera.error);
      }
      var number;
      s, number := ValueAfter(camera.value, 1);
      if s.Fail? {
        return;
      }
      s := ChildParent(number);
    }

    /** findLine(name) followed by findLineLoop('PosX', itemLine). */
    method PosXLine(name: string) returns (s: Status, at: nat)
      modifies this`itemLine
      ensures Agrees(s, PosXLineStep(old(State()), name))
      ensures s.Done? ==> PosXLineStep(old(State()), name).value == (State(), at)
      ensures s.Done? ==> PosXTarget(file, name, at)
    {
      at := 0;
      FindLine(name);
      if itemLine.None? {
        return Fail(NameError), 0;
      }
      s := FindLineLoop("PosX", itemLine.value);
      if s.Fail? {
        return;
      }
      at := itemLine.value + 1;
    }

    /** The 'Node Projector' loop and the two reads of the last block. */
    method ReadProjectorBase() returns (s: Status, found: bool, x: string, y: string)
      modifies this`itemValue
      ensures Agrees(s, ProjectorBaseStep(old(State())))
      ensures s.Done? ==> ProjectorBaseStep(old(State())).value == (State(), found, x, y)
      ensures found <==> LastMatch(file, "Node Projector").Some?
      ensures s.Done? && found && LastMatch(file, "Node Projector").value + 9 <= |file| ==>
        var i := LastMatch(file, "Node Projector").value;
        LastToken(file[i + 7]) == Ok(x) && LastToken(file[i + 8]) == Ok(y) && itemValue == Some(y)
      ensures !found ==> s.Done? && itemValue == old(itemValue)
    {
      x, y := "", "";
      var blockX, blockY := ProjectorBlockLines(file);
      found := blockX != 0;
      if !found {
        return Done, found, x, y;
      }
      s := GetLineValue(blockX);
      if s.Fail? {
        return;
      }
      if itemValue.None? {
        return Fail(NameError), found, x, y;
      }
      x := itemValue.value;
      s := GetLineValue(blockY);
      if s.Fail? {
        return;
      }
      if itemValue.None? {
        return Fail(NameError), found, x, y;
      }
      y := itemValue.value;
    }

    /** The geometry's (for a Surface or a Geom), the projector's and the
        camera's PosX lines in the re-saved setup. */
    method FindTargets(geo: Node, projectorName: string, cameraName: string)
      returns (s: Status, geoLine: nat, projectorAt: nat, cameraAt: nat)
      modifies this`itemLine
      ensures Agrees(s, TargetsStep(old(State()), geo, projectorName, cameraName))
      ensures s.Done? ==> TargetsStep(old(State()), geo, projectorName, cameraName).value == (State(), geoLine, projectorAt, cameraAt)
      ensures s.Done? ==> Targets(file, projectorName, cameraName, projectorAt, cameraAt)
      ensures s.Done? && IsGeo(geo) ==> PosXTarget(file, "Name " + geo.name, geoLine)
    {
      geoLine, projectorAt, cameraAt := 0, 0, 0;
      if IsGeo(geo) {
        s, geoLine := PosXLine("Name " + geo.name);
        if s.Fail? {
          return;
        }
      }
      s, projectorAt := PosXLine(projectorName);
      if s.Fail? {
        return;
      }
      s, cameraAt := PosXLine(cameraName);
    }

    /** The two getLineValue reads of a node's position, from its 1-based
        PosX line `n`. */
    method ReadPosition(n: nat) returns (s: Status, x: string, y: string)
      modifies this`itemValue
      ensures Agrees(s, PositionStep(old(State()), n))
      ensures s.Done? ==> PositionStep(old(State()), n).value == (State(), x, y)
      ensures s.Done? && 1 <= n < |file| ==> LastToken(file[n - 1]) == Ok(x) && LastToken(file[n]) == Ok(y)
    {
      x, y := "", "";
      s := GetLineValue(n);
      if s.Fail? {
        return;
      }
      if itemValue.None? {
        return Fail(NameError), x, y;
      }
      x := itemValue.value;
      s := GetLineValue(n + 1);
      if s.Fail? {
        return;
      }
      if itemValue.None? {
        return Fail(NameError), x, y;
      }
      y := itemValue.value;
    }

    /** The searches, then the geometry's position. A last selected node
        that is not geometry leaves `geoPosXLineNum` unset (NameError). */
    method Locate(geo: Node, projectorName: string, cameraName: string)
      returns (s: Status, geoLine: nat, projectorAt: nat, cameraAt: nat, geoX: string, geoY: string)
      modifies this`itemLine, this`itemValue
      ensures Agrees(s, LocateStep(old(State()), geo, projectorName, cameraName))
      ensures s.Done? ==> LocateStep(old(State()), geo, projectorName, cameraName).value == (State(), geoLine, projectorAt, cameraAt, geoX, geoY)
      ensures !IsGeo(geo) ==> s.Fail?
      ensures s.Done? ==> Targets(file, projectorName, cameraName, projectorAt, cameraAt)
      ensures s.Done? ==> PosXTarget(file, "Name " + geo.name, geoLine) && GeoBaseRead(file, true, geoLine, geoX, geoY)
    {
      geoX, geoY := "", "";
      s, geoLine, projectorAt, cameraAt := FindTargets(geo, projectorName, cameraName);
      if s.Fail? {
        return;
      }
      if !IsGeo(geo) {
        return Fail(NameError), geoLine, projectorAt, cameraAt, geoX, geoY;
      }
      s, geoX, geoY := ReadPosition(geoLine);
    }

    /** createCameraProjection from the projector's naming on: read the
        base position, locate the lines to patch, compute and write the new
        positions. */
    method PlaceCamera(inp: CameraInput, projectorName: string, cameraName: string) returns (r: Result<CameraPatch>)
      requires file == inp.saved
      modifies this`file, this`itemLine, this`itemValue
      ensures Yields(r, PlaceCameraStep(old(State()), inp, projectorName, cameraName))
      ensures r.Ok? ==> State() == PlaceCameraStep(old(State()), inp, projectorName, cameraName).value.0
      ensures (|inp.selection| == 0 || !IsGeo(inp.selection[|inp.selection| - 1])) ==> r.Err?
      ensures r.Ok? ==> file == r.value.contents && r.value.cameraName == cameraName
      ensures r.Ok? ==> r.value.projectorName == projectorName
      ensures r.Ok? ==> BaseRead(inp, r.value)
      ensures r.Ok? ==> TargetsFound(inp.resaved, r.value)
      ensures r.Ok? ==> PositionsOffset(r.value)
      ensures r.Ok? ==> Patched(inp.resaved, r.value)
    {
      var fromProjector, nodeX, nodeY;
      var st;
      st, fromProjector, nodeX, nodeY := ReadProjectorBase();
      if st.Fail? {
        return Err(st.error);
      }
      assert ProjectorBaseRead(inp.saved, fromProjector, nodeX, nodeY);
      file := inp.resaved;
      if |inp.selection| == 0 {
        return Err(NameError);
      }
      var geoLine, projectorAt, cameraAt, geoX, geoY;
      st, geoLine, projectorAt, cameraAt, geoX, geoY := Locate(inp.selection[|inp.selection| - 1], projectorName, cameraName);
      if st.Fail? {
        return Err(st.error);
      }
      assert Targets(inp.resaved, projectorName, cameraName, projectorAt, cameraAt);
      assert GeoBaseRead(inp.resaved, true, geoLine, geoX, geoY);
      r := PatchedCamera(inp.resaved, cameraName, projectorName, fromProjector, nodeX, nodeY, geoLine, geoX, geoY, projectorAt, cameraAt);
      if r.Ok? {
        file := r.value.contents;
      }
    }

    /** createCameraProjection(), the host calls replaced by `inp`: find the
        result camera's parent, name the new camera and projector, and place
        both next to the selected geometry (or the last projector). The
        patched setup is written back over the file. */
    method CreateCameraProjection(inp: CameraInput) returns (r: Result<CameraPatch>)
      modifies this
      ensures Yields(r, CameraProjectionStep(old(State()), inp))
      ensures r.Ok? ==> State() == CameraProjectionStep(old(State()), inp).value.0
      ensures ResultCameraStep(old(State()), inp.saved, inp.cameras).Err? ==>
        r == Err(ResultCameraStep(old(State()), inp.saved, inp.cameras).error)
      ensures (|inp.selection| == 0 || !IsGeo(inp.selection[|inp.selection| - 1])) ==> r.Err?
      ensures r.Ok? ==> ResultCameraStep(old(State()), inp.saved, inp.cameras).Ok?
      ensures r.Ok? ==> cameraParentName == ResultCameraStep(old(State()), inp.saved, inp.cameras).value.cameraParentName
      ensures r.Ok? ==> file == r.value.contents
      ensures r.Ok? ==> r.value.cameraName == UniqueName(CameraBase(inp.frame), ["null camera"] + inp.cameras)
      ensures r.Ok? ==> r.value.projectorName == UniqueName(ProjectorBase(inp.frame), inp.nodeNames)
      ensures r.Ok? ==> BaseRead(inp, r.value) && TargetsFound(inp.resaved, r.value)
      ensures r.Ok? ==> PositionsOffset(r.value) && Patched(inp.resaved, r.value)
    {
      var st := GetResultCamera(inp.saved, inp.cameras);
      if st.Fail? {
        return Err(st.error);
      }
      var cameraName := UniqueName(CameraBase(inp.frame), ["null camera"] + inp.cameras);
      var projectorName := UniqueName(ProjectorBase(inp.frame), inp.nodeNames);
      r := PlaceCamera(inp, projectorName, cameraName);
    }

    /** The two getLineValue reads after the scanned camera's PosX line
        `at` (0-based): its X as `int(...)` and its Y token. */
    method ReadSourceValues(at: nat) returns (s: Status, x: int, y: string)
      modifies this`itemValue
      ensures Agrees(s, SourceValuesStep(old(State()), at))
      ensures s.Done? ==> SourceValuesStep(old(State()), at).value == (State(), x, y)
    {
      x, y := 0, "";
      s := GetLineValue(at + 1);
      if s.Fail? {
        return;
      }
      if itemValue.None? {
        return Fail(NameError), x, y;
      }
      var n := ToInt(itemValue.value);
      if n.Err? {
        return Fail(n.error), x, y;
      }
      x := n.value;
      s := GetLineValue(at + 2);
      if s.Fail? {
        return;
      }
      if itemValue.None? {
        return Fail(NameError), x, y;
      }
      y := itemValue.value;
    }

    /** The 'Node Camera' scan of the saved setup, then findLineLoop('PosX')
        from the line it settles on and the two getLineValue reads after it:
        the camera's X as `int(...)` and its Y token. */
    method ReadSourceCamera() returns (s: Status, sourceAt: nat, x: int, y: string)
      modifies this`nodeCameraNameLine, this`itemLine, this`itemValue
      ensures Agrees(s, SourceCameraStep(old(State())))
      ensures s.Done? ==> SourceCameraStep(old(State())).value == (State(), sourceAt, x, y)
      ensures CameraScan(file, 0, 1, old(nodeCameraNameLine)).Err? ==> s == Fail(CameraScan(file, 0, 1, old(nodeCameraNameLine)).error)
      ensures CameraScan(file, 0, 1, old(nodeCameraNameLine)) == Ok(None) ==> s == Fail(NameError)
      ensures s.Done? ==> SourceRead(file, old(nodeCameraNameLine), sourceAt, x, y) && itemLine == Some(sourceAt)
    {
      sourceAt, x, y := 0, 0, "";
      ghost var g := State();
      var scanned := ScanNodeCameras(file, nodeCameraNameLine);
      if scanned.Err? {
        return Fail(scanned.error), 0, 0, "";
      }
      nodeCameraNameLine := scanned.value;
      if scanned.value.None? {
        return Fail(NameError), 0, 0, "";
      }
      s := FindLineLoop("PosX", scanned.value.value);
      if s.Fail? {
        return;
      }
      sourceAt := itemLine.value;
      s, x, y := ReadSourceValues(sourceAt);
      if s.Done? {
        SourceCameraFound(g, scanned.value.value, sourceAt);
      }
    }

    /** createDiffuseProjection from the scan on: read the source camera,
        then name the map and patch the resaved setup. */
    method PlaceDiffuse(inp: DiffuseInput) returns (r: Result<DiffusePatch>)
      requires file == inp.saved
      modifies this`file, this`itemLine, this`itemValue, this`nodeCameraNameLine
      ensures Yields(r, PlaceDiffuseStep(old(State()), inp, UniqueName(DiffuseBase(inp.frame), inp.nodeNames)))
      ensures r.Ok? ==> State() == PlaceDiffuseStep(old(State()), inp, UniqueName(DiffuseBase(inp.frame), inp.nodeNames)).value.0
      ensures CameraScan(inp.saved, 0, 1, old(nodeCameraNameLine)).Err? ==> r == Err(CameraScan(inp.saved, 0, 1, old(nodeCameraNameLine)).error)
      ensures CameraScan(inp.saved, 0, 1, old(nodeCameraNameLine)) == Ok(None) ==> r == Err(NameError)
      ensures r.Ok? ==> file == r.value.contents
      ensures r.Ok? ==> DiffuseDone(inp, old(nodeCameraNameLine), r.value)
    {
      ghost var previous := nodeCameraNameLine;
      var st, sourceAt, x, y := ReadSourceCamera();
      if st.Fail? {
        return Err(st.error);
      }
      assert SourceRead(inp.saved, previous, sourceAt, x, y);
      r := WriteDiffuse(inp, UniqueName(DiffuseBase(inp.frame), inp.nodeNames), sourceAt, x, y);
      if r.Ok? {
        assert DiffuseDone(inp, previous, r.value);
      }
    }

    /** The rest of createDiffuseProjection once the source camera is read:
        reuse or create `frame_<frame>` 200 right of it, name the map, then
        find and write the lines in the resaved setup, the map named
        `diffuseName`. `itemLine` still holds the source camera's PosX
        index. */
    method WriteDiffuse(inp: DiffuseInput, diffuseName: string, sourceAt: nat, x: int, y: string) returns (r: Result<DiffusePatch>)
      requires itemLine == Some(sourceAt)
      modifies this`file, this`itemLine
      ensures var camera := DiffuseCamera(inp.cameras, inp.frame);
        Yields(r, WriteDiffuseStep(old(State()), inp.resaved, diffuseName, CameraBase(inp.frame), camera.0, camera.1, sourceAt, x, y))
      ensures var camera := DiffuseCamera(inp.cameras, inp.frame);
        r.Ok? ==> State() == WriteDiffuseStep(old(State()), inp.resaved, diffuseName, CameraBase(inp.frame), camera.0, camera.1, sourceAt, x, y).value.0
      ensures r.Ok? ==> file == r.value.contents
      ensures r.Ok? ==> r.value.sourceAt == sourceAt && r.value.sourceX == x && r.value.cameraY == y
      ensures r.Ok? ==> r.value.cameraName == CameraBase(inp.frame)
      ensures r.Ok? ==> (r.value.cameraExists, r.value.cameraIndex) == DiffuseCamera(inp.cameras, inp.frame)
      ensures r.Ok? ==> r.value.cameraX == IntToStr(x + 200)
      ensures r.Ok? ==> r.value.diffuseName == diffuseName
      ensures r.Ok? ==> DiffuseTargets(inp.resaved, r.value) && DiffusePatched(inp.resaved, r.value)
    {
      ghost var g := State();
      var camera := DiffuseCamera(inp.cameras, inp.frame);
      var cameraName := CameraBase(inp.frame);
      var lines := inp.resaved;
      file := lines;
      var st, mapLine, posX := FindDiffuseLines(diffuseName, cameraName);
      if st.Fail? {
        return Err(st.error);
      }
      r := WriteDiffuseLines(lines, diffuseName, cameraName, camera.0, camera.1, sourceAt, x, y, mapLine, posX);
      if r.Ok? {
        file := r.value.contents;
      }
      WriteDiffuseOutcome(g, lines, diffuseName, cameraName, camera.0, camera.1, sourceAt, x, y);
    }

    /** The diffuse writes, the lines found. */
    method WriteDiffuseLines(lines: seq<string>, diffuseName: string, cameraName: string,
                             cameraExists: bool, cameraIndex: nat, sourceAt: nat, x: int, y: string,
                             mapLine: nat, posX: nat) returns (r: Result<DiffusePatch>)
      ensures r == DiffuseWriteOf(lines, diffuseName, cameraName, cameraExists, cameraIndex, sourceAt, x, y, mapLine, posX)
    {
      var cameraX := Shifted(x, 200);
      var contents := PatchDiffuse(lines, cameraExists, posX + 1, cameraX, y, mapLine + 21, mapLine + 23, cameraIndex);
      if contents.Err? {
        return Err(contents.error);
      }
      r := Ok(DiffusePatch(cameraName, cameraExists, cameraIndex, diffuseName, sourceAt, x, posX + 1,
                           mapLine + 21, mapLine + 23, cameraX, y, contents.value));
    }

    /** The searches of the diffuse writes: findLine on the map's name,
        findLine on the camera's name, findLineLoop('PosX') from there. */
    method FindDiffuseLines(diffuseName: string, cameraName: string) returns (s: Status, mapLine: nat, posX: nat)
      modifies this`itemLine
      ensures Agrees(s, DiffuseLinesStep(old(State()), diffuseName, cameraName))
      ensures s.Done? ==> DiffuseLinesStep(old(State()), diffuseName, cameraName).value == (State(), mapLine, posX)
    {
      mapLine, posX := 0, 0;
      FindLine(diffuseName);
      if itemLine.None? {
        return Fail(NameError), mapLine, posX;
      }
      mapLine := itemLine.value;
      FindLine(cameraName);
      if itemLine.None? {
        return Fail(NameError), mapLine, posX;
      }
      s := FindLineLoop("PosX", itemLine.value);
      if s.Fail? {
        return;
      }
      posX := itemLine.value;
    }

    /** createDiffuseProjection(), the host calls replaced by `inp`: find the
        result camera's parent, then project the map through `frame_<frame>`
        placed 200 right of the scanned camera. The patched setup is
        written back over the file. */
    method CreateDiffuseProjection(inp: DiffuseInput) returns (r: Result<DiffusePatch>)
      modifies this
      ensures Yields(r, DiffuseProjectionStep(old(State()), inp))
      ensures r.Ok? ==> State() == DiffuseProjectionStep(old(State()), inp).value.0
      ensures ResultCameraStep(old(State()), inp.saved, inp.cameras).Err? ==>
        r == Err(ResultCameraStep(old(State()), inp.saved, inp.cameras).error)
      ensures ResultCameraStep(old(State()), inp.saved, inp.cameras).Ok? ==>
        (CameraScan(inp.saved, 0, 1, old(nodeCameraNameLine)).Err? ==> r == Err(CameraScan(inp.saved, 0, 1, old(nodeCameraNameLine)).error))
      ensures r.Ok? ==> ResultCameraStep(old(State()), inp.saved, inp.cameras).Ok?
      ensures r.Ok? ==> cameraParentName == ResultCameraStep(old(State()), inp.saved, inp.cameras).value.cameraParentName
      ensures r.Ok? ==> file == r.value.contents
      ensures r.Ok? ==> DiffuseDone(inp, old(nodeCameraNameLine), r.value)
    {
      ghost var previous := nodeCameraNameLine;
      var st := GetResultCamera(inp.saved, inp.cameras);
      if st.Fail? {
        return Err(st.error);
      }
      assert nodeCameraNameLine == previous;
      r := PlaceDiffuse(inp);
    }
  }
}
