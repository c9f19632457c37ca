/** The Logik Matchbox installer: its version strings, the three-line config
    file that remembers the install path (default, save, load), the tar
    command it starts, and the decision it takes after extraction. The
    config folder and file are modelled as a small store; the download, the
    extraction, the sleep and the dialogs are not. */
module LogikInstaller {
  import opened Py

  const Version: string := "v1_3"

  /** `VERSION.replace('_', '.')` */
  function DotVersion(): (r: string)
    ensures r == "v1.3"
  {
    ReplaceChar(Version, '_', '.')
  }

  function ConfigPath(): string {
    "/opt/Autodesk/shared/python/pyFlame/logik_installer_" + Version + "/Config"
  }

  /** `os.path.join(CONFIG_PATH, 'config')` */
  function ConfigFile(): (r: string)
    ensures r == ConfigPath() + "/config"
  {
    PathJoin(ConfigPath(), "config")
  }

  const ConfigTitle: string := "Setup values for pyFlame Logik Installer script."
  const InstallPathLabel: string := "Install Path:"
  const DefaultInstallPath: string := "/opt/Autodesk"

  // ---------------------------------------------------------------- config text

  /** `xs.insert(i, x)`: an index past the end appends. */
  function Insert<T>(xs: seq<T>, i: nat, x: T): (r: seq<T>)
    ensures |r| == |xs| + 1
    ensures i <= |xs| ==> r[i] == x && r[..i] == xs[..i] && r[i + 1..] == xs[i..]
    ensures i > |xs| ==> r == xs + [x]
  {
    if i <= |xs| then xs[..i] + [x] + xs[i..] else xs + [x]
  }

  /** The list `create_default_config_file` and `save_config_file` build. */
  method ConfigLines(installPath: string) returns (configText: seq<string>)
    ensures configText == [ConfigTitle, InstallPathLabel, installPath]
  {
    configText := [];
    configText := Insert(configText, 0, ConfigTitle);
    configText := Insert(configText, 1, InstallPathLabel);
    configText := Insert(configText, 2, installPath);
  }

  /** What `print >>out_file, line` leaves in the file for each line in turn. */
  function Written(lines: seq<string>): (text: string)
    decreases |lines|
  {
    if |lines| == 0 then "" else lines[0] + "\n" + Written(lines[1..])
  }

  /** Writing one more line adds that line and a newline at the end. */
  lemma {:induction false} WrittenSnoc(lines: seq<string>, line: string)
    ensures Written(lines + [line]) == Written(lines) + line + "\n"
    decreases |lines|
  {
    if |lines| == 0 {
      assert lines + [line] == [line] && [line][1..] == [];
      assert line + "\n" + "" == "" + line + "\n";
    } else {
      assert (lines + [line])[1..] == lines[1..] + [line];
      WrittenSnoc(lines[1..], line);
      var w := Written(lines[1..]);
      assert lines[0] + "\n" + (w + line + "\n") == lines[0] + "\n" + w + line + "\n";
    }
  }

  /** Writes the lines one by one. */
  method WriteLines(lines: seq<string>) returns (text: string)
    ensures text == Written(lines)
  {
    text := "";
    var i := 0;
    while i < |lines|
      invariant 0 <= i <= |lines|
      invariant text == Written(lines[..i])
    {
      WrittenSnoc(lines[..i], lines[i]);
      assert lines[..i] + [lines[i]] == lines[..i + 1];
      text := text + lines[i] + "\n";
      i := i + 1;
    }
    assert lines[..i] == lines;
  }

  /** The file text the config functions write for an install path. */
  function ConfigText(installPath: string): string {
    Written([ConfigTitle, InstallPathLabel, installPath])
  }

  predicate IsLineBreak(c: char) { c == '\n' || c == '\r' }

  predicate NoLineBreak(s: string) { '\n' !in s && '\r' !in s }

  /** Index of the first line break, or the length when there is none. */
  function BreakIndex(s: string): (i: nat)
    ensures i <= |s| && NoLineBreak(s[..i])
    ensures i < |s| ==> IsLineBreak(s[i])
    decreases |s|
  {
    if |s| == 0 then 0
    else if IsLineBreak(s[0]) then 0
    else
      var i := BreakIndex(s[1..]);
      assert s[..i + 1] == [s[0]] + s[1..][..i];
      i + 1
  }

  /** `str.splitlines()` on a byte string: lines end at "\n", "\r" or "\r\n";
      a final line break adds no empty line. */
  function SplitLines(s: string): (r: seq<string>)
    ensures |s| == 0 <==> |r| == 0
    decreases |s|
  {
    if |s| == 0 then []
    else
      var i := BreakIndex(s);
      var rest := if i == |s| then ""
                  else if s[i] == '\r' && i + 1 < |s| && s[i + 1] == '\n' then s[i + 2..]
                  else s[i + 1..];
      [s[..i]] + SplitLines(rest)
  }

  lemma BreakIndexOf(line: string, rest: string)
    requires NoLineBreak(line)
    ensures BreakIndex(line + "\n" + rest) == |line|
    decreases |line|
  {
    if |line| > 0 {
      assert (line + "\n" + rest)[1..] == line[1..] + "\n" + rest;
      BreakIndexOf(line[1..], rest);
    }
  }

  /** A line without a break is split off the front of the text. */
  lemma SplitLinesCons(line: string, rest: string)
    requires NoLineBreak(line)
    ensures SplitLines(line + "\n" + rest) == [line] + SplitLines(rest)
  {
    var s := line + "\n" + rest;
    BreakIndexOf(line, rest);
    assert s[|line|] == '\n' && s[..|line|] == line && s[|line| + 1..] == rest;
  }

  /** Lines free of line breaks read back as they were written. */
  lemma {:induction false} SplitWritten(lines: seq<string>)
    requires forall k :: 0 <= k < |lines| ==> NoLineBreak(lines[k])
    ensures SplitLines(Written(lines)) == lines
    decreases |lines|
  {
    if |lines| > 0 {
      SplitLinesCons(lines[0], Written(lines[1..]));
      assert forall k :: 0 <= k < |lines[1..]| ==> lines[1..][k] == lines[k + 1];
      SplitWritten(lines[1..]);
      assert lines == [lines[0]] + lines[1..];
    }
  }

  /** `read().splitlines()[2]`: IndexError when the file has fewer than three lines. */
  function LoadText(text: string): (r: Result<string>)
    ensures r.Ok? <==> |SplitLines(text)| >= 3
    ensures r.Ok? ==> r.value == SplitLines(text)[2]
  {
    var values := SplitLines(text);
    if |values| < 3 then Err(IndexError) else Ok(values[2])
  }

  lemma NoLineBreakJoin(a: string, b: string)
    requires NoLineBreak(a) && NoLineBreak(b)
    ensures NoLineBreak(a + b)
  {
    assert forall c :: c in a + b ==> c in a || c in b;
  }

  lemma TitlePieces()
    ensures ConfigTitle == "Setup values" + " for pyFlame" + (" Logik Insta" + "ller script.")
  {
  }

  /** The first two config lines hold no line break. */
  lemma HeaderLines()
    ensures NoLineBreak(ConfigTitle) && NoLineBreak(InstallPathLabel)
  {
    TitlePieces();
    assert NoLineBreak("Setup values") && NoLineBreak(" for pyFlame");
    NoLineBreakJoin("Setup values", " for pyFlame");
    assert NoLineBreak(" Logik Insta") && NoLineBreak("ller script.");
    NoLineBreakJoin(" Logik Insta", "ller script.");
    NoLineBreakJoin("Setup values" + " for pyFlame", " Logik Insta" + "ller script.");
    assert NoLineBreak(InstallPathLabel);
  }

  /** Saving then loading gives back the install path, when it holds no line break. */
  lemma SaveLoad(installPath: string)
    requires NoLineBreak(installPath)
    ensures LoadText(ConfigText(installPath)) == Ok(installPath)
  {
    HeaderLines();
    SplitWritten([ConfigTitle, InstallPathLabel, installPath]);
  }

  /** The default config loads as "/opt/Autodesk". */
  lemma DefaultLoads()
    ensures LoadText(ConfigText(DefaultInstallPath)) == Ok("/opt/Autodesk")
  {
    SaveLoad(DefaultInstallPath);
  }

  /** Writing a line that holds "\n" writes the same text as writing its two
      halves as lines of their own. */
  lemma {:induction false} WrittenBreak(prefix: seq<string>, first: string, second: string)
    ensures Written(prefix + [first + "\n" + second]) == Written(prefix + [first, second])
    decreases |prefix|
  {
    if |prefix| == 0 {
      assert prefix + [first + "\n" + second] == [first + "\n" + second];
      assert prefix + [first, second] == [first, second];
      assert [first, second][1..] == [second];
      assert [second][1..] == [] && [first + "\n" + second][1..] == [];
      assert (first + "\n" + second) + "\n" + "" == first + "\n" + (second + "\n" + "");
    } else {
      assert (prefix + [first + "\n" + second])[1..] == prefix[1..] + [first + "\n" + second];
      assert (prefix + [first, second])[1..] == prefix[1..] + [first, second];
      WrittenBreak(prefix[1..], first, second);
    }
  }

  /** A path with a line break does not survive: only its first line is read back. */
  lemma BrokenPathTruncated(first: string, second: string)
    requires NoLineBreak(first) && NoLineBreak(second)
    ensures LoadText(ConfigText(first + "\n" + second)) == Ok(first)
  {
    var header := [ConfigTitle, InstallPathLabel];
    HeaderLines();
    WrittenBreak(header, first, second);
    assert header + [first + "\n" + second] == [ConfigTitle, InstallPathLabel, first + "\n" + second];
    SplitWritten(header + [first, second]);
  }

  // ---------------------------------------------------------------- config store

  /** The config folder and the content of the config file in it. */
  class ConfigStore {
    var dirExists: bool
    var file: Option<string>

    /** A file can only exist inside an existing folder. */
    predicate Valid()
      reads this
    {
      file.Some? ==> dirExists
    }

    constructor(dirExists: bool, file: Option<string>)
      requires file.Some? ==> dirExists
      ensures Valid() && this.dirExists == dirExists && this.file == file
    {
      this.dirExists := dirExists;
      this.file := file;
    }

    /** Opens the config file for writing and writes the lines: IOError when
        the folder is missing. */
    method WriteConfig(installPath: string) returns (s: Status)
      modifies this`file
      ensures dirExists ==> s == Done && file == Some(ConfigText(installPath))
      ensures !dirExists ==> s == Fail(IOError) && file == old(file)
    {
      if !dirExists {
        return Fail(IOError);
      }
      var configText := ConfigLines(installPath);
      var text := WriteLines(configText);
      file := Some(text);
      s := Done;
    }

    /** `check_for_config_file`: creates the folder and a default file only
        when they are missing. */
    method CheckForConfigFile()
      requires Valid()
      modifies this
      ensures Valid() && dirExists && file.Some?
      ensures old(file).Some? ==> file == old(file)
      ensures old(file).None? ==> file == Some(ConfigText(DefaultInstallPath))
    {
      if !dirExists {
        dirExists := true;
        var s := WriteConfig(DefaultInstallPath);
      } else if file.None? {
        var s := WriteConfig(DefaultInstallPath);
      }
    }

    /** `load_config_file`: the install path of an existing config, or of the
        default one it writes first. */
    method LoadConfigFile() returns (r: Result<string>)
      requires Valid()
      modifies this
      ensures Valid() && dirExists
      ensures old(file).Some? ==> file == old(file) && r == LoadText(old(file).value)
      ensures old(file).None? ==> file == Some(ConfigText(DefaultInstallPath)) && r == Ok(DefaultInstallPath)
    {
      CheckForConfigFile();
      r := LoadText(file.value);
      if old(file).None? {
        DefaultLoads();
      }
    }
  }

  // ---------------------------------------------------------------- install

  /** The downloaded tarball, written component by component. */
  function TarPath(): string {
    "/opt" + "/Autodesk" + "/shared" + "/python" + "/pyFlame" + "/Logik_Installer_" + Version + "/Matchbox" + "Shader" + "Collection.tgz"
  }

  /** The command text before `split(' ', 6)`. */
  function TarCommand(installPath: string): string {
    "tar -xvpzf " + TarPath() + " --strip-components 1 -C " + installPath
  }

  lemma NoSpaceJoin(a: string, b: string)
    requires ' ' !in a && ' ' !in b
    ensures ' ' !in a + b
  {
    assert forall c :: c in a + b ==> c in a || c in b;
  }

  lemma TarPathNoSpace()
    ensures ' ' !in TarPath()
  {
    assert ' ' !in "/opt" && ' ' !in "/Autodesk" && ' ' !in "/shared" && ' ' !in "/python" && ' ' !in "/pyFlame";
    assert ' ' !in "/Logik_Installer_" && ' ' !in Version && ' ' !in "/Matchbox" && ' ' !in "Shader" && ' ' !in "Collection.tgz";
    NoSpaceJoin("/opt", "/Autodesk");
    NoSpaceJoin("/opt" + "/Autodesk", "/shared");
    NoSpaceJoin("/opt" + "/Autodesk" + "/shared", "/python");
    NoSpaceJoin("/opt" + "/Autodesk" + "/shared" + "/python", "/pyFlame");
    NoSpaceJoin("/opt" + "/Autodesk" + "/shared" + "/python" + "/pyFlame", "/Logik_Installer_");
    NoSpaceJoin("/opt" + "/Autodesk" + "/shared" + "/python" + "/pyFlame" + "/Logik_Installer_", Version);
    NoSpaceJoin("/opt" + "/Autodesk" + "/shared" + "/python" + "/pyFlame" + "/Logik_Installer_" + Version, "/Matchbox");
    NoSpaceJoin("/opt" + "/Autodesk" + "/shared" + "/python" + "/pyFlame" + "/Logik_Installer_" + Version + "/Matchbox", "Shader");
    NoSpaceJoin("/opt" + "/Autodesk" + "/shared" + "/python" + "/pyFlame" + "/Logik_Installer_" + Version + "/Matchbox" + "Shader", "Collection.tgz");
  }

  /** Fields joined by single spaces, the last one first grouped as `Join` does. */
  lemma Regroup(a: string, b: string, c: string, d: string, e: string, f: string, g: string, head: string, mid: string)
    requires head == a + " " + b + " " && mid == " " + d + " " + e + " " + f + " "
    ensures head + c + mid + g == a + " " + (b + " " + (c + " " + (d + " " + (e + " " + (f + " " + g)))))
  {
  }

  lemma TarCommandPieces()
    ensures "tar -xvpzf " == "tar" + " " + "-xvpzf" + " "
    ensures " --strip-components 1 -C " == " " + "--strip-components" + " " + "1" + " " + "-C" + " "
  {
  }

  /** The command text as seven fields separated by single spaces. */
  lemma TarCommandFields(installPath: string)
    ensures TarCommand(installPath)
         == "tar" + " " + ("-xvpzf" + " " + (TarPath() + " " + ("--strip-components" + " " + ("1" + " " + ("-C" + " " + installPath)))))
  {
    TarCommandPieces();
    Regroup("tar", "-xvpzf", TarPath(), "--strip-components", "1", "-C", installPath, "tar -xvpzf ", " --strip-components 1 -C ");
  }

  /** `command.split(' ', 6)`: seven fields, the install path whole in the last
      one even when it holds spaces. */
  lemma TarSplit(installPath: string)
    ensures SplitN(TarCommand(installPath), ' ', 6)
         == ["tar", "-xvpzf", TarPath(), "--strip-components", "1", "-C", installPath]
  {
    TarPathNoSpace();
    TarCommandFields(installPath);
    assert ' ' !in "tar" && ' ' !in "-xvpzf" && ' ' !in "--strip-components" && ' ' !in "1" && ' ' !in "-C";
    SplitNSeven("tar", "-xvpzf", TarPath(), "--strip-components", "1", "-C", installPath, ' ');
  }

  /** How `install_button` ends. */
  datatype InstallEnd = Installed(removedTarball: string) | InstallFailed

  /** The tarball is removed and the done message shown only when the install
      folder is not empty; the error message box is built but never shown. */
  function AfterInstall(listing: seq<string>): (r: InstallEnd)
    ensures r.Installed? <==> listing != []
    ensures r.Installed? ==> r.removedTarball == TarPath()
  {
    if listing != [] then Installed(TarPath()) else InstallFailed
  }

  /** `install_button`: saves the path typed in the entry, builds the tar
      command, and decides from the listing of the install folder after the
      extraction. */
  method InstallButton(store: ConfigStore, entryText: string, listing: seq<string>)
    returns (s: Status, argv: seq<string>, outcome: InstallEnd)
    modifies store`file
    ensures store.dirExists ==> s == Done && store.file == Some(ConfigText(entryText))
    ensures !store.dirExists ==> s == Fail(IOError) && store.file == old(store.file)
    ensures s.Done? ==> argv == ["tar", "-xvpzf", TarPath(), "--strip-components", "1", "-C", entryText]
    ensures s.Done? ==> outcome == AfterInstall(listing)
  {
    var installPath := entryText;
    s := store.WriteConfig(installPath);
    argv, outcome := [], InstallFailed;
    if s.Fail? {
      return;
    }
    argv := SplitN(TarCommand(installPath), ' ', 6);
    TarSplit(installPath);
    outcome := AfterInstall(listing);
  }
}
