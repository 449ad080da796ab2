/**
 * The save-location logic of `visualize` and its helpers: the default save file,
 * the search for a free version number, the choice between a memory store, an
 * existing file to load and a new file, and the filename check of
 * `export_flowsheet_diagram`. The filesystem is the set of paths that exist.
 */
module Fsvis {
  import opened Common
  import opened Strings

  /** A POSIX `pathlib.Path`: whether it is absolute, and its components. */
  datatype Path = Path(absolute: bool, parts: seq<string>)

  /** `Path(".")`. */
  const CurrentDir := Path(false, [])

  /** `MAX_SAVED_VERSIONS`. */
  const MaxSavedVersions := 100

  /** `sys.maxsize` on a 64-bit interpreter. */
  const MaxSize := 0x7fff_ffff_ffff_ffff

  /** The components pathlib keeps: empty pieces and `.` are dropped. */
  function Components(pieces: seq<string>): (r: seq<string>)
    ensures forall i :: 0 <= i < |r| ==> r[i] != "" && r[i] != "." && r[i] in pieces
    decreases |pieces|
  {
    if pieces == [] then []
    else if pieces[0] == "" || pieces[0] == "." then Components(pieces[1..])
    else [pieces[0]] + Components(pieces[1..])
  }

  /** `Path(s)` for a string `s`. */
  function PathOf(s: string): (p: Path)
    ensures p.absolute <==> |s| > 0 && s[0] == '/'
    ensures forall i :: 0 <= i < |p.parts| ==> p.parts[i] != "" && p.parts[i] != "." && '/' !in p.parts[i]
  {
    Path(|s| > 0 && s[0] == '/', Components(Split(s, '/')))
  }

  /** A string without `/` that is neither empty nor `.` is a relative path of one component. */
  lemma PathOfSingle(s: string)
    requires '/' !in s && s != "" && s != "."
    ensures PathOf(s) == Path(false, [s])
  {
    SplitWithoutSeparator(s, '/');
    assert Components([s]) == [s] + Components([]);
  }

  /** A name pathlib keeps as one component. */
  predicate IsComponent(c: string) {
    c != "" && c != "." && '/' !in c
  }

  /** Valid components pass through unchanged. */
  lemma {:induction false} ComponentsOfComponents(ps: seq<string>)
    requires forall i :: 0 <= i < |ps| ==> IsComponent(ps[i])
    ensures Components(ps) == ps
    decreases |ps|
  {
    if ps != [] {
      ComponentsOfComponents(ps[1..]);
    }
  }

  /** Writing components out with `/` and reading the string back as a path gives them
      back, as a relative path or, after a leading `/`, an absolute one. */
  lemma PathOfJoin(ps: seq<string>)
    requires |ps| >= 1 && forall i :: 0 <= i < |ps| ==> IsComponent(ps[i])
    ensures PathOf(JoinWith(ps, '/')) == Path(false, ps)
    ensures PathOf("/" + JoinWith(ps, '/')) == Path(true, ps)
  {
    var t := JoinWith(ps, '/');
    SplitJoin(ps, '/');
    ComponentsOfComponents(ps);
    assert t != [] && t[0] != '/' by {
      JoinWithStartsWith(ps, '/');
    }
    var u := "/" + t;
    assert u[1..] == t;
    assert Split(u, '/') == [""] + Split(t, '/');
    assert Components([""] + ps) == Components(ps);
  }

  /** `p / q`. */
  function JoinPath(p: Path, q: Path): (r: Path)
    ensures q.absolute ==> r == q
    ensures !q.absolute ==> r.absolute == p.absolute && r.parts == p.parts + q.parts
  {
    if q.absolute then q else Path(p.absolute, p.parts + q.parts)
  }

  /** `p.parent`. */
  function Parent(p: Path): (r: Path)
    ensures r.absolute == p.absolute
    ensures p.parts != [] ==> p.parts == r.parts + [p.parts[|p.parts| - 1]]
    ensures p.parts == [] ==> r == p
  {
    if p.parts == [] then p else Path(p.absolute, p.parts[..|p.parts| - 1])
  }

  /** `_pick_default_save_location(name, save_dir)`: `name.json` in `save_dir`, or in the
      current directory when no directory is given. */
  function DefaultSaveLocation(name: string, saveDir: Option<Path>): (p: Path)
    ensures '/' !in name ==>
              var dir := if saveDir.Some? then saveDir.value else CurrentDir;
              p == Path(dir.absolute, dir.parts + [name + ".json"]) && Parent(p) == dir
  {
    var dir := if saveDir.Some? then saveDir.value else CurrentDir;
    if '/' in name then JoinPath(dir, PathOf(name + ".json"))
    else
      PathOfSingle(name + ".json");
      JoinPath(dir, PathOf(name + ".json"))
  }

  /** The path probed for version `k`: `save_path.parent / f"{name}-{k}.json"`. */
  function VersionPath(name: string, savePath: Path, k: nat): Path {
    JoinPath(Parent(savePath), PathOf(name + "-" + NatToString(k) + ".json"))
  }

  /** For a name without `/`, version `k` is the file `name-<k>.json` in the save file's directory. */
  lemma VersionPathInSameDirectory(name: string, savePath: Path, k: nat)
    requires '/' !in name
    ensures VersionPath(name, savePath, k) == Path(savePath.absolute, Parent(savePath).parts + [name + "-" + NatToString(k) + ".json"])
  {
    var file := name + "-" + NatToString(k) + ".json";
    assert '/' !in NatToString(k);
    assert '/' !in file;
    PathOfSingle(file);
  }

  /** The error `_handle_existing_save_path` raises, with its ceiling and base name. */
  datatype SaveError = TooManySavedVersions(ceiling: int, name: string)

  /** The bound of the version loop: `max_versions`, with 0 meaning `sys.maxsize`. */
  function Ceiling(maxVersions: int): int {
    if maxVersions == 0 then MaxSize else maxVersions
  }

  /** The version loop from version `k` on: stop with an error on reaching the ceiling,
      whatever the state of that version's file; stop at the first free version below it. */
  function ProbeFrom(name: string, savePath: Path, ceiling: int, existing: set<Path>, k: nat): (r: Result<Path, SaveError>)
    requires k >= 1
    ensures r.Err? ==> r.error == TooManySavedVersions(ceiling, name)
    decreases ceiling - k
  {
    if k >= ceiling then Err(TooManySavedVersions(ceiling, name))
    else if VersionPath(name, savePath, k) !in existing then Ok(VersionPath(name, savePath, k))
    else ProbeFrom(name, savePath, ceiling, existing, k + 1)
  }

  /** What `_handle_existing_save_path(name, save_path, max_versions, overwrite)` returns. */
  function ResolveSavePath(name: string, savePath: Path, maxVersions: int, overwrite: bool, existing: set<Path>): (r: Result<Path, SaveError>)
    ensures overwrite ==> r == Ok(savePath)
    ensures !overwrite && savePath !in existing ==> r == Ok(savePath)
    ensures r.Err? ==> r.error == TooManySavedVersions(Ceiling(maxVersions), name)
  {
    if overwrite || savePath !in existing then Ok(savePath)
    else if Ceiling(maxVersions) < 1 then Ok(savePath)
    else ProbeFrom(name, savePath, Ceiling(maxVersions), existing, 1)
  }

  /** The loop from version `k` fails exactly when every version from `k` up to, not
      including, the ceiling exists. */
  lemma {:induction false} ProbeFromFails(name: string, savePath: Path, ceiling: int, existing: set<Path>, k: nat)
    requires k >= 1
    ensures ProbeFrom(name, savePath, ceiling, existing, k).Err? <==>
            forall j :: k <= j < ceiling ==> VersionPath(name, savePath, j) in existing
    decreases ceiling - k
  {
    if k < ceiling && VersionPath(name, savePath, k) in existing {
      ProbeFromFails(name, savePath, ceiling, existing, k + 1);
    }
  }

  /** A path the loop from version `k` returns is version `j`, the first free one from `k` on. */
  lemma {:induction false} ProbeFromFindsFirstFree(name: string, savePath: Path, ceiling: int, existing: set<Path>, k: nat)
    returns (j: nat)
    requires k >= 1 && ProbeFrom(name, savePath, ceiling, existing, k).Ok?
    ensures k <= j < ceiling
    ensures ProbeFrom(name, savePath, ceiling, existing, k).value == VersionPath(name, savePath, j)
    ensures VersionPath(name, savePath, j) !in existing
    ensures forall i :: k <= i < j ==> VersionPath(name, savePath, i) in existing
    decreases ceiling - k
  {
    if VersionPath(name, savePath, k) !in existing {
      j := k;
    } else {
      j := ProbeFromFindsFirstFree(name, savePath, ceiling, existing, k + 1);
    }
  }

  /** When the save file exists and overwriting is off, the result is the first free
      `name-<k>.json` with `1 <= k < ceiling`; the error is raised exactly when the save
      file and `name-1.json` up to `name-<ceiling - 1>.json` all exist, whatever the state
      of `name-<ceiling>.json`. */
  lemma ResolveSavePathSpec(name: string, savePath: Path, maxVersions: int, existing: set<Path>)
    requires savePath in existing && maxVersions >= 0
    ensures var r := ResolveSavePath(name, savePath, maxVersions, false, existing);
            && (r.Err? <==> forall j :: 1 <= j < Ceiling(maxVersions) ==> VersionPath(name, savePath, j) in existing)
            && (r.Ok? ==> r.value !in existing)
            && (r.Ok? ==> exists k :: 1 <= k < Ceiling(maxVersions) && r.value == VersionPath(name, savePath, k)
                                    && forall i :: 1 <= i < k ==> VersionPath(name, savePath, i) in existing)
  {
    ProbeFromFails(name, savePath, Ceiling(maxVersions), existing, 1);
    if ProbeFrom(name, savePath, Ceiling(maxVersions), existing, 1).Ok? {
      var k := ProbeFromFindsFirstFree(name, savePath, Ceiling(maxVersions), existing, 1);
    }
  }

  /** `_handle_existing_save_path`. Truncating the file when overwriting is not modelled. */
  method HandleExistingSavePath(name: string, savePath: Path, maxVersions: int, overwrite: bool, existing: set<Path>)
    returns (r: Result<Path, SaveError>)
    ensures r == ResolveSavePath(name, savePath, maxVersions, overwrite, existing)
  {
    if overwrite {
      return Ok(savePath);
    } else if savePath !in existing {
      return Ok(savePath);
    }
    var counter := 0;
    var path := savePath;
    var ceiling := maxVersions;
    if ceiling == 0 {
      ceiling := MaxSize;
    }
    while path in existing && counter < ceiling
      invariant 0 <= counter && (counter <= ceiling || ceiling < 0)
      invariant counter == 0 ==> path == savePath
      invariant counter > 0 ==> path == VersionPath(name, savePath, counter)
      invariant counter > 0 ==> ResolveSavePath(name, savePath, maxVersions, overwrite, existing)
                                 == ProbeFrom(name, savePath, ceiling, existing, counter)
      decreases ceiling - counter
    {
      counter := counter + 1;
      path := VersionPath(name, savePath, counter);
    }
    if counter == ceiling {
      return Err(TooManySavedVersions(ceiling, name));
    }
    return Ok(path);
  }

  /** The `save` argument of `visualize`. */
  datatype SaveArg =
    | Unspecified      // `None`
    | SaveFlag(flag: bool)
    | SaveTo(path: Path)
    | NotAPath         // a value `Path()` rejects with `TypeError`

  /** The datastore `visualize` creates. */
  datatype StoreChoice =
    | MemoryStore          // `persist.MemoryDataStore()`
    | LoadSaved(path: Path) // `DataStore.create(path)` followed by `load()`
    | NewFile(path: Path)   // `DataStore.create(path)` on a (possibly versioned) path

  /** The errors `visualize` raises while choosing its datastore. */
  datatype VisualizeError =
    | VisualizerSaveError          // `save` cannot be converted to a path
    | RuntimeError(cause: SaveError) // too many saved versions

  /** The save path chosen from `save` and `save_dir`, `None` for no saving at all. */
  function SaveLocation(name: string, save: SaveArg, saveDir: Option<Path>): (r: Result<Option<Path>, VisualizeError>)
    ensures r.Err? <==> save == NotAPath
    ensures r == Ok(None) <==> save == SaveFlag(false)
    ensures save == Unspecified || save == SaveFlag(true) ==> r == Ok(Some(DefaultSaveLocation(name, saveDir)))
    ensures save.SaveTo? && (save.path.absolute || saveDir.None?) ==> r == Ok(Some(save.path))
    ensures save.SaveTo? && !save.path.absolute && saveDir.Some? ==>
              r == Ok(Some(Path(saveDir.value.absolute, saveDir.value.parts + save.path.parts)))
  {
    match save
    case Unspecified => Ok(Some(DefaultSaveLocation(name, saveDir)))
    case SaveFlag(flag) => if flag then Ok(Some(DefaultSaveLocation(name, saveDir))) else Ok(None)
    case NotAPath => Err(VisualizerSaveError)
    case SaveTo(p) =>
      if saveDir.Some? && !p.absolute then Ok(Some(JoinPath(saveDir.value, p))) else Ok(Some(p))
  }

  /** The datastore branch of `visualize`: a memory store when saving is off, the
      existing file when it exists and `load_from_saved` is set, and otherwise a new
      file chosen by `_handle_existing_save_path` with `MAX_SAVED_VERSIONS`. */
  function ChooseDatastore(name: string, save: SaveArg, saveDir: Option<Path>, loadFromSaved: bool,
                           overwrite: bool, existing: set<Path>): (r: Result<StoreChoice, VisualizeError>)
    ensures r == Ok(MemoryStore) <==> save == SaveFlag(false)
    ensures r == Err(VisualizerSaveError) <==> save == NotAPath
    ensures r.Ok? && r.value.LoadSaved? <==>
              SaveLocation(name, save, saveDir).Ok? && SaveLocation(name, save, saveDir).value.Some? &&
              SaveLocation(name, save, saveDir).value.value in existing && loadFromSaved
    ensures r.Ok? && r.value.LoadSaved? ==> r.value.path == SaveLocation(name, save, saveDir).value.value
    ensures r.Ok? && r.value.NewFile? && !overwrite ==> r.value.path !in existing
    ensures r.Ok? && r.value.NewFile? && overwrite ==> r.value.path == SaveLocation(name, save, saveDir).value.value
    ensures r.Err? && r.error.RuntimeError? ==> !overwrite && r.error.cause == TooManySavedVersions(MaxSavedVersions, name)
    ensures var loc := SaveLocation(name, save, saveDir);
            loc.Ok? && loc.value.Some? && !(loc.value.value in existing && loadFromSaved) ==>
              r == match ResolveSavePath(name, loc.value.value, MaxSavedVersions, overwrite, existing)
                   case Ok(p) => Ok(NewFile(p))
                   case Err(e) => Err(RuntimeError(e))
  {
    match SaveLocation(name, save, saveDir)
    case Err(e) => Err(e)
    case Ok(None) => Ok(MemoryStore)
    case Ok(Some(path)) =>
      if path in existing && loadFromSaved then Ok(LoadSaved(path))
      else
        var choice := match ResolveSavePath(name, path, MaxSavedVersions, overwrite, existing)
          case Ok(p) => Ok(NewFile(p))
          case Err(e) => Err(RuntimeError(e));
        if path in existing then
          ResolveSavePathSpec(name, path, MaxSavedVersions, existing);
          choice
        else choice
  }

  /** The default save file of flowsheet `x` is `x.json` in the current directory. */
  lemma DefaultLocationExample()
    ensures DefaultSaveLocation("x", None) == Path(false, ["x.json"])
  {
    assert '/' !in "x";
    assert "x" + ".json" == "x.json";
  }

  /** The first two versions of `x.json` are `x-1.json` and `x-2.json` beside it. */
  lemma VersionPathExample()
    ensures VersionPath("x", Path(false, ["x.json"]), 1) == Path(false, ["x-1.json"])
    ensures VersionPath("x", Path(false, ["x.json"]), 2) == Path(false, ["x-2.json"])
  {
    VersionPathInSameDirectory("x", Path(false, ["x.json"]), 1);
    VersionPathInSameDirectory("x", Path(false, ["x.json"]), 2);
    assert NatToString(1) == "1" && NatToString(2) == "2";
    assert "x" + "-" + "1" + ".json" == "x-1.json";
    assert "x" + "-" + "2" + ".json" == "x-2.json";
  }

  /** With `load_from_saved` off, saving `x` three times in an empty directory, without
      overwriting, gives `x.json`, then `x-1.json`, then `x-2.json`; with overwriting,
      `x.json` every time. (With `load_from_saved` on, the default, an existing `x.json`
      is loaded instead.) */
  lemma VersioningExample()
    ensures var base, first, second := Path(false, ["x.json"]), Path(false, ["x-1.json"]), Path(false, ["x-2.json"]);
            && ChooseDatastore("x", Unspecified, None, false, false, {}) == Ok(NewFile(base))
            && ChooseDatastore("x", Unspecified, None, false, false, {base}) == Ok(NewFile(first))
            && ChooseDatastore("x", Unspecified, None, false, false, {base, first}) == Ok(NewFile(second))
            && ChooseDatastore("x", Unspecified, None, false, true, {base, first}) == Ok(NewFile(base))
  {
    DefaultLocationExample();
    VersionPathExample();
    var base, first := Path(false, ["x.json"]), Path(false, ["x-1.json"]);
    assert ProbeFrom("x", base, MaxSavedVersions, {base}, 1) == Ok(first);
    assert ProbeFrom("x", base, MaxSavedVersions, {base, first}, 2) == Ok(Path(false, ["x-2.json"]));
  }

  /** With a ceiling of 2, `x.json` and `x-1.json` existing are enough to raise,
      although `x-2.json` is free. */
  lemma CeilingExample()
    ensures var base := Path(false, ["x.json"]);
            ResolveSavePath("x", base, 2, false, {base, Path(false, ["x-1.json"])}).Err?
  {
    VersionPathExample();
  }

  /** The `name` argument of `export_flowsheet_diagram`. */
  datatype DiagramName = NameString(text: string) | NamePath(path: Path)

  /** The `ValueError`s raised while reading the diagram name. */
  datatype ExportError = ExtensionRequired | UnsupportedExtension(ext: string)

  /** The basename and image type the diagram is exported under. */
  datatype DiagramTarget = DiagramTarget(basename: string, imageType: string)

  /** `p.name`: the last component, or `""`. */
  function LastPart(p: Path): string {
    if p.parts == [] then "" else p.parts[|p.parts| - 1]
  }

  /** `PurePath.suffix` of a last component: from its last `.`, unless that dot is the first or the last character. */
  function Suffix(part: string): (s: string)
    ensures s != [] <==> 0 < LastIndexOf(part, '.') < |part| - 1
    ensures s != [] ==> s[0] == '.' && '.' !in s[1..] && |s| >= 2
    ensures |s| <= |part| && part[|part| - |s|..] == s
  {
    var i := LastIndexOf(part, '.');
    if 0 < i < |part| - 1 then
      var s := part[i..];
      assert s[1..] == part[i + 1..];
      assert part[|part| - |s|..] == s;
      s
    else ""
  }

  /** `PurePath.stem` of a last component. */
  function Stem(part: string): (s: string)
    ensures s + Suffix(part) == part
  {
    var i := LastIndexOf(part, '.');
    if 0 < i < |part| - 1 then
      assert part[..i] + part[i..] == part;
      part[..i]
    else part
  }

  /** Python's `s[1:]`. */
  function DropFirst(s: string): string {
    if s == [] then [] else s[1..]
  }

  /** The branch of `export_flowsheet_diagram` that splits a plain string name at its first `.`. */
  predicate IsPlainName(text: string) {
    text != [] && text[0] != '.' && text[0] != '/' && text[0] != '~'
  }

  /** `p.stem` and `p.suffix[1:]` of a final path component. */
  function ComponentTarget(part: string): (t: DiagramTarget)
    ensures t.basename + Suffix(part) == part
    ensures Suffix(part) == "" ==> t.imageType == ""
    ensures Suffix(part) != "" ==> Suffix(part) == "." + t.imageType && '.' !in t.imageType
  {
    DiagramTarget(Stem(part), DropFirst(Suffix(part)))
  }

  /** `name.split(".", 1)` on a name known to hold a dot. */
  function SplitAtFirstDot(s: string): (t: DiagramTarget)
    requires '.' in s
    ensures t.basename + "." + t.imageType == s && '.' !in t.basename
  {
    var i := FirstIndexOf(s, '.');
    assert s[..i] + "." + s[i + 1..] == s;
    DiagramTarget(s[..i], s[i + 1..])
  }

  /** The final component a path-like name is read from. */
  function LastComponentOf(name: DiagramName): string {
    if name.NamePath? then LastPart(name.path) else LastPart(PathOf(name.text))
  }

  /** The branches of `export_flowsheet_diagram` that read the name, before the image type is checked. */
  function ReadDiagramName(name: DiagramName): (r: Result<DiagramTarget, ExportError>)
    ensures r.Err? ==> r.error == ExtensionRequired
    ensures r.Err? <==> (name.NameString? && LastIndexOf(name.text, '.') < 1) || (name.NamePath? && Suffix(LastPart(name.path)) == "")
    ensures r.Ok? && name.NameString? && IsPlainName(name.text) ==>
              r.value.basename + "." + r.value.imageType == name.text && '.' !in r.value.basename
    ensures r.Ok? && !(name.NameString? && IsPlainName(name.text)) ==>
              var last := LastComponentOf(name);
              && r.value.basename + Suffix(last) == last
              && (Suffix(last) == "" ==> r.value.imageType == "")
              && (Suffix(last) != "" ==> Suffix(last) == "." + r.value.imageType)
  {
    match name
    case NamePath(p) =>
      if Suffix(LastPart(p)) == "" then Err(ExtensionRequired) else Ok(ComponentTarget(LastPart(p)))
    case NameString(s) =>
      if LastIndexOf(s, '.') < 1 then Err(ExtensionRequired)
      else if !IsPlainName(s) then Ok(ComponentTarget(LastPart(PathOf(s))))
      else Ok(SplitAtFirstDot(s))
  }

  /** The filename and extension checks of `export_flowsheet_diagram`. Expanding `~`
      and creating the target directory are not modelled. */
  function ParseDiagramName(name: DiagramName): (r: Result<DiagramTarget, ExportError>)
    ensures r.Ok? ==> r.value.imageType == "svg" || r.value.imageType == "png"
    ensures r == Err(ExtensionRequired) <==> ReadDiagramName(name).Err?
    ensures ReadDiagramName(name).Ok? ==>
              var read := ReadDiagramName(name).value;
              if read.imageType == "svg" || read.imageType == "png" then r == Ok(read)
              else r == Err(UnsupportedExtension(read.imageType))
  {
    var read := ReadDiagramName(name);
    if read.Ok? && read.value.imageType != "svg" && read.value.imageType != "png" then
      Err(UnsupportedExtension(read.value.imageType))
    else read
  }

  lemma DotsOfFooSvg()
    ensures LastIndexOf("foo.svg", '.') == 3 && FirstIndexOf("foo.svg", '.') == 3
  {
    var s := "foo.svg";
    assert s[4..] == "svg" && s[..3] == "foo";
    LastIndexOfIs(s, '.', 3);
    FirstIndexOfIs(s, '.', 3);
  }

  /** `foo.svg` is exported as an SVG named `foo`. */
  lemma ExportPlainExample()
    ensures ParseDiagramName(NameString("foo.svg")) == Ok(DiagramTarget("foo", "svg"))
  {
    DotsOfFooSvg();
    var s := "foo.svg";
    assert IsPlainName(s);
    assert s[..3] == "foo" && s[4..] == "svg";
  }

  /** A plain name is split at its FIRST dot, so `a.b.svg` asks for the image type `b.svg`
      and is rejected. */
  lemma ExportFirstDotExample()
    ensures ParseDiagramName(NameString("a.b.svg")) == Err(UnsupportedExtension("b.svg"))
  {
    var s := "a.b.svg";
    assert s[4..] == "svg" && s[..1] == "a" && s[2..] == "b.svg";
    LastIndexOfIs(s, '.', 3);
    FirstIndexOfIs(s, '.', 1);
  }

  /** The same name given as a path is split at its LAST dot and accepted. */
  lemma ExportPathExample()
    ensures ParseDiagramName(NamePath(Path(false, ["a.b.svg"]))) == Ok(DiagramTarget("a.b", "svg"))
  {
    var s := "a.b.svg";
    assert s[4..] == "svg" && s[3..] == ".svg" && s[..3] == "a.b";
    LastIndexOfIs(s, '.', 3);
    assert Suffix(s) == ".svg" && DropFirst(".svg") == "svg";
    assert Stem(s) == "a.b";
  }

  /** A name whose only dot is its first character has no extension. */
  lemma ExportHiddenFileExample()
    ensures ParseDiagramName(NameString(".svg")) == Err(ExtensionRequired)
  {
    var s := ".svg";
    assert s[1..] == "svg";
    LastIndexOfIs(s, '.', 0);
  }
}
