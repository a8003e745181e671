/**
  `UnitySolution.Parse`: from a Unity project root, decide whether it is a Unity
  project with a generated solution, and which editor project (`.csproj`) the
  solution's editor assembly lives in. Two naming schemes exist: the legacy one,
  recognised by the marker `assembly-csharp.csproj` anywhere in the `.sln` text
  (case ignored), uses `Assembly-CSharp-Editor.csproj`; the other uses
  `<dirname>.Editor.csproj`.
 */
module UnitySolutions {
  import opened Text
  import opened FileSystems

  datatype Option<T> = None | Some(value: T)

  /** The text whose presence in the solution file selects the legacy scheme (compared lower-cased). */
  const LegacyMarker: string := "assembly-csharp.csproj"

  /** The editor project's file name under the legacy scheme. */
  const LegacyEditorProject: string := "Assembly-CSharp-Editor.csproj"

  /** The suffix appended to the directory name under the current scheme. */
  const EditorProjectSuffix: string := ".Editor.csproj"

  /**
    A parsed solution. `assemblyCSharpEditor` is the path handed to
    `UnityCSProject.Parse` for the editor assembly; `slnFile` is the `SlnFile`
    field, which stays at its default (null, here `None`).
   */
  datatype UnitySolution = UnitySolution(assemblyCSharpEditor: string, slnFile: Option<string>)

  /** `<root>/<dirname>.sln`. */
  function SolutionPath(root: string): string
  {
    Combine(root, DirectoryName(root) + ".sln")
  }

  /** `<root>/Assets`. */
  function AssetsPath(root: string): string
  {
    Combine(root, "Assets")
  }

  /** The solution text selects the legacy naming scheme. */
  predicate IsLegacy(slnText: string)
  {
    Contains(ToLower(slnText), LegacyMarker)
  }

  /** The lower-case-then-search test is a case-insensitive search for the marker. */
  lemma LegacyMarkerIgnoresCase(slnText: string)
    ensures IsLegacy(slnText) <==> ContainsIgnoringCase(slnText, LegacyMarker)
  {
    assert IsLowerCase(LegacyMarker);
    ContainsLowered(slnText, LegacyMarker);
  }

  /** The editor project path under the scheme `legacy` selects. */
  function EditorProjectPath(root: string, legacy: bool): string
  {
    if legacy then Combine(root, LegacyEditorProject)
    else Combine(root, DirectoryName(root) + EditorProjectSuffix)
  }

  /** Everything `Parse` checks before it builds a solution. */
  predicate IsUnityProject(root: string, fs: FileSystem)
  {
    && root != ""
    && fs.FileExists(SolutionPath(root))
    && fs.DirectoryExists(root)
    && fs.DirectoryExists(AssetsPath(root))
  }

  /** What `Parse` returns, as a value: `None` stands for null. */
  function Resolve(root: string, fs: FileSystem): (solution: Option<UnitySolution>)
    ensures solution.Some? ==> fs.FileExists(SolutionPath(root)) && fs.DirectoryExists(AssetsPath(root))
    ensures solution.Some? ==>
      || solution.value.assemblyCSharpEditor == EditorProjectPath(root, true)
      || solution.value.assemblyCSharpEditor == EditorProjectPath(root, false)
  {
    if IsUnityProject(root, fs) then
      Some(UnitySolution(EditorProjectPath(root, IsLegacy(fs.files[SolutionPath(root)])), None))
    else
      None
  }

  /**
    `UnitySolution.Parse(unitypath)`, step by step with its early returns.
    `DirectoryInfo.FullName` is taken to be the path itself.
   */
  method Parse(unitypath: string, fs: FileSystem) returns (solution: Option<UnitySolution>)
    ensures solution == Resolve(unitypath, fs)
  {
    if unitypath == "" {
      return None;
    }
    var dirname := DirectoryName(unitypath);
    var slnpath := Combine(unitypath, dirname + ".sln");
    if !fs.FileExists(slnpath) {
      return None;
    }
    var slnContent := fs.files[slnpath];

    var isvs := true;
    if Contains(ToLower(slnContent), LegacyMarker) {
      isvs := false;
    }

    var fullName := unitypath;
    if !fs.DirectoryExists(fullName) {
      return None;
    }
    var assetpath := Combine(fullName, "Assets");
    if !fs.DirectoryExists(assetpath) {
      return None;
    }

    var csprojPathEditor := Combine(fullName, DirectoryName(fullName) + EditorProjectSuffix);
    if !isvs {
      csprojPathEditor := Combine(fullName, LegacyEditorProject);
    }
    // A missing editor project is only reported; the solution is built anyway.
    solution := Some(UnitySolution(csprojPathEditor, None));
  }

  /** Parse yields null exactly when the root is empty, the solution file is missing, or the root or its Assets directory is missing. */
  lemma ResolveFailsIff(root: string, fs: FileSystem)
    ensures Resolve(root, fs) == None <==>
      || root == ""
      || SolutionPath(root) !in fs.files
      || root !in fs.dirs
      || AssetsPath(root) !in fs.dirs
  {
  }

  /** A successful parse leaves `SlnFile` at its default. */
  lemma SolutionFileNeverAssigned(root: string, fs: FileSystem)
    requires Resolve(root, fs).Some?
    ensures Resolve(root, fs).value.slnFile == None
  {
  }

  /** The two naming schemes never name the same file. */
  lemma {:induction false} SchemesDiffer(root: string)
    ensures EditorProjectPath(root, true) != EditorProjectPath(root, false)
  {
    var name := DirectoryName(root);
    var modern := name + EditorProjectSuffix;
    assert modern[0] != Separator by {
      if name == [] { assert modern == EditorProjectSuffix; } else { assert modern[0] == name[0]; }
    }
    assert LegacyEditorProject != modern by {
      if |name| == 15 {
        assert modern[15] == '.';
        assert LegacyEditorProject[15] == '-';
      }
    }
    CombineInjective(root, LegacyEditorProject, modern);
  }

  /**
    The legacy project is chosen exactly when the solution text contains
    `assembly-csharp.csproj` in any mix of case; otherwise `<dirname>.Editor.csproj`.
   */
  lemma {:induction false} LegacySchemeIff(root: string, fs: FileSystem)
    requires Resolve(root, fs).Some?
    ensures var text := fs.files[SolutionPath(root)];
      && ((Resolve(root, fs).value.assemblyCSharpEditor == Combine(root, LegacyEditorProject))
            <==> ContainsIgnoringCase(text, LegacyMarker))
      && (!ContainsIgnoringCase(text, LegacyMarker) ==>
            Resolve(root, fs).value.assemblyCSharpEditor == Combine(root, DirectoryName(root) + EditorProjectSuffix))
  {
    LegacyMarkerIgnoresCase(fs.files[SolutionPath(root)]);
    SchemesDiffer(root);
  }

  /** Changing the case of any letter of the solution text does not change the result. */
  lemma {:induction false} ResolveIgnoresCase(root: string, fs: FileSystem, text: string)
    requires SolutionPath(root) in fs.files
    requires EqualIgnoringCase(fs.files[SolutionPath(root)], text)
    ensures Resolve(root, fs.(files := fs.files[SolutionPath(root) := text])) == Resolve(root, fs)
  {
    ToLowerEqualIff(fs.files[SolutionPath(root)], text);
  }

  /** The editor project path, under either scheme, is never the solution path. */
  lemma {:induction false} EditorProjectIsNotSolution(root: string, legacy: bool)
    ensures EditorProjectPath(root, legacy) != SolutionPath(root)
  {
    var name := DirectoryName(root);
    var sln := name + ".sln";
    var editorName := if legacy then LegacyEditorProject else name + EditorProjectSuffix;
    assert sln[0] != Separator && editorName[0] != Separator by {
      if name == [] {
        assert sln == ".sln";
      } else {
        assert sln[0] == name[0];
        assert (name + EditorProjectSuffix)[0] == name[0];
      }
    }
    assert sln[|sln| - 1] == 'n' && editorName[|editorName| - 1] == 'j';
    CombineInjective(root, sln, editorName);
  }

  /**
    Whether the chosen editor project exists does not matter: removing it from
    the file system leaves the result unchanged.
   */
  lemma {:induction false} MissingEditorProjectStillResolves(root: string, fs: FileSystem)
    requires Resolve(root, fs).Some?
    ensures var editor := Resolve(root, fs).value.assemblyCSharpEditor;
      Resolve(root, fs.(files := fs.files - {editor})) == Resolve(root, fs)
  {
    var legacy := IsLegacy(fs.files[SolutionPath(root)]);
    EditorProjectIsNotSolution(root, legacy);
    var fs' := fs.(files := fs.files - {EditorProjectPath(root, legacy)});
    assert fs'.files[SolutionPath(root)] == fs.files[SolutionPath(root)];
    assert IsUnityProject(root, fs');
  }

  /** The layout Unity generates: a project directory `<parent>/<name>/` holding `<name>.sln` and `Assets`. */
  function StandardLayout(parent: string, name: string, slnText: string): FileSystem
  {
    var root := parent + [Separator] + name + [Separator];
    FileSystem(map[root + name + ".sln" := slnText], {root, root + "Assets"})
  }

  /** A standard layout is a Unity project named `name`, whatever its solution says. */
  lemma {:induction false} StandardLayoutResolves(parent: string, name: string, slnText: string)
    requires name != [] && Separator !in name
    ensures var root := parent + [Separator] + name + [Separator];
      && DirectoryName(root) == name
      && Resolve(root, StandardLayout(parent, name, slnText))
           == Some(UnitySolution(EditorProjectPath(root, IsLegacy(slnText)), None))
  {
    var root := parent + [Separator] + name + [Separator];
    var fs := StandardLayout(parent, name, slnText);
    DirectoryNameOf(parent, name);
    assert root[|root| - 1] == Separator;
    assert (name + ".sln")[0] == name[0] != Separator;
    assert SolutionPath(root) == root + name + ".sln";
    assert AssetsPath(root) == root + "Assets";
    assert IsUnityProject(root, fs);
  }

  /** Such a project whose solution lacks the marker uses `<name>.Editor.csproj`. */
  lemma {:induction false} CurrentSchemeScenario(parent: string, name: string, slnText: string)
    requires name != [] && Separator !in name
    requires !ContainsIgnoringCase(slnText, LegacyMarker)
    ensures var root := parent + [Separator] + name + [Separator];
      Resolve(root, StandardLayout(parent, name, slnText))
        == Some(UnitySolution(root + name + EditorProjectSuffix, None))
  {
    var root := parent + [Separator] + name + [Separator];
    StandardLayoutResolves(parent, name, slnText);
    LegacyMarkerIgnoresCase(slnText);
    assert root[|root| - 1] == Separator;
    assert (name + EditorProjectSuffix)[0] == name[0] != Separator;
    assert EditorProjectPath(root, false) == root + name + EditorProjectSuffix;
  }

  /** The same project whose solution mentions `Assembly-CSharp.csproj`, in any case, uses `Assembly-CSharp-Editor.csproj`. */
  lemma {:induction false} LegacySchemeScenario(parent: string, name: string, slnText: string)
    requires name != [] && Separator !in name
    requires ContainsIgnoringCase(slnText, LegacyMarker)
    ensures var root := parent + [Separator] + name + [Separator];
      Resolve(root, StandardLayout(parent, name, slnText))
        == Some(UnitySolution(root + LegacyEditorProject, None))
  {
    var root := parent + [Separator] + name + [Separator];
    StandardLayoutResolves(parent, name, slnText);
    LegacyMarkerIgnoresCase(slnText);
    assert root[|root| - 1] == Separator;
  }
}
