/**
  `CodeAnalyzerEditorWindow` and the asset postprocessor: the rule that adds the
  configured Roslyn analyzers to the editor project when it has none, the
  window's lazy preference cache, and the `.cs` test that triggers a refresh.
 */
module CodeAnalyzerEditorWindow {
  import opened Text
  import opened FileSystems
  import opened UnitySolutions
  import opened PlayerPrefs
  import opened UnityCSProjects

  /** Preference key of the first analyzer path. */
  const DllPathKey: string := "unity.codeanalyzer.dllpath.assemblyeditor"
  /** Preference key of the second analyzer path. */
  const CSharpDllPathKey: string := "unity.codeanalyzer.csharp.dllpath.assemblyeditor"
  /** Preference key of the enable toggle. */
  const EnabledKey: string := "unity.codeanalyzer.enabled"

  /** The exceptions the refresh can raise. */
  datatype Exception = ArgumentOutOfRange | NullReference

  /** How a call ends: normally, or with an exception escaping it. */
  datatype Outcome = Completed | Threw(exception: Exception)

  // ---------------------------------------------------------------------------
  // The patch rule, as values

  /** The project root: `Application.dataPath` without its last six characters (the `Assets` folder name). */
  function ProjectRoot(dataPath: string): (root: string)
    requires |dataPath| >= 6
    ensures |root| == |dataPath| - 6 && root <= dataPath
    ensures EndsWith(dataPath, "Assets") ==> root + "Assets" == dataPath
  {
    dataPath[..|dataPath| - 6]
  }

  /**
    A configured path is used when it is non-empty and exists as given or under
    the data path. An absolute path is only looked up as given.
   */
  function IsUsableAnalyzer(path: string, dataPath: string, fs: FileSystem): (usable: bool)
    ensures usable ==> path != ""
    ensures IsRooted(path) ==> (usable <==> path in fs.files)
  {
    path != "" && (fs.FileExists(path) || fs.FileExists(Combine(dataPath, path)))
  }

  /** The analyzer paths a refresh appends to an editor project that has none, in order. */
  function Candidates(prefs: Store, dataPath: string, fs: FileSystem): (added: seq<string>)
    ensures forall i :: 0 <= i < |added| ==>
      added[i] == prefs.GetString(DllPathKey) || added[i] == prefs.GetString(CSharpDllPathKey)
  {
    var first := prefs.GetString(DllPathKey);
    var second := prefs.GetString(CSharpDllPathKey);
    (if IsUsableAnalyzer(first, dataPath, fs) then [first] else [])
      + (if IsUsableAnalyzer(second, dataPath, fs) then [second] else [])
  }

  /** The items after a refresh: `added` only goes in when there were no items. */
  function PatchedItems(items: seq<string>, added: seq<string>): seq<string>
  {
    if items == [] then added else items
  }

  /** How many writes a refresh makes: one when it appended something, otherwise none. */
  function PatchWrites(items: seq<string>, added: seq<string>): nat
  {
    if items == [] && added != [] then 1 else 0
  }

  /** `UnityCSProject.Parse(path)`: the project loaded from `path`, or null. */
  function EditorProjectOf(projects: map<string, EditorProject>, path: string): (project: EditorProject?)
    ensures project != null <==> path in projects
    ensures project != null ==> project in projects.Values
  {
    if path in projects then projects[path] else null
  }

  /** The editor project a refresh works on, or null when there is no solution or no project. */
  function Target(dataPath: string, fs: FileSystem, projects: map<string, EditorProject>): EditorProject?
    requires |dataPath| >= 6
  {
    match Resolve(ProjectRoot(dataPath), fs)
    case None => null
    case Some(solution) => EditorProjectOf(projects, solution.assemblyCSharpEditor)
  }

  /** No project other than `except` has changed its items or been written. */
  twostate predicate Untouched(projects: map<string, EditorProject>, except: EditorProject?)
    reads projects.Values
  {
    forall p :: p in projects.Values && p != except ==>
      p.analyzerItems == old(p.analyzerItems) && p.writeCount == old(p.writeCount)
  }

  /** `project` went through the patch rule with the configured `prefs`. */
  twostate predicate Patched(project: EditorProject, prefs: Store, dataPath: string, fs: FileSystem)
    reads project
  {
    var added := Candidates(prefs, dataPath, fs);
    && project.analyzerItems == PatchedItems(old(project.analyzerItems), added)
    && project.writeCount == old(project.writeCount) + PatchWrites(old(project.analyzerItems), added)
  }

  /** What a refresh promises, once the null solution is guarded against. */
  twostate predicate Refreshed(dataPath: string, fs: FileSystem, prefs: Store,
                               projects: map<string, EditorProject>, outcome: Outcome)
    reads projects.Values
  {
    if |dataPath| < 6 then
      outcome == Threw(ArgumentOutOfRange) && Untouched(projects, null)
    else
      var target := Target(dataPath, fs, projects);
      && outcome == Completed
      && Untouched(projects, target)
      && (target != null ==> Patched(target, prefs, dataPath, fs))
  }

  // ---------------------------------------------------------------------------
  // The refresh, step by step

  /** The body of the refresh once the editor project is known (the part under `projEditor != null`). */
  method PatchEditorProject(projEditor: EditorProject, prefs: Store, dataPath: string, fs: FileSystem)
    modifies projEditor
    ensures Patched(projEditor, prefs, dataPath, fs)
  {
    if |projEditor.analyzerItems| == 0 {
      var modified := false;
      var path := prefs.GetString(DllPathKey);
      if path != "" && (fs.FileExists(path) || fs.FileExists(Combine(dataPath, path))) {
        projEditor.AddAnalyzer(path);
        modified := true;
      }
      path := prefs.GetString(CSharpDllPathKey);
      if path != "" && (fs.FileExists(path) || fs.FileExists(Combine(dataPath, path))) {
        projEditor.AddAnalyzer(path);
        modified := true;
      }
      if modified {
        projEditor.WriteToFile();
      }
    }
  }

  /**
    `OnCSProjectModified` as written: `solution.AssemblyCSharpEditor` is read
    without checking that `UnitySolution.Parse` found a solution.
   */
  method OnCSProjectModifiedAsWritten(dataPath: string, fs: FileSystem, prefs: Store,
                                      projects: map<string, EditorProject>) returns (outcome: Outcome)
    modifies projects.Values
    ensures |dataPath| >= 6 && Resolve(ProjectRoot(dataPath), fs) == None ==>
      outcome == Threw(NullReference) && Untouched(projects, null)
    ensures |dataPath| < 6 || Resolve(ProjectRoot(dataPath), fs).Some? ==>
      Refreshed(dataPath, fs, prefs, projects, outcome)
  {
    if |dataPath| < 6 {
      return Threw(ArgumentOutOfRange);
    }
    var projectPath := dataPath[..|dataPath| - 6];
    var solution := Parse(projectPath, fs);
    if solution.None? {
      return Threw(NullReference);
    }
    var projEditor := EditorProjectOf(projects, solution.value.assemblyCSharpEditor);
    if projEditor != null {
      PatchEditorProject(projEditor, prefs, dataPath, fs);
    }
    return Completed;
  }

  /** A Unity project whose solution file has not been generated yet makes the as-written refresh throw. */
  method NullDereferenceWitness() returns (outcome: Outcome)
    ensures outcome == Threw(NullReference)
  {
    var fs := FileSystem(map[], {"/work/Proj/", "/work/Proj/Assets"});
    var project := new EditorProject([]);
    outcome := OnCSProjectModifiedAsWritten("/work/Proj/Assets", fs, Store(map[]),
                                            map["/work/Proj/Proj.Editor.csproj" := project]);
  }

  /**
    A project `<parent>/<name>/` on the current naming scheme whose editor
    project has no analyzers, with both configured analyzers present: both are
    appended, in order, and the project is written once.
   */
  method RefreshScenario(parent: string, name: string, first: string, second: string)
      returns (outcome: Outcome, items: seq<string>, writes: nat)
    requires name != [] && Separator !in name
    requires first != "" && second != ""
    ensures outcome == Completed && items == [first, second] && writes == 1
  {
    var root := parent + [Separator] + name + [Separator];
    var dataPath := root + "Assets";
    var layout := StandardLayout(parent, name, "");
    var fs := layout.(files := layout.files[first := ""][second := ""]);
    ScenarioResolves(parent, name, first, second);
    var project := new EditorProject([]);
    var projects := map[root + name + EditorProjectSuffix := project];
    assert Target(dataPath, fs, projects) == project;
    var prefs := Store(map[DllPathKey := StringPref(first), CSharpDllPathKey := StringPref(second)]);
    BothConfiguredAppended(first, second, dataPath, fs);
    outcome := OnCSProjectModified(dataPath, fs, prefs, projects);
    items, writes := project.analyzerItems, project.writeCount;
  }

  /** The layout of `RefreshScenario`, with the two analyzer files added, still resolves to `<name>.Editor.csproj`. */
  lemma {:induction false} ScenarioResolves(parent: string, name: string, first: string, second: string)
    requires name != [] && Separator !in name
    ensures var root := parent + [Separator] + name + [Separator];
      var layout := StandardLayout(parent, name, "");
      && ProjectRoot(root + "Assets") == root
      && Resolve(root, layout.(files := layout.files[first := ""][second := ""]))
           == Some(UnitySolution(root + name + EditorProjectSuffix, None))
  {
    var root := parent + [Separator] + name + [Separator];
    var dataPath := root + "Assets";
    var layout := StandardLayout(parent, name, "");
    var fs := layout.(files := layout.files[first := ""][second := ""]);
    CurrentSchemeScenario(parent, name, "");
    assert dataPath[..|dataPath| - 6] == root;
    assert Resolve(root, fs) == Resolve(root, layout);
  }

  /** Two configured paths that exist as given are both appended, in order. */
  lemma {:induction false} BothConfiguredAppended(first: string, second: string, dataPath: string, fs: FileSystem)
    requires first != "" && second != ""
    requires first in fs.files && second in fs.files
    ensures Candidates(Store(map[DllPathKey := StringPref(first), CSharpDllPathKey := StringPref(second)]), dataPath, fs)
            == [first, second]
  {
    var prefs := Store(map[DllPathKey := StringPref(first), CSharpDllPathKey := StringPref(second)]);
    assert |DllPathKey| != |CSharpDllPathKey|;
    assert prefs.GetString(DllPathKey) == first && prefs.GetString(CSharpDllPathKey) == second;
  }

  /** `OnCSProjectModified` with the missing null check on the solution added. */
  method OnCSProjectModified(dataPath: string, fs: FileSystem, prefs: Store,
                             projects: map<string, EditorProject>) returns (outcome: Outcome)
    modifies projects.Values
    ensures Refreshed(dataPath, fs, prefs, projects, outcome)
  {
    if |dataPath| < 6 {
      return Threw(ArgumentOutOfRange);
    }
    var projectPath := dataPath[..|dataPath| - 6];
    var solution := Parse(projectPath, fs);
    if solution.None? {
      return Completed;
    }
    var projEditor := EditorProjectOf(projects, solution.value.assemblyCSharpEditor);
    if projEditor != null {
      PatchEditorProject(projEditor, prefs, dataPath, fs);
    }
    return Completed;
  }

  // ---------------------------------------------------------------------------
  // Properties of the patch rule

  /** Only usable paths are appended, at most two, the first slot's before the second's. */
  lemma CandidatesAreUsablePaths(prefs: Store, dataPath: string, fs: FileSystem)
    ensures var added := Candidates(prefs, dataPath, fs);
      var first, second := prefs.GetString(DllPathKey), prefs.GetString(CSharpDllPathKey);
      && |added| <= 2
      && (forall path :: path in added ==> path != "" && IsUsableAnalyzer(path, dataPath, fs))
      && (IsUsableAnalyzer(first, dataPath, fs) ==> added[0] == first)
      && (IsUsableAnalyzer(second, dataPath, fs) ==> added[|added| - 1] == second)
      && (|added| == 2 <==> IsUsableAnalyzer(first, dataPath, fs) && IsUsableAnalyzer(second, dataPath, fs))
  {
  }

  /** Empty or missing paths are skipped without error. */
  lemma UnusablePathsSkipped(prefs: Store, dataPath: string, fs: FileSystem)
    requires !IsUsableAnalyzer(prefs.GetString(DllPathKey), dataPath, fs)
    requires !IsUsableAnalyzer(prefs.GetString(CSharpDllPathKey), dataPath, fs)
    ensures Candidates(prefs, dataPath, fs) == []
  {
  }

  /** The same usable path in both slots is appended twice. */
  lemma SamePathAppendedTwice(prefs: Store, dataPath: string, fs: FileSystem)
    requires prefs.GetString(DllPathKey) == prefs.GetString(CSharpDllPathKey)
    requires IsUsableAnalyzer(prefs.GetString(DllPathKey), dataPath, fs)
    ensures Candidates(prefs, dataPath, fs) == [prefs.GetString(DllPathKey), prefs.GetString(DllPathKey)]
  {
  }

  /** A project that already has analyzer items keeps them and is not written. */
  lemma ExistingItemsKept(items: seq<string>, added: seq<string>)
    requires |items| > 0
    ensures PatchedItems(items, added) == items && PatchWrites(items, added) == 0
  {
  }

  /** One write exactly when the items grew, and the growth is what was appended. */
  lemma WriteIffAppended(items: seq<string>, added: seq<string>)
    ensures PatchWrites(items, added) == 1 <==> |PatchedItems(items, added)| > |items|
    ensures PatchWrites(items, added) == 1 ==> PatchedItems(items, added) == items + added
  {
  }

  /** Once a refresh has left any item in place, no later refresh changes or writes the project. */
  lemma RefreshIsStable(items: seq<string>, added: seq<string>, later: seq<string>)
    requires PatchedItems(items, added) != []
    ensures PatchedItems(PatchedItems(items, added), later) == PatchedItems(items, added)
    ensures PatchWrites(PatchedItems(items, added), later) == 0
  {
  }

  /** The enable toggle plays no part: setting it to any value leaves the appended paths as they were. */
  lemma {:induction false} EnabledFlagIgnored(prefs: Store, dataPath: string, fs: FileSystem, value: int)
    ensures Candidates(Store(prefs.entries[EnabledKey := IntPref(value)]), dataPath, fs)
            == Candidates(prefs, dataPath, fs)
  {
    assert |EnabledKey| != |DllPathKey| && |EnabledKey| != |CSharpDllPathKey|;
  }

  /** When no solution is found, the refresh has no editor project to act on. */
  lemma {:induction false} NoSolutionNoPatch(dataPath: string, fs: FileSystem, projects: map<string, EditorProject>)
    requires |dataPath| >= 6
    requires Resolve(ProjectRoot(dataPath), fs) == None
    ensures Target(dataPath, fs, projects) == null
  {
  }

  // ---------------------------------------------------------------------------
  // The window's preference cache

  /** The static fields behind the window: the two cached paths and the cached toggle. */
  class AnalyzerSettings {
    var dllPathAssemblyEditor: string
    var csharpDllPathAssemblyEditor: string
    var enabled: Option<bool>

    /** Static fields start unset: null strings (here "") and a null toggle. */
    constructor ()
      ensures dllPathAssemblyEditor == "" && csharpDllPathAssemblyEditor == "" && enabled == None
    {
      dllPathAssemblyEditor := "";
      csharpDllPathAssemblyEditor := "";
      enabled := None;
    }

    /** `CheckParameters`: fills each cached path only while it is empty, and the toggle only while it is unset. */
    method CheckParameters(prefs: Store)
      modifies this
      ensures dllPathAssemblyEditor ==
        if old(dllPathAssemblyEditor) == "" then prefs.GetString(DllPathKey) else old(dllPathAssemblyEditor)
      ensures csharpDllPathAssemblyEditor ==
        if old(csharpDllPathAssemblyEditor) == "" then prefs.GetString(CSharpDllPathKey) else old(csharpDllPathAssemblyEditor)
      ensures enabled ==
        if old(enabled) == None then Some(prefs.GetInt(EnabledKey, 0) == 1) else old(enabled)
      ensures enabled.Some?
    {
      if dllPathAssemblyEditor == "" {
        dllPathAssemblyEditor := prefs.GetString(DllPathKey);
      }
      if csharpDllPathAssemblyEditor == "" {
        csharpDllPathAssemblyEditor := prefs.GetString(CSharpDllPathKey);
      }
      if enabled == None {
        enabled := Some(prefs.GetInt(EnabledKey, 0) == 1);
      }
    }
  }

  // ---------------------------------------------------------------------------
  // The asset postprocessor (editors older than 2017.3)

  /**
    `asset.ToLower().EndsWith(".cs")`: a path is a script path exactly when it
    ends in '.', 'c' or 'C', 's' or 'S'.
   */
  function IsScriptPath(asset: string): (script: bool)
    ensures script <==>
      && |asset| >= 3
      && asset[|asset| - 3] == '.'
      && (asset[|asset| - 2] == 'c' || asset[|asset| - 2] == 'C')
      && (asset[|asset| - 1] == 's' || asset[|asset| - 1] == 'S')
  {
    EndsWith(ToLower(asset), ".cs")
  }

  /** `assets.Any(IsScriptPath)`. */
  function AnyScript(assets: seq<string>): (r: bool)
    ensures r <==> exists i :: 0 <= i < |assets| && IsScriptPath(assets[i])
  {
    if assets == [] then false
    else
      var r := IsScriptPath(assets[0]) || AnyScript(assets[1..]);
      assert forall i :: 1 <= i < |assets| ==> assets[1..][i - 1] == assets[i];
      r
  }

  /**
    Some imported, deleted, moved or moved-from asset is a C# script: the trigger
    fires exactly when some path of the four lists, taken together, is a script path.
   */
  function ShouldRepatch(importedAssets: seq<string>, deletedAssets: seq<string>,
                         movedAssets: seq<string>, movedFromAssetPaths: seq<string>): (fire: bool)
    ensures fire <==>
      exists asset :: asset in importedAssets + deletedAssets + movedAssets + movedFromAssetPaths
        && IsScriptPath(asset)
  {
    AnyScript(importedAssets) || AnyScript(deletedAssets)
      || AnyScript(movedAssets) || AnyScript(movedFromAssetPaths)
  }

  /**
    `OnPostprocessAllAssets`: a refresh when some changed asset is a script,
    otherwise nothing. `ModifyCSProject` runs the refresh as written, so a
    missing solution makes it throw.
   */
  method OnPostprocessAllAssets(importedAssets: seq<string>, deletedAssets: seq<string>,
                                movedAssets: seq<string>, movedFromAssetPaths: seq<string>,
                                dataPath: string, fs: FileSystem, prefs: Store,
                                projects: map<string, EditorProject>) returns (outcome: Outcome)
    modifies projects.Values
    ensures !ShouldRepatch(importedAssets, deletedAssets, movedAssets, movedFromAssetPaths) ==>
      outcome == Completed && Untouched(projects, null)
    ensures (&& ShouldRepatch(importedAssets, deletedAssets, movedAssets, movedFromAssetPaths)
             && |dataPath| >= 6 && Resolve(ProjectRoot(dataPath), fs) == None) ==>
      outcome == Threw(NullReference) && Untouched(projects, null)
    ensures (&& ShouldRepatch(importedAssets, deletedAssets, movedAssets, movedFromAssetPaths)
             && (|dataPath| < 6 || Resolve(ProjectRoot(dataPath), fs).Some?)) ==>
      Refreshed(dataPath, fs, prefs, projects, outcome)
  {
    outcome := Completed;
    if ShouldRepatch(importedAssets, deletedAssets, movedAssets, movedFromAssetPaths) {
      outcome := OnCSProjectModifiedAsWritten(dataPath, fs, prefs, projects);
    }
  }
}
