# Unity code-analyzer plugin: verified model of the editor-project patch rule

The plugin keeps a Roslyn analyzer registered in the editor project that Unity
generates. After each compilation it:

1. takes the project root as `Application.dataPath` minus its trailing `Assets`;
2. resolves the solution (`UnitySolution.Parse`): the root must be non-empty and
   hold `<dirname>.sln`, and the root and `<root>/Assets` must exist. The `.sln`
   text, lower-cased, is searched for `assembly-csharp.csproj`. If the marker is
   found, the editor project is `Assembly-CSharp-Editor.csproj`. Otherwise it is
   `<dirname>.Editor.csproj`;
3. if that editor project has no analyzer items, appends each of the two
   configured analyzer paths that is non-empty and exists, either as given or
   under the data path, and writes the project once if anything was appended.

The model states this in Dafny:

- `Text` holds lower-casing, substring search and suffix test.
- `FileSystems` holds a value snapshot of the file system, `Path.Combine` and
  `DirectoryInfo.Name`.
- `UnitySolutions` holds the solution resolution: `Resolve` as a value and
  `Parse` step by step.
- `PlayerPrefs` holds the preference store the plugin reads.
- `UnityCSProjects` holds the editor project as an object with analyzer items
  and a write counter.
- `CodeAnalyzerEditorWindow` holds the patch rule, the refresh, the window's
  preference cache and the `.cs` trigger.

The `.cs` trigger is the asset postprocessor meant for editors before 2017.3:
it refreshes after a C# script is imported, deleted or moved. As written, that
branch of `CodeAnalyzerEditorWindow.cs` does not compile. The namespace opened at
line 12 is closed only at line 142, inside the `#if UNITY_2017_3_OR_NEWER`
branch, so in the `#else` branch the namespace is never closed. The model takes
the postprocessor with the namespace closed, which is evidently what was meant.

Behaviour the model keeps from the code:

- A missing editor project does not abort resolution. It is only logged.
- Appended analyzers are not de-duplicated.
- A configured path is looked up as given and under the data path (the `Assets`
  folder). A relative path given as is resolves against the editor's working
  directory, which is the project root. The model treats it as a key of the
  file-system snapshot and does not resolve it.
- The refresh returns nothing. Whether it wrote is the project's write counter.

## Model

| member | source | states |
|---|---|---|
| `Text.ToLower` | Assets/UnityCodeAnalyzer/Editor/UnitySolution.cs:39 | `ToLower` keeps the length and maps every character to its lower-case form |
| `Text.Contains` | Assets/UnityCodeAnalyzer/Editor/UnitySolution.cs:39 | the search succeeds exactly when the pattern is a prefix of some suffix of the text |
| `Text.ContainsLowered` | Assets/UnityCodeAnalyzer/Editor/UnitySolution.cs:39 | lower-casing the text and then searching for an all-lower-case pattern is exactly a case-insensitive search |
| `Text.ToLowerEqualIff` | Assets/UnityCodeAnalyzer/Editor/UnitySolution.cs:39 | two texts lower-case to the same string exactly when they differ only in letter case |
| `FileSystems.CombineRelative` | Assets/UnityCodeAnalyzer/Editor/UnitySolution.cs:29 | `Path.Combine` of a base and a relative name is a prefix fixed by the base followed by the name, so the result ends with the name |
| `FileSystems.CombineInjective` | Assets/UnityCodeAnalyzer/Editor/UnitySolution.cs:55-59 | under one base, two relative names combine to the same path only if they are equal |
| `FileSystems.Combine` | Assets/UnityCodeAnalyzer/Editor/UnitySolution.cs:29 | `Path.Combine(a, b)` ends with `b`; a rooted `b` is the result; otherwise the result starts with `a` |
| `FileSystems.DirectoryName` | Assets/UnityCodeAnalyzer/Editor/UnitySolution.cs:26-28 | `DirectoryInfo.Name` is a separator-free final part of the path without its trailing separator |
| `FileSystems.FileName` | Assets/UnityCodeAnalyzer/Editor/UnitySolution.cs:28 | the last path component is the separator-free suffix that follows the last separator |
| `FileSystems.DirectoryNameOf` | Assets/UnityCodeAnalyzer/Editor/UnitySolution.cs:26-28 | `DirectoryInfo.Name` of `parent/name` and of `parent/name/` is `name` |
| `PlayerPrefs.Store.GetString` | Assets/UnityCodeAnalyzer/Editor/CodeAnalyzerEditorWindow.cs:36 | a stored string is returned as is; a non-empty result is the string stored under the key, so a missing key or a non-string entry gives "" |
| `PlayerPrefs.Store.GetInt` | Assets/UnityCodeAnalyzer/Editor/CodeAnalyzerEditorWindow.cs:65 | the stored integer when there is one, the fallback when the key is absent |
| `UnityCSProjects.EditorProject.constructor` | Assets/UnityCodeAnalyzer/Editor/UnitySolution.cs:70 | a loaded project holds the file's analyzer items and has not been written |
| `UnityCSProjects.EditorProject.AddAnalyzer` | Assets/UnityCodeAnalyzer/Editor/CodeAnalyzerEditorWindow.cs:40 | appends exactly one item at the end and does not write |
| `UnityCSProjects.EditorProject.WriteToFile` | Assets/UnityCodeAnalyzer/Editor/CodeAnalyzerEditorWindow.cs:52 | records one write and leaves the items as they are |
| `UnitySolutions.Resolve` | Assets/UnityCodeAnalyzer/Editor/UnitySolution.cs:18-73 | a solution is returned only when `<root>/<dirname>.sln` and `<root>/Assets` exist, and it names the editor project of one of the two schemes |
| `UnitySolutions.Parse` | Assets/UnityCodeAnalyzer/Editor/UnitySolution.cs:18-73 | the step-by-step parse with early returns gives exactly the solution `Resolve` describes |
| `UnitySolutions.ResolveFailsIff` | Assets/UnityCodeAnalyzer/Editor/UnitySolution.cs:22-53 | null exactly when the root is empty, `<root>/<dirname>.sln` is missing, the root is missing or `<root>/Assets` is missing |
| `UnitySolutions.SolutionFileNeverAssigned` | Assets/UnityCodeAnalyzer/Editor/UnitySolution.cs:11-13 | a successful parse leaves `SlnFile` at its default |
| `UnitySolutions.LegacyMarkerIgnoresCase` | Assets/UnityCodeAnalyzer/Editor/UnitySolution.cs:38-42 | the legacy test holds exactly when the solution text contains `assembly-csharp.csproj` in any mix of case |
| `UnitySolutions.SchemesDiffer` | Assets/UnityCodeAnalyzer/Editor/UnitySolution.cs:55-61 | the legacy and the current editor project paths are never the same path, whatever the directory name |
| `UnitySolutions.LegacySchemeIff` | Assets/UnityCodeAnalyzer/Editor/UnitySolution.cs:38-61 | the editor project is `<root>/Assembly-CSharp-Editor.csproj` exactly when the marker occurs case-insensitively, and `<root>/<dirname>.Editor.csproj` otherwise |
| `UnitySolutions.ResolveIgnoresCase` | Assets/UnityCodeAnalyzer/Editor/UnitySolution.cs:36-42 | replacing the solution text by any case variant of it gives the same result |
| `UnitySolutions.MissingEditorProjectStillResolves` | Assets/UnityCodeAnalyzer/Editor/UnitySolution.cs:63-72 | deleting the chosen editor project file does not change the result: the solution is still returned |
| `UnitySolutions.StandardLayoutResolves` | Assets/UnityCodeAnalyzer/Editor/UnitySolution.cs:22-53 | a directory `<parent>/<name>/` holding `<name>.sln` and `Assets` always resolves to a solution, and its directory name is `name` |
| `UnitySolutions.CurrentSchemeScenario` | Assets/UnityCodeAnalyzer/Editor/UnitySolution.cs:26-72 | for `<parent>/<name>/` holding `<name>.sln` without the marker and `Assets`, the editor project is `<parent>/<name>/<name>.Editor.csproj` |
| `UnitySolutions.LegacySchemeScenario` | Assets/UnityCodeAnalyzer/Editor/UnitySolution.cs:26-72 | for the same layout with the marker in the solution, the editor project is `<parent>/<name>/Assembly-CSharp-Editor.csproj` |
| `CodeAnalyzerEditorWindow.ProjectRoot` | Assets/UnityCodeAnalyzer/Editor/CodeAnalyzerEditorWindow.cs:27 | the root is the data path without its last six characters; for a data path ending in `Assets` it is what precedes `Assets` |
| `CodeAnalyzerEditorWindow.IsUsableAnalyzer` | Assets/UnityCodeAnalyzer/Editor/CodeAnalyzerEditorWindow.cs:37-38 | a usable path is non-empty; an absolute path is usable exactly when it exists as given |
| `CodeAnalyzerEditorWindow.Candidates` | Assets/UnityCodeAnalyzer/Editor/CodeAnalyzerEditorWindow.cs:36-49 | every appended path is one of the two configured paths |
| `CodeAnalyzerEditorWindow.EditorProjectOf` | Assets/UnityCodeAnalyzer/Editor/UnitySolution.cs:70 | `UnityCSProject.Parse` gives a project exactly when one is loaded from that path, and it is one of the known projects |
| `CodeAnalyzerEditorWindow.BothConfiguredAppended` | Assets/UnityCodeAnalyzer/Editor/CodeAnalyzerEditorWindow.cs:36-49 | two non-empty configured paths that exist as given are both appended, the first slot's first |
| `CodeAnalyzerEditorWindow.PatchEditorProject` | Assets/UnityCodeAnalyzer/Editor/CodeAnalyzerEditorWindow.cs:33-55 | with no items, the usable configured paths are appended in order and the project is written once if any was appended; with items, nothing changes |
| `CodeAnalyzerEditorWindow.OnCSProjectModifiedAsWritten` | Assets/UnityCodeAnalyzer/Editor/CodeAnalyzerEditorWindow.cs:25-57 | as written: a data path shorter than 6 throws `ArgumentOutOfRangeException`; a missing solution throws `NullReferenceException` and changes nothing; otherwise the refresh patches the editor project and nothing else |
| `CodeAnalyzerEditorWindow.NullDereferenceWitness` | Assets/UnityCodeAnalyzer/Editor/CodeAnalyzerEditorWindow.cs:27-30 | a Unity project at `/work/Proj/` with no solution file yet makes the as-written refresh throw `NullReferenceException` |
| `CodeAnalyzerEditorWindow.OnCSProjectModified` | Assets/UnityCodeAnalyzer/Editor/CodeAnalyzerEditorWindow.cs:25-57 | with the null check: a missing solution or editor project leaves every project untouched; otherwise only the editor project changes, exactly as the patch rule says |
| `CodeAnalyzerEditorWindow.RefreshScenario` | Assets/UnityCodeAnalyzer/Editor/CodeAnalyzerEditorWindow.cs:25-57 | an empty editor project of `<parent>/<name>/` with both configured analyzers present ends with exactly those two items, in order, after one write |
| `CodeAnalyzerEditorWindow.CandidatesAreUsablePaths` | Assets/UnityCodeAnalyzer/Editor/CodeAnalyzerEditorWindow.cs:36-49 | at most two paths are appended, each non-empty and present as given or under the data path, the first slot's before the second's |
| `CodeAnalyzerEditorWindow.UnusablePathsSkipped` | Assets/UnityCodeAnalyzer/Editor/CodeAnalyzerEditorWindow.cs:37-45 | empty or missing paths in both slots mean nothing is appended, without error |
| `CodeAnalyzerEditorWindow.SamePathAppendedTwice` | Assets/UnityCodeAnalyzer/Editor/CodeAnalyzerEditorWindow.cs:36-49 | the same usable path in both slots is appended twice |
| `CodeAnalyzerEditorWindow.ExistingItemsKept` | Assets/UnityCodeAnalyzer/Editor/CodeAnalyzerEditorWindow.cs:33 | a project that already has analyzer items keeps exactly those items and is not written |
| `CodeAnalyzerEditorWindow.WriteIffAppended` | Assets/UnityCodeAnalyzer/Editor/CodeAnalyzerEditorWindow.cs:35-52 | the project is written once exactly when its items grew, and the growth is exactly the appended paths |
| `CodeAnalyzerEditorWindow.RefreshIsStable` | Assets/UnityCodeAnalyzer/Editor/CodeAnalyzerEditorWindow.cs:33 | once a refresh leaves any item in place, every later refresh changes and writes nothing, whatever is configured then |
| `CodeAnalyzerEditorWindow.EnabledFlagIgnored` | Assets/UnityCodeAnalyzer/Editor/CodeAnalyzerEditorWindow.cs:18-57 | any value of the enable preference leaves the appended paths unchanged, so the toggle never influences patching |
| `CodeAnalyzerEditorWindow.NoSolutionNoPatch` | Assets/UnityCodeAnalyzer/Editor/CodeAnalyzerEditorWindow.cs:28-31 | when no solution is found, the refresh has no editor project to act on |
| `CodeAnalyzerEditorWindow.AnalyzerSettings.constructor` | Assets/UnityCodeAnalyzer/Editor/CodeAnalyzerEditorWindow.cs:20-22 | the cached paths start empty and the cached toggle unset |
| `CodeAnalyzerEditorWindow.AnalyzerSettings.CheckParameters` | Assets/UnityCodeAnalyzer/Editor/CodeAnalyzerEditorWindow.cs:59-66 | each cached path is filled from its preference only while empty; the toggle is filled only while unset, as `GetInt(key, 0) == 1`; afterwards the toggle is set |
| `CodeAnalyzerEditorWindow.AnyScript` | Assets/UnityCodeAnalyzer/Editor/CodeAnalyzerEditorWindow.cs:149-152 | `Any` holds exactly when some element of the list ends in `.cs` ignoring case |
| `CodeAnalyzerEditorWindow.IsScriptPath` | Assets/UnityCodeAnalyzer/Editor/CodeAnalyzerEditorWindow.cs:149 | a path ends in `.cs` ignoring case exactly when its last three characters are `.`, `c` or `C`, `s` or `S` |
| `CodeAnalyzerEditorWindow.ShouldRepatch` | Assets/UnityCodeAnalyzer/Editor/CodeAnalyzerEditorWindow.cs:149-152 | the trigger fires exactly when some path in the four lists, taken together, ends in `.cs` ignoring case |
| `CodeAnalyzerEditorWindow.OnPostprocessAllAssets` | Assets/UnityCodeAnalyzer/Editor/CodeAnalyzerEditorWindow.cs:146-161 | with no script among the changed assets nothing changes; otherwise the refresh runs as written: a missing solution throws `NullReferenceException` and changes nothing, and otherwise it patches the editor project and nothing else |

## Left out

- The editor window UI is not modelled: `OnGUI`, `OpenWindow`, the toggle, the text fields and the file-picker dialogs. These are host UI.
- `GetRelativePath` is not modelled. It only wraps `System.Uri`'s relative-URI and unescaping behaviour.
- `PlayerPrefs.SetString`/`SetInt` are not modelled, since only the window's UI calls them. The store is an input value.
- `OnCompilationFinished` and the `[InitializeOnLoad]` event subscription are not modelled. The callback only calls the refresh, so it adds nothing beyond `OnCSProjectModified`.
- The `UNITY_2017_3_OR_NEWER` switch between the two triggers is not modelled. Only the postprocessor trigger is modelled; the compilation callback is left out, as the entry above says.
- `CodeAnalyzerEditorWindow.IsScriptPath`: `String.EndsWith` is modelled as an ordinal, character-by-character comparison. The source's `EndsWith(string)` compares with the current culture, which also ignores some code points (such as the soft hyphen U+00AD); that is not modelled.
- `UnityCSProject` is not part of this model. Its XML parsing, `AnalyzerItems`, `AddAnalyzer` and `WriteToFile` are abstracted as a sequence of items and a write counter. `UnityCSProject.Parse` is a lookup in a map from path to project object: a missing key stands for null.
- The source parses the project afresh on each call. In the model, one project object stands for the file on disk across calls.
- File-system errors are left out: `File.ReadAllText` throwing and `WriteToFile` failing. The file system is a snapshot value.
- `DirectoryInfo.FullName` is taken to be the path itself, so no resolution against the working directory and no `..` normalisation. `File.Exists` is membership in the snapshot's file map, whose keys are the strings it accepts.
- Only Unix paths are modelled: the separator is `/`, a rooted path starts with `/`, and there are no `\` separators or drive letters. `DirectoryInfo.Name` of the root `/` is modelled as "".
- `String.ToLower` is modelled for ASCII letters only. Culture-specific case mappings, such as the Turkish dotted I, are not modelled.
- `Debug.Log` and `Debug.LogError` diagnostics are not modelled.
- Null strings are modelled as "", which `string.IsNullOrEmpty` treats the same way.

## Findings

| source | as written | input that shows it | evidently intended | confidence | as-written member | corrected member |
|---|---|---|---|---|---|---|
| Assets/UnityCodeAnalyzer/Editor/CodeAnalyzerEditorWindow.cs:28-30 | `solution.AssemblyCSharpEditor` is read without checking whether `UnitySolution.Parse` returned null | `Application.dataPath` = `/work/Proj/Assets` when `/work/Proj/Proj.sln` has not been generated yet, so `Parse` returns null and the refresh throws `NullReferenceException` on every compilation | when there is no solution, do nothing, as the code already does for a missing editor project | high, not executed | `CodeAnalyzerEditorWindow.OnCSProjectModifiedAsWritten` | `CodeAnalyzerEditorWindow.OnCSProjectModified` |
