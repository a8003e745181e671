/**
  The part of the file system the plugin looks at, as values: which files exist
  (with their text, for `File.Exists` and `File.ReadAllText`) and which
  directories exist (`Directory.Exists`, `DirectoryInfo.Exists`); and the
  Unix-style path helpers `Path.Combine` and `DirectoryInfo.Name`.
 */
module FileSystems {
  import opened Text

  const Separator: char := '/'

  /**
    A snapshot of the file system. `files` maps every path string that
    `File.Exists` accepts to the text `File.ReadAllText` returns for it;
    `dirs` holds every path string `Directory.Exists` accepts.
   */
  datatype FileSystem = FileSystem(files: map<string, string>, dirs: set<string>)
  {
    predicate FileExists(path: string) { path in files }
    predicate DirectoryExists(path: string) { path in dirs }
  }

  /** `Path.IsPathRooted` on Unix. */
  predicate IsRooted(path: string)
  {
    |path| > 0 && path[0] == Separator
  }

  /** `Path.Combine(a, b)`: a rooted `b` wins; otherwise a separator is inserted when `a` lacks one. */
  function Combine(a: string, b: string): (r: string)
    ensures EndsWith(r, b)
    ensures !IsRooted(b) ==> a <= r
    ensures IsRooted(b) ==> r == b
  {
    if b == "" then a
    else if a == "" || IsRooted(b) then b
    else if a[|a| - 1] == Separator then a + b
    else a + [Separator] + b
  }

  /** What `Combine(a, b)` puts in front of a relative, non-empty `b`. */
  function CombinePrefix(a: string): string
  {
    if a == "" || a[|a| - 1] == Separator then a else a + [Separator]
  }

  /** A relative `b` is appended to a prefix that depends on `a` alone, so it is recovered from the result. */
  lemma CombineRelative(a: string, b: string)
    requires b != "" && !IsRooted(b)
    ensures Combine(a, b) == CombinePrefix(a) + b
    ensures EndsWith(Combine(a, b), b)
  {
  }

  /** Under one base directory, two relative names give the same path only if they are the same name. */
  lemma CombineInjective(a: string, b1: string, b2: string)
    requires b1 != "" && !IsRooted(b1)
    requires b2 != "" && !IsRooted(b2)
    ensures Combine(a, b1) == Combine(a, b2) <==> b1 == b2
  {
    CombineRelative(a, b1);
    CombineRelative(a, b2);
    var p := CombinePrefix(a);
    if Combine(a, b1) == Combine(a, b2) {
      assert b1 == (p + b1)[|p|..] == (p + b2)[|p|..] == b2;
    }
  }

  /** The last component of a path: the longest suffix without a separator. */
  function FileName(path: string): (name: string)
    ensures Separator !in name
    ensures EndsWith(path, name)
    ensures |name| < |path| ==> path[|path| - |name| - 1] == Separator
  {
    if path == [] || path[|path| - 1] == Separator then
      []
    else
      var name := FileName(path[..|path| - 1]) + [path[|path| - 1]];
      assert path[..|path| - 1] + [path[|path| - 1]] == path;
      name
  }

  /** One trailing separator is dropped, unless the path is the root itself. */
  function TrimEndingSeparator(path: string): string
  {
    if |path| > 1 && path[|path| - 1] == Separator then path[..|path| - 1] else path
  }

  /** `new DirectoryInfo(path).Name`. */
  function DirectoryName(path: string): (name: string)
    ensures Separator !in name
    ensures EndsWith(TrimEndingSeparator(path), name)
  {
    FileName(TrimEndingSeparator(path))
  }

  /** The name of `parent/name`, with or without a trailing separator, is `name`. */
  lemma {:induction false} DirectoryNameOf(parent: string, name: string)
    requires name != [] && Separator !in name
    ensures DirectoryName(parent + [Separator] + name) == name
    ensures DirectoryName(parent + [Separator] + name + [Separator]) == name
  {
    var p := parent + [Separator] + name;
    assert (p + [Separator])[..|p|] == p;
    FileNameAfterSeparator(parent, name);
  }

  lemma {:induction false} FileNameAfterSeparator(parent: string, name: string)
    requires Separator !in name
    ensures FileName(parent + [Separator] + name) == name
    decreases |name|
  {
    var p := parent + [Separator] + name;
    if name != [] {
      var init := name[..|name| - 1];
      assert p[..|p| - 1] == parent + [Separator] + init;
      FileNameAfterSeparator(parent, init);
      assert init + [name[|name| - 1]] == name;
    }
  }
}
