# Quadriflow remesher: executable resolution, command line and temp-file cleanup

A Blender add-on whose one operator, `QuadriflowRemesher`, remeshes the
selected mesh by running the external Quadriflow executable. This project
models the part of that operator with behaviour of its own:

- **Executable resolution** (`find_quadriflow`): a name chosen from the
  platform string (`quadriflow`, `quadriflow_osx`, or `quadriflow.exe` for
  every other platform), the `cuda_` prefix when CUDA is on, joined under
  `<install dir>/bin` (modules `Resolver` and `Paths`, the latter modelling
  POSIX `os.path.join` and the components of a path).
- **The temporary workspace**: the input path `mkstemp` creates and the
  output path, the input path followed by `.output` (module `Workspace`).
- **The command line**: the seven-element vector
  `[exe, -i, input, -o, output, -f, str(faces)]`, then `-sharp`, `-adaptive`,
  `-mcf` for the enabled options, each placed with Python's
  `list.insert(-1, flag)` (module `Command`, with `Decimal` for `str(int)`).
  `insert(-1, …)` puts a flag before the last element, so the flags land
  between `-f` and the face count; the model follows that, and
  `Command.FaceSwitchOperand` states the consequence: the token after `-f`
  is the face count exactly when no option is on.
- **`execute` and its `finally` block** (module `Remesher`): the file
  system is a class holding the set of existing file paths; the Blender
  export, the Quadriflow run and the Blender import are host steps given as
  parameters, each of which may remove and create files and then raise.
  Whatever the steps do, neither temporary path exists when `execute` ends,
  and `os.remove` is only called on paths that exist (its precondition).

Three behaviours of the code are easy to miss; the model keeps them:

- `find_quadriflow` gives an unknown platform string the Windows name
  rather than an error;
- `insert(-1, …)` puts the optional flags before the face count, not
  after it;
- Quadriflow's exit status is never read: a failing run still goes on to
  the import, and `execute` returns `{'FINISHED'}` whenever no exception
  escapes.

## Model

| member | source | states |
|---|---|---|
| Resolver.BaseName | __init__.py:80-85 | the name is `quadriflow` iff the platform is `linux`, `quadriflow_osx` iff `darwin`, `quadriflow.exe` iff neither (a fallback, never an error); every name starts with `quadriflow` |
| Resolver.ExeName | __init__.py:87-88 | the name starts with `cuda_` iff CUDA is on, ends with the base name, and is exactly five characters longer with CUDA; it contains no separator |
| Resolver.ExeNameInjective | __init__.py:80-88 | two names are equal iff their platform classes and CUDA switches are equal: the six names are pairwise distinct |
| Resolver.FindQuadriflow | __init__.py:79-92 | the resolved path's components are the install directory's, then `bin`, then the executable name; the path starts with the install directory and is longer than it |
| Resolver.FindQuadriflowDistinct | __init__.py:79-92 | within one install directory, two resolved paths are equal iff platform class and CUDA switch agree |
| Resolver.LinuxPathExample | __init__.py:80-92 | Linux without CUDA, under an install directory with no trailing separator (such as `/addons/quadriflow`), resolves to `<dir>/bin/quadriflow` |
| Paths.Join | __init__.py:92 | POSIX `os.path.join(a, b)`: an absolute `b` replaces `a`; otherwise the result starts with `a`, ends with `b`, and has one separator between them exactly when `a` is non-empty and does not already end in one |
| Paths.JoinComponents | __init__.py:92 | `os.path.join` of a path and a separator-free name appends that name to the path's components and keeps the path as prefix |
| Paths.JoinTwice | __init__.py:92 | `os.path.join(dir, "bin", name)` has the components of `dir`, then `bin`, then `name` |
| Decimal.NatToDecimal | __init__.py:105 | the digits of a natural number are a canonical numeral (digits only, no leading zero), and are `"0"` iff the number is 0 |
| Decimal.IntToDecimal | __init__.py:105 | `str(faces)` is a well-formed decimal and starts with `-` iff the count is negative |
| Decimal.NatRoundTrip | __init__.py:105 | reading back the digits of a natural number gives the number |
| Decimal.DecimalRoundTrip | __init__.py:105 | parsing `str(faces)` gives back `faces`, for every integer |
| Decimal.DecimalInjective | __init__.py:105 | different face counts give different strings |
| Workspace.TempPath | __init__.py:97 | the `mkstemp` path starts with the temp directory and ends in `.obj`; for a token without separators its components are the temp directory's followed by the single name `blender_quadriflow` + token + `.obj`, so the file lies directly in the temp directory |
| Workspace.OutputPath | __init__.py:98 | the output path has the input path as a proper prefix followed by `.output`, so it never equals the input path |
| Workspace.OutputPathInjective | __init__.py:98 | different input paths give different output paths |
| Workspace.OutputIsNeverTempPath | __init__.py:97-98 | no output path equals any path `mkstemp` hands out, so removing the output path never deletes a file `mkstemp` created |
| Command.InsertIndex | __init__.py:108-114 | the position Python's `list.insert` uses: at most the length; an in-range non-negative index is kept, an in-range negative one counts from the end, and out-of-range indices clamp to the nearest end |
| Command.Insert | __init__.py:108-114 | `list.insert(i, x)` gives a list one element longer with `x` at the normalised position |
| Command.InsertSpec | __init__.py:108 | Python's `list.insert(i, x)` adds one element `x` at the normalised index; removing it gives back the list; the multiset grows by `x` |
| Command.InsertBeforeLast | __init__.py:107-114 | `insert(-1, x)` on a non-empty list puts `x` just before the last element, not after it |
| Command.InsertFlag | __init__.py:107-114 | one `insert(-1, flag)` on a vector ending in the face count appends the flag to the flags already placed and keeps the count last |
| Command.BuildArguments | __init__.py:105-114 | the vector built by the seven-element literal and the conditional inserts equals executable, `-i` input, `-o` output, `-f`, the enabled flags in order, and the face count |
| Command.ExpectedArguments | __init__.py:105-114 | the vector has 7 elements plus one per enabled option, its first six elements are fixed, its last is the face count and the enabled flags sit between |
| Command.FlagsMatchOptions | __init__.py:107-114 | each flag is present iff its option is on, and present flags keep the order `-sharp`, `-adaptive`, `-mcf` |
| Command.FaceSwitchOperand | __init__.py:105-114 | the element after `-f` is the face count iff no option is on; otherwise it is the first enabled flag |
| Command.FaceCountReadable | __init__.py:105 | the last argument is a decimal that parses back to `faces` |
| Command.AdaptiveExample | __init__.py:105-114 | with only adaptive on and 800 faces the vector is `[exe, -i, in, -o, out, -f, -adaptive, 800]` |
| Remesher.FileSystem.constructor | __init__.py:94-97 | the file system starts with exactly the given files |
| Remesher.FileSystem.CreateFile | __init__.py:97-99 | `mkstemp` leaves the input path existing and nothing else changed |
| Remesher.FileSystem.Remove | __init__.py:124 | `os.remove` may only be called on an existing file, and removes just that path |
| Remesher.FileSystem.RemoveIfExists | __init__.py:123-126 | `if isfile: remove` removes the path if present and is a no-op otherwise, never calling `os.remove` on a missing file |
| Remesher.FileSystem.Perform | __init__.py:101-120 | a host step removes and creates exactly the files it names |
| Remesher.FilesBeforeCleanup | __init__.py:97-120 | when the `finally` block starts, every file existed before, is the input file, or was created by a step that ran; the input file is there unless a step that ran removed it |
| Remesher.FinalFiles | __init__.py:122-126 | after cleanup neither temporary path exists, and nothing other than the two temporary paths is deleted by the cleanup |
| Remesher.ExecuteOutcome | __init__.py:101-128 | `execute` finishes iff no stage raises; otherwise the first stage that raised decides the exception |
| Remesher.Execute | __init__.py:94-128 | on every path, neither temporary file exists afterwards; the final files equal `FinalFiles` of the files before, the outcome equals `ExecuteOutcome` of the three steps, and the vector launched is `ExpectedArguments(FindQuadriflow(platform, cuda, installDir), input, OutputPath(input), options)` unless the export raised, in which case nothing is launched |
| Remesher.UntouchedFilesSurvive | __init__.py:122-126 | a pre-existing file that no reached step removed and that is not a temporary path still exists afterwards |
| Remesher.ExitStatusIgnored | __init__.py:117-128 | runs that differ only in exit status end the same way and leave the same files |

## Left out

- Blender's `export_scene.obj` and `import_scene.obj` (lines 103, 120) are host calls: each is a `HostStep` parameter that may remove and create files and may raise; the mesh data is not modelled.
- `subprocess.run` (line 117) is a `ToolRun` parameter: an effect on the files and an exit status; the process itself and its output are not modelled.
- `tempfile.mkstemp` and `os.close` (lines 97-99): the random part of the name is a parameter (`token`), the uniqueness guarantee of the OS is not modelled, and the file descriptor is not modelled.
- `importlib.find_loader(__name__).path` and `os.path.dirname` (lines 90-91): the install directory is a parameter; the case where the loader is missing and `find_quadriflow` raises is not modelled.
- Paths.Join: models POSIX `os.path.join`; the Windows rules (backslash separator, drive letters) are not modelled.
- Remesher.FileSystem.Remove: errors `os.remove` can raise on an existing file (permissions, a file in use) are not modelled, so cleanup itself never raises; directories are not modelled, so `os.path.isfile` is membership in the set of files.
- The Blender property declarations and their defaults and UI metadata (lines 48-77) are not modelled: `Options` carries the values one execution reads.
- `bl_info`, `register`, `unregister` and the `__main__` block (lines 21-28, 131-138) are host registration plumbing.
- The `print` calls (lines 102, 116, 119) are logging only.
