/** `QuadriflowRemesher.execute`: create the temporary input file, export
    the selection into it, run Quadriflow on it, import the result, and in
    a `finally` block delete whichever of the two temporary files exists.
    The file system is the set of paths that exist as files; the Blender
    export and import and the Quadriflow process are host steps given as
    parameters, each of which may remove and create files and then raise. */
module Remesher {
  import opened Resolver
  import opened Workspace
  import opened Command

  datatype Option<T> = None | Some(value: T)

  /** What a host step does: the files it removes, the files it creates,
      and whether it then raises an exception. */
  datatype HostStep = HostStep(removed: set<string>, created: set<string>, raises: bool)

  /** `subprocess.run`: its effect on the file system, and the exit status
      of the process, which `execute` never looks at. */
  datatype ToolRun = ToolRun(effect: HostStep, exitCode: int)

  datatype Stage = Export | Run | Import

  /** `{'FINISHED'}`, or the exception escaping from one stage. */
  datatype Outcome = Finished | Raised(stage: Stage)

  /** The files that exist after a host step. */
  function AfterStep(files: set<string>, step: HostStep): set<string>
  {
    files - step.removed + step.created
  }

  /** The files that exist when the `finally` block starts: the created
      input file, then the effect of each step reached, stopping after the
      first step that raises. Every file there existed before, is the
      input file, or was created by a step that ran; the input file is there
      unless a step that ran removed it. */
  function FilesBeforeCleanup(initial: set<string>, input: string, exportStep: HostStep, run: ToolRun, importStep: HostStep): (r: set<string>)
    ensures forall f :: f in r ==>
      || f in initial || f == input || f in exportStep.created
      || (!exportStep.raises && f in run.effect.created)
      || (!exportStep.raises && !run.effect.raises && f in importStep.created)
    ensures input !in r ==>
      || input in exportStep.removed
      || (!exportStep.raises && input in run.effect.removed)
      || (!exportStep.raises && !run.effect.raises && input in importStep.removed)
  {
    var exported := AfterStep(initial + {input}, exportStep);
    if exportStep.raises then exported
    else
      var ran := AfterStep(exported, run.effect);
      if run.effect.raises then ran
      else AfterStep(ran, importStep)
  }

  /** The files that exist when `execute` ends: neither temporary path
      survives, and nothing but the two temporary paths is deleted by the
      cleanup. */
  function FinalFiles(initial: set<string>, input: string, exportStep: HostStep, run: ToolRun, importStep: HostStep): (r: set<string>)
    ensures input !in r && OutputPath(input) !in r
    ensures r <= FilesBeforeCleanup(initial, input, exportStep, run, importStep)
    ensures forall f :: f in FilesBeforeCleanup(initial, input, exportStep, run, importStep) && f !in r ==>
      f == input || f == OutputPath(input)
  {
    FilesBeforeCleanup(initial, input, exportStep, run, importStep) - {input, OutputPath(input)}
  }

  /** How `execute` ends: the first stage that raises decides; the exit
      status of the Quadriflow process plays no part. */
  function ExecuteOutcome(exportStep: HostStep, run: ToolRun, importStep: HostStep): (o: Outcome)
    ensures o == Finished <==> !exportStep.raises && !run.effect.raises && !importStep.raises
    ensures o == Raised(Export) <==> exportStep.raises
    ensures o == Raised(Run) <==> !exportStep.raises && run.effect.raises
    ensures o == Raised(Import) <==> !exportStep.raises && !run.effect.raises && importStep.raises
  {
    if exportStep.raises then Raised(Export)
    else if run.effect.raises then Raised(Run)
    else if importStep.raises then Raised(Import)
    else Finished
  }

  /** The files of the host, as a set of paths that exist as files. */
  class FileSystem {
    var files: set<string>

    constructor (initial: set<string>)
      ensures files == initial
    {
      files := initial;
    }

    /** The file `mkstemp` creates and closes. */
    method CreateFile(path: string)
      modifies this
      ensures files == old(files) + {path}
    {
      files := files + {path};
    }

    /** `os.remove`, which fails on a path that does not exist: callers
        must only remove existing files. */
    method Remove(path: string)
      requires path in files
      modifies this
      ensures files == old(files) - {path}
    {
      files := files - {path};
    }

    /** Carries out a host step's effect on the files. */
    method Perform(step: HostStep)
      modifies this
      ensures files == AfterStep(old(files), step)
    {
      files := files - step.removed + step.created;
    }

    /** `if os.path.isfile(path): os.remove(path)`: removal is attempted
        only for an existing file, so a missing file is no error. */
    method RemoveIfExists(path: string)
      modifies this
      ensures files == old(files) - {path}
    {
      // `os.path.isfile(path)` is membership in the set of files.
      if path in files {
        Remove(path);
      }
    }
  }

  /** One execution of the operator. `token` stands for the random part of
      the name `mkstemp` picks in `tempDir`; `launched` is the argument
      vector handed to `subprocess.run`, if the run was reached. */
  method Execute(
    fs: FileSystem, platform: string, installDir: string, tempDir: string, token: string,
    o: Options, exportStep: HostStep, run: ToolRun, importStep: HostStep)
    returns (outcome: Outcome, launched: Option<seq<string>>)
    modifies fs
    ensures TempPath(tempDir, token) !in fs.files && OutputPath(TempPath(tempDir, token)) !in fs.files
    ensures fs.files == FinalFiles(old(fs.files), TempPath(tempDir, token), exportStep, run, importStep)
    ensures outcome == ExecuteOutcome(exportStep, run, importStep)
    ensures launched == if exportStep.raises then None
      else Some(ExpectedArguments(
        FindQuadriflow(platform, o.cuda, installDir), TempPath(tempDir, token), OutputPath(TempPath(tempDir, token)), o))
  {
    var input := TempPath(tempDir, token);
    var output := OutputPath(input);
    ghost var initial := fs.files;
    fs.CreateFile(input);

    // try
    outcome := Finished;
    launched := None;
    fs.Perform(exportStep);
    if exportStep.raises {
      outcome := Raised(Export);
    } else {
      var arguments := BuildArguments(FindQuadriflow(platform, o.cuda, installDir), input, output, o);
      launched := Some(arguments);
      fs.Perform(run.effect);
      if run.effect.raises {
        outcome := Raised(Run);
      } else {
        fs.Perform(importStep);
        if importStep.raises {
          outcome := Raised(Import);
        }
      }
    }
    assert fs.files == FilesBeforeCleanup(initial, input, exportStep, run, importStep);

    // finally
    fs.RemoveIfExists(input);
    fs.RemoveIfExists(output);
  }

  /** A file that existed before, that no reached step removed and that is
      not one of the two temporary paths is still there afterwards. */
  lemma UntouchedFilesSurvive(
    initial: set<string>, input: string, exportStep: HostStep, run: ToolRun, importStep: HostStep, f: string)
    requires f in initial && f != input && f != OutputPath(input)
    requires f !in exportStep.removed
    requires !exportStep.raises ==> f !in run.effect.removed
    requires !exportStep.raises && !run.effect.raises ==> f !in importStep.removed
    ensures f in FinalFiles(initial, input, exportStep, run, importStep)
  {
  }

  /** The exit status of Quadriflow is never inspected: two runs with the
      same effect end the same way and leave the same files, whatever
      their exit statuses. */
  lemma ExitStatusIgnored(
    initial: set<string>, input: string, exportStep: HostStep, run1: ToolRun, run2: ToolRun, importStep: HostStep)
    requires run1.effect == run2.effect
    ensures ExecuteOutcome(exportStep, run1, importStep) == ExecuteOutcome(exportStep, run2, importStep)
    ensures FinalFiles(initial, input, exportStep, run1, importStep) == FinalFiles(initial, input, exportStep, run2, importStep)
  {
  }
}
