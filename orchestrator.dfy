/**
 * compileProg and main as the driver runs them: a status threaded through gated
 * steps, command lists built and patched in place, object files recorded and then
 * removed in a loop. Each method is proved equal to its definition in module Pipeline.
 */
module Orchestrator {
  import opened Wrappers
  import opened Text
  import opened Config
  import opened Translation
  import opened Pipeline
  import CompileOptionReader

  /** The loop adding a `-L dir` pair per library directory. */
  method AddLibDirs(liblist0: seq<string>, dirs: seq<string>) returns (liblist: seq<string>)
    ensures liblist == liblist0 + LibDirFlags(dirs)
  {
    liblist := liblist0;
    var i := 0;
    while i < |dirs|
      invariant 0 <= i <= |dirs|
      invariant liblist == liblist0 + LibDirFlags(dirs[..i])
    {
      assert dirs[..i + 1][..i] == dirs[..i];
      assert LibDirFlags(dirs[..i + 1]) == LibDirFlags(dirs[..i]) + ["-L", dirs[i]];
      liblist := liblist + ["-L", dirs[i]];
      i := i + 1;
    }
    assert dirs[..i] == dirs;
  }

  /** The loop adding `-l<lib>` per library. */
  method AddLibs(liblist0: seq<string>, libs: seq<string>) returns (liblist: seq<string>)
    ensures liblist == liblist0 + Prefixed("-l", libs)
  {
    liblist := liblist0;
    var j := 0;
    while j < |libs|
      invariant 0 <= j <= |libs|
      invariant liblist == liblist0 + Prefixed("-l", libs[..j])
    {
      liblist := liblist + ["-l" + libs[j]];
      assert libs[..j + 1] == libs[..j] + [libs[j]];
      PrefixedSnoc("-l", libs[..j], libs[j]);
      j := j + 1;
    }
    assert libs[..j] == libs;
  }

  /** The library list, built from the defaults by appending. */
  method BuildLibList(t: Tools, o: Options) returns (liblist: seq<string>)
    ensures liblist == LibList(t, o)
  {
    liblist := DefaultLinkLibs;
    liblist := AddLibDirs(liblist, o.libDirs);
    liblist := AddLibs(liblist, o.libs);
    liblist := liblist + ["-no-pie"];
    liblist := liblist + ["-Wl,-rpath"];
    liblist := liblist + [t.runtimeLibDir];
  }

  /** A link command, retried once with clang++ in place of clang. */
  method Link(t: Tools, execlist0: seq<string>, exec: seq<string> -> int) returns (events: seq<Event>, retcode: int)
    requires |execlist0| > 0
    ensures events == StepEvents(LinkStep(t, execlist0), exec)
    ensures retcode == StepCode(LinkStep(t, execlist0), exec)
  {
    var execlist := execlist0;
    events := [Exec(execlist)];
    retcode := exec(execlist);
    if retcode != 0 {
      events := events + [Print(LinkRetry)];
      execlist := execlist[0 := t.clangxx];
      events := events + [Exec(execlist)];
      retcode := exec(execlist);
    }
  }

  /** The index command: the source through the index pass, `-S` and `-dotgraphpass` when asked for. */
  method IndexCommand(t: Tools, o: Options) returns (execlist: seq<string>)
    ensures execlist == IndexArgs(t, o)
  {
    var srcbase := Basename(o.source);
    var progbin := Join(o.dir, SliceTo(srcbase, LastIndexOf(srcbase, '.')));
    var llfiIndexedFile := progbin + "-llfi_index";
    execlist := [t.opt, "-load-pass-plugin", t.passLibrary, "-genllfiindexpass", "-o", llfiIndexedFile + IRSuffix(o.readable), o.source];
    if o.readable {
      execlist := execlist + ["-S"];
    }
    if o.genDotGraph {
      execlist := execlist + ["-dotgraphpass"];
    }
  }

  /** A pass command: the pass name, the translated flags, the output and the indexed module, then `-S` when readable. */
  method PassCommand(t: Tools, o: Options, pass: string, out: string, compileOptions: seq<string>) returns (execlist: seq<string>)
    ensures execlist == PassArgs(t, o, pass, out, compileOptions)
  {
    var suffix := IRSuffix(o.readable);
    execlist := [t.opt, "-load-pass-plugin", t.passLibrary, pass];
    var execlist2 := ["-o", out + suffix, IndexedFile(o) + suffix];
    execlist := execlist + compileOptions;
    execlist := execlist + execlist2;
    if o.readable {
      execlist := execlist + ["-S"];
    }
  }

  /** The three opt stages of compileProg, each run only while every earlier one succeeded. */
  method InstrumentationPasses(t: Tools, o: Options, compileOptions: seq<string>, exec: seq<string> -> int)
    returns (events: seq<Event>, retcode: int)
    ensures events == RunGated(IRSteps(t, o, compileOptions), exec).events
    ensures retcode == RunGated(IRSteps(t, o, compileOptions), exec).code
  {
    ghost var steps := IRSteps(t, o, compileOptions);
    RunThree(steps[0], steps[1], steps[2], exec);
    assert steps == [steps[0], steps[1], steps[2]];

    var execlist := IndexCommand(t, o);
    events := [Exec(execlist)];
    retcode := exec(execlist);
    if retcode == 0 {
      execlist := PassCommand(t, o, "-profilingpass", ProfFile(o), compileOptions);
      events := events + [Exec(execlist)];
      retcode := exec(execlist);
    }
    if retcode == 0 {
      execlist := PassCommand(t, o, "-faultinjectionpass", FiFile(o), compileOptions);
      events := events + [Exec(execlist)];
      retcode := exec(execlist);
    }
  }

  /** An llc command turning one instrumented module into an object file. */
  method ObjectCommand(t: Tools, o: Options, file: string) returns (execlist: seq<string>)
    ensures execlist == ObjectArgs(t, o, file)
  {
    execlist := [t.llc, "-filetype=obj", "-o", file + ".o", file + IRSuffix(o.readable)];
  }

  /** A clang command linking one object file against a runtime library and the library list. */
  method LinkCommand(t: Tools, o: Options, file: string, runtime: string, liblist: seq<string>) returns (execlist: seq<string>)
    requires liblist == LibList(t, o)
    ensures execlist == LinkArgs(t, o, file, runtime)
  {
    execlist := [t.clang, "-o", file + ".exe", file + ".o", "-L" + t.runtimeLibDir];
    execlist := execlist + [runtime];
    execlist := execlist + liblist;
  }

  /** The two llc stages and the two links, gated on the status so far; the object files are recorded before each llc runs. */
  method BackendPasses(t: Tools, o: Options, exec: seq<string> -> int)
    returns (events: seq<Event>, retcode: int, tmpfiles: seq<string>)
    ensures events == RunGated(BackendSteps(t, o), exec).events
    ensures retcode == RunGated(BackendSteps(t, o), exec).code
    ensures tmpfiles == ObjectFiles(o, RunGated(BackendSteps(t, o), exec).attempted)
  {
    var proffile := ProfFile(o);
    var fifile := FiFile(o);
    ghost var steps := BackendSteps(t, o);
    ghost var a, b, c, d := steps[0], steps[1], steps[2], steps[3];
    assert steps == [a, b, c, d];
    RunBackend(a, b, c, d, exec);

    var execlist := ObjectCommand(t, o, proffile);
    tmpfiles := [proffile + ".o"];
    events := [Exec(execlist)];
    retcode := exec(execlist);
    assert events == StepEvents(a, exec) && retcode == StepCode(a, exec);
    if retcode == 0 {
      execlist := ObjectCommand(t, o, fifile);
      tmpfiles := tmpfiles + [fifile + ".o"];
      events := events + [Exec(execlist)];
      retcode := exec(execlist);
      assert events == StepEvents(a, exec) + StepEvents(b, exec) && retcode == StepCode(b, exec);
    }

    var liblist := BuildLibList(t, o);

    if retcode == 0 {
      execlist := LinkCommand(t, o, proffile, "-lllfi-rt", liblist);
      var linkEvents;
      linkEvents, retcode := Link(t, execlist, exec);
      events := events + linkEvents;
    }
    if retcode == 0 {
      var runtime := if o.useMLSpecificRT then "-lml-lltfi-rt" else "-lllfi-rt";
      execlist := LinkCommand(t, o, fifile, runtime, liblist);
      var linkEvents;
      linkEvents, retcode := Link(t, execlist, exec);
      events := events + linkEvents;
    }
  }

  /** The removal loop over the recorded object files; a failed removal is ignored. */
  method RemoveObjects(tmpfiles: seq<string>) returns (events: seq<Event>)
    ensures events == Removals(tmpfiles)
  {
    events := [];
    var k := 0;
    while k < |tmpfiles|
      invariant 0 <= k <= |tmpfiles|
      invariant events == Removals(tmpfiles[..k])
    {
      events := events + [RemoveFile(tmpfiles[k])];
      RemovalsSnoc(tmpfiles[..k], tmpfiles[k]);
      assert tmpfiles[..k + 1] == tmpfiles[..k] + [tmpfiles[k]];
      k := k + 1;
    }
    assert tmpfiles[..k] == tmpfiles;
  }

  /** compileProg: the three instrumentation stages, then objects and links unless only IR is wanted. */
  method CompileProg(t: Tools, o: Options, compileOptions: seq<string>, exec: seq<string> -> int)
    returns (events: seq<Event>, status: int)
    ensures Outcome(events, status) == CompileProgSpec(t, o, compileOptions, exec)
  {
    var retcode;
    events, retcode := InstrumentationPasses(t, o, compileOptions, exec);
    if retcode != 0 {
      events := events + [Print(InstrumentationFailed), RemoveTree(o.dir), Exit(retcode)];
      return events, retcode;
    }
    if !o.irOnly {
      var backEvents, tmpfiles;
      backEvents, retcode, tmpfiles := BackendPasses(t, o, exec);
      events := events + backEvents;
      var removed := RemoveObjects(tmpfiles);
      events := events + removed;
      if retcode != 0 {
        var suffix := IRSuffix(o.readable);
        events := events + [Print(LinkFailed(ProfFile(o) + suffix, FiFile(o) + suffix, t.runtimeLibDir)), Exit(retcode)];
        return events, retcode;
      }
      events := events + [Print(BuildSucceeded)];
    }
    return events, 0;
  }

  /** main, after the command line and input.yaml are read: translate, then compile; a configuration error ends the run with status 1. */
  method Instrument(t: Tools, o: Options, c: CompileOption, exec: seq<string> -> int)
    returns (events: seq<Event>, status: int)
    ensures Outcome(events, status) == InstrumentSpec(t, o, c, exec)
  {
    var r := CompileOptionReader.ReadCompileOption(c);
    if r.Err? {
      return [Print(ConfigError(r.error)), Exit(1)], 1;
    }
    var options := o;
    if r.value.genDotGraph {
      options := options.(genDotGraph := true);
    }
    var runEvents;
    runEvents, status := CompileProg(t, options, r.value.flags, exec);
    events := Notices(r.value.notices) + runEvents;
  }
}
