/**
 * What compileProg does, stated as a plan of stages run by a small gated engine:
 * three opt stages (index, profiling, fault injection), then, unless only IR is
 * wanted, two llc stages and two link stages, each link retried once with the
 * C++ front end. External commands are an oracle from argument list to exit
 * status; console output, directory removal, file removal and process exit are
 * recorded as events.
 */
module Pipeline {
  import opened Wrappers
  import opened Text
  import opened Config
  import opened Translation

  /** Tool locations fixed by the installation: opt, llc, clang, clang++, the pass plugin, the runtime library directory. */
  datatype Tools = Tools(opt: string, llc: string, clang: string, clangxx: string,
                         passLibrary: string, runtimeLibDir: string)

  /** The driver's options once its command line has been read; genDotGraph is set by the translator. */
  datatype Options = Options(source: string, dir: string, libDirs: seq<string>, libs: seq<string>,
                             readable: bool, irOnly: bool, genDotGraph: bool, useMLSpecificRT: bool)

  datatype Message =
    | ConfigError(error: Error)
    | TranslatorNotice(notice: Notice)
    | InstrumentationFailed
    | LinkRetry
    | LinkFailed(profilingIR: string, faultInjectionIR: string, runtimeLibDir: string)
    | BuildSucceeded

  /** What the orchestrator does to the world, in order. */
  datatype Event =
    | Exec(args: seq<string>)
    | Print(message: Message)
    | RemoveTree(path: string)
    | RemoveFile(path: string)
    | Exit(code: int)

  /** The default link libraries. */
  const DefaultLinkLibs: seq<string> := ["-lpthread"]

  // ---------------------------------------------------------------- artifact names

  /** _suffixOfIR. */
  function IRSuffix(readable: bool): string {
    if readable then ".ll" else ".bc"
  }

  /** `srcbase[0 : srcbase.rfind(".")]`. */
  function Stem(base: string): string {
    SliceTo(base, LastIndexOf(base, '.'))
  }

  /** The stem is the text before the last dot; a name without a dot loses its final character. */
  lemma StemSpec(base: string)
    ensures '.' in base ==> Stem(base) == base[..LastIndexOf(base, '.')] && '.' !in base[LastIndexOf(base, '.') + 1..]
    ensures '.' !in base && base != "" ==> Stem(base) == base[..|base| - 1]
    ensures base == "" ==> Stem(base) == ""
  {
  }

  /** `os.path.join(dir, stem)`: every artifact name starts with it. */
  function ProgBin(o: Options): string {
    Join(o.dir, Stem(Basename(o.source)))
  }

  function IndexedFile(o: Options): string { ProgBin(o) + "-llfi_index" }
  function ProfFile(o: Options): string { ProgBin(o) + "-profiling" }
  function FiFile(o: Options): string { ProgBin(o) + "-faultinjection" }

  // ---------------------------------------------------------------- argument lists

  function IndexArgs(t: Tools, o: Options): seq<string> {
    [t.opt, "-load-pass-plugin", t.passLibrary, "-genllfiindexpass", "-o", IndexedFile(o) + IRSuffix(o.readable), o.source]
    + (if o.readable then ["-S"] else [])
    + (if o.genDotGraph then ["-dotgraphpass"] else [])
  }

  function PassArgs(t: Tools, o: Options, pass: string, out: string, compileOptions: seq<string>): seq<string> {
    [t.opt, "-load-pass-plugin", t.passLibrary, pass] + compileOptions
    + ["-o", out + IRSuffix(o.readable), IndexedFile(o) + IRSuffix(o.readable)]
    + (if o.readable then ["-S"] else [])
  }

  function ProfilingArgs(t: Tools, o: Options, compileOptions: seq<string>): seq<string> {
    PassArgs(t, o, "-profilingpass", ProfFile(o), compileOptions)
  }

  function FaultInjectionArgs(t: Tools, o: Options, compileOptions: seq<string>): seq<string> {
    PassArgs(t, o, "-faultinjectionpass", FiFile(o), compileOptions)
  }

  function ObjectArgs(t: Tools, o: Options, file: string): seq<string> {
    [t.llc, "-filetype=obj", "-o", file + ".o", file + IRSuffix(o.readable)]
  }

  /** `-L dir` for every library directory, in order. */
  function LibDirFlags(dirs: seq<string>): (r: seq<string>)
    ensures |r| == 2 * |dirs|
    ensures forall i :: 0 <= i < |dirs| ==> r[2 * i] == "-L" && r[2 * i + 1] == dirs[i]
  {
    if dirs == [] then [] else LibDirFlags(dirs[..|dirs| - 1]) + ["-L", dirs[|dirs| - 1]]
  }

  /** The library list shared by both links. */
  function LibList(t: Tools, o: Options): seq<string> {
    DefaultLinkLibs + LibDirFlags(o.libDirs) + Prefixed("-l", o.libs) + ["-no-pie", "-Wl,-rpath", t.runtimeLibDir]
  }

  /** The fault-injection runtime; the ML-specific one only for the fault-injection link. */
  function RuntimeLib(o: Options, faultInjection: bool): string {
    if faultInjection && o.useMLSpecificRT then "-lml-lltfi-rt" else "-lllfi-rt"
  }

  function LinkArgs(t: Tools, o: Options, file: string, runtime: string): seq<string> {
    [t.clang, "-o", file + ".exe", file + ".o", "-L" + t.runtimeLibDir, runtime] + LibList(t, o)
  }

  // ---------------------------------------------------------------- the gated engine

  /** One stage: a command, and the command to retry with when it fails. */
  datatype Step = Step(args: seq<string>, fallback: Option<seq<string>>)

  function StepCode(s: Step, exec: seq<string> -> int): int {
    if exec(s.args) != 0 && s.fallback.Some? then exec(s.fallback.value) else exec(s.args)
  }

  function StepEvents(s: Step, exec: seq<string> -> int): seq<Event> {
    if exec(s.args) != 0 && s.fallback.Some? then [Exec(s.args), Print(LinkRetry), Exec(s.fallback.value)]
    else [Exec(s.args)]
  }

  /** The outcome of a gated run: what happened, the last status, and how many stages were started. */
  datatype Run = Run(events: seq<Event>, code: int, attempted: nat)

  /** Run the stages in order, each only when every earlier one ended with status 0. */
  function RunGated(steps: seq<Step>, exec: seq<string> -> int): Run
  {
    if steps == [] then Run([], 0, 0)
    else if StepCode(steps[0], exec) != 0 then Run(StepEvents(steps[0], exec), StepCode(steps[0], exec), 1)
    else
      var rest := RunGated(steps[1..], exec);
      Run(StepEvents(steps[0], exec) + rest.events, rest.code, rest.attempted + 1)
  }

  /** Every stage's events, in order. */
  function AllEvents(steps: seq<Step>, exec: seq<string> -> int): seq<Event> {
    if steps == [] then [] else StepEvents(steps[0], exec) + AllEvents(steps[1..], exec)
  }

  /**
   * Fail fast: the stages started are a prefix of the plan, every one but the last
   * of them succeeded, the status is the last one's, and the run stops early only
   * on a failure.
   */
  lemma {:induction false} RunGatedSpec(steps: seq<Step>, exec: seq<string> -> int)
    ensures var r := RunGated(steps, exec);
      r.attempted <= |steps| && (steps != [] ==> r.attempted > 0) &&
      r.events == AllEvents(steps[..r.attempted], exec) &&
      (forall k :: 0 <= k < r.attempted - 1 ==> StepCode(steps[k], exec) == 0) &&
      (r.attempted > 0 ==> r.code == StepCode(steps[r.attempted - 1], exec)) &&
      (r.attempted < |steps| ==> r.code != 0) &&
      (r.code == 0 <==> forall k :: 0 <= k < |steps| ==> StepCode(steps[k], exec) == 0)
  {
    if steps != [] {
      var r := RunGated(steps, exec);
      if StepCode(steps[0], exec) != 0 {
        assert steps[..1] == [steps[0]];
        assert AllEvents(steps[..1], exec) == StepEvents(steps[0], exec) + AllEvents([], exec);
      } else {
        var tail := steps[1..];
        RunGatedSpec(tail, exec);
        var rest := RunGated(tail, exec);
        assert steps[..rest.attempted + 1] == [steps[0]] + tail[..rest.attempted];
        assert steps[..rest.attempted + 1][1..] == tail[..rest.attempted];
        assert forall k :: 1 <= k < |steps| ==> steps[k] == tail[k - 1];
      }
    }
  }

  /** Three stages without fallback, unrolled. */
  lemma RunThree(a: Step, b: Step, c: Step, exec: seq<string> -> int)
    requires a.fallback.None? && b.fallback.None? && c.fallback.None?
    ensures RunGated([a, b, c], exec) ==
      if exec(a.args) != 0 then Run([Exec(a.args)], exec(a.args), 1)
      else if exec(b.args) != 0 then Run([Exec(a.args), Exec(b.args)], exec(b.args), 2)
      else Run([Exec(a.args), Exec(b.args), Exec(c.args)], exec(c.args), 3)
  {
    assert [a, b, c][1..] == [b, c];
    assert [b, c][1..] == [c];
    assert [c][1..] == [];
    assert RunGated([c], exec) == Run([Exec(c.args)], exec(c.args), 1);
    assert exec(b.args) == 0 ==> RunGated([b, c], exec) == Run([Exec(b.args), Exec(c.args)], exec(c.args), 2);
  }

  /** The back-end plan, unrolled as compileProg's gated ifs run it. */
  lemma RunBackend(a: Step, b: Step, c: Step, d: Step, exec: seq<string> -> int)
    ensures var r := RunGated([a, b, c, d], exec);
      r == if StepCode(a, exec) != 0 then Run(StepEvents(a, exec), StepCode(a, exec), 1)
        else if StepCode(b, exec) != 0 then Run(StepEvents(a, exec) + StepEvents(b, exec), StepCode(b, exec), 2)
        else if StepCode(c, exec) != 0 then Run(StepEvents(a, exec) + StepEvents(b, exec) + StepEvents(c, exec), StepCode(c, exec), 3)
        else Run(StepEvents(a, exec) + StepEvents(b, exec) + StepEvents(c, exec) + StepEvents(d, exec), StepCode(d, exec), 4)
  {
    assert [a, b, c, d][1..] == [b, c, d];
    assert [b, c, d][1..] == [c, d];
    assert [c, d][1..] == [d];
    assert [d][1..] == [];
    assert RunGated([d][1..], exec) == Run([], 0, 0);
    assert StepEvents(d, exec) + [] == StepEvents(d, exec);
    var rd := RunGated([d], exec);
    assert rd == Run(StepEvents(d, exec), StepCode(d, exec), 1);
    var rc := RunGated([c, d], exec);
    assert StepCode(c, exec) == 0 ==> rc == Run(StepEvents(c, exec) + rd.events, rd.code, 2);
    var rb := RunGated([b, c, d], exec);
    assert StepCode(b, exec) == 0 ==> rb == Run(StepEvents(b, exec) + rc.events, rc.code, rc.attempted + 1);
  }

  // ---------------------------------------------------------------- the plan

  function IRSteps(t: Tools, o: Options, compileOptions: seq<string>): seq<Step> {
    [Step(IndexArgs(t, o), None),
     Step(ProfilingArgs(t, o, compileOptions), None),
     Step(FaultInjectionArgs(t, o, compileOptions), None)]
  }

  /** A link stage: on failure the same command again with clang++ in place of clang. */
  function LinkStep(t: Tools, args: seq<string>): Step
    requires |args| > 0
  {
    Step(args, Some(args[0 := t.clangxx]))
  }

  function BackendSteps(t: Tools, o: Options): seq<Step> {
    [Step(ObjectArgs(t, o, ProfFile(o)), None),
     Step(ObjectArgs(t, o, FiFile(o)), None),
     LinkStep(t, LinkArgs(t, o, ProfFile(o), RuntimeLib(o, false))),
     LinkStep(t, LinkArgs(t, o, FiFile(o), RuntimeLib(o, true)))]
  }

  /** The object files recorded for removal: one per llc stage started. */
  function ObjectFiles(o: Options, attempted: nat): seq<string> {
    if attempted == 0 then [] else if attempted == 1 then [ProfFile(o) + ".o"] else [ProfFile(o) + ".o", FiFile(o) + ".o"]
  }

  function Removals(paths: seq<string>): (r: seq<Event>)
    ensures |r| == |paths|
    ensures forall i :: 0 <= i < |paths| ==> r[i] == RemoveFile(paths[i])
  {
    if paths == [] then [] else [RemoveFile(paths[0])] + Removals(paths[1..])
  }

  /** Removals built by appending, as the removal loop does. */
  lemma {:induction false} RemovalsSnoc(paths: seq<string>, p: string)
    ensures Removals(paths + [p]) == Removals(paths) + [RemoveFile(p)]
  {
    if paths != [] {
      assert (paths + [p])[1..] == paths[1..] + [p];
      RemovalsSnoc(paths[1..], p);
    }
  }

  /** The effects of a whole compileProg call and the status the process ends with. */
  datatype Outcome = Outcome(events: seq<Event>, status: int)

  function CompileProgSpec(t: Tools, o: Options, compileOptions: seq<string>, exec: seq<string> -> int): Outcome {
    var ir := RunGated(IRSteps(t, o, compileOptions), exec);
    if ir.code != 0 then
      Outcome(ir.events + [Print(InstrumentationFailed), RemoveTree(o.dir), Exit(ir.code)], ir.code)
    else if o.irOnly then Outcome(ir.events, 0)
    else
      var back := RunGated(BackendSteps(t, o), exec);
      var cleanup := Removals(ObjectFiles(o, back.attempted));
      if back.code != 0 then
        Outcome(ir.events + back.events + cleanup +
                [Print(LinkFailed(ProfFile(o) + IRSuffix(o.readable), FiFile(o) + IRSuffix(o.readable), t.runtimeLibDir)),
                 Exit(back.code)],
                back.code)
      else Outcome(ir.events + back.events + cleanup + [Print(BuildSucceeded)], 0)
  }

  // ---------------------------------------------------------------- properties

  /** The translator's notices, printed in order. */
  function Notices(ns: seq<Notice>): (r: seq<Event>)
    ensures |r| == |ns|
    ensures forall i :: 0 <= i < |ns| ==> r[i] == Print(TranslatorNotice(ns[i]))
  {
    if ns == [] then [] else [Print(TranslatorNotice(ns[0]))] + Notices(ns[1..])
  }

  /** Commands and messages only: no stage removes anything or exits. */
  predicate OnlyCommands(events: seq<Event>) {
    forall i :: 0 <= i < |events| ==> events[i].Exec? || events[i].Print?
  }

  lemma {:induction false} AllEventsOnlyCommands(steps: seq<Step>, exec: seq<string> -> int)
    ensures OnlyCommands(AllEvents(steps, exec))
  {
    if steps != [] {
      AllEventsOnlyCommands(steps[1..], exec);
      var head := StepEvents(steps[0], exec);
      var tail := AllEvents(steps[1..], exec);
      assert forall i :: |head| <= i < |head| + |tail| ==> (head + tail)[i] == tail[i - |head|];
    }
  }

  /** The index stage writes `<progbin>-llfi_index` with the IR suffix from the source; `-S` and `-dotgraphpass` come last, and only when asked for. */
  lemma IndexArgsSpec(t: Tools, o: Options)
    ensures var a := IndexArgs(t, o);
      |a| >= 7 && a[0] == t.opt && a[3] == "-genllfiindexpass" && a[4] == "-o" &&
      a[5] == ProgBin(o) + "-llfi_index" + (if o.readable then ".ll" else ".bc") && a[6] == o.source &&
      ("-S" in a[7..] <==> o.readable) && ("-dotgraphpass" in a[7..] <==> o.genDotGraph)
  {
    var a := IndexArgs(t, o);
    assert a[7..] == (if o.readable then ["-S"] else []) + (if o.genDotGraph then ["-dotgraphpass"] else []);
  }

  /**
   * The profiling and fault-injection passes get the same option list at the same
   * place, right after the pass flag and before `-o`; their commands differ only in
   * the pass flag and the output file.
   */
  lemma SameCompileOptions(t: Tools, o: Options, compileOptions: seq<string>)
    ensures var p := ProfilingArgs(t, o, compileOptions);
      var f := FaultInjectionArgs(t, o, compileOptions);
      var n := |compileOptions|;
      |p| == |f| && |p| >= n + 7 &&
      p[4..4 + n] == compileOptions && f[4..4 + n] == compileOptions &&
      p[3] == "-profilingpass" && f[3] == "-faultinjectionpass" &&
      p[4 + n] == "-o" && p[5 + n] == ProfFile(o) + IRSuffix(o.readable) && f[5 + n] == FiFile(o) + IRSuffix(o.readable) &&
      p[6 + n] == IndexedFile(o) + IRSuffix(o.readable) &&
      forall i :: 0 <= i < |p| && i != 3 && i != 5 + n ==> p[i] == f[i]
  {
  }

  /**
   * The instrumentation stages run in order, each only after the previous one
   * returned 0; a non-zero status removes the output directory and exits with that
   * status; in IR-only mode a clean run stops after the three stages with status 0.
   */
  lemma InstrumentationStages(t: Tools, o: Options, compileOptions: seq<string>, exec: seq<string> -> int)
    ensures var out := CompileProgSpec(t, o, compileOptions, exec);
      var a1, a2, a3 := IndexArgs(t, o), ProfilingArgs(t, o, compileOptions), FaultInjectionArgs(t, o, compileOptions);
      var failed := [Print(InstrumentationFailed), RemoveTree(o.dir)];
      (exec(a1) != 0 ==> out == Outcome([Exec(a1)] + failed + [Exit(exec(a1))], exec(a1))) &&
      (exec(a1) == 0 && exec(a2) != 0 ==> out == Outcome([Exec(a1), Exec(a2)] + failed + [Exit(exec(a2))], exec(a2))) &&
      (exec(a1) == 0 && exec(a2) == 0 && exec(a3) != 0 ==>
        out == Outcome([Exec(a1), Exec(a2), Exec(a3)] + failed + [Exit(exec(a3))], exec(a3))) &&
      (exec(a1) == 0 && exec(a2) == 0 && exec(a3) == 0 && o.irOnly ==> out == Outcome([Exec(a1), Exec(a2), Exec(a3)], 0))
  {
    var steps := IRSteps(t, o, compileOptions);
    RunThree(steps[0], steps[1], steps[2], exec);
  }

  /** A link retries once with clang++ and otherwise identical arguments; the retry's status is the link's. */
  lemma LinkRetrySpec(t: Tools, args: seq<string>, exec: seq<string> -> int)
    requires |args| > 0
    ensures var s := LinkStep(t, args);
      StepEvents(s, exec) == (if exec(args) == 0 then [Exec(args)] else [Exec(args), Print(LinkRetry), Exec(args[0 := t.clangxx])]) &&
      StepCode(s, exec) == (if exec(args) == 0 then 0 else exec(args[0 := t.clangxx]))
    ensures |args[0 := t.clangxx]| == |args| && forall i :: 0 < i < |args| ==> args[0 := t.clangxx][i] == args[i]
  {
  }

  /**
   * The two links differ only in the file and the runtime: the profiling link always
   * uses `-lllfi-rt`, the fault-injection link `-lml-lltfi-rt` exactly when the
   * ML-specific runtime was asked for. The library list is `-lpthread`, the `-L`
   * pairs, the `-l` libraries, then `-no-pie -Wl,-rpath <runtime dir>`.
   */
  lemma LinkArgsSpec(t: Tools, o: Options)
    ensures var p := LinkArgs(t, o, ProfFile(o), RuntimeLib(o, false));
      var f := LinkArgs(t, o, FiFile(o), RuntimeLib(o, true));
      p[0] == t.clang && p[1] == "-o" && p[2] == ProfFile(o) + ".exe" && p[3] == ProfFile(o) + ".o" &&
      p[4] == "-L" + t.runtimeLibDir && p[5] == "-lllfi-rt" &&
      f[0] == t.clang && f[1] == "-o" && f[2] == FiFile(o) + ".exe" && f[3] == FiFile(o) + ".o" &&
      f[4] == "-L" + t.runtimeLibDir &&
      f[5] == (if o.useMLSpecificRT then "-lml-lltfi-rt" else "-lllfi-rt") &&
      p[6..] == f[6..] == LibList(t, o)
  {
  }

  /**
   * The library list: `-lpthread`, the `-L` pairs, the `-l` libraries, then
   * `-no-pie -Wl,-rpath <runtime>` (each piece's own contract gives it element by element).
   */
  lemma LibListSpec(t: Tools, o: Options)
    ensures var l := LibList(t, o);
      var d := 2 * |o.libDirs|;
      |l| == 1 + d + |o.libs| + 3 && l[0] == "-lpthread" &&
      l[1..1 + d] == LibDirFlags(o.libDirs) &&
      l[1 + d..|l| - 3] == Prefixed("-l", o.libs) &&
      l[|l| - 3..] == ["-no-pie", "-Wl,-rpath", t.runtimeLibDir]
  {
    var l := LibList(t, o);
    var d := 2 * |o.libDirs|;
    var head := DefaultLinkLibs + LibDirFlags(o.libDirs);
    var libs := Prefixed("-l", o.libs);
    var tail := ["-no-pie", "-Wl,-rpath", t.runtimeLibDir];
    assert l == head + libs + tail;
    assert l[..1 + d] == head;
    assert head[1..] == LibDirFlags(o.libDirs);
    assert l[1 + d..|l| - 3] == libs;
    assert l[|l| - 3..] == tail;
  }

  /**
   * Without IR-only mode and after clean instrumentation: the llc and link stages run
   * gated in order, the object files recorded (one per llc stage started) are removed
   * whether linking worked or not and after every command, and the process status is
   * the last stage's.
   */
  lemma BackendStages(t: Tools, o: Options, compileOptions: seq<string>, exec: seq<string> -> int)
    requires !o.irOnly
    requires exec(IndexArgs(t, o)) == 0 && exec(ProfilingArgs(t, o, compileOptions)) == 0 &&
             exec(FaultInjectionArgs(t, o, compileOptions)) == 0
    ensures var out := CompileProgSpec(t, o, compileOptions, exec);
      var steps := BackendSteps(t, o);
      var back := RunGated(steps, exec);
      var ir := [Exec(IndexArgs(t, o)), Exec(ProfilingArgs(t, o, compileOptions)), Exec(FaultInjectionArgs(t, o, compileOptions))];
      var objects := if exec(ObjectArgs(t, o, ProfFile(o))) != 0 then [ProfFile(o) + ".o"] else [ProfFile(o) + ".o", FiFile(o) + ".o"];
      back.attempted <= |steps| &&
      var commands := AllEvents(steps[..back.attempted], exec);
      OnlyCommands(commands) &&
      |out.events| >= 3 + |commands| + |objects| &&
      out.status == back.code &&
      (out.status == 0 <==> forall k :: 0 <= k < 4 ==> StepCode(steps[k], exec) == 0) &&
      out.events[..3 + |commands| + |objects|] == ir + commands + Removals(objects) &&
      out.events[3 + |commands| + |objects|..] ==
        if out.status == 0 then [Print(BuildSucceeded)]
        else [Print(LinkFailed(ProfFile(o) + IRSuffix(o.readable), FiFile(o) + IRSuffix(o.readable), t.runtimeLibDir)),
              Exit(out.status)]
  {
    InstrumentationStages(t, o, compileOptions, exec);
    var steps := BackendSteps(t, o);
    RunGatedSpec(steps, exec);
    var back := RunGated(steps, exec);
    AllEventsOnlyCommands(steps[..back.attempted], exec);
    var irSteps := IRSteps(t, o, compileOptions);
    RunThree(irSteps[0], irSteps[1], irSteps[2], exec);
    assert steps[0] == Step(ObjectArgs(t, o, ProfFile(o)), None);
    if StepCode(steps[0], exec) == 0 {
      assert back.attempted >= 2;
    }
  }

  /** A zero status means every stage that belongs to the mode succeeded (a link possibly on its retry); a non-zero one is the last event's exit code. */
  lemma StatusSpec(t: Tools, o: Options, compileOptions: seq<string>, exec: seq<string> -> int)
    ensures var out := CompileProgSpec(t, o, compileOptions, exec);
      var ir := IRSteps(t, o, compileOptions);
      (out.status == 0 <==>
        (forall k :: 0 <= k < 3 ==> StepCode(ir[k], exec) == 0) &&
        (!o.irOnly ==> forall k :: 0 <= k < 4 ==> StepCode(BackendSteps(t, o)[k], exec) == 0)) &&
      (out.status != 0 ==> |out.events| > 0 && out.events[|out.events| - 1] == Exit(out.status))
  {
    RunGatedSpec(IRSteps(t, o, compileOptions), exec);
    RunGatedSpec(BackendSteps(t, o), exec);
  }

  // ---------------------------------------------------------------- main

  /** The options compileProg sees: genDotGraph switched on when the translation asks for it, never off. */
  function WithTranslation(o: Options, tr: Translation): Options {
    if tr.genDotGraph then o.(genDotGraph := true) else o
  }

  /** compileProg under a successful translation, after its notices are printed. */
  function RunTranslated(t: Tools, o: Options, tr: Translation, exec: seq<string> -> int): Outcome {
    var run := CompileProgSpec(t, WithTranslation(o, tr), tr.flags, exec);
    Outcome(Notices(tr.notices) + run.events, run.status)
  }

  /** main after the configuration is decoded: a translation error ends the run with status 1 before any command. */
  function InstrumentSpec(t: Tools, o: Options, c: CompileOption, exec: seq<string> -> int): Outcome {
    match Translate(c)
    case Err(e) => Outcome([Print(ConfigError(e)), Exit(1)], 1)
    case Ok(tr) => RunTranslated(t, o, tr, exec)
  }

  /** Every run starts with the index command, and, once that succeeds, continues with the profiling pass. */
  lemma CompileProgOpening(t: Tools, o: Options, compileOptions: seq<string>, exec: seq<string> -> int)
    ensures var out := CompileProgSpec(t, o, compileOptions, exec);
      |out.events| > 0 && out.events[0] == Exec(IndexArgs(t, o)) &&
      (exec(IndexArgs(t, o)) == 0 ==> |out.events| > 1 && out.events[1] == Exec(ProfilingArgs(t, o, compileOptions)))
  {
    var steps := IRSteps(t, o, compileOptions);
    RunThree(steps[0], steps[1], steps[2], exec);
    assert steps == [steps[0], steps[1], steps[2]];
  }

  /** After the translator's notices comes the index command and, once it succeeds, the profiling pass with the translated flags. */
  lemma RunTranslatedOpening(t: Tools, o: Options, tr: Translation, exec: seq<string> -> int)
    ensures var out := RunTranslated(t, o, tr, exec);
      var n := |tr.notices|;
      var index := IndexArgs(t, WithTranslation(o, tr));
      |out.events| > n && out.events[..n] == Notices(tr.notices) && out.events[n] == Exec(index) &&
      (exec(index) == 0 ==> |out.events| > n + 1 && out.events[n + 1] == Exec(ProfilingArgs(t, o, tr.flags)))
  {
    var o2 := WithTranslation(o, tr);
    var run := CompileProgSpec(t, o2, tr.flags, exec);
    CompileProgOpening(t, o2, tr.flags, exec);
    assert ProfilingArgs(t, o2, tr.flags) == ProfilingArgs(t, o, tr.flags);
    var out := RunTranslated(t, o, tr, exec);
    var n := |tr.notices|;
    assert out.events == Notices(tr.notices) + run.events;
    assert out.events[..n] == Notices(tr.notices);
    assert out.events[n] == run.events[0];
    assert exec(IndexArgs(t, o2)) == 0 ==> out.events[n + 1] == run.events[1];
  }

  /**
   * The index command main issues carries `-dotgraphpass` when genDotGraph was already set or
   * the translation sets it. The command line has no option for it, so genDotGraph is false
   * when main starts and generateCDFG alone decides.
   */
  lemma TranslatedIndexArgs(t: Tools, o: Options, tr: Translation)
    ensures var a := IndexArgs(t, WithTranslation(o, tr));
      |a| >= 7 && a[5] == ProgBin(o) + "-llfi_index" + IRSuffix(o.readable) &&
      ("-S" in a[7..] <==> o.readable) &&
      ("-dotgraphpass" in a[7..] <==> o.genDotGraph || tr.genDotGraph)
    ensures !o.genDotGraph ==> ("-dotgraphpass" in IndexArgs(t, WithTranslation(o, tr))[7..] <==> tr.genDotGraph)
  {
    IndexArgsSpec(t, WithTranslation(o, tr));
  }

}
