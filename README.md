# LLTFI `instrument` driver, modelled in Dafny

`bin/instrument.py` is the LLTFI front end that turns a program's LLVM IR into two
instrumented executables: a profiling one and a fault-injection one. This project models its
two pieces of decision logic.

- **The compile-option translator** (`readCompileOption`). It turns the `compileOption`
  mapping of `input.yaml` into the ordered flag list handed to the LLTFI passes. The list has
  four groups: instruction selection, register selection, injection trace and tracing
  propagation. It also decides whether a control/data-flow graph is drawn (`genDotGraph`).
- **The build orchestrator** (`compileProg` and `_suffixOfIR`). It derives the artifact names
  from the source file. It then runs the index pass, the profiling pass and the
  fault-injection pass with `opt`, the two `llc` stages and the two links. Each stage runs only
  after the previous one succeeded. The driver retries each link once with `clang++`, deletes
  the output directory when instrumentation fails, and always removes the object files it
  created.

Layout:

- `wrappers.dfy` (`Wrappers`): `Option` and a failure-compatible `Result`.
- `text.dfy` (`Text`): the string helpers the driver relies on.
  - list prefixing;
  - ASCII lower-casing;
  - decimal rendering of integers, with its round trip;
  - `rfind`, `os.path.basename` and `os.path.join`;
  - Python's slice `s[0:k]`, including a negative `k`.
- `config.dfy` (`Config`): the decoded `compileOption` document and the Python comparisons the
  driver applies to its scalars.
  - `== True` holds for `True` and for `1`.
  - `str(v).lower() == "true"`.
  - `isinstance(v, int)` also accepts booleans.
- `translation.dfy` (`Translation`): the translator as functions, one per group. It also holds
  the lemmas stating what each group emits and which errors it raises.
- `reader.dfy` (`CompileOptionReader`): the translator as the driver runs it. These methods
  build the flag list by appending inside loops, and each is proved equal to its function in
  `Translation`.
- `pipeline.dfy` (`Pipeline`): the build as functions and their lemmas.
  - the argument lists of the seven commands;
  - a gated engine for running a list of stages, with its fail-fast characterisation;
  - the whole run;
  - `main` after the configuration is decoded.
- `orchestrator.dfy` (`Orchestrator`): `compileProg` and `main` as imperative methods. They
  patch command lists in place, record object files and remove them in a loop. Each is proved
  equal to its definition in `Pipeline`.

Effects are recorded as a trace of events instead of being performed:

- `Exec(argv)`: a command is run;
- `Print(message)`: a message is printed;
- `RemoveTree(dir)`: the output directory is removed;
- `RemoveFile(path)`: an object file is removed;
- `Exit(code)`: the process ends.

`execCompilation` is a parameter `exec: seq<string> -> int`, an oracle giving each command's
exit status. The tool paths are a parameter too: `opt`, `llc`, `clang`, `clang++`, the pass
plugin and the runtime library directory. The command-line options are a third parameter.

A configuration error ends `main` with status 1:

- in the source, `exit(1)` for most checks;
- a failed `assert` for `maxTrace`;
- a `NameError` or `IndexError` for an empty `instSelMethod` list or an entry with no key.

Each of these is an `Error` value. The trace of such a run is `[Print(ConfigError(e)), Exit(1)]`.

Behaviours of the code that are easy to misread, each modelled as written:

- A custom instruction selector's `exclude` list is emitted exactly like its `include` list,
  with the `-fiinstselectorname=` prefix, and not ignored. A custom rule that carries both
  lists is rejected.
- For `customRegSelector: Automatic` or `SoftwareFault`, the selector name is looked up as
  `instSelMethod[0].customInstselector.include[0]`, in the *first* entry. A failed lookup only
  prints a notice (`SelectorNameUnresolved`). No name flag is emitted and translation goes on.
- The selection method is decided by the last `instSelMethod` entry alone. Every entry is
  only checked for a valid first key.
- An error raised inside `readCompileOption` does not remove the output directory. The
  driver removes it only on `checkInputYaml`'s own failures (no `input.yaml`, malformed YAML,
  no `compileOption`) and, in `compileProg`, on an instrumentation failure.
- An empty `instSelMethod` list is not an explicit error in the code. It fails with a
  `NameError`, modelled as `EmptyInstSelMethod`.

## Model

| member | source | states |
|---|---|---|
| Translation.CheckEntriesFirstFailure | bin/instrument.py:198-202 | the validation loop succeeds iff every entry's first key is `insttype`, `funcname` or `customInstselector`, and otherwise reports the error of the first bad entry |
| Translation.CheckEntriesPrefix | bin/instrument.py:198-202 | once a prefix of the entries fails validation, the whole loop fails with that error (exit at the first bad entry) |
| Translation.InstSelFlagsSpec | bin/instrument.py:189-242 | a missing `instSelMethod` is an error; an empty list is an error; the first malformed entry's error wins; for valid entries the last one decides: no `include` gives MissingInclude, a custom rule with two selection lists gives MultipleCustomInstSelector, otherwise the method flag followed by every attribute's flags in key order |
| Translation.AttrFlagsSpec | bin/instrument.py:218-242 | the attribute loop fails iff the rule is a custom selector with more than one include/exclude list, and then with MultipleCustomInstSelector; otherwise it emits the concatenation, in key order, of each attribute's flags |
| Translation.AttrFlagsPrefix | bin/instrument.py:229-232 | once the attribute loop fails on a prefix, later attributes change nothing (the driver exits there) |
| Translation.AllEmittedSnoc | bin/instrument.py:219-242 | the reference concatenation of attribute flags grows by exactly the flags of an appended attribute, as `extend` does |
| Translation.SelectionFlagsShape | bin/instrument.py:220-239 | an include/exclude list of n entries yields n flags, entry i prefixed by `-<key>inst=`, `-<key>func=` or `-fiinstselectorname=` according to the method |
| Translation.LookupSelector | bin/instrument.py:268 | the lookup of a selector name fails iff no selector of the entry has that name, and otherwise yields the first one that has it |
| Translation.LookupAttr | bin/instrument.py:268 | the lookup of an attribute key fails iff the key is absent, and otherwise yields the first attribute with that key |
| Translation.AutomaticSelectorNameSpec | bin/instrument.py:265-270 | the Automatic lookup yields x iff the first entry's first `customInstselector` selector has a first `include` list that is non-empty and starts with x (described by positions, independently of the lookup); it fails iff no such x exists |
| Translation.RegSelValidation | bin/instrument.py:245-256 | a missing `regSelMethod` is an error; `regloc` gives exactly `-regloc`, `-<regloc>` or MissingRegloc; `customregselector` fails iff `customRegSelector` is missing; any other method is UnknownRegSelMethod |
| Translation.CustomRegSelectorGroup | bin/instrument.py:259-277 | the `customregselector` group is `-customregselector`, then `-firegselectorname=` with the given name or, for Automatic/SoftwareFault, with the name the first entry gives; when that lookup fails, no name flag and a SelectorNameUnresolved notice (and only then); then the options verbatim |
| Translation.TranslateCustomRegSelector | bin/instrument.py:259-277 | when the other groups succeed, a `customregselector` translation succeeds, even when the Automatic lookup fails; its group sits right after the instruction-selection group and its notice reaches the translation |
| Translation.TraceFlagsAccepted | bin/instrument.py:284-292 | the trace list is accepted iff every entry is `forward` or `backward`; otherwise the error is InvalidTraceDirection |
| Translation.TraceFlagsSpec | bin/instrument.py:284-289 | an accepted list maps each entry, in order, to `-includeforwardtrace` or `-includebackwardtrace` |
| Translation.MaxTraceSpec | bin/instrument.py:305-309 | an integer maxTrace is accepted iff positive and is then `-maxtrace` followed by its decimal text, which parses back to it; a string is MaxTraceNotInteger; False counts as the integer 0 and is rejected, True as 1 and gives `-maxtrace True` |
| Translation.PropagationSpec | bin/instrument.py:294-314 | nothing happens unless `tracingPropagation == True`; otherwise the group is exactly `-insttracepass`, then `-debugtrace` iff debugTrace reads as true, then the maxTrace flags, with a warning; it fails iff maxTrace is rejected, with that error; genDotGraph is set iff generateCDFG reads as true inside this branch |
| Translation.TranslateConcat | bin/instrument.py:185-314 | a successful translation is the four groups concatenated in the fixed order |
| Translation.TranslateStartsWithMethod | bin/instrument.py:205-209 | a successful flag list starts with the last entry's method flag |
| Translation.TranslateReglocPair | bin/instrument.py:250-256 | with `regloc`, `-regloc` is followed immediately by `-<regloc>`, directly after the instruction-selection group |
| Translation.TranslateEndsWithMaxTrace | bin/instrument.py:305-309 | with an integer maxTrace under tracing propagation, a successful list ends with `-maxtrace` and its decimal value |
| Translation.TranslateRejectsMaxTrace | bin/instrument.py:305-307 | under tracing propagation, a maxTrace that is not an integer or not above 0 stops the whole translation, with MaxTraceNotInteger or MaxTraceNotPositive when the earlier groups succeed |
| Translation.TranslateErrorOrder | bin/instrument.py:185-314 | errors are reported group by group in source order, each failing group (the fourth included) carrying its own error once the groups before it succeed; the translation succeeds iff all four groups do; the notices and genDotGraph come from the register and propagation groups |
| Translation.FuncnameExample | bin/instrument.py:205-256 | `funcname` including foo and bar with regloc `dst` gives exactly `-funcname -includefunc=foo -includefunc=bar -regloc -dst` |
| Translation.LastEntryWinsExample | bin/instrument.py:198-219 | with an `insttype` entry followed by a `funcname` entry, only the last one's flags are emitted |
| Translation.CustomSelectorTwoListsExample | bin/instrument.py:226-232 | a custom selector with both an include and an exclude list is rejected |
| Config.StrIsTrueCases | bin/instrument.py:303 | `str(v).lower() == "true"` holds exactly for boolean True and for strings that lower-case to `true` |
| Text.DecimalRoundTrip | bin/instrument.py:309 | `str(n)` of a natural is a non-empty digit string without a leading zero that parses back to n |
| Text.LastIndexOf | bin/instrument.py:326 | `rfind` returns -1 iff the character is absent, and otherwise an index holding it with no later occurrence |
| Text.Basename | bin/instrument.py:325 | the base name contains no `/`, is a suffix of the path, and is preceded by `/` when shorter |
| Text.Prefixed | bin/instrument.py:238 | the comprehension `[prefix + e for e in l]` keeps the length and prefixes each element |
| Pipeline.StemSpec | bin/instrument.py:325-326 | the program stem is the base name before its last dot; a name without a dot loses its final character |
| Pipeline.IndexArgsSpec | bin/instrument.py:317-339 | the index command runs the index pass on the source, writes `<progbin>-llfi_index` with `.ll` or `.bc`, and carries `-S` iff readable and `-dotgraphpass` iff genDotGraph |
| Pipeline.SameCompileOptions | bin/instrument.py:341-358 | both pass commands splice the same flag list right after the pass name, write the profiling or fault-injection module from the indexed one, and differ only in pass name and output |
| Pipeline.LibDirFlags | bin/instrument.py:378-379 | each library directory becomes a `-L dir` pair, in order |
| Pipeline.LinkArgsSpec | bin/instrument.py:386-402 | both link commands run clang with `-o` on their object, write the `.exe`, add `-L<runtime dir>` and the runtime library; `-lml-lltfi-rt` appears only in the fault-injection link and only with useMLSpecificRT; both end with the same library list |
| Pipeline.LibListSpec | bin/instrument.py:377-384 | the library list is `-lpthread`, then the `-L dir` pairs of the directories in order (Pipeline.LibDirFlags), then `-l` + each library in order, then `-no-pie -Wl,-rpath <runtime>` |
| Pipeline.LinkRetrySpec | bin/instrument.py:390-411 | a failed link prints a retry notice and reruns the same command with clang++ in place of clang; the status is the retry's |
| Pipeline.RunGatedSpec | bin/instrument.py:341-404 | the gated engine runs a prefix of the stages, each after every earlier one returned 0; it stops at the first failure with that code; it ends with 0 iff all stages succeed |
| Pipeline.RemovalsSnoc | bin/instrument.py:413-417 | the removal events grow by one per removed file, in list order |
| Pipeline.Removals | bin/instrument.py:413-417 | one removal event per recorded object file, in order |
| Pipeline.AllEventsOnlyCommands | bin/instrument.py:341-411 | running stages only issues commands and prints; it never removes or exits |
| Pipeline.InstrumentationStages | bin/instrument.py:333-365 | the three opt stages run in order while they succeed; the first failure removes the output directory and exits with its code; with IRonly a full success ends there with status 0 |
| Pipeline.BackendStages | bin/instrument.py:367-425 | after a successful instrumentation without IRonly, the llc and link stages run gated in order; the object files recorded so far are removed whether linking failed or not; the run ends with success or the link-failure message and the exit code |
| Pipeline.StatusSpec | bin/instrument.py:333-425 | the final status is 0 iff every stage of the mode succeeded; a non-zero status is the code of the final Exit event |
| Pipeline.Notices | bin/instrument.py:270 | each translator notice becomes one print event, in order |
| Pipeline.CompileProgOpening | bin/instrument.py:333-349 | every run issues the index command first and, once it succeeds, the profiling command next |
| Pipeline.RunTranslatedOpening | bin/instrument.py:429-433 | after the translator's notices, main's first command is the index stage and, once it succeeds, the next is the profiling pass with the translated flags |
| Pipeline.TranslatedIndexArgs | bin/instrument.py:312-314 | the index command main issues writes `<progbin>-llfi_index`, carries `-S` iff readable, and `-dotgraphpass` iff genDotGraph was already set or the translation set it; since genDotGraph is false when main starts, generateCDFG alone decides |
| CompileOptionReader.SelectMethod | bin/instrument.py:189-202 | the validation loop over the entries equals the active-rule function: first bad entry's error, or the last entry's first selector |
| CompileOptionReader.ReadAttributes | bin/instrument.py:217-242 | the attribute loop with its custom-selector flag equals the attribute function |
| CompileOptionReader.ReadInstSelMethod | bin/instrument.py:189-242 | the instruction-selection code equals its function |
| CompileOptionReader.ReadRegSelMethod | bin/instrument.py:244-281 | the register-selection code, including the options loop, equals its function |
| CompileOptionReader.ReadInjectionTrace | bin/instrument.py:283-292 | the trace loop equals its function |
| CompileOptionReader.ReadTracingPropagation | bin/instrument.py:294-314 | the tracing-propagation block, with its early failures on maxTrace, equals its function |
| CompileOptionReader.ReadCompileOption | bin/instrument.py:185-314 | the whole `readCompileOption` equals the translation: flags, genDotGraph and notices, or the error |
| Orchestrator.AddLibDirs | bin/instrument.py:378-379 | the loop over the library directories appends exactly their `-L dir` pairs, in order |
| Orchestrator.AddLibs | bin/instrument.py:380-381 | the loop over the libraries appends exactly `-l` + each library, in order |
| Text.PrefixedSnoc | bin/instrument.py:380-381 | prefixing a list extended by one element extends the prefixed list by that element prefixed |
| Orchestrator.BuildLibList | bin/instrument.py:377-384 | the library list built by appending equals its definition |
| Orchestrator.Link | bin/instrument.py:386-411 | a link with its in-place clang++ retry issues exactly the link stage's events and status |
| Orchestrator.IndexCommand | bin/instrument.py:325-337 | the command built for the index stage is exactly its specified argument list |
| Orchestrator.PassCommand | bin/instrument.py:341-358 | the command built for a profiling or fault-injection pass is exactly its specified argument list |
| Orchestrator.InstrumentationPasses | bin/instrument.py:323-358 | the three gated opt stages issue exactly the gated engine's events and code over the three commands |
| Orchestrator.ObjectCommand | bin/instrument.py:368-373 | the command built for an llc stage is exactly that stage's specified argument list |
| Orchestrator.LinkCommand | bin/instrument.py:386-402 | the command built for a link stage, from the library list, is exactly that stage's specified argument list |
| Orchestrator.BackendPasses | bin/instrument.py:367-411 | the gated llc and link stages issue the engine's events and code, and record one object file per llc stage started |
| Orchestrator.RemoveObjects | bin/instrument.py:413-417 | the removal loop issues one removal per recorded file, in order |
| Orchestrator.CompileProg | bin/instrument.py:317-425 | `compileProg` produces exactly the specified trace and status |
| Orchestrator.Instrument | bin/instrument.py:429-433 | `main` after parsing: a configuration error prints and exits with 1 before any command; otherwise the notices, then `compileProg` with genDotGraph switched on when generateCDFG asks for it |

## Left out

- `parseArgs`, `checkInputYaml`, `usage` and `verbosePrint`: command-line scanning, file and
  YAML reading, directory creation and printing. The command-line options and the decoded
  `compileOption` mapping are inputs to the model.
- Platform and tool-path selection: the paths are the `Tools` parameter.
- `execCompilation`: `subprocess.Popen` is an oracle. The oracle gives a command the same
  status every time it runs.
- The filesystem is not modelled. `shutil.rmtree` and `os.remove` are events, and a failed
  removal is ignored as in the source.
- The text of messages is not modelled, and neither are the verbose flag and printing in
  general. Messages are tagged events; the retry notice does not record the tool base names.
- `sys.exit` reduces the code modulo 256; the model keeps the oracle's integer.
- The document is typed. Every list holds strings. A scalar is a boolean, an integer or a
  string. Python `TypeError`s on mis-typed YAML are not modelled. Floats are not modelled.
- Lower-casing is ASCII only.
- YAML mappings become ordered lists of pairs. A decoded mapping never repeats a key, and
  the model is faithful for such lists only. On a list that repeats a key, the attribute loop
  handles every occurrence and the lookups take the first, whereas a Python dict holds only
  the last value under that key.
- An entry's keys after the first matter only to the `Automatic` lookup, as in the source.
- Orchestrator.Instrument: messages printed before a configuration error appear in the
  source (the tracing warning, an unresolved selector name) but are not in the trace of a run
  that ends with a configuration error.
