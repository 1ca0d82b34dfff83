# code-sandbox-mcp in Dafny

A model of the core of `code-sandbox-mcp`, an MCP server that runs code in
Docker containers and manages sandbox containers for its client. The model covers:

- the **dependency detector** (`dependencies/parser.go`): the Python, Node
  and Go import scanners, with each regular expression as a recogniser of
  leftmost, non-overlapping matches (`patterns.dfy`, `parser.dfy`);
- the **manifest generators and the dependency runner**
  (`dependencies/docker.go`) (`manifests.dfy`);
- the **language registry** (`languages/types.go`) (`languages.dfy`), and the
  older registry and handlers of `src/docker-sandbox-mcp/main.go`
  (`dockersandbox.dfy`);
- the **command composer** and the project runner (`tools/run_project.go`)
  (`projects.dfy`, `runproject.dfy`), and the inline code runner with its
  progress notifications and its wait/tick/cancel loop (`tools/run_code.go`)
  (`runcode.dfy`);
- the **exec transcript builder** (`tools/exec.go`) (`exec.dfy`);
- **file transfer**: `copy_project`, `copy_file`, `write_file` and
  `copy_file_from_container` (`copyproject.dfy`, `destinations.dfy`,
  `copyfile.dfy`, `writefile.dfy`, `copyfrom.dfy`);
- the **sandbox lifecycle**: `sandbox_initialize`, `sandbox_stop` and
  `list_sandboxes` (`lifecycle.dfy`).

Go's `filepath` functions are modelled as pure functions on `/`-separated
paths with Unix semantics (`paths.dfy`). The string helpers (`strings.Split`,
`strings.Fields`, `strings.Join`, `%d`) are in `strs.dfy`.
`strings.ToValidUTF8` on bytes is in `utf8.dfy`. The tool arguments and
replies are in `mcp.dfy`, and Go's `%v` of an integral `float64` (the
shortest `'g'` format: plain digits below a million, `1e+06` form from a
million on) is in `floats.dfy`.

**The engine as an oracle** (`engine.dfy`). Every request a tool makes is
one `Call`:

- to the Docker engine (pull, create, start, wait, logs, exec, copy);
- to the host (`os.Stat`, `filepath.Walk`, file writes);
- to the MCP client (progress notifications).

A `World` object holds a fixed `script`, and the n-th call of a session
receives `script(n)`. Each call is appended to the world's `log`. The engine
and host state (containers by ID with name, image and phase; files;
directories) is the replay of the log. Each tool is:

- a method over the `World`, written the way the Go code is written (its
  loops, early returns and reassigned variables);
- proved against a specification function `XRun(script, n, ...)` that
  returns the calls the tool makes from call `n` on, and its result.

The lemmas then state what the source promises about those calls and
results. Examples:

- the order of steps, and that a failure stops the steps after it;
- which commands run in the container;
- what the reply is in each case;
- the transcript and archive contents.

The exec polling loops terminate because the script is *fair*: every exec
is eventually reported as stopped.

Where the source and its description disagree, the model follows the
source. `run_code` never delivers Python code to the container (its run
command names `main.py`, which no call writes). The Node and Go group
patterns also match inside comments and string literals. The archive
shipped by `copy_project` is unpacked by the engine into `/tmp`, and no
`project_<base>.tar` is ever written. Symlinks are archived as the code
archives them, pointing at their own names; the corrected linking is
stated separately under Findings.

## Model

| member | source | states |
|---|---|---|
| Languages.ConfigOf | src/code-sandbox-mcp/languages/types.go:28-50 | `SupportedLanguages[l]`: a supported tag yields its registered configuration, any other tag the zero configuration |
| Languages.String | src/code-sandbox-mcp/languages/types.go:53-55 | the text of a tag is the tag itself, character for character |
| Languages.IsValid | src/code-sandbox-mcp/languages/types.go:58-65 | the linear search answers true exactly when the tag is in `AllLanguages` |
| Languages.ToArray | src/code-sandbox-mcp/languages/types.go:68-74 | a fresh array as long as the list whose slot i holds the text of tag i |
| Languages.ValidIffConfigured | src/code-sandbox-mcp/languages/types.go:25-65 | a tag is valid exactly when it has a configuration, i.e. exactly when the lookup differs from the zero configuration |
| Languages.AllLanguagesDistinct | src/code-sandbox-mcp/languages/types.go:25 | `AllLanguages` lists three distinct tags |
| Languages.RunCommandNamesMain | src/code-sandbox-mcp/languages/types.go:29-49 | each supported language's run command ends with `main.<extension>` of that language |
| Languages.DependencyFileOrder | src/code-sandbox-mcp/languages/types.go:31-45 | the manifest files each language looks for, in order |
| Patterns.MatchPyImport | src/code-sandbox-mcp/dependencies/parser.go:10 | a match of `(?m)^import\s+(\w+)` starts at a line start, consumes input and captures a non-empty word |
| Patterns.MatchPyFrom | src/code-sandbox-mcp/dependencies/parser.go:11 | a match of `(?m)^from\s+(\w+)\s+import` starts at a line start and captures a non-empty word |
| Patterns.MatchPyDynamic | src/code-sandbox-mcp/dependencies/parser.go:12 | a match of `__import__('w')` captures a non-empty word |
| Patterns.MatchCall | src/code-sandbox-mcp/dependencies/parser.go:15-17 | a `require(...)` / `import(...)` match captures a non-empty quote-free string |
| Patterns.MatchNodeImport | src/code-sandbox-mcp/dependencies/parser.go:16 | an ES `import ... from '...'` match captures a non-empty quote-free module path |
| Patterns.MatchGoSingle | src/code-sandbox-mcp/dependencies/parser.go:20 | a single-line Go import match starts at a line start and captures a non-empty quote-free path |
| Patterns.MatchGoGroup | src/code-sandbox-mcp/dependencies/parser.go:21 | a `(?m)^[^/]*"([^"]+)"` match starts at a line start and captures a non-empty quote-free path |
| Patterns.MatchAt | src/code-sandbox-mcp/dependencies/parser.go:10-21 | any of the eight patterns: a match consumes input, its capture has the pattern's shape, and anchored patterns match only at line starts |
| Patterns.FindAll | src/code-sandbox-mcp/dependencies/parser.go:53 | `FindAllStringSubmatch(code, -1)`: every capture reported has the pattern's shape |
| Patterns.NoLineStartNoMatch | src/code-sandbox-mcp/dependencies/parser.go:10-21 | an anchored pattern finds nothing where no line starts |
| Patterns.CommentedFindsNothing | src/code-sandbox-mcp/dependencies/parser.go:10-11 | in code whose every line is a comment, `import` and `from` statements are not found |
| Patterns.ImportListFirstOnly | src/code-sandbox-mcp/dependencies/parser.go:10 | `import a, b` reports only `a` |
| Patterns.GoSlashFirst | src/code-sandbox-mcp/dependencies/parser.go:21 | a line with a `/` before its first quote yields no group-import match there |
| Patterns.GoQuotedPathFound | src/code-sandbox-mcp/dependencies/parser.go:21 | a line `w"path"` with no `/` or quote in `w` captures exactly `path` |
| Parser.Collect | src/code-sandbox-mcp/dependencies/parser.go:53-61 | the per-pattern loop: the map's keys grow by exactly the captured packages (after renaming) that are not in the standard library |
| Parser.MapToSlice | src/code-sandbox-mcp/dependencies/parser.go:143-149 | the slice lists each key of the map exactly once |
| Parser.CollectAll | src/code-sandbox-mcp/dependencies/parser.go:50-84 | the keys collected over all patterns are exactly the kept packages of each pattern's captures |
| Parser.Scan | src/code-sandbox-mcp/dependencies/parser.go:49-140 | the reported list has no duplicates and holds exactly those packages the language's patterns report |
| Parser.ParsePythonImports | src/code-sandbox-mcp/dependencies/parser.go:49-86 | no duplicates; exactly the Python packages imported by `import`, `from` and `__import__`, renamed and without standard modules |
| Parser.ParseNodeImports | src/code-sandbox-mcp/dependencies/parser.go:89-117 | no duplicates; exactly the base packages of `require`, ES and dynamic imports that are not built in |
| Parser.ParseGoImports | src/code-sandbox-mcp/dependencies/parser.go:120-140 | no duplicates; exactly the single-line and group import paths that are not in the standard list |
| Parser.KeptAllMember | src/code-sandbox-mcp/dependencies/parser.go:53-137 | every reported package comes from a capture of one of the patterns, mapped, and is not a standard one |
| Parser.PythonReportedShape | src/code-sandbox-mcp/dependencies/parser.go:24-83 | a reported Python package is a word, not a standard module and never `PIL` (it becomes `pillow`) |
| Parser.NodeReportedShape | src/code-sandbox-mcp/dependencies/parser.go:93-114 | a reported Node package is its own base package and not built in |
| Parser.GoReportedShape | src/code-sandbox-mcp/dependencies/parser.go:124-137 | a reported Go import is non-empty, quote-free, not standard, and captured by one of the two patterns |
| Parser.BaseScoped | src/code-sandbox-mcp/dependencies/parser.go:154-158 | a scoped path `@org/pkg/...` reduces to `@org/pkg` |
| Parser.BaseUnscoped | src/code-sandbox-mcp/dependencies/parser.go:161 | any other path reduces to its first `/`-element, which has no `/` |
| Parser.BasePrefix | src/code-sandbox-mcp/dependencies/parser.go:152-162 | the base package is a prefix of the import path |
| Parser.BaseIdempotent | src/code-sandbox-mcp/dependencies/parser.go:152-162 | reducing a base package again changes nothing |
| Parser.StdSubmoduleDropped | src/code-sandbox-mcp/dependencies/parser.go:94-96 | a submodule of a built-in module (`fs/promises`) reduces to that module and is dropped |
| Parser.NodeStdLibPlain | src/code-sandbox-mcp/dependencies/parser.go:30-34 | the built-in Node module names are plain: non-empty, unscoped, without `/` |
| Parser.FromPilReportsPillow | src/code-sandbox-mcp/dependencies/parser.go:64-71 | `from PIL import ...` reports `pillow` |
| Parser.CommentedPython | src/code-sandbox-mcp/dependencies/parser.go:53-83 | in fully commented Python only `__import__` calls can report packages |
| Parser.GoNamedImportReported | src/code-sandbox-mcp/dependencies/parser.go:132-137 | a named import `w"path"` inside a group, with a `/` in a non-standard path, is reported |
| Parser.GroupCaptureReported | src/code-sandbox-mcp/dependencies/parser.go:132-137 | every non-standard group capture is reported |
| Manifests.RequirementsLines | src/code-sandbox-mcp/dependencies/docker.go:31-33 | `requirements.txt` is the dependencies one per line: splitting it on newlines gives them back |
| Manifests.Latest | src/code-sandbox-mcp/dependencies/docker.go:58-62 | one `<dep> latest` line per dependency |
| Manifests.JoinLatest | src/code-sandbox-mcp/dependencies/docker.go:61 | the joined go.mod requirement text equals the `latest` lines joined by newline-tab |
| Manifests.GoModLines | src/code-sandbox-mcp/dependencies/docker.go:58-62 | `go.mod` is the fixed head, one `<dep> latest` line per dependency, then the closing parenthesis; with no dependency it holds a stray ` latest` line |
| Manifests.DependencyMap | src/code-sandbox-mcp/dependencies/docker.go:45-49 | the dependency map has exactly the dependencies as keys, each mapped to `latest` |
| Manifests.FillDependencies | src/code-sandbox-mcp/dependencies/docker.go:47-49 | the loop builds exactly that map |
| Manifests.SortedKeysSorted | src/code-sandbox-mcp/dependencies/docker.go:50 | the keys `fmt` prints are strictly sorted and exactly the dependencies |
| Manifests.SortedUnique | src/code-sandbox-mcp/dependencies/docker.go:50 | two strictly sorted lists with the same members are equal, so the printed map does not depend on insertion order |
| Manifests.PackageJsonOrderFree | src/code-sandbox-mcp/dependencies/docker.go:40-51 | the `package.json` text depends only on the set of dependencies, not on their order or repetitions |
| Manifests.PackageJsonEntries | src/code-sandbox-mcp/dependencies/docker.go:50 | `package.json` is `{"dependencies":map[k1:latest k2:latest ...]}` with the keys sorted and unique |
| Manifests.NodeManifest | src/code-sandbox-mcp/dependencies/docker.go:40-51 | the generator yields exactly that text |
| Manifests.PythonCommand | src/code-sandbox-mcp/dependencies/docker.go:26-34 | Python writes `requirements.txt` and `main.py` and runs `pip install -r requirements.txt && python -c main.py` |
| Manifests.NodeCommand | src/code-sandbox-mcp/dependencies/docker.go:35-52 | Node writes `package.json` and `main.js` and runs `npm install --no-save && node -e main.js` |
| Manifests.GoCommand | src/code-sandbox-mcp/dependencies/docker.go:53-63 | Go writes `go.mod` and `main.go` and runs `go get ./... && go run main.go` |
| Manifests.CombinedParts | src/code-sandbox-mcp/dependencies/docker.go:167-171 | the output is stdout, followed by `\nErrors:\n` and stderr exactly when stderr is non-empty |
| Manifests.RunContainer | src/code-sandbox-mcp/dependencies/docker.go:136-173 | create, start, wait, logs and demultiplex, each failure reported with its message; the log grows by exactly those calls |
| Manifests.RunInEngine | src/code-sandbox-mcp/dependencies/docker.go:109-173 | pull the image, then run the container; the log grows by exactly those calls |
| Manifests.Generate | src/code-sandbox-mcp/dependencies/docker.go:84-104 | the manifest path, install step and manifest text for the language |
| Manifests.WriteSources | src/code-sandbox-mcp/dependencies/docker.go:84-106 | write the code file, then the manifest, each failure reported; the log grows by exactly those writes |
| Manifests.PrepareHost | src/code-sandbox-mcp/dependencies/docker.go:74-106 | make the temporary directory, then write the sources; an unconfigured language panics when the generator is called |
| Manifests.RunWithDependencies | src/code-sandbox-mcp/dependencies/docker.go:67-174 | the whole run: host preparation, then the engine; the log grows by exactly those calls |
| Manifests.HostOrder | src/code-sandbox-mcp/dependencies/docker.go:77-106 | the temporary directory is made first; the host side is ready exactly when all three steps succeed, and then holds that directory |
| Manifests.EngineOrder | src/code-sandbox-mcp/dependencies/docker.go:109-136 | the image is pulled first, and the container is created (with the shell command, `/app` and the bind mount) exactly when the pull succeeded |
| Manifests.EngineSuccess | src/code-sandbox-mcp/dependencies/docker.go:141-173 | a successful run made exactly six calls, waited for the created container, and returns the combined logs |
| Mcp.GetStr | src/code-sandbox-mcp/tools/stop-container.go:15 | the `.(string)` assertion: a value exactly when the argument is present and a string, and then that string |
| Mcp.GetBool | src/code-sandbox-mcp/tools/run_project.go:33 | the `.(bool)` assertion: a value exactly when the argument is present and a boolean |
| Mcp.GetString | src/code-sandbox-mcp/tools/initialize.go:16-19 | `GetString(key, default)`: the argument when it is a string, the default otherwise |
| Mcp.NonEmptyStr | src/code-sandbox-mcp/tools/stop-container.go:15-16 | the argument exactly when it is a non-empty string |
| Mcp.EmptyStringKept | src/code-sandbox-mcp/tools/stop-container.go:15-16 | an empty string argument is kept by `GetString` and by the bare assertion, and refused only where emptiness is checked |
| Mcp.ShowNumber | src/code-sandbox-mcp/tools/run_code.go:27 | `%s` of a decoded number inside `Language not supported: ...`: below a million in magnitude it is `%!s(float64=<digits>)`, and the text is in exponent form exactly from a million on |
| Floats.FloatPlain | src/code-sandbox-mcp/tools/run_code.go:27 | below a million in magnitude, `%v` of an integral `float64` prints the integer as `%d` would |
| Floats.FloatExponent | src/code-sandbox-mcp/tools/run_code.go:27 | from a million on, `%v` prints a mantissa and an exponent `e` with `10^e <= a < 10^(e+1)` for the magnitude `a`, the mantissa's digits have no trailing zero, and times the power of ten the exponent leaves they read back as the number |
| Floats.ExponentMark | src/code-sandbox-mcp/tools/run_code.go:27 | the text holds an `e` exactly when the magnitude is at least a million |
| Floats.Significant | src/code-sandbox-mcp/tools/run_code.go:27 | the digits without trailing zeros are non-empty, start and end with a non-zero digit, and read back as the number once the zeros are restored |
| Floats.FloatMillion | src/code-sandbox-mcp/tools/run_code.go:27 | a million is printed `1e+06` |
| Engine.CreateAndStart | src/code-sandbox-mcp/tools/run_project.go:145-152 | create an unnamed container and start it: the ID once it started, or the first error with its message |
| Engine.StartedIsCreated | src/code-sandbox-mcp/tools/run_project.go:145-152 | a started container is the one just created, and it is running with the configured image |
| Engine.AwaitOutput | src/code-sandbox-mcp/tools/run_project.go:160-178 | wait, read both logs and demultiplex them, each failure reported with its message; the log grows by exactly those calls |
| Engine.OutputOrder | src/code-sandbox-mcp/tools/run_project.go:160-178 | the wait comes first, the logs are read exactly when the wait succeeded, and the output is the demultiplexed stdout and stderr |
| Engine.ChmodBits | src/code-sandbox-mcp/tools/copy-file-from-container.go:106 | `os.Chmod(path, os.FileMode(m))`: the mode applied is below 0o10000 and keeps the permission bits of `m` |
| Engine.ChmodFlags | src/code-sandbox-mcp/tools/copy-file-from-container.go:106 | the setuid, setgid and sticky bits applied are set exactly when Go's own flags (bits 23, 22, 20) are set in the 32-bit mode |
| Engine.ChmodTarMode | src/code-sandbox-mcp/tools/copy-file-from-container.go:106 | a mode as a tar header records it keeps only its permission bits: a setuid 0o4755 becomes 0o755 |
| Engine.Poll | src/code-sandbox-mcp/tools/copy-project.go:222-237 | the inspection loop: the log grows by one inspection per round until the exec stops, and the status is that poll's |
| Engine.PollSucceedsIff | src/code-sandbox-mcp/tools/copy-project.go:222-237 | a poll succeeds exactly when its last inspection reports the exec stopped with exit code 0; every earlier inspection reported it running |
| Lifecycle.CreateContainer | src/code-sandbox-mcp/tools/initialize.go:31-81 | pull, create (image, `/app`, TTY, open stdin, the given name) and start, each failure reported with its message; the log grows by exactly those calls |
| Lifecycle.InitializeEnvironment | src/code-sandbox-mcp/tools/initialize.go:14-28 | the tool replies `container_id: <id>` or `Error: ...`; the log grows by exactly the creation's calls |
| Lifecycle.CreateOrder | src/code-sandbox-mcp/tools/initialize.go:42-80 | the pull comes first, the container is created only after a successful pull and started only after a successful create, with the created ID |
| Lifecycle.CreateLeavesRunning | src/code-sandbox-mcp/tools/initialize.go:63-80 | after a successful creation the engine holds the new container, named and imaged as asked, running |
| Lifecycle.InitializeReply | src/code-sandbox-mcp/tools/initialize.go:16-27 | the reply is a plain result, `container_id: <id>` exactly when all three steps succeeded, and the image pulled is the argument or the default |
| Lifecycle.StopAndRemoveContainer | src/code-sandbox-mcp/tools/stop-container.go:29-54 | stop with a 10-second timeout, then force-remove with volumes, each failure reported with its message |
| Lifecycle.StopContainer | src/code-sandbox-mcp/tools/stop-container.go:13-26 | the tool's reply and calls for any arguments |
| Lifecycle.StopNeedsId | src/code-sandbox-mcp/tools/stop-container.go:15-18 | without a non-empty string `container_id` nothing is called and the reply says it is required |
| Lifecycle.StopThenRemove | src/code-sandbox-mcp/tools/stop-container.go:40-53 | the stop comes first, the removal only after it succeeded; success is reported exactly when both succeeded, and then the container is gone |
| Lifecycle.TrimSlash | src/code-sandbox-mcp/tools/list.go:39 | `TrimPrefix(name, "/")`: one leading slash removed, any other name kept |
| Lifecycle.ToSandboxes | src/code-sandbox-mcp/tools/list.go:35-48 | one entry per listed container, in order: the first 12 characters of its ID, its first name without the slash (or empty), its image and status |
| Lifecycle.ListSandboxes | src/code-sandbox-mcp/tools/list.go:23-56 | one listing call; an error exactly when it fails, with the `CONTAINER_LIST_ERROR` message; otherwise one record per listed container, in order, with all four fields: the first 12 characters of its ID, its first name without the slash (or empty), its image and status |
| Projects.Probe | src/code-sandbox-mcp/tools/run_project.go:74-82 | the manifest probe: the log grows by exactly the probe's stats and the result is the manifest it found |
| Projects.ProbeFirst | src/code-sandbox-mcp/tools/run_project.go:74-82 | the manifests are stat-ed in registry order up to the first that exists, which is the one found; none is found exactly when every stat fails, and then all were stat-ed |
| Projects.ProbeOnlyStats | src/code-sandbox-mcp/tools/run_project.go:74-82 | the probe only stats host files |
| Projects.ShellLine | src/code-sandbox-mcp/tools/run_project.go:95-121 | a manifest command is `/bin/sh -c <line>` |
| Projects.ShellSeesCommand | src/code-sandbox-mcp/tools/run_project.go:95-121 | the shell splits that line into the install step's words, `&&`, and the entrypoint's words |
| RunProject.Launch | src/code-sandbox-mcp/tools/run_project.go:145-180 | create with the project bound at `/app`, start, then return at once (background) or wait and collect the logs; the log grows by exactly those calls |
| RunProject.LaunchComposed | src/code-sandbox-mcp/tools/run_project.go:90-180 | compose the command for the manifest found, then launch it |
| RunProject.ComposeAndLaunch | src/code-sandbox-mcp/tools/run_project.go:74-180 | probe for manifests, compose and launch |
| RunProject.RunProjectInDocker | src/code-sandbox-mcp/tools/run_project.go:59-181 | pull the image, then probe, compose and launch |
| RunProject.RunFrom | src/code-sandbox-mcp/tools/run_project.go:25-56 | the argument checks after the language, the project directory check, the run and the reply |
| RunProject.NamedLanguage | src/code-sandbox-mcp/tools/run_project.go:21 | the `.(deps.Language)` assertion holds only for a value of the named type |
| RunProject.RunProjectSandboxAsWritten | src/code-sandbox-mcp/tools/run_project.go:20-57 | the handler as written |
| RunProject.RunProjectSandbox | src/code-sandbox-mcp/tools/run_project.go:20-57 | the handler with the language read as a string |
| RunProject.AsWrittenRejectsEverything | src/code-sandbox-mcp/tools/run_project.go:21-24 | as written, every JSON request is refused with `invalid language` before any call |
| RunProject.CorrectedAcceptsWellTyped | src/code-sandbox-mcp/tools/run_project.go:21-48 | with the language read as a string, well-typed arguments and an existing directory get past the checks: the directory is stat-ed, then the language's image pulled |
| RunProject.ReplyOfKinds | src/code-sandbox-mcp/tools/run_project.go:49-56 | an engine failure becomes an `Error: ...` error result, a panic stays a panic, a finished run is a plain result |
| RunProject.FaultsComeFirst | src/code-sandbox-mcp/tools/run_project.go:25-45 | protocol errors are raised before any call, or right after the stat of a missing directory, and nowhere else |
| RunProject.ReplyKinds | src/code-sandbox-mcp/tools/run_project.go:20-57 | over the whole tool: protocol errors exactly before any call or for a missing directory; every engine failure an `Error: ...` result |
| RunProject.LaunchCreatesFirst | src/code-sandbox-mcp/tools/run_project.go:139-152 | the container is created first with the command, the bind and `/app`; only container calls follow; a finished run started the container just created |
| RunProject.BackgroundNeverWaits | src/code-sandbox-mcp/tools/run_project.go:155-157 | a background run never waits and reports where its logs are |
| RunProject.ForegroundOutput | src/code-sandbox-mcp/tools/run_project.go:160-180 | a finished foreground run started, waited, read logs and demultiplexed, and returns stdout followed by stderr |
| RunProject.ComposedSteps | src/code-sandbox-mcp/tools/run_project.go:110-135 | after the probe a run panics exactly for a Node project with an empty entrypoint, and then makes no engine call |
| RunProject.ComposedContainer | src/code-sandbox-mcp/tools/run_project.go:145-180 | after the probe a run makes only container calls |
| RunProject.ProbeIsPrefix | src/code-sandbox-mcp/tools/run_project.go:74-82 | the probe's stats come first and complete before anything else |
| RunProject.PullFirst | src/code-sandbox-mcp/tools/run_project.go:67-82 | the pull comes first and a failed pull ends the run with an error; otherwise the probe follows at once |
| RunProject.NodeRewriteKeepsArguments | src/code-sandbox-mcp/tools/run_project.go:110-133 | the first Node word gives way to the registry's run command exactly when the last word has an extension; the other words are kept in order |
| RunProject.ManifestsHaveInstall | src/code-sandbox-mcp/tools/run_project.go:91-123 | every manifest the registry lists for a language has an install step |
| RunProject.RunCommandWords | src/code-sandbox-mcp/languages/types.go:29-49 | every registered run command is made of plain words |
| RunProject.ManifestShellLine | src/code-sandbox-mcp/tools/run_project.go:91-123 | with a manifest the container runs one shell line that splits into the install step, `&&` and the (Node: rewritten) entrypoint; only a Node project with an empty entrypoint has none |
| RunProject.NoManifestVerbatim | src/code-sandbox-mcp/tools/run_project.go:124-136 | without a manifest a non-Node entrypoint runs verbatim |
| RunProject.NodeEmptyPanics | src/code-sandbox-mcp/tools/run_project.go:110-133 | a Node project with an empty entrypoint panics, with or without a manifest |
| Mcp.RequireString | src/code-sandbox-mcp/tools/copy-project.go:22-30 | `RequireString`: the argument exactly when it is a string (possibly empty), an error otherwise |
| CopyProject.ItemEntry | src/code-sandbox-mcp/tools/copy-project.go:95-135 | the walk callback on one item fails exactly when the walk passed an error, the item is a socket, or a regular file other than the root cannot be read |
| CopyProject.ArchiveItems | src/code-sandbox-mcp/tools/copy-project.go:95-136 | the callback applied to each walked item in turn, stopping at the first error: the result is the archive of the walk |
| CopyProject.CreateTarArchive | src/code-sandbox-mcp/tools/copy-project.go:87-143 | one walk of the source; the archive of what it visits, under the source's last element |
| CopyProject.CollectStops | src/code-sandbox-mcp/tools/copy-project.go:95-140 | an error among the first items is the error of the whole walk: there is no partial archive |
| CopyProject.ArchiveFailsIff | src/code-sandbox-mcp/tools/copy-project.go:95-140 | the archive fails exactly when some walked item fails |
| CopyProject.ArchiveEntries | src/code-sandbox-mcp/tools/copy-project.go:112-134 | a successful archive holds one entry per walked item other than the root, in walk order, each with that item's header |
| CopyProject.ArchiveContents | src/code-sandbox-mcp/tools/copy-project.go:117-134 | each entry is named `Join(base, rel)`; exactly the regular files carry bytes, and those are the bytes read |
| CopyProject.SymlinkPointsAtItself | src/code-sandbox-mcp/tools/copy-project.go:101 | as written, the symlink `current -> v2` is archived as pointing at `current`, its own name |
| CopyProject.SymlinksNameThemselves | src/code-sandbox-mcp/tools/copy-project.go:101 | as written, for every walk: each symlink in a successful archive records its own last path element as the link |
| CopyProject.SymlinksKeepTargets | src/code-sandbox-mcp/tools/copy-project.go:101 | with the link's own target recorded, every archived symlink points where the walked link does |
| CopyProject.ExecuteCommandAndWait | src/code-sandbox-mcp/tools/copy-project.go:195-238 | create and start an exec, then poll it until it stops, each failure reported with its message; the log grows by exactly those calls |
| CopyProject.WaitedSucceedsIff | src/code-sandbox-mcp/tools/copy-project.go:207-237 | the command is created first; it succeeds exactly when create and start succeeded and the last inspection reports exit code 0; a non-zero code is reported as `command exited with code <n>` |
| CopyProject.WaitedCommands | src/code-sandbox-mcp/tools/copy-project.go:207-237 | a waited command runs exactly that one command |
| CopyProject.CopyTarToContainer | src/code-sandbox-mcp/tools/copy-project.go:146-175 | inspect the container, `mkdir -p /tmp` and wait, then copy the archive to `/tmp`, each failure reported with its message |
| CopyProject.UploadCommands | src/code-sandbox-mcp/tools/copy-project.go:157-172 | the upload runs `mkdir -p /tmp` exactly when the inspection succeeded, and a successful upload ends with the copy of the archive |
| CopyProject.ExtractTarInContainer | src/code-sandbox-mcp/tools/copy-project.go:178-192 | `mkdir -p dest`, then `tar -xf <archive> -C dest`, each waited for and each failure reported with its message |
| CopyProject.ExtractSplit | src/code-sandbox-mcp/tools/copy-project.go:180-189 | once the directory is made, the extraction succeeds exactly when the `tar` command does |
| CopyProject.ExtractCommands | src/code-sandbox-mcp/tools/copy-project.go:180-189 | the extraction runs `mkdir -p dest`, then `tar -xf` only when the directory was made |
| CopyProject.Finish | src/code-sandbox-mcp/tools/copy-project.go:70-83 | unpack, then remove the temporary archive; the reply is the success text whatever the removal did |
| CopyProject.FinishReply | src/code-sandbox-mcp/tools/copy-project.go:71-83 | after the upload the reply is success exactly when the unpacking succeeded; a failed removal is only a warning |
| CopyProject.FinishCommands | src/code-sandbox-mcp/tools/copy-project.go:70-81 | after the upload the commands are a prefix of `mkdir -p dest`, `tar -xf`, `rm`, all three exactly when the unpacking succeeded |
| CopyProject.Ship | src/code-sandbox-mcp/tools/copy-project.go:64-83 | upload, then finish; an upload failure is reported as `Error copying to container: ...` |
| CopyProject.ShipOrder | src/code-sandbox-mcp/tools/copy-project.go:64-83 | the container commands run are a prefix of `mkdir -p /tmp`, `mkdir -p dest`, `tar -xf`, `rm`, and success is reported exactly when all four ran |
| CopyProject.ShipRefused | src/code-sandbox-mcp/tools/copy-project.go:65-68 | a failed upload runs at most `mkdir -p /tmp` and is reported as an error |
| CopyProject.Pack | src/code-sandbox-mcp/tools/copy-project.go:55-83 | archive the source as the code does (a symlink recorded under its own name), then ship that archive; an archive failure is reported as `Error creating tar archive: ...` |
| CopyProject.Checked | src/code-sandbox-mcp/tools/copy-project.go:33-83 | stat the source, refuse a missing source or a non-directory, then pack and ship |
| CopyProject.HostRefusals | src/code-sandbox-mcp/tools/copy-project.go:34-59 | a missing source or a non-directory costs one stat and nothing else; a failed archive costs the stat and the walk and is reported with its error |
| CopyProject.CheckedOrder | src/code-sandbox-mcp/tools/copy-project.go:33-83 | from the stat on: the container commands are a prefix of the four, and success is reported exactly when all four ran |
| CopyProject.CheckedShips | src/code-sandbox-mcp/tools/copy-project.go:33-68 | a directory that archives cleanly is stat-ed, walked and shipped as it is: the archive shipped is the as-written one, each symlink recorded under its own name |
| CopyProject.CopyProjectTool | src/code-sandbox-mcp/tools/copy-project.go:20-84 | the whole tool: both arguments required, the source cleaned, the destination resolved, then the checks and the copy of the as-written archive |
| CopyProject.ArgumentsRequired | src/code-sandbox-mcp/tools/copy-project.go:22-30 | without both arguments nothing is called and the reply names the missing one |
| Destinations.UnderAppAbsolute | src/code-sandbox-mcp/tools/copy-project.go:49-52 | a relative destination is joined under `/app` and comes out clean, an absolute one is kept as given; either way the result is absolute |
| Destinations.DestinationAbsolute | src/code-sandbox-mcp/tools/copy-project.go:44-53 | the destination is always absolute: `/app/<base of the source>` by default, a given absolute path as it is |
| CopyFile.CreateDirectoryInContainer | src/code-sandbox-mcp/tools/copy-file.go:69-94 | create and start `mkdir -p dir`, each failure reported with its message; the log grows by exactly those calls |
| CopyFile.DirectoryNotAwaited | src/code-sandbox-mcp/tools/copy-file.go:79-93 | the directory command is created first and counts as made as soon as it started: it is never inspected |
| CopyFile.Archive | src/code-sandbox-mcp/tools/copy-file.go:108-146 | open, stat and read the source, then the tar writer's verdict, each failure reported with its message |
| CopyFile.TarWriteSized | src/code-sandbox-mcp/tools/copy-file.go:126-146 | the tar writer accepts the bytes exactly when there are as many as the header's size, and the entry then is a regular file named after the destination carrying those bytes |
| CopyFile.CopyFileToContainer | src/code-sandbox-mcp/tools/copy-file.go:97-155 | archive the file, then copy the archive into the destination's directory |
| CopyFile.UploadedEntry | src/code-sandbox-mcp/tools/copy-file.go:108-152 | a successful copy opened, stat-ed and read the source, then copied one regular entry named after the destination, of the stat-ed mode and size, into its directory |
| CopyFile.LandsAtDestination | src/code-sandbox-mcp/tools/copy-file.go:127-149 | for an absolute destination without a trailing slash, the entry's name joined to the directory it is copied into is the destination path (with `/app/dir/` the file lands at `/app/dir/dir`, as `filepath.Dir` and `Base` make it) |
| CopyFile.Place | src/code-sandbox-mcp/tools/copy-file.go:54-65 | make the destination's directory, then copy the file, each failure reported with its message |
| CopyFile.DirectoryFirst | src/code-sandbox-mcp/tools/copy-file.go:55-63 | the directory command comes first, and a failure there ends the tool with `Error creating destination directory: ...` |
| CopyFile.Checked | src/code-sandbox-mcp/tools/copy-file.go:32-65 | stat the source, refuse a missing source or a directory, resolve the destination, then place the file |
| CopyFile.SourceChecked | src/code-sandbox-mcp/tools/copy-file.go:33-40 | a missing source or a directory costs one stat and nothing else, with the matching reply |
| CopyFile.CopyFileTool | src/code-sandbox-mcp/tools/copy-file.go:19-66 | the whole tool: both arguments required non-empty, the source cleaned, then the checks and the copy |
| CopyFile.ArgumentsRequired | src/code-sandbox-mcp/tools/copy-file.go:21-29 | without a non-empty `container_id` or `local_src_file` nothing is called and the reply names the missing one |
| CopyFrom.FetchFile | src/code-sandbox-mcp/tools/copy-file-from-container.go:56-111 | copy from the container, check the stat and the first tar entry, then create, fill and chmod the local file, each failure reported with its message |
| CopyFrom.RefusedBeforeWriting | src/code-sandbox-mcp/tools/copy-file-from-container.go:67-90 | the container copy comes first, and the host is touched exactly when the source is not a directory and the archive's first entry is a regular file; otherwise the copy fails |
| CopyFrom.FetchedFile | src/code-sandbox-mcp/tools/copy-file-from-container.go:93-108 | after a successful fetch the host holds, at the destination, exactly the first entry's bytes with the mode `os.Chmod` makes of its header mode (its permission bits, for a mode as tar records it), and nothing else changed |
| CopyFrom.WrittenFile | src/code-sandbox-mcp/tools/copy-file-from-container.go:93-108 | create, write and chmod together leave the destination with those bytes and the mode `os.Chmod` makes of the one passed |
| CopyFrom.HostWrite | src/code-sandbox-mcp/tools/copy-file-from-container.go:93-108 | the three host steps on their own, given that each succeeded: the data written and the mode `os.Chmod` applies |
| CopyFrom.Transfer | src/code-sandbox-mcp/tools/copy-file-from-container.go:42-52 | make the destination's directory (mode 0755), then fetch, each failure reported with its message |
| CopyFrom.DirectoryFirst | src/code-sandbox-mcp/tools/copy-file-from-container.go:43-48 | the local directory is made first, and the container is asked for the file exactly when that succeeded |
| CopyFrom.TransferReply | src/code-sandbox-mcp/tools/copy-file-from-container.go:43-52 | the reply is always a plain result, and the success text exactly when both the directory and the fetch succeeded |
| CopyFrom.CopyFileFromContainer | src/code-sandbox-mcp/tools/copy-file-from-container.go:17-53 | the whole tool: both arguments required non-empty, the container path resolved under `/app`, the local path defaulted and cleaned, then the transfer |
| CopyFrom.PathsResolved | src/code-sandbox-mcp/tools/copy-file-from-container.go:29-42 | the container path is absolute (a given absolute one kept) and the local path is clean |
| CopyFrom.ArgumentsRequired | src/code-sandbox-mcp/tools/copy-file-from-container.go:19-27 | without a non-empty `container_id` or `container_src_path` nothing is called and the reply names the missing one |
| WriteFile.EnsureDirectoryExists | src/code-sandbox-mcp/tools/write-file.go:63-87 | create and start `mkdir -p dir` without waiting for it, each failure reported with its message |
| WriteFile.StreamIn | src/code-sandbox-mcp/tools/write-file.go:101-128 | create the `sh -c "cat > path"` exec with stdin, attach, and stream the contents, each failure reported with its message |
| WriteFile.WriteFileToContainer | src/code-sandbox-mcp/tools/write-file.go:90-148 | stream the contents, close stdin, then poll the exec until it stops |
| WriteFile.StreamThenPoll | src/code-sandbox-mcp/tools/write-file.go:112-145 | after a successful stream the calls are create, attach, the contents, the close of stdin, then only inspections of that exec |
| WriteFile.WriteSucceedsIff | src/code-sandbox-mcp/tools/write-file.go:112-147 | the write succeeds exactly when create, attach and stream succeeded and the last inspection reports exit code 0 |
| WriteFile.UnquotedPath | src/code-sandbox-mcp/tools/write-file.go:101 | the shell splits `cat > path` into `cat`, `>` and the path's own fields: the path is not quoted |
| WriteFile.Place | src/code-sandbox-mcp/tools/write-file.go:47-59 | make the directory, then write `Join(dir, name)`, each failure reported with its message |
| WriteFile.DirectoryFirst | src/code-sandbox-mcp/tools/write-file.go:50-52 | the directory command comes first, and a failure there ends the tool with `Error creating directory: ...` |
| WriteFile.TargetPath | src/code-sandbox-mcp/tools/write-file.go:34-47 | the written path is absolute and clean; the default directory is `/app`, and a given absolute directory is used as given |
| WriteFile.WriteFileTool | src/code-sandbox-mcp/tools/write-file.go:17-60 | the whole tool: `container_id` and `file_name` required non-empty, `file_contents` required as a string, then the write |
| WriteFile.EmptyContentsAccepted | src/code-sandbox-mcp/tools/write-file.go:29-32 | with the other two arguments present, the tool stops before any call exactly when `file_contents` is not a string; an empty string is written |
| Exec.CommandList | src/code-sandbox-mcp/tools/exec.go:24-32 | the array is accepted exactly when every element is a string, and then the list holds those strings in order; otherwise `Each command must be a string` |
| Exec.Terminated | src/code-sandbox-mcp/tools/exec.go:60-72 | the text written for an output ends in a newline, starts with the output itself and adds at most one character |
| Exec.ExecuteCommand | src/code-sandbox-mcp/tools/exec.go:85-127 | create an exec of `sh -c cmd`, attach, read the demultiplexed output, inspect for the exit code; each failure is reported with its message |
| Exec.CommandCalls | src/code-sandbox-mcp/tools/exec.go:97-126 | one command creates exactly one exec, of its own command line, in one to four calls; it fails exactly when its last call fails, and on success the exit code is the inspection's |
| Exec.Transcript | src/code-sandbox-mcp/tools/exec.go:44-79 | the loop over the commands: its calls and its text are those of the transcript over the list |
| Exec.TranscriptPrefix | src/code-sandbox-mcp/tools/exec.go:46-79 | the commands executed are a non-empty prefix of the list, in order |
| Exec.TranscriptStopsOnFailure | src/code-sandbox-mcp/tools/exec.go:54-78 | a loop that executes fewer than all commands stopped on an executor error or a non-zero exit code of its last command |
| Exec.TranscriptShape | src/code-sandbox-mcp/tools/exec.go:48-72 | a successful transcript starts with the first command's header (after a blank line for every command but the first) and ends in a newline |
| Exec.ExecPrefix | src/code-sandbox-mcp/tools/exec.go:44-79 | over the whole loop: a prefix of the list is executed, an early stop is a failure, and the transcript starts with `$ ` and the first command |
| Exec.ExecTool | src/code-sandbox-mcp/tools/exec.go:15-82 | the whole tool: container and command arguments, then the transcript, or `Error executing command: ...` when the executor fails |
| Exec.ExecReplies | src/code-sandbox-mcp/tools/exec.go:15-82 | every reply is a plain text result, and an argument problem is answered without any engine call, and only then |
| RunCode.Ticks | src/code-sandbox-mcp/tools/run_code.go:187-202 | the select loop notifies once per tick, the progress going up by 5 from 50, and stops at the first event that is not a tick |
| RunCode.Watch | src/code-sandbox-mcp/tools/run_code.go:167-211 | the container wait and the select loop: cancellation yields the context's error, a finished wait its own error if it had one |
| RunCode.Collect | src/code-sandbox-mcp/tools/run_code.go:213-224 | read the logs with empty options and demultiplex them: stdout followed directly by stderr, each failure reported with its message |
| RunCode.Finish | src/code-sandbox-mcp/tools/run_code.go:167-224 | watch the started container, then collect its output |
| RunCode.Launch | src/code-sandbox-mcp/tools/run_code.go:158-224 | create and start the container, then finish the run |
| RunCode.SourceName | src/code-sandbox-mcp/tools/run_code.go:105-156 | exactly Go and Node.js get a code file |
| RunCode.MountCode | src/code-sandbox-mcp/tools/run_code.go:104-156 | for Go and Node.js, make a temporary directory, write the code as `main.go` or `main.ts` with mode 0644, and mount it at `/app` as the working directory |
| RunCode.Prepare | src/code-sandbox-mcp/tools/run_code.go:91-156 | pull the image as named, then prepare the mount |
| RunCode.RunInDocker | src/code-sandbox-mcp/tools/run_code.go:80-225 | the whole of `runInDocker`: the container's output, or the first error |
| RunCode.CommandFor | src/code-sandbox-mcp/tools/run_code.go:45-51 | Go runs `go mod init sandbox && go mod tidy && go run main.go`; every other language runs its registry command |
| RunCode.ReplyOf | src/code-sandbox-mcp/tools/run_code.go:74-77 | an error becomes an error-flagged `Error: ...` result, an output a plain text result holding exactly the output |
| RunCode.Report | src/code-sandbox-mcp/tools/run_code.go:66-77 | run, then notify 100 whatever the outcome, then reply |
| RunCode.Execute | src/code-sandbox-mcp/tools/run_code.go:45-77 | notify 50 (a failure is ignored), then run and report |
| RunCode.RunWith | src/code-sandbox-mcp/tools/run_code.go:33-77 | a failed first notification of 10 ends the request with `Could not send progress to client` |
| RunCode.RunCodeSandbox | src/code-sandbox-mcp/tools/run_code.go:22-78 | the whole handler: language and code arguments, the registry entry, then the notifications and the run |
| RunCode.WatchProgress | src/code-sandbox-mcp/tools/run_code.go:167-211 | the wait is issued first, then the j-th notification carries 50 + 5j, one per tick before the last event; cancellation wins, and a finished wait succeeds exactly when the wait call did |
| RunCode.ProgressPassesHundred | src/code-sandbox-mcp/tools/run_code.go:185-202 | the progress is not capped: after more than ten ticks a notification reports 105 |
| RunCode.OutputAfterWait | src/code-sandbox-mcp/tools/run_code.go:203-224 | the output is read only after a successful wait without cancellation, with logs options that select neither stream, and is stdout followed by stderr |
| RunCode.FinishCalls | src/code-sandbox-mcp/tools/run_code.go:167-224 | after the start, only waits, notifications, log reads and demultiplexing happen |
| RunCode.LaunchCreatesOnce | src/code-sandbox-mcp/tools/run_code.go:158-224 | the container is created first and exactly once, and nothing after the create writes to the host |
| RunCode.MountedCode | src/code-sandbox-mcp/tools/run_code.go:104-158 | for Go and Node.js, the code is written to `main.go` or `main.ts` in the temporary directory, which is mounted at `/app` as the working directory of the created container |
| RunCode.CodeNotDelivered | src/code-sandbox-mcp/tools/run_code.go:104-158 | any other language, Python included, makes no call that writes to the host: its code is never delivered |
| RunCode.UnmountedCreate | src/code-sandbox-mcp/tools/run_code.go:92-158 | for those languages the container is created right after the pull with no mount and no working directory |
| RunCode.CommandNamesSource | src/code-sandbox-mcp/tools/run_code.go:45-56 | Go and Node.js run the file written for them; Python's registry command runs `main.py`, which no call writes |
| RunCode.RunWithCalls | src/code-sandbox-mcp/tools/run_code.go:35-73 | the calls are the notification of 10, that of 50, the run of the valid-UTF-8 code, then the notification of 100 |
| RunCode.FirstMilestone | src/code-sandbox-mcp/tools/run_code.go:35-43 | the first call notifies 10; it alone happens, with the reply `Could not send progress to client`, exactly when it fails |
| RunCode.Milestones | src/code-sandbox-mcp/tools/run_code.go:58-73 | once 10 was sent, 50 comes next, then the pull of the registry image, and 100 last |
| RunCode.LanguageChecks | src/code-sandbox-mcp/tools/run_code.go:25-34 | a non-string language or code is refused before any call, with `Language not supported: ...` for the language; a language outside the registry is not refused, and the empty image is pulled |
| DockerSandbox.ConfigOf | src/docker-sandbox-mcp/main.go:168-190 | `supportedLanguages[l]`: a registered language yields its entry, any other the zero entry |
| DockerSandbox.ValidIffRegistered | src/docker-sandbox-mcp/main.go:131-190 | a language is valid exactly when it is registered, i.e. exactly when its entry is not the zero entry |
| DockerSandbox.EnumTags | src/docker-sandbox-mcp/main.go:150-153 | one `enum=<tag>` per language, in order |
| DockerSandbox.GenerateEnumTag | src/docker-sandbox-mcp/main.go:149-155 | the loop builds the tags joined by commas |
| DockerSandbox.EnumTagText | src/docker-sandbox-mcp/main.go:149-155 | the tag text is exactly `enum=python,enum=go,enum=nodejs`, as the argument schemas list it |
| DockerSandbox.ComposeAndLaunch | src/docker-sandbox-mcp/main.go:432-540 | probe for manifests, compose the command and launch it |
| DockerSandbox.RunProjectInDocker | src/docker-sandbox-mcp/main.go:418-541 | pull `docker.io/library/<image>`, then probe, compose and launch |
| DockerSandbox.ProjectReply | src/docker-sandbox-mcp/main.go:274-281 | a failure becomes `Error: ...` as plain text, a panic stays a panic, a foreground run replies with its logs |
| DockerSandbox.RunAndReply | src/docker-sandbox-mcp/main.go:272-281 | run the project and reply |
| DockerSandbox.ProjectFrom | src/docker-sandbox-mcp/main.go:268-281 | stat the project directory, refuse a missing one, then run and reply |
| DockerSandbox.RunProjectTool | src/docker-sandbox-mcp/main.go:257-282 | the whole `run_project` handler: the language check, the absolute project directory, then the run |
| DockerSandbox.MountCode | src/docker-sandbox-mcp/main.go:330-351 | for Go, a temporary directory holding `main.go` (mode 0644) mounted at `/tmp`; no mount otherwise |
| DockerSandbox.LaunchCode | src/docker-sandbox-mcp/main.go:353-382 | create, start, wait, read both logs and demultiplex them, each failure reported with its message |
| DockerSandbox.MountAndLaunch | src/docker-sandbox-mcp/main.go:329-415 | mount the code, then launch |
| DockerSandbox.RunInDocker | src/docker-sandbox-mcp/main.go:309-416 | the whole of `runInDocker`: pull, mount and launch |
| DockerSandbox.RunCodeTool | src/docker-sandbox-mcp/main.go:230-251 | the whole `run_code` handler: the language check, the command, the run and the reply |
| DockerSandbox.CodeLanguageGate | src/docker-sandbox-mcp/main.go:232-234 | an unsupported language is refused with `unsupported language: ...` before any call, and only then is nothing called |
| DockerSandbox.ProjectDirChecked | src/docker-sandbox-mcp/main.go:259-270 | an unsupported language is refused before any call; otherwise the first call stats the absolute project directory, and the request faults exactly when it is missing |
| DockerSandbox.CodePullFirst | src/docker-sandbox-mcp/main.go:316-321 | the pull of `docker.io/library/<image>` comes first; its failure ends the run with `failed to pull Docker image ...`, otherwise the rest runs |
| DockerSandbox.GoSourceMounted | src/docker-sandbox-mcp/main.go:330-353 | for Go: a temporary directory, the code written as its `main.go`, and a container created with that directory bound at `/tmp` |
| DockerSandbox.OtherCodeInline | src/docker-sandbox-mcp/main.go:385-386 | any other language creates its container at once, with no bind and no host write |
| DockerSandbox.CodeCommandWords | src/docker-sandbox-mcp/main.go:237-244 | the command is the entrypoint followed by `/tmp/main.go` for Go and by the code itself otherwise |
| DockerSandbox.CodeOutput | src/docker-sandbox-mcp/main.go:353-415 | a successful run ends with start, wait, the read of both logs and the demultiplexing, and replies stdout followed by stderr |
| DockerSandbox.LaunchOutput | src/docker-sandbox-mcp/main.go:386-415 | a successful launch is exactly create, start, wait, logs and demultiplex, with stdout followed by stderr |
| DockerSandbox.NodeCommandByExtension | src/docker-sandbox-mcp/main.go:470-495 | a `.ts` or `.tsx` entrypoint runs under `node` with the type-stripping flags, a `.js` or `.jsx` one under `node`, and any other is kept |
| DockerSandbox.BackgroundNeverWaits | src/docker-sandbox-mcp/main.go:514-517 | a background run never waits and reports where to find its logs |
| Utf8.ToValid | src/code-sandbox-mcp/tools/run_code.go:48 | `strings.ToValidUTF8(code, "")`: the result is valid UTF-8 and no longer than the input |
| Utf8.ToValidOfValid | src/code-sandbox-mcp/tools/run_code.go:48 | valid UTF-8 passes unchanged |
| Utf8.ToValidIdempotent | src/code-sandbox-mcp/tools/run_code.go:48 | repairing twice is repairing once |
| Utf8.EncodeValid | src/code-sandbox-mcp/tools/run_code.go:48 | the encoding of any string argument is valid UTF-8, so the repair leaves it as it is |
| Strs.Split | src/code-sandbox-mcp/dependencies/parser.go:155-161 | `strings.Split`: at least one piece, no piece holds the separator, and the pieces joined by it give the input back |
| Strs.SplitJoin | src/code-sandbox-mcp/dependencies/parser.go:155-161 | splitting pieces joined by a separator they do not hold gives the pieces back |
| Strs.Fields | src/code-sandbox-mcp/tools/run_project.go:48 | `strings.Fields`: every field is non-empty and holds no white space |
| Strs.FieldsJoin | src/code-sandbox-mcp/tools/run_project.go:48-121 | the fields of words joined by single spaces are the words themselves |
| Strs.NatToStringRoundTrip | src/code-sandbox-mcp/tools/exec.go:76 | the decimal text of `%d` reads back as the number |
| Paths.Base | src/code-sandbox-mcp/tools/copy-project.go:47 | `filepath.Base`: never empty, and either `/` or free of slashes |
| Paths.BaseOfElement | src/code-sandbox-mcp/tools/copy-project.go:93 | the base of a single path element is that element |
| Paths.Ext | src/code-sandbox-mcp/tools/run_project.go:113 | `filepath.Ext`: empty or a dot-led suffix of the path with no further dot or slash |
| Paths.CleanAbs | src/code-sandbox-mcp/tools/copy-project.go:33 | `filepath.Clean` never yields the empty path and keeps a path absolute or relative |
| Paths.ResolvedClean | src/code-sandbox-mcp/tools/copy-project.go:33 | cleaning a non-empty path does not change the location it names |
| Paths.CleanIdempotent | src/code-sandbox-mcp/tools/copy-project.go:92 | cleaning a clean path changes nothing, so `createTarArchive`'s second clean is harmless |
| Paths.JoinAbs | src/code-sandbox-mcp/tools/copy-project.go:47-51 | `filepath.Join` onto an absolute directory is absolute and clean |
| Paths.JoinDirBase | src/code-sandbox-mcp/tools/copy-file.go:55-149 | `Join(Dir(d), Base(d))` names the same path as `d` itself |
| Paths.AbsIsAbs | src/code-sandbox-mcp/tools/run_project.go:39 | `filepath.Abs` against an absolute working directory is absolute and clean |
| Patterns.LastQuoted | src/code-sandbox-mcp/dependencies/parser.go:21 | the backtracking of the greedy group pattern: the last quoted path that starts before the first slash is chosen, and none when no position there starts one |
| Manifests.InsertSorted | src/code-sandbox-mcp/dependencies/docker.go:50 | inserting a key into strictly sorted keys keeps them strictly sorted and adds exactly that key, as `%s` prints a map in key order |
| Projects.FirstFound | src/code-sandbox-mcp/tools/run_project.go:76-82 | the probe's index is that of the first manifest whose stat succeeds, every earlier stat having failed |
| CopyProject.PollRunsNothing | src/code-sandbox-mcp/tools/copy-project.go:222-235 | the polling loop only inspects the exec: it runs no further command |

## Left out

- Mcp.ShowValue: a JSON number is modelled only as an integer below 2^53 in magnitude, where the decoded `float64` is exactly that integer. A non-integral number, or an integer whose nearest `float64` prints other digits, is not modelled, and neither is a JSON object (Go's `%s` of a `map[string]interface{}`), because `Value` has no constructor for it.
- Lifecycle.ListSandboxes: requires every listed ID to have at least 12 characters. Go's `ID[:12]` panics on a shorter one, and the model does not represent that panic.
- Lifecycle.ToSandboxes: requires every listed ID to have at least 12 characters, for the same reason: Go's `c.ID[:12]` panics on a shorter one, and the model does not represent that panic.
- Lifecycle.ListSandboxes: the reply is the list of records, not the JSON text `json.Marshal` makes of it. A marshalling failure is not modelled.
- Every method over a `World` requires a *fair* script: every exec is eventually reported as stopped, and the run_code event stream eventually brings something other than a tick. Without that, the Go polling loops would spin forever.
- Concurrency and real time. The wait goroutine, the ticker and `select` in `tools/run_code.go:167-211` are modelled as a sequential stream of events. The 100 ms sleeps of the polling loops (`tools/copy-project.go:234`, `tools/write-file.go:144`) are left out.
- Docker client creation and its failure (`client.NewClientWithOpts`), the deferred `Close` calls and the deferred `os.RemoveAll` of temporary directories are foreign calls with no observable result in the model.
- `filepath.Abs` and `os.Getwd` errors. `filepath.Abs` is modelled against a given absolute working directory.
- The image-pull progress stream copied to stdout, the `Printf` warning of a failed `rm` in `copy_project` and the `Printf` of a failed tick notification in `run_code` are console output.
- `stdcopy.StdCopy` is an oracle call returning stdout and stderr. Only the order in which the tools concatenate them is modelled.
- Tar byte encoding (the ustar/pax interchange format) and entry modification times are not modelled. Archives are sequences of entries (name, type, mode, size, link target, payload).
- CopyFile.Archive: a failure of `tw.WriteHeader` is not modelled. The header's mode is copied from the stat as a plain number, so a header the tar writer would refuse is not represented. The size checks of the copied bytes and of the close are modelled.
- CopyProject.CreateTarArchive: a walked file whose size differs from its stat is not modelled, and neither is a short read. The payload is what the file read returns.
- CopyProject.CreateTarArchive: the `ok` field of the walk's answer is not consulted; errors reach the callback through each item's `failure`, as `filepath.Walk` reports them.
- The container filesystem is not modelled. The model therefore cannot show that `tar -xf /tmp/project_<base>.tar` fails because no such file is written; it only shows which commands run and in what order.
- CopyFrom.WrittenFile: `os.Create` of an existing file keeps that file's mode until the `Chmod`. The model gives a created file mode 0666 either way, which makes no difference after the `Chmod`.
- The progress token of `run_code` is sent with every notification and is not modelled; a notification carries only its progress value.
- The installer and self-update (`installConfig`, `getConfigPath` in `src/docker-sandbox-mcp/main.go:41-118`, `installer/`), the test prompt and resource registered by `src/docker-sandbox-mcp/main.go:287-299`, and the tool registration and transport of both `main.go` files are wiring or file I/O.
- `resources/container_logs.go` is not part of this model.
- WriteFile.DirectoryFirst: the `mkdir -p` exec is started but not awaited, so in the engine it may race with the `cat >` exec. The model orders the calls as the code issues them and does not model that race. CopyFile.DirectoryNotAwaited states the same for `copy_file`.

## Findings

| source | as written | input that shows it | evidently intended | confidence | as-written member | corrected member |
|---|---|---|---|---|---|---|
| src/code-sandbox-mcp/tools/run_project.go:21 | the `language` argument is asserted to be of the named type `deps.Language`, which a JSON-decoded argument never is, so every request fails with `invalid language` | `{"language": "python", "entrypoint": "python main.py", "projectDir": ".", "background": false}` | read the language as a string, as `run_code` does, and go on to the directory check and the run | not executed | RunProject.AsWrittenRejectsEverything | RunProject.CorrectedAcceptsWellTyped |
| src/code-sandbox-mcp/tools/copy-project.go:101 | `tar.FileInfoHeader(fi, fi.Name())` passes the file's own name as the link target, so a symlink is archived pointing at itself | a project holding the symlink `current -> v2` | record the link's target (what `os.Readlink` returns), so that links survive the copy | not executed | CopyProject.SymlinkPointsAtItself | CopyProject.SymlinksKeepTargets |
