# cocinero: the recipe-to-script compiler, modelled in Dafny

cocinero turns a directory of provisioning recipes into a staging directory.
The staging directory holds a top-level `cook.sh`, plus one sub-directory per
recipe that has steps. Each sub-directory holds that recipe's `_cook.sh` and the
files its steps stage. A recipe declares:

- packages to `apt-get install`;
- systemd units to enable and restart;
- a list of template bindings (`template_vars`);
- an ordered list of steps.

There are three kinds of step: Install, Shell and Run. Each can be
*templated*. A templated step is registered once with the Handlebars engine, then
rendered once per binding, in binding order.

This project models the compiler in `src/main.rs`, with the recipes already
loaded:

- **`TemplateEnv`** (module `Templates`) is a class with the registration counter
  and the registry of template texts. Every registration first takes the name
  `template_{counter+1}`, then registers. The methods are proved to follow the
  pure `Registration` / `Rendering` functions. Handlebars itself is an abstract
  `Engine`: which texts compile, and what a text renders to against a binding.
  A failed render (strict mode) is `None`.
- **The step compiler** (modules `Steps`, `StepCompiler`, `StepProperties`):
  - `Steps.CompileStep` specifies the exhaustive match over
    (Install | Shell | Run) × template flag. It states what each step adds to
    the recipe's script lines, to its staged files and to the printed warnings.
    It threads the engine state, and the first error ends the recipe.
  - `StepCompiler` holds the imperative versions: the per-binding loops of
    `perform_template_install`, templated Shell and templated Run, and the loop
    over a recipe's steps. They drive the mutable `TemplateEnv`, and each is
    proved equal to the specification.
- **Staging names and helpers** (module `Staging`):
  - `dest.replace('/', "__")`;
  - the `script.{i}` names;
  - `mode | 0o500` on a 32-bit mode;
  - the `install  -D src dest` line;
  - the advisory `managed by cocinero` check.
- **Assembly of `cook.sh`** (modules `Assembler`, `AssemblerProperties`).
  `cook.sh` is laid out as:
  1. the six-line header and `echo 'starting to cook'`;
  2. `apt-get install` lines in batches of 64;
  3. a blank line;
  4. a banner and a `(cd name && ./_cook.sh)` line for every recipe that has steps;
  5. a blank line;
  6. the `systemctl` pairs for every unit of every recipe.

  `Assembler.Compile` is the imperative whole run. It is proved equal to
  `CompileSpec`, and the layout, order, batching, skip and failure properties
  are proved about `CompileSpec`.

The file system is abstracted away. A recipe directory's files are a map from
relative path to content and mode. The output is a value of type `Output`:
- `cook.sh`;
- each compiled recipe's `_cook.sh` and staged files, by recipe name;
- the lines printed to standard output.

Recipes come as one fixed sequence with distinct names. This matches the
source, where all three loops iterate the same unmutated `HashMap`.

Some points where the code does something other than a plain reading of its
design. The model follows the code:
- `install_in_script` formats a `--mode=` argument but never writes it. The
  emitted line is always `install  -D {src} {dest}`, with two spaces
  (`Staging.InstallInScript`, `StepProperties.InstallModeIgnored`).
- An untemplated Run step copies the script with `std::fs::copy`, which keeps
  the source file's permission bits. The code does not call `chmod_plus_x` on
  it. In the model the staged copy is the recipe file unchanged. Only templated
  Run outputs and the generated scripts get `| 0o500`.
- An untemplated Install stages the file under its `src` path, not its `dest`.
  The disclaimer check on it prints the staged path.

## Model

| member | source | states |
|---|---|---|
| `Templates.TemplateEnv.constructor` | src/main.rs:130-134 | a new environment has counter 0 and nothing registered |
| `Templates.TemplateEnv.NextTemplateName` | src/main.rs:136-139 | the counter advances by exactly one and the result is `template_{counter}` for the new counter; that name is not yet registered, every registered name has a smaller index, and the registry is unchanged |
| `Templates.TemplateEnv.Register` | src/main.rs:141-159 | the new state and result are those of `Registration`: the name is taken first, so the counter advances even on failure; the text is registered only when it compiles, and otherwise the error names the template; the environment stays well formed |
| `Templates.TemplateEnv.RegisterTemplateString` | src/main.rs:141-149 | registering a string is `Registration` of that text |
| `Templates.TemplateEnv.RegisterTemplateFile` | src/main.rs:151-159 | registering a file is `Registration` of its content; a missing file fails like a template that does not compile |
| `Templates.TemplateEnv.Render` | src/main.rs:161-176 | a render succeeds exactly when the name is registered and the engine renders its text against the binding; the result is then that rendering, and otherwise a render error naming the template; nothing changes |
| `Templates.Registration` | src/main.rs:136-159 | a registration always advances the counter by one; it succeeds exactly when the text is present and compiles, returning `template_{counter}` for the new counter and binding that name to the text; otherwise it fails with a template error naming that template and leaves the registry unchanged |
| `Templates.Rendering` | src/main.rs:161-167 | a render succeeds exactly when the name is registered and the engine renders the registered text against the binding, and then yields that rendering; otherwise it is a render error naming the template |
| `Templates.RegistrationIssuesFreshName` | src/main.rs:136-159 | from a well-formed state, a registration advances the counter by one and issues `template_{counter}`, which no earlier registration holds; it succeeds exactly when the text is present and compiles, and it binds the name on success only |
| `Templates.IssuedNamesDistinct` | src/main.rs:136-139 | registrations at different counter values never return the same id |
| `Templates.RegistrationKeepsRenderings` | src/main.rs:141-167 | registering a new template never changes what an already-registered template renders to |
| `Templates.TemplateNameInjective` | src/main.rs:138 | `template_{a}` and `template_{b}` are equal only when `a == b` |
| `Text.NatToString` | src/main.rs:138 | decimal formatting is all digits, at least one, a single digit exactly below 10, and starts with `0` only for zero |
| `Text.NatToStringValue` | src/main.rs:138 | reading the formatted digits back as a decimal number gives the number itself |
| `Text.NatToStringInjective` | src/main.rs:275 | distinct numbers format to distinct strings |
| `Text.Contains` | src/main.rs:397 | the substring test is true exactly when `sub` occurs at some index of `s` |
| `Text.ReplaceChar` | src/main.rs:363 | replacing `c` with a string free of `c` leaves no `c`, and a string without `c` is unchanged |
| `Text.ReplaceCharAppend` | src/main.rs:363 | replacing in a concatenation is replacing in each part and concatenating, so every character is replaced on its own |
| `Text.ReplaceCharOne` | src/main.rs:363 | a single character becomes the replacement text when it is the replaced character, and stays as it is otherwise |
| `Staging.Mangle` | src/main.rs:363 | a staging name never contains `/`, and a destination without `/` is its own staging name |
| `Staging.UnmangleMangle` | src/main.rs:363 | a destination without underscores is recovered from its staging name |
| `Staging.MangleInjective` | src/main.rs:363 | two destinations without underscores never share a staging name |
| `Staging.MangleCollides` | src/main.rs:363 | with underscores allowed, `a/b` and `a__b` share a staging name |
| `Staging.RunStageNamesDistinct` | src/main.rs:274-276 | the files `script.i` and `script.j` of one templated Run step coincide only when `i == j` |
| `Staging.RunStageNameParts` | src/main.rs:275 | `script.{i}` is the script's name, a dot, then the decimal digits of i |
| `Staging.ChmodPlusX` | src/main.rs:314-318 | the owner read and execute bits (0o500) are set, and every other bit keeps its value |
| `Staging.ChmodPlusXIdempotent` | src/main.rs:315 | applying `chmod_plus_x` twice is the same as once |
| `Staging.ChmodPlusXFixes` | src/main.rs:315 | `chmod_plus_x` leaves a mode unchanged exactly when it already has both bits |
| `Staging.InstallInScript` | src/main.rs:403-411 | exactly one line `install  -D {src} {dest}` is appended, whatever the mode says |
| `Staging.InstallLineParts` | src/main.rs:409 | the install line is `install  -D `, the source, one space and the destination, and nothing else |
| `Staging.StagedPathParts` | src/main.rs:364 | the path printed for a staged file starts with the target directory and a slash and ends with a slash and the staged name |
| `Staging.CheckManagedDisclaimer` | src/main.rs:395-401 | the disclaimer check prints nothing exactly when the content contains `managed by cocinero`, and otherwise prints the one warning naming the path; it has no error case |
| `StepCompiler.PerformInstallFile` | src/main.rs:380-393 | an untemplated install behaves as `CompileStep` specifies: it fails with the missing source path, or stages the file under its `src`, checks it and appends the install line |
| `StepCompiler.PerformTemplateInstall` | src/main.rs:349-378 | registers `dest` then the source file, then loops over the bindings, rendering, mangling, staging, checking and installing; the result and the engine state are those `CompileStep` specifies, including the first error |
| `StepCompiler.PerformTemplateShell` | src/main.rs:249-258 | registers the command once, then appends one rendered line per binding; result and engine state as specified |
| `StepCompiler.PerformRunFile` | src/main.rs:259-267 | an untemplated Run fails with the missing script path, or stages the script unchanged and appends `./script` |
| `StepCompiler.PerformTemplateRun` | src/main.rs:268-282 | registers the script file once, then for binding i stages the rendering as `script.i` with the owner read and execute bits added and appends `./script.i`; result and engine state as specified |
| `StepCompiler.CompileRecipeSteps` | src/main.rs:219-284 | the loop over a recipe's steps yields exactly `CompileSteps`: the steps' contributions in declaration order, or the first error |
| `Steps.CompileStep` | src/main.rs:219-283 | a failing templated step fails only in registering or rendering (a missing template file is a registration error); a failing untemplated Install or Run fails only with a missing-file error naming a path absent from the recipe directory; a successful untemplated step leaves the engine state alone and emits one line |
| `Steps.CompileStepsBetween` | src/main.rs:219-284 | a missing-file failure of a recipe's steps always names a path that is not in the recipe directory |
| `Steps.OneBinding` | src/main.rs:361-375 | one binding of a templated step emits exactly one line, and can fail only with a render error |
| `Steps.EachBinding` | src/main.rs:361-376 | once its templates are registered, the per-binding loop of a templated step can fail only with a render error |
| `StepProperties.TemplatedLines` | src/main.rs:254-281 | a templated step with N bindings emits exactly N lines, and line j belongs to binding j: the rendered command, `install  -D <mangled> <rendered dest>`, or `./script.j` |
| `StepProperties.EachBindingLines` | src/main.rs:361-376 | the same, for bindings i onward: line j−i is the line of binding j |
| `StepProperties.TemplatedRunStaged` | src/main.rs:274-281 | a templated Run stages exactly the names `script.i`, one per binding, each holding that binding's rendering with the owner read and execute bits added to the creation mode |
| `StepProperties.TemplatedInstallStaged` | src/main.rs:361-375 | a templated install stages under the mangled rendered destination of every binding and under no other name, so no staging name contains `/` |
| `StepProperties.MangledDestsAre` | src/main.rs:362-364 | a name is in the set of mangled destinations exactly when some binding renders to a destination that mangles to it, and none of those names contains `/` |
| `StepProperties.InstallContent` | src/main.rs:361-376 | binding j of a templated install renders both its destination and the file; when no later binding writes the same staging name, that name holds binding j's rendering of the file with the creation mode |
| `StepProperties.TemplatedInstallContents` | src/main.rs:361-376 | every binding's staging name holds the file rendered for the last binding writing that name, with the creation mode |
| `StepProperties.MangledDestsCount` | src/main.rs:362-364 | with pairwise distinct staging names, the bindings give as many staging names as there are bindings |
| `StepProperties.TemplatedInstallDistinct` | src/main.rs:361-376 | with pairwise distinct staging names, a templated install stages exactly one file per binding, holding that binding's rendering with the creation mode |
| `StepProperties.TemplatedInstallWarnings` | src/main.rs:361-367 | a templated install prints no warning exactly when every rendered file carries the disclaimer |
| `StepProperties.UntemplatedStepOnce` | src/main.rs:221-267 | an untemplated step leaves the engine alone and emits one line: the install line with the file staged under `src` and warned about exactly when it lacks the disclaimer; or the command; or `./script` with the script staged unchanged |
| `StepProperties.UntemplatedIgnoresBindings` | src/main.rs:221-267 | the bindings play no part in an untemplated step |
| `StepProperties.InstallModeIgnored` | src/main.rs:403-411 | changing an install step's `mode` changes nothing the step produces, templated or not |
| `StepProperties.EachBindingModeIgnored` | src/main.rs:368-375 | the same, for the per-binding part of a templated install |
| `StepProperties.EachBindingCount` | src/main.rs:361-376 | the per-binding part emits one line per binding |
| `StepProperties.StepCardinality` | src/main.rs:219-283 | one step emits N lines if templated and 1 if not; it consumes 2 template names for a templated Install, 1 for a templated Shell or Run and 0 otherwise, even with zero bindings |
| `StepProperties.StepsCardinality` | src/main.rs:219-284 | over a range of steps, the line count and the names consumed are the sums of the per-step counts |
| `StepProperties.StepsSplit` | src/main.rs:219 | compiling steps k..n is compiling k..m and then m..n from the state the first part left, with the second part's output after the first's |
| `StepProperties.StepSucceeds` | src/main.rs:219-283 | a step whose source file is present succeeds when the engine compiles and renders everything; the disclaimer check never fails it |
| `StepProperties.StepsSucceed` | src/main.rs:219-284 | the same for every step of a recipe, from a well-formed engine state |
| `StepProperties.EachBindingSucceeds` | src/main.rs:361-366 | once its templates are registered and every render succeeds, the per-binding part succeeds |
| `StepProperties.StepKeepsWellFormed` | src/main.rs:253-273 | the registrations a step performs keep every registered name issued by this engine |
| `StepProperties.StepsKeepWellFormed` | src/main.rs:219-284 | the same over a range of steps |
| `Assembler.WriteBatch` | src/main.rs:201-205 | one `apt-get install` line for one batch: the command, then ` pkg` for each package in order |
| `Assembler.WritePackageLines` | src/main.rs:199-206 | the package loop appends exactly `PackageLines(Chunks(packages))` |
| `Assembler.FailRecipe` | src/main.rs:219-284 | a recipe whose steps fail ends the whole run with that error; nothing after it is produced |
| `Assembler.AdvanceRecipe` | src/main.rs:208-285 | a recipe whose steps compile adds its banner, invocation, directory and warnings, and the later recipes run from the engine state it leaves |
| `Assembler.SkipRecipe` | src/main.rs:209-211 | a recipe without steps contributes nothing and leaves the engine alone |
| `Assembler.CompileRecipes` | src/main.rs:208-285 | the loop over recipes yields exactly `RecipesFrom`: the lines, directories and warnings of the recipes with steps, in order, or the first error; on success the engine holds the state `RecipesFrom` ends in |
| `Assembler.WriteSystemdLines` | src/main.rs:286-292 | the systemd loop appends exactly `SystemdLines(dirs)` |
| `Assembler.Compile` | src/main.rs:179-293 | the whole run equals `CompileSpec` |
| `Assembler.Chunks` | src/main.rs:200 | every batch holds 1 to 64 packages, and there is no batch exactly when there are no packages |
| `AssemblerProperties.ChunksFlatten` | src/main.rs:199-200 | batching loses, reorders and duplicates no package |
| `AssemblerProperties.ChunksBounded` | src/main.rs:200 | there are ceil(n/64) batches, each of 1 to 64 packages, and every batch but the last holds exactly 64 |
| `AssemblerProperties.PackagePhase` | src/main.rs:199-206 | the package lines list exactly the flattened packages of all recipes, in recipe-then-declaration order with duplicates kept; each line holds 1 to 64 packages, and there is no line when there are no packages |
| `AssemblerProperties.WordsRoundTrip` | src/main.rs:202-204 | the ` p1 p2 ...` part of a package line reads back into exactly the packages, in order, when no package name holds a space |
| `AssemblerProperties.PackageLineRoundTrip` | src/main.rs:201-205 | an `apt-get install` line starts with the command and reads back into exactly its batch's packages, in order, when no package name holds a space |
| `AssemblerProperties.AllPackagesAppend` | src/main.rs:199 | the packages of several recipes follow recipe order |
| `AssemblerProperties.RecipesShape` | src/main.rs:208-218 | the recipe phase writes a banner and an invocation exactly for the recipes that have steps, in order; it creates a directory exactly for them, whose `_cook.sh` starts with the header and has the creation mode plus owner read and execute |
| `AssemblerProperties.RecipeScripts` | src/main.rs:212-284 | with distinct names, each such directory's `_cook.sh` is the header followed by the lines that recipe's steps compile to from `StateBefore`, the engine state the recipe loop holds when it reaches that recipe, with the owner read and execute bits added to the creation mode, next to the files those steps staged |
| `AssemblerProperties.RecipesFailure` | src/main.rs:208-285 | a failed recipe loop fails with exactly the error of the first recipe whose steps fail, compiled from the engine state the loop holds when it reaches that recipe; every earlier recipe with steps compiles, and a missing file is missing from the failing recipe's directory |
| `AssemblerProperties.CompileSpecFailure` | src/main.rs:179-293 | the same for the whole run: its error is that of the first recipe whose steps fail, every earlier recipe with steps compiles, and a missing file is missing from the failing recipe's directory |
| `AssemblerProperties.CookLayout` | src/main.rs:194-292 | `cook.sh` is the header, the start banner, the package lines, a blank line, the banner and invocation pairs, a blank line and the systemd pairs, and its mode has the owner read and execute bits |
| `AssemblerProperties.InvocationsMember` | src/main.rs:217-218 | a line is in the recipe phase exactly when it is the banner or the invocation of a recipe that has steps |
| `AssemblerProperties.InvocationInjective` | src/main.rs:218 | two recipes share an invocation line only when their names are equal |
| `AssemblerProperties.BannerInjective` | src/main.rs:217 | two recipes share a banner only when their names are equal |
| `AssemblerProperties.InvocationsKind` | src/main.rs:217-218 | every line of the recipe phase starts with `e` or `(`, and it is an invocation line exactly when it is the invocation of a recipe that has steps |
| `AssemblerProperties.BannerRule` | src/main.rs:208-218 | with distinct names, a recipe's banner is in `cook.sh` exactly when the recipe has steps |
| `AssemblerProperties.SystemdPairs` | src/main.rs:287-291 | the systemd phase is, for each unit of each recipe in order, `systemctl enable --now u` immediately followed by `systemctl reload-or-restart u` |
| `AssemblerProperties.SystemdUnitsPresent` | src/main.rs:287-291 | both activation lines of every unit of every recipe are in the systemd phase |
| `AssemblerProperties.PhaseOrder` | src/main.rs:194-292 | in `cook.sh` every package line precedes every invocation and activation line, and every invocation precedes every activation line |
| `AssemblerProperties.SkipRule` | src/main.rs:208-291 | with distinct names, a recipe gets a directory, a banner and an invocation line in `cook.sh` exactly when it has steps, and its systemd units are activated either way |
| `AssemblerProperties.CompileSucceeds` | src/main.rs:208-285 | with every source file present and an engine that compiles and renders everything, the recipe phase succeeds |
| `AssemblerProperties.CompileSpecSucceeds` | src/main.rs:179-293 | under the same conditions the whole run succeeds, whatever the disclaimer check finds |

## Left out

- Command-line parsing (clap) and the default target `cocinero_target`. The target appears only as the prefix of the paths printed in warnings.
- TOML deserialisation and serde defaults. Recipes are taken already parsed.
- Scanning the recipes directory: skipping non-directories and directories without `receipe.toml`. The duplicate-name `debug_assert` becomes the `DistinctNames` precondition of the lemmas that need it.
- `HashMap` iteration order. The recipes are one arbitrary fixed sequence, used by the package, recipe and systemd loops alike.
- Removing and recreating the target directory, and every failure of writing into it: `create_dir_all`, `File::create`, `writeln!`, setting permissions. The only I/O failure modelled is a source file missing from the recipe directory. A templated Run whose script lies in a sub-directory that does not exist yet in the target would fail to be created in the source; the model stages it.
- Reading a staged file back in `check_managed_disclaimer` can fail on non-UTF-8 content. Contents are strings here, so that error cannot occur.
- Handlebars semantics: template syntax, strict mode, how values of a binding print. The engine is abstract.
- Handlebars partials. A template such as `{{> template_3}}` resolves against the registry, so in Handlebars a later registration can change what an earlier template renders. The abstract engine renders a template from its own text only, and `Templates.RegistrationKeepsRenderings` holds for that engine, not for templates with partials.
- Partial output before an error. `render_to_write` may have written part of a line or file, and `cook.sh` is partly on disk. In the model a failed run yields only the error.
- `LazyCell`: the engine is created at the start. Creating it has no observable effect.
- Logging (`env_logger`, `trace!`) and `BufWriter` buffering.
- Templates.TemplateEnv.NextTemplateName: the counter is a `nat`, so the `u64` overflow after 2^64 registrations is not modelled.
- Path joining. Paths are strings, and a printed staged path is `target/recipe/name`. Rust's `join` with an absolute second path, which would escape the directory, is not modelled.
- The mode of a newly created file depends on the process umask. It is the parameter `createMode`.
- Steps.OneBinding: `File::create` keeps the permission bits of a file that already exists. If an earlier step of the same recipe staged a file under the same name (an untemplated Run of `s.0` with mode 0o600, then a templated Run of `s`), the source ends with that file's mode plus the owner read and execute bits (0o700). The model gives the creation mode plus those bits. The same holds for `StepCompiler.PerformTemplateRun` and `StepCompiler.PerformTemplateInstall`, whose staged files always get `createMode`.
- Line counts count `writeln!` calls. A command, a rendering or a name that contains a newline is several physical lines of the shell script, but stays one element of `lines` in the model.
- AssemblerProperties.PackageLineRoundTrip: a package name holding a space would read back as two words, so the read-back requires names without spaces.
- AssemblerProperties.RecipeScripts and AssemblerProperties.RecipesShape: a recipe's `_cook.sh` and its staged files share the directory `target/<recipe>/`. A staged name equal to `_cook.sh` overwrites or truncates the script while it is being written. This happens with an untemplated Run or Install of `_cook.sh`, or a templated Install whose destination mangles to it. The same holds for two different strings that name one file, such as `./x` and `x`. The model keeps the script apart from the staged files and keys staged files by string. On such input the two lemmas describe a `_cook.sh` (the header plus the step lines, with the owner read and execute bits) and staged entries that the source does not produce.
