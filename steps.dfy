/**
 * Specification of the per-recipe step compiler: what each step contributes to
 * the recipe's `_cook.sh`, to its staging directory and to the warnings on
 * standard output, threading the template engine's state from step to step.
 * Failures are values: the first one stops the recipe and is its result.
 */
module Steps {
  import opened Wrappers
  import opened Text
  import opened Recipes
  import opened Templates
  import opened Staging

  /** Lines appended to `_cook.sh`, files written under the recipe's staging directory, warnings printed. */
  datatype Emitted = Emitted(lines: seq<string>, staged: map<string, FileData>, warnings: seq<string>)

  const Nothing := Emitted([], map[], [])

  /** `a` followed by `b`: lines and warnings are appended, later files overwrite earlier ones. */
  function Then(a: Emitted, b: Emitted): Emitted {
    Emitted(a.lines + b.lines, a.staged + b.staged, a.warnings + b.warnings)
  }

  /** A contribution followed by a fallible one. */
  function Before(r1: Result<Emitted, Error>, r2: Result<Emitted, Error>): Result<Emitted, Error> {
    if r1.Err? then r1 else if r2.Err? then r2 else Ok(Then(r1.value, r2.value))
  }

  /** A contribution followed by a fallible one that also yields the engine state. */
  function Prefix(e: Emitted, r: Result<(EnvState, Emitted), Error>): Result<(EnvState, Emitted), Error> {
    if r.Err? then r else Ok((r.value.0, Then(e, r.value.1)))
  }

  /** What one recipe is compiled with; `createMode` is the mode newly created files get. */
  datatype Ctx = Ctx(engine: Engine, target: string, dir: RecipeDir, createMode: Mode)

  /** A templated step after its registrations: the work repeated for every binding. */
  datatype Task =
    | ShellTask(cmd: TemplateId)
    | InstallTask(dest: TemplateId, file: TemplateId, mode: Option<string>)
    | RunTask(file: TemplateId, script: string)

  /** The work of a templated step for binding number `i`. */
  function OneBinding(st: EnvState, ctx: Ctx, task: Task, i: nat, b: Binding): (r: Result<Emitted, Error>)
    ensures r.Ok? ==> |r.value.lines| == 1
    ensures r.Err? ==> r.error.RenderError?
  {
    match task
    case ShellTask(id) =>
      (match Rendering(st, ctx.engine, id, b)
       case Err(e) => Err(e)
       case Ok(line) => Ok(Emitted([line], map[], [])))
    case InstallTask(destId, fileId, mode) =>
      (match Rendering(st, ctx.engine, destId, b)
       case Err(e) => Err(e)
       case Ok(dest) =>
         var mangled := Mangle(dest);
         match Rendering(st, ctx.engine, fileId, b)
         case Err(e) => Err(e)
         case Ok(content) =>
           Ok(Emitted([InstallLine(InstallFile(mangled, dest, mode))],
                      map[mangled := FileData(content, ctx.createMode)],
                      CheckManagedDisclaimer(StagedPath(ctx.target, ctx.dir.name, mangled), content))))
    case RunTask(fileId, script) =>
      var name := RunStageName(script, i);
      match Rendering(st, ctx.engine, fileId, b)
      case Err(e) => Err(e)
      case Ok(content) => Ok(Emitted(["./" + name], map[name := FileData(content, ChmodPlusX(ctx.createMode))], []))
  }

  /** The work of a templated step for bindings `i`, `i + 1`, ..., in binding order. */
  function EachBinding(st: EnvState, ctx: Ctx, task: Task, bs: seq<Binding>, i: nat): (r: Result<Emitted, Error>)
    requires i <= |bs|
    ensures r.Err? ==> r.error.RenderError?
    decreases |bs| - i
  {
    if i == |bs| then Ok(Nothing)
    else Before(OneBinding(st, ctx, task, i, bs[i]), EachBinding(st, ctx, task, bs, i + 1))
  }

  /** A templated step's bindings, paired with the state its registrations left. */
  function WithState(st: EnvState, r: Result<Emitted, Error>): Result<(EnvState, Emitted), Error> {
    if r.Err? then Err(r.error) else Ok((st, r.value))
  }

  /** One step of a recipe: the exhaustive match over (Install | Shell | Run) x template flag. */
  function CompileStep(st: EnvState, ctx: Ctx, step: Step): (r: Result<(EnvState, Emitted), Error>)
    ensures r.Err? && step.template ==> r.error.TemplateError? || r.error.RenderError?
    ensures r.Err? && !step.template ==> r.error.IoError? && r.error.path !in ctx.dir.files
    ensures r.Ok? && !step.template ==> r.value.0 == st && |r.value.1.lines| == 1
  {
    var files := ctx.dir.files;
    var bs := ctx.dir.recipe.templateVars;
    match step
    case Install(false, f) =>
      if f.src !in files then Err(IoError(f.src))
      else Ok((st, Emitted([InstallLine(f)], map[f.src := files[f.src]],
                           CheckManagedDisclaimer(StagedPath(ctx.target, ctx.dir.name, f.src), files[f.src].content))))
    case Install(true, f) =>
      var reg1 := Registration(st, ctx.engine, Some(f.dest));
      if reg1.1.Err? then Err(reg1.1.error)
      else
        var reg2 := Registration(reg1.0, ctx.engine, FileSource(files, f.src));
        if reg2.1.Err? then Err(reg2.1.error)
        else WithState(reg2.0, EachBinding(reg2.0, ctx, InstallTask(reg1.1.value, reg2.1.value, f.mode), bs, 0))
    case Shell(false, cmd) =>
      Ok((st, Emitted([cmd], map[], [])))
    case Shell(true, cmd) =>
      var reg := Registration(st, ctx.engine, Some(cmd));
      if reg.1.Err? then Err(reg.1.error)
      else WithState(reg.0, EachBinding(reg.0, ctx, ShellTask(reg.1.value), bs, 0))
    case Run(false, script) =>
      if script !in files then Err(IoError(script))
      else Ok((st, Emitted(["./" + script], map[script := files[script]], [])))
    case Run(true, script) =>
      var reg := Registration(st, ctx.engine, FileSource(files, script));
      if reg.1.Err? then Err(reg.1.error)
      else WithState(reg.0, EachBinding(reg.0, ctx, RunTask(reg.1.value, script), bs, 0))
  }

  /** Steps `k` (inclusive) to `m` (exclusive) of the recipe, in declaration order. */
  function CompileStepsBetween(st: EnvState, ctx: Ctx, k: nat, m: nat): (r: Result<(EnvState, Emitted), Error>)
    requires k <= m <= |ctx.dir.recipe.steps|
    ensures r.Err? && r.error.IoError? ==> r.error.path !in ctx.dir.files
    decreases m - k
  {
    if k == m then Ok((st, Nothing))
    else match CompileStep(st, ctx, ctx.dir.recipe.steps[k])
      case Err(e) => Err(e)
      case Ok(p) => Prefix(p.1, CompileStepsBetween(p.0, ctx, k + 1, m))
  }

  /** The step part of a recipe's `_cook.sh`, from a given engine state. */
  function CompileSteps(st: EnvState, ctx: Ctx): Result<(EnvState, Emitted), Error> {
    CompileStepsBetween(st, ctx, 0, |ctx.dir.recipe.steps|)
  }

  lemma ThenAssoc(a: Emitted, b: Emitted, c: Emitted)
    ensures Then(Then(a, b), c) == Then(a, Then(b, c))
  {
    assert (a.staged + b.staged) + c.staged == a.staged + (b.staged + c.staged);
    assert (a.lines + b.lines) + c.lines == a.lines + (b.lines + c.lines);
    assert (a.warnings + b.warnings) + c.warnings == a.warnings + (b.warnings + c.warnings);
  }

  lemma ThenNothing(a: Emitted)
    ensures Then(a, Nothing) == a
  {
    assert a.staged + map[] == a.staged;
    assert a.lines + [] == a.lines;
    assert a.warnings + [] == a.warnings;
  }

  /** Appending one line, one file and some warnings is `Then` with a one-line contribution. */
  lemma ThenOne(a: Emitted, line: string, name: string, f: FileData, w: seq<string>)
    ensures Emitted(a.lines + [line], a.staged[name := f], a.warnings + w) == Then(a, Emitted([line], map[name := f], w))
  {
    assert a.staged[name := f] == a.staged + map[name := f];
  }

  lemma NothingThen(a: Emitted)
    ensures Then(Nothing, a) == a
  {
    assert map[] + a.staged == a.staged;
    assert [] + a.lines == a.lines;
    assert [] + a.warnings == a.warnings;
  }

  lemma BeforeAssoc(a: Emitted, b: Emitted, r: Result<Emitted, Error>)
    ensures Before(Ok(a), Before(Ok(b), r)) == Before(Ok(Then(a, b)), r)
  {
    if r.Ok? {
      ThenAssoc(a, b, r.value);
    }
  }

  lemma PrefixAssoc(a: Emitted, b: Emitted, r: Result<(EnvState, Emitted), Error>)
    ensures Prefix(a, Prefix(b, r)) == Prefix(Then(a, b), r)
  {
    if r.Ok? {
      ThenAssoc(a, b, r.value.1);
    }
  }
}
