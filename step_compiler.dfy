/**
 * The step loop of `main` and the helpers it calls, as methods: they drive the
 * mutable `TemplateEnv` and append to the recipe's script, staging directory
 * and warnings, and each is proved to do what `Steps.CompileStep` specifies.
 */
module StepCompiler {
  import opened Wrappers
  import opened Recipes
  import opened Templates
  import opened Staging
  import opened Steps

  /**
   * `r` is `acc` extended by the specified contribution and `st` the specified
   * engine state; or both fail with the same error.
   */
  ghost predicate Agrees(spec: Result<(EnvState, Emitted), Error>, acc: Emitted, r: Result<Emitted, Error>, st: EnvState) {
    match spec
    case Err(e) => r == Err(e)
    case Ok(p) => r == Ok(Then(acc, p.1)) && st == p.0
  }

  /** `perform_install_file`: copy `src` to the same relative path, check it, emit the install line. */
  method PerformInstallFile(ctx: Ctx, f: InstallFile, acc: Emitted, ghost st: EnvState) returns (r: Result<Emitted, Error>)
    ensures Agrees(CompileStep(st, ctx, Install(false, f)), acc, r, st)
  {
    var files := ctx.dir.files;
    if f.src !in files {
      return Err(IoError(f.src));
    }
    var staged := acc.staged[f.src := files[f.src]];
    var warnings := acc.warnings + CheckManagedDisclaimer(StagedPath(ctx.target, ctx.dir.name, f.src), staged[f.src].content);
    var lines := InstallInScript(acc.lines, f);
    ThenOne(acc, InstallLine(f), f.src, files[f.src], CheckManagedDisclaimer(StagedPath(ctx.target, ctx.dir.name, f.src), files[f.src].content));
    r := Ok(Emitted(lines, staged, warnings));
  }

  /** `perform_template_install`: register `dest` then the source file, then stage and install once per binding. */
  method PerformTemplateInstall(env: TemplateEnv, ctx: Ctx, f: InstallFile, acc: Emitted) returns (r: Result<Emitted, Error>)
    requires env.Valid() && env.engine == ctx.engine
    modifies env
    ensures env.Valid()
    ensures Agrees(CompileStep(old(env.State()), ctx, Install(true, f)), acc, r, env.State())
  {
    var destTemplate := env.RegisterTemplateString(f.dest);
    if destTemplate.Err? {
      return Err(destTemplate.error);
    }
    var fileTemplate := env.RegisterTemplateFile(ctx.dir.files, f.src);
    if fileTemplate.Err? {
      return Err(fileTemplate.error);
    }
    ghost var st := env.State();
    ghost var task := InstallTask(destTemplate.value, fileTemplate.value, f.mode);
    var bs := ctx.dir.recipe.templateVars;
    var out := acc;
    for i := 0 to |bs|
      invariant env.Valid() && env.State() == st
      invariant Before(Ok(acc), EachBinding(st, ctx, task, bs, 0)) == Before(Ok(out), EachBinding(st, ctx, task, bs, i))
    {
      var dest := env.Render(destTemplate.value, bs[i]);
      if dest.Err? {
        return Err(dest.error);
      }
      var destMangled := Mangle(dest.value);
      var content := env.Render(fileTemplate.value, bs[i]);
      if content.Err? {
        return Err(content.error);
      }
      var staged := out.staged[destMangled := FileData(content.value, ctx.createMode)];
      var warnings := out.warnings + CheckManagedDisclaimer(StagedPath(ctx.target, ctx.dir.name, destMangled), content.value);
      var lines := InstallInScript(out.lines, InstallFile(destMangled, dest.value, f.mode));
      ThenOne(out, InstallLine(InstallFile(destMangled, dest.value, f.mode)), destMangled, FileData(content.value, ctx.createMode),
              CheckManagedDisclaimer(StagedPath(ctx.target, ctx.dir.name, destMangled), content.value));
      BeforeAssoc(out, OneBinding(st, ctx, task, i, bs[i]).value, EachBinding(st, ctx, task, bs, i + 1));
      out := Emitted(lines, staged, warnings);
    }
    ThenNothing(out);
    r := Ok(out);
  }

  /** A templated shell step: register `cmd`, then one rendered line per binding. */
  method PerformTemplateShell(env: TemplateEnv, ctx: Ctx, cmd: string, acc: Emitted) returns (r: Result<Emitted, Error>)
    requires env.Valid() && env.engine == ctx.engine
    modifies env
    ensures env.Valid()
    ensures Agrees(CompileStep(old(env.State()), ctx, Shell(true, cmd)), acc, r, env.State())
  {
    var cmdTemplate := env.RegisterTemplateString(cmd);
    if cmdTemplate.Err? {
      return Err(cmdTemplate.error);
    }
    ghost var st := env.State();
    ghost var task := ShellTask(cmdTemplate.value);
    var bs := ctx.dir.recipe.templateVars;
    var out := acc;
    for i := 0 to |bs|
      invariant env.Valid() && env.State() == st
      invariant Before(Ok(acc), EachBinding(st, ctx, task, bs, 0)) == Before(Ok(out), EachBinding(st, ctx, task, bs, i))
    {
      var line := env.Render(cmdTemplate.value, bs[i]);
      if line.Err? {
        return Err(line.error);
      }
      assert out.staged + map[] == out.staged && out.warnings + [] == out.warnings;
      BeforeAssoc(out, OneBinding(st, ctx, task, i, bs[i]).value, EachBinding(st, ctx, task, bs, i + 1));
      out := Emitted(out.lines + [line.value], out.staged, out.warnings);
    }
    ThenNothing(out);
    r := Ok(out);
  }

  /** A plain run step: copy the script under its own relative path and invoke it. */
  method PerformRunFile(ctx: Ctx, script: string, acc: Emitted, ghost st: EnvState) returns (r: Result<Emitted, Error>)
    ensures Agrees(CompileStep(st, ctx, Run(false, script)), acc, r, st)
  {
    var files := ctx.dir.files;
    if script !in files {
      return Err(IoError(script));
    }
    ThenOne(acc, "./" + script, script, files[script], []);
    r := Ok(Emitted(acc.lines + ["./" + script], acc.staged[script := files[script]], acc.warnings + []));
  }

  /** A templated run step: register the script file, then render it to `script.{i}`, mark it executable and invoke it. */
  method PerformTemplateRun(env: TemplateEnv, ctx: Ctx, script: string, acc: Emitted) returns (r: Result<Emitted, Error>)
    requires env.Valid() && env.engine == ctx.engine
    modifies env
    ensures env.Valid()
    ensures Agrees(CompileStep(old(env.State()), ctx, Run(true, script)), acc, r, env.State())
  {
    var fileTemplate := env.RegisterTemplateFile(ctx.dir.files, script);
    if fileTemplate.Err? {
      return Err(fileTemplate.error);
    }
    ghost var st := env.State();
    ghost var task := RunTask(fileTemplate.value, script);
    var bs := ctx.dir.recipe.templateVars;
    var out := acc;
    for i := 0 to |bs|
      invariant env.Valid() && env.State() == st
      invariant Before(Ok(acc), EachBinding(st, ctx, task, bs, 0)) == Before(Ok(out), EachBinding(st, ctx, task, bs, i))
    {
      var destName := RunStageName(script, i);
      var content := env.Render(fileTemplate.value, bs[i]);
      if content.Err? {
        return Err(content.error);
      }
      var file := FileData(content.value, ChmodPlusX(ctx.createMode));
      ThenOne(out, "./" + destName, destName, file, []);
      BeforeAssoc(out, OneBinding(st, ctx, task, i, bs[i]).value, EachBinding(st, ctx, task, bs, i + 1));
      out := Emitted(out.lines + ["./" + destName], out.staged[destName := file], out.warnings + []);
    }
    ThenNothing(out);
    r := Ok(out);
  }

  /** The body of `main`'s loop over one recipe's steps, in declaration order. */
  method CompileRecipeSteps(env: TemplateEnv, ctx: Ctx) returns (r: Result<Emitted, Error>)
    requires env.Valid() && env.engine == ctx.engine
    modifies env
    ensures env.Valid()
    ensures Agrees(CompileSteps(old(env.State()), ctx), Nothing, r, env.State())
  {
    var steps := ctx.dir.recipe.steps;
    var n := |steps|;
    ghost var st0 := env.State();
    var acc := Nothing;
    NothingThen(Nothing);
    assert Prefix(Nothing, CompileStepsBetween(st0, ctx, 0, n)) == CompileStepsBetween(st0, ctx, 0, n) by {
      var x := CompileStepsBetween(st0, ctx, 0, n);
      if x.Ok? { NothingThen(x.value.1); }
    }
    var k := 0;
    while k < n
      invariant 0 <= k <= n
      invariant env.Valid() && env.engine == ctx.engine
      invariant CompileStepsBetween(st0, ctx, 0, n) == Prefix(acc, CompileStepsBetween(env.State(), ctx, k, n))
    {
      ghost var st := env.State();
      var res: Result<Emitted, Error>;
      match steps[k] {
        case Install(false, f) => res := PerformInstallFile(ctx, f, acc, st);
        case Install(true, f) => res := PerformTemplateInstall(env, ctx, f, acc);
        case Shell(false, cmd) =>
          assert acc.staged + map[] == acc.staged && acc.warnings + [] == acc.warnings;
          res := Ok(Emitted(acc.lines + [cmd], acc.staged, acc.warnings));
        case Shell(true, cmd) => res := PerformTemplateShell(env, ctx, cmd, acc);
        case Run(false, script) => res := PerformRunFile(ctx, script, acc, st);
        case Run(true, script) => res := PerformTemplateRun(env, ctx, script, acc);
      }
      if res.Err? {
        return Err(res.error);
      }
      var p := CompileStep(st, ctx, steps[k]).value;
      PrefixAssoc(acc, p.1, CompileStepsBetween(p.0, ctx, k + 1, n));
      acc := res.value;
      k := k + 1;
    }
    ThenNothing(acc);
    NothingThen(acc);
    r := Ok(acc);
  }
}
