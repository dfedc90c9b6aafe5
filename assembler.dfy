/**
 * The top level of `main`: `cook.sh` (header, package installation in batches
 * of 64, one banner and invocation per recipe that has steps, then systemd
 * activation of every unit) and every recipe's `_cook.sh` with its staged files.
 */
module Assembler {
  import opened Wrappers
  import opened Recipes
  import opened Templates
  import opened Staging
  import opened Steps
  import StepCompiler

  /** Packages per `apt-get install` line. */
  const BatchSize := 64

  /** The lines `create_script` starts every script with. */
  const ScriptHeader: seq<string> := ["#!/usr/bin/bash", "", "# Generated by cocinero", "", "set -e", ""]

  const StartLine := "echo 'starting to cook'"

  /** A generated script: its lines and its permission bits. */
  datatype ScriptFile = ScriptFile(lines: seq<string>, mode: Mode)

  /** What the staging area holds for one recipe: `_cook.sh` and the staged files by relative name. */
  datatype RecipeOutput = RecipeOutput(script: ScriptFile, staged: map<string, FileData>)

  /** The whole run: `cook.sh`, each compiled recipe's directory by name, and what was printed. */
  datatype Output = Output(cook: ScriptFile, recipes: map<string, RecipeOutput>, stdout: seq<string>)

  /** Every package of every recipe, recipe order then declaration order, duplicates kept. */
  function AllPackages(dirs: seq<RecipeDir>): seq<string> {
    if dirs == [] then [] else dirs[0].recipe.packages + AllPackages(dirs[1..])
  }

  /** `chunks(64)`: consecutive runs of 64 elements, the last one possibly shorter. */
  function Chunks(s: seq<string>): (r: seq<seq<string>>)
    ensures forall c <- r :: 1 <= |c| <= BatchSize
    ensures r == [] <==> s == []
    decreases |s|
  {
    if s == [] then [] else if |s| <= BatchSize then [s] else [s[..BatchSize]] + Chunks(s[BatchSize..])
  }

  /** ` p1 p2 ...`: each package preceded by one space. */
  function Words(c: seq<string>): string {
    if c == [] then "" else Words(c[..|c| - 1]) + " " + c[|c| - 1]
  }

  function PackageLine(c: seq<string>): string {
    "apt-get install" + Words(c)
  }

  function PackageLines(chunks: seq<seq<string>>): seq<string> {
    if chunks == [] then [] else [PackageLine(chunks[0])] + PackageLines(chunks[1..])
  }

  function Banner(name: string): string {
    "echo 'running receipe \"" + name + "\"'"
  }

  function Invocation(name: string): string {
    "(cd " + name + " && ./_cook.sh)"
  }

  /** Banner and invocation for each recipe that has steps. */
  function Invocations(dirs: seq<RecipeDir>): seq<string> {
    if dirs == [] then []
    else (if dirs[0].recipe.steps == [] then [] else [Banner(dirs[0].name), Invocation(dirs[0].name)]) + Invocations(dirs[1..])
  }

  function EnableLine(unit: string): string {
    "systemctl enable --now " + unit
  }

  function RestartLine(unit: string): string {
    "systemctl reload-or-restart " + unit
  }

  function UnitLines(units: seq<string>): seq<string> {
    if units == [] then [] else [EnableLine(units[0]), RestartLine(units[0])] + UnitLines(units[1..])
  }

  /** The activation pair for every unit of every recipe, with or without steps. */
  function SystemdLines(dirs: seq<RecipeDir>): seq<string> {
    if dirs == [] then [] else UnitLines(dirs[0].recipe.systemd) + SystemdLines(dirs[1..])
  }

  /** What the recipe phase contributes: lines of `cook.sh`, recipe directories, printed warnings. */
  datatype Phase = Phase(lines: seq<string>, recipes: map<string, RecipeOutput>, stdout: seq<string>)

  function PhaseThen(a: Phase, b: Phase): Phase {
    Phase(a.lines + b.lines, a.recipes + b.recipes, a.stdout + b.stdout)
  }

  function PhasePrefix(a: Phase, r: Result<(EnvState, Phase), Error>): Result<(EnvState, Phase), Error> {
    if r.Err? then r else Ok((r.value.0, PhaseThen(a, r.value.1)))
  }

  /** What compiling one recipe that has steps contributes, given its compiled steps. */
  function RecipePhase(dir: RecipeDir, e: Emitted, createMode: Mode): Phase {
    Phase([Banner(dir.name), Invocation(dir.name)],
          map[dir.name := RecipeOutput(ScriptFile(ScriptHeader + e.lines, ChmodPlusX(createMode)), e.staged)],
          e.warnings)
  }

  /** The loop over recipes from the `k`-th on; a recipe without steps is skipped entirely. */
  function RecipesFrom(st: EnvState, engine: Engine, target: string, createMode: Mode, dirs: seq<RecipeDir>, k: nat)
    : Result<(EnvState, Phase), Error>
    requires k <= |dirs|
    decreases |dirs| - k
  {
    if k == |dirs| then Ok((st, Phase([], map[], [])))
    else if dirs[k].recipe.steps == [] then RecipesFrom(st, engine, target, createMode, dirs, k + 1)
    else match CompileSteps(st, Ctx(engine, target, dirs[k], createMode))
      case Err(e) => Err(e)
      case Ok(p) => PhasePrefix(RecipePhase(dirs[k], p.1, createMode), RecipesFrom(p.0, engine, target, createMode, dirs, k + 1))
  }

  /** The engine state the recipe loop started from `k` holds when it reaches recipe `j`. */
  function StateBefore(st: EnvState, engine: Engine, target: string, createMode: Mode, dirs: seq<RecipeDir>, k: nat, j: nat)
    : EnvState
    requires k <= j <= |dirs|
    decreases j - k
  {
    if k == j then st
    else if dirs[k].recipe.steps == [] then StateBefore(st, engine, target, createMode, dirs, k + 1, j)
    else match CompileSteps(st, Ctx(engine, target, dirs[k], createMode))
      case Err(_) => st
      case Ok(p) => StateBefore(p.0, engine, target, createMode, dirs, k + 1, j)
  }

  /** The lines of `cook.sh` around the recipe phase's lines. */
  function CookLines(dirs: seq<RecipeDir>, phaseLines: seq<string>): seq<string> {
    ScriptHeader + [StartLine] + PackageLines(Chunks(AllPackages(dirs))) + [""] + phaseLines + [""] + SystemdLines(dirs)
  }

  /**
   * The whole run with a fresh template engine. `target` is the staging root
   * as printed in warnings; `createMode` is the mode newly created files get.
   */
  function CompileSpec(dirs: seq<RecipeDir>, engine: Engine, target: string, createMode: Mode): Result<Output, Error> {
    match RecipesFrom(EnvState(0, map[]), engine, target, createMode, dirs, 0)
    case Err(e) => Err(e)
    case Ok(p) => Ok(Output(ScriptFile(CookLines(dirs, p.1.lines), ChmodPlusX(createMode)), p.1.recipes, p.1.stdout))
  }

  lemma PhaseThenAssoc(a: Phase, b: Phase, c: Phase)
    ensures PhaseThen(PhaseThen(a, b), c) == PhaseThen(a, PhaseThen(b, c))
  {
    assert (a.recipes + b.recipes) + c.recipes == a.recipes + (b.recipes + c.recipes);
    assert (a.lines + b.lines) + c.lines == a.lines + (b.lines + c.lines);
    assert (a.stdout + b.stdout) + c.stdout == a.stdout + (b.stdout + c.stdout);
  }

  lemma PhasePrefixAssoc(a: Phase, b: Phase, r: Result<(EnvState, Phase), Error>)
    ensures PhasePrefix(a, PhasePrefix(b, r)) == PhasePrefix(PhaseThen(a, b), r)
  {
    if r.Ok? {
      PhaseThenAssoc(a, b, r.value.1);
    }
  }

  lemma PhaseEmpty(a: Phase)
    ensures PhaseThen(a, Phase([], map[], [])) == a
    ensures PhaseThen(Phase([], map[], []), a) == a
  {
    assert a.recipes + map[] == a.recipes && map[] + a.recipes == a.recipes;
    assert a.lines + [] == a.lines && [] + a.lines == a.lines;
    assert a.stdout + [] == a.stdout && [] + a.stdout == a.stdout;
  }

  /** The batch starting at `k` ends at `end`, and the batches after it are those of the rest. */
  lemma ChunksFrom(packages: seq<string>, k: nat, end: nat)
    requires k < |packages|
    requires end == if k + BatchSize <= |packages| then k + BatchSize else |packages|
    ensures Chunks(packages[k..]) == [packages[k..end]] + Chunks(packages[end..])
  {
    if k + BatchSize < |packages| {
      assert packages[k..][..BatchSize] == packages[k..end];
      assert packages[k..][BatchSize..] == packages[end..];
    } else {
      assert packages[k..end] == packages[k..];
      assert packages[end..] == [];
    }
  }

  /** One `apt-get install` line: the command, then ` pkg` for each package of the batch. */
  method WriteBatch(packages: seq<string>, k: nat, end: nat) returns (line: string)
    requires k <= end <= |packages|
    ensures line == PackageLine(packages[k..end])
  {
    line := "apt-get install";
    var j := k;
    while j < end
      invariant k <= j <= end
      invariant line == PackageLine(packages[k..j])
    {
      assert packages[k..j + 1][..j - k] == packages[k..j];
      line := line + " " + packages[j];
      j := j + 1;
    }
  }

  /** The package phase: one `apt-get install` line per batch of 64 packages, appended to `cook`. */
  method WritePackageLines(cook: seq<string>, packages: seq<string>) returns (out: seq<string>)
    ensures out == cook + PackageLines(Chunks(packages))
  {
    out := cook;
    var k := 0;
    while k < |packages|
      invariant 0 <= k <= |packages|
      invariant out + PackageLines(Chunks(packages[k..])) == cook + PackageLines(Chunks(packages))
      decreases |packages| - k
    {
      var end := if k + BatchSize <= |packages| then k + BatchSize else |packages|;
      var line := WriteBatch(packages, k, end);
      ChunksFrom(packages, k, end);
      out := out + [line];
      k := end;
    }
    assert packages[k..] == [];
  }

  /** A recipe without steps contributes nothing and leaves the engine alone. */
  lemma SkipRecipe(acc: Phase, st: EnvState, engine: Engine, target: string, createMode: Mode, dirs: seq<RecipeDir>, k: nat)
    requires k < |dirs| && dirs[k].recipe.steps == []
    ensures PhasePrefix(acc, RecipesFrom(st, engine, target, createMode, dirs, k)) ==
      PhasePrefix(acc, RecipesFrom(st, engine, target, createMode, dirs, k + 1))
  {
  }

  /** A recipe whose steps compile contributes its phase, from the state its steps leave. */
  lemma AdvanceRecipe(acc: Phase, st: EnvState, engine: Engine, target: string, createMode: Mode, dirs: seq<RecipeDir>, k: nat)
    requires k < |dirs| && dirs[k].recipe.steps != []
    requires CompileSteps(st, Ctx(engine, target, dirs[k], createMode)).Ok?
    ensures var p := CompileSteps(st, Ctx(engine, target, dirs[k], createMode)).value;
      PhasePrefix(acc, RecipesFrom(st, engine, target, createMode, dirs, k)) ==
      PhasePrefix(PhaseThen(acc, RecipePhase(dirs[k], p.1, createMode)), RecipesFrom(p.0, engine, target, createMode, dirs, k + 1))
  {
    var p := CompileSteps(st, Ctx(engine, target, dirs[k], createMode)).value;
    PhasePrefixAssoc(acc, RecipePhase(dirs[k], p.1, createMode), RecipesFrom(p.0, engine, target, createMode, dirs, k + 1));
  }

  /** A recipe whose steps fail ends the run with that failure. */
  lemma FailRecipe(acc: Phase, st: EnvState, engine: Engine, target: string, createMode: Mode, dirs: seq<RecipeDir>, k: nat)
    requires k < |dirs| && dirs[k].recipe.steps != []
    requires CompileSteps(st, Ctx(engine, target, dirs[k], createMode)).Err?
    ensures PhasePrefix(acc, RecipesFrom(st, engine, target, createMode, dirs, k)) ==
      Err(CompileSteps(st, Ctx(engine, target, dirs[k], createMode)).error)
  {
  }

  /** Adding one recipe's phase: two lines, one directory, its warnings. */
  lemma AddRecipe(acc: Phase, dir: RecipeDir, e: Emitted, createMode: Mode)
    ensures PhaseThen(acc, RecipePhase(dir, e, createMode)) ==
      Phase(acc.lines + [Banner(dir.name), Invocation(dir.name)],
            acc.recipes[dir.name := RecipeOutput(ScriptFile(ScriptHeader + e.lines, ChmodPlusX(createMode)), e.staged)],
            acc.stdout + e.warnings)
  {
    var mine := RecipePhase(dir, e, createMode);
    assert acc.recipes[dir.name := mine.recipes[dir.name]] == acc.recipes + mine.recipes;
  }

  /** The recipe phase: banner and invocation in `cook`, then the recipe's own script, for every recipe with steps. */
  method CompileRecipes(env: TemplateEnv, cook: seq<string>, dirs: seq<RecipeDir>, target: string, createMode: Mode)
    returns (r: Result<(seq<string>, map<string, RecipeOutput>, seq<string>), Error>)
    requires env.Valid()
    modifies env
    ensures env.Valid()
    ensures match RecipesFrom(old(env.State()), env.engine, target, createMode, dirs, 0)
      case Err(e) => r == Err(e)
      case Ok(p) => r == Ok((cook + p.1.lines, p.1.recipes, p.1.stdout)) && env.State() == p.0
  {
    ghost var st0 := env.State();
    var engine := env.engine;
    var out := cook;
    ghost var done: seq<string> := [];
    var recipes: map<string, RecipeOutput> := map[];
    var stdout: seq<string> := [];
    ghost var whole := RecipesFrom(st0, engine, target, createMode, dirs, 0);
    assert whole == PhasePrefix(Phase([], map[], []), whole) by {
      if whole.Ok? { PhaseEmpty(whole.value.1); }
    }
    var i := 0;
    while i < |dirs|
      invariant 0 <= i <= |dirs|
      invariant env.Valid() && env.engine == engine
      invariant out == cook + done
      invariant whole == PhasePrefix(Phase(done, recipes, stdout), RecipesFrom(env.State(), engine, target, createMode, dirs, i))
    {
      var dir := dirs[i];
      if dir.recipe.steps != [] {
        ghost var st := env.State();
        ghost var ctx := Ctx(engine, target, dir, createMode);
        out := out + [Banner(dir.name), Invocation(dir.name)];
        var res := StepCompiler.CompileRecipeSteps(env, Ctx(engine, target, dir, createMode));
        if res.Err? {
          FailRecipe(Phase(done, recipes, stdout), st, engine, target, createMode, dirs, i);
          return Err(res.error);
        }
        ghost var p := CompileSteps(st, ctx).value;
        NothingThen(p.1);
        AdvanceRecipe(Phase(done, recipes, stdout), st, engine, target, createMode, dirs, i);
        AddRecipe(Phase(done, recipes, stdout), dir, p.1, createMode);
        recipes := recipes[dir.name := RecipeOutput(ScriptFile(ScriptHeader + res.value.lines, ChmodPlusX(createMode)), res.value.staged)];
        stdout := stdout + res.value.warnings;
        done := done + [Banner(dir.name), Invocation(dir.name)];
      } else {
        SkipRecipe(Phase(done, recipes, stdout), env.State(), engine, target, createMode, dirs, i);
      }
      i := i + 1;
    }
    PhaseEmpty(Phase(done, recipes, stdout));
    r := Ok((out, recipes, stdout));
  }

  /** The systemd phase: enable and restart every unit of every recipe, appended to `cook`. */
  method WriteSystemdLines(cook: seq<string>, dirs: seq<RecipeDir>) returns (out: seq<string>)
    ensures out == cook + SystemdLines(dirs)
  {
    out := cook;
    for i := 0 to |dirs|
      invariant out + SystemdLines(dirs[i..]) == cook + SystemdLines(dirs)
    {
      var units := dirs[i].recipe.systemd;
      ghost var rest := SystemdLines(dirs[i + 1..]);
      assert dirs[i..][1..] == dirs[i + 1..];
      assert SystemdLines(dirs[i..]) == UnitLines(units) + rest;
      ghost var start := out;
      for j := 0 to |units|
        invariant out + UnitLines(units[j..]) == start + UnitLines(units)
      {
        assert units[j..][1..] == units[j + 1..];
        assert UnitLines(units[j..]) == [EnableLine(units[j]), RestartLine(units[j])] + UnitLines(units[j + 1..]);
        out := out + [EnableLine(units[j])];
        out := out + [RestartLine(units[j])];
      }
      assert units[|units|..] == [] && UnitLines(units[|units|..]) == [];
      assert out == start + UnitLines(units);
      assert out + rest == start + (UnitLines(units) + rest);
    }
    assert dirs[|dirs|..] == [];
  }

  /** `main` after loading the recipes, with the environment's effects as values. */
  method Compile(dirs: seq<RecipeDir>, engine: Engine, target: string, createMode: Mode) returns (r: Result<Output, Error>)
    ensures r == CompileSpec(dirs, engine, target, createMode)
  {
    var env := new TemplateEnv(engine);
    var cook := ScriptHeader;
    cook := cook + [StartLine];
    cook := WritePackageLines(cook, AllPackages(dirs));
    cook := cook + [""];
    var phase := CompileRecipes(env, cook, dirs, target, createMode);
    if phase.Err? {
      return Err(phase.error);
    }
    var (lines, recipes, stdout) := phase.value;
    cook := lines + [""];
    cook := WriteSystemdLines(cook, dirs);
    r := Ok(Output(ScriptFile(cook, ChmodPlusX(createMode)), recipes, stdout));
  }
}
