/**
 * Properties of the step compiler's specification: cardinality and order of
 * emitted lines, staging names, template names consumed, the advisory
 * disclaimer check and which failures can occur.
 */
module StepProperties {
  import opened Wrappers
  import opened Text
  import opened Recipes
  import opened Templates
  import opened Staging
  import opened Steps

  /** The line binding `j` of a templated step must emit, stated per kind of step. */
  ghost predicate LineFor(st: EnvState, ctx: Ctx, task: Task, j: nat, b: Binding, line: string) {
    match task
    case ShellTask(id) => Rendering(st, ctx.engine, id, b) == Ok(line)
    case InstallTask(destId, _, _) =>
      Rendering(st, ctx.engine, destId, b).Ok? &&
      var dest := Rendering(st, ctx.engine, destId, b).value;
      line == "install  -D " + Mangle(dest) + " " + dest
    case RunTask(_, script) => line == "./" + script + "." + NatToString(j)
  }

  /** A successful run over bindings i.. is binding i's contribution followed by the rest. */
  lemma EachBindingUnfold(st: EnvState, ctx: Ctx, task: Task, bs: seq<Binding>, i: nat)
    requires i < |bs|
    requires EachBinding(st, ctx, task, bs, i).Ok?
    ensures OneBinding(st, ctx, task, i, bs[i]).Ok? && EachBinding(st, ctx, task, bs, i + 1).Ok?
    ensures EachBinding(st, ctx, task, bs, i).value ==
      Then(OneBinding(st, ctx, task, i, bs[i]).value, EachBinding(st, ctx, task, bs, i + 1).value)
  {
  }

  /** A successful run over bindings i.. succeeds for binding i and for the rest. */
  lemma EachBindingOk(st: EnvState, ctx: Ctx, task: Task, bs: seq<Binding>, i: nat)
    requires i < |bs|
    requires EachBinding(st, ctx, task, bs, i).Ok?
    ensures OneBinding(st, ctx, task, i, bs[i]).Ok? && EachBinding(st, ctx, task, bs, i + 1).Ok?
  {
  }

  /** Binding i emits one line, the one `LineFor` describes. */
  lemma OneBindingLine(st: EnvState, ctx: Ctx, task: Task, i: nat, b: Binding)
    requires OneBinding(st, ctx, task, i, b).Ok?
    ensures |OneBinding(st, ctx, task, i, b).value.lines| == 1
    ensures LineFor(st, ctx, task, i, b, OneBinding(st, ctx, task, i, b).value.lines[0])
  {
  }

  lemma {:induction false} EachBindingLines(st: EnvState, ctx: Ctx, task: Task, bs: seq<Binding>, i: nat)
    requires i <= |bs|
    requires EachBinding(st, ctx, task, bs, i).Ok?
    ensures var e := EachBinding(st, ctx, task, bs, i).value;
      |e.lines| == |bs| - i &&
      forall j :: i <= j < |bs| ==> LineFor(st, ctx, task, j, bs[j], e.lines[j - i])
    decreases |bs| - i
  {
    if i < |bs| {
      EachBindingUnfold(st, ctx, task, bs, i);
      OneBindingLine(st, ctx, task, i, bs[i]);
      EachBindingLines(st, ctx, task, bs, i + 1);
      var e := EachBinding(st, ctx, task, bs, i).value;
      var one := OneBinding(st, ctx, task, i, bs[i]).value;
      var rest := EachBinding(st, ctx, task, bs, i + 1).value;
      assert e.lines == one.lines + rest.lines;
      forall j | i <= j < |bs|
        ensures LineFor(st, ctx, task, j, bs[j], e.lines[j - i])
      {
        if j == i {
          assert e.lines[j - i] == one.lines[0];
        } else {
          assert e.lines[j - i] == rest.lines[j - (i + 1)];
        }
      }
    }
  }

  /**
   * A templated step with N bindings emits exactly N lines, line j for binding
   * j: the rendered command, the install of the mangled rendered destination,
   * or the invocation of `script.j`.
   */
  lemma TemplatedLines(st: EnvState, ctx: Ctx, task: Task, bs: seq<Binding>)
    requires EachBinding(st, ctx, task, bs, 0).Ok?
    ensures var e := EachBinding(st, ctx, task, bs, 0).value;
      |e.lines| == |bs| && forall j :: 0 <= j < |bs| ==> LineFor(st, ctx, task, j, bs[j], e.lines[j])
  {
    EachBindingLines(st, ctx, task, bs, 0);
  }

  lemma OneRunStaged(st: EnvState, ctx: Ctx, id: TemplateId, script: string, i: nat, b: Binding)
    requires OneBinding(st, ctx, RunTask(id, script), i, b).Ok?
    ensures Rendering(st, ctx.engine, id, b).Ok?
    ensures OneBinding(st, ctx, RunTask(id, script), i, b).value.staged ==
      map[RunStageName(script, i) := FileData(Rendering(st, ctx.engine, id, b).value, ChmodPlusX(ctx.createMode))]
  {
  }

  /** The names `staged` holds are exactly `script.j` for the bindings j from i on. */
  ghost predicate RunStagedKeys(script: string, bs: seq<Binding>, i: nat, staged: map<string, FileData>)
    requires i <= |bs|
  {
    forall name :: name in staged <==> exists j :: i <= j < |bs| && name == RunStageName(script, j)
  }

  /** `script.j` holds binding j's rendering, marked executable, for every binding j from i on. */
  ghost predicate RunStagedValues(st: EnvState, ctx: Ctx, id: TemplateId, script: string, bs: seq<Binding>, i: nat, staged: map<string, FileData>)
    requires i <= |bs|
  {
    forall j :: i <= j < |bs| ==>
      && Rendering(st, ctx.engine, id, bs[j]).Ok?
      && RunStageName(script, j) in staged
      && staged[RunStageName(script, j)] == FileData(Rendering(st, ctx.engine, id, bs[j]).value, ChmodPlusX(ctx.createMode))
  }

  /**
   * `staged` holds exactly `script.j` for every binding j from i on, each
   * with that binding's rendering, marked executable.
   */
  ghost predicate RunStaged(st: EnvState, ctx: Ctx, id: TemplateId, script: string, bs: seq<Binding>, i: nat, staged: map<string, FileData>)
    requires i <= |bs|
  {
    RunStagedKeys(script, bs, i, staged) && RunStagedValues(st, ctx, id, script, bs, i, staged)
  }

  /** Binding i's name is not among those of the later bindings. */
  lemma RunStageNameFresh(script: string, bs: seq<Binding>, i: nat)
    requires i < |bs|
    ensures forall j :: i < j < |bs| ==> RunStageName(script, j) != RunStageName(script, i)
  {
    forall j | i < j < |bs|
      ensures RunStageName(script, j) != RunStageName(script, i)
    {
      if RunStageName(script, j) == RunStageName(script, i) {
        RunStageNamesDistinct(script, i, j);
      }
    }
  }

  lemma RunStagedKeysCons(script: string, bs: seq<Binding>, i: nat, one: map<string, FileData>, rest: map<string, FileData>)
    requires i < |bs|
    requires one.Keys == {RunStageName(script, i)}
    requires RunStagedKeys(script, bs, i + 1, rest)
    ensures RunStagedKeys(script, bs, i, one + rest)
  {
    var n := RunStageName(script, i);
    forall name
      ensures name in one + rest <==> exists j :: i <= j < |bs| && name == RunStageName(script, j)
    {
      if name == n {
        assert i <= i < |bs| && name == RunStageName(script, i);
      } else if exists j :: i <= j < |bs| && name == RunStageName(script, j) {
        var j :| i <= j < |bs| && name == RunStageName(script, j);
        assert j != i;
      }
    }
  }

  lemma RunStagedValuesCons(st: EnvState, ctx: Ctx, id: TemplateId, script: string, bs: seq<Binding>, i: nat,
                            one: map<string, FileData>, rest: map<string, FileData>)
    requires i < |bs|
    requires Rendering(st, ctx.engine, id, bs[i]).Ok?
    requires one == map[RunStageName(script, i) := FileData(Rendering(st, ctx.engine, id, bs[i]).value, ChmodPlusX(ctx.createMode))]
    requires RunStageName(script, i) !in rest
    requires RunStagedValues(st, ctx, id, script, bs, i + 1, rest)
    ensures RunStagedValues(st, ctx, id, script, bs, i, one + rest)
  {
    forall j | i <= j < |bs|
      ensures RunStageName(script, j) in one + rest
      ensures (one + rest)[RunStageName(script, j)] == FileData(Rendering(st, ctx.engine, id, bs[j]).value, ChmodPlusX(ctx.createMode))
    {
      if j > i {
        assert RunStageName(script, j) in rest;
      }
    }
  }

  lemma RunStagedCons(st: EnvState, ctx: Ctx, id: TemplateId, script: string, bs: seq<Binding>, i: nat,
                      one: map<string, FileData>, rest: map<string, FileData>)
    requires i < |bs|
    requires Rendering(st, ctx.engine, id, bs[i]).Ok?
    requires one == map[RunStageName(script, i) := FileData(Rendering(st, ctx.engine, id, bs[i]).value, ChmodPlusX(ctx.createMode))]
    requires RunStaged(st, ctx, id, script, bs, i + 1, rest)
    ensures RunStaged(st, ctx, id, script, bs, i, one + rest)
  {
    RunStageNameFresh(script, bs, i);
    RunStagedKeysCons(script, bs, i, one, rest);
    assert RunStageName(script, i) !in rest;
    RunStagedValuesCons(st, ctx, id, script, bs, i, one, rest);
  }

  /**
   * A templated run step stages exactly `script.i` for every binding i, each
   * holding that binding's rendering and marked executable.
   */
  lemma {:induction false} TemplatedRunStaged(st: EnvState, ctx: Ctx, id: TemplateId, script: string, bs: seq<Binding>, i: nat)
    requires i <= |bs|
    requires EachBinding(st, ctx, RunTask(id, script), bs, i).Ok?
    ensures RunStaged(st, ctx, id, script, bs, i, EachBinding(st, ctx, RunTask(id, script), bs, i).value.staged)
    decreases |bs| - i
  {
    if i < |bs| {
      EachBindingUnfold(st, ctx, RunTask(id, script), bs, i);
      OneRunStaged(st, ctx, id, script, i, bs[i]);
      TemplatedRunStaged(st, ctx, id, script, bs, i + 1);
      var rest := EachBinding(st, ctx, RunTask(id, script), bs, i + 1).value;
      var one := OneBinding(st, ctx, RunTask(id, script), i, bs[i]).value;
      RunStagedCons(st, ctx, id, script, bs, i, one.staged, rest.staged);
    }
  }

  /** `name` is the staging name of binding `b`'s rendered destination. */
  ghost predicate MangledDestOf(st: EnvState, ctx: Ctx, destId: TemplateId, b: Binding, name: string) {
    Rendering(st, ctx.engine, destId, b).Ok? && name == Mangle(Rendering(st, ctx.engine, destId, b).value)
  }

  /** Binding i of a templated install: both renderings succeed, one file is staged and the disclaimer check runs on it. */
  lemma OneInstall(st: EnvState, ctx: Ctx, destId: TemplateId, fileId: TemplateId, mode: Option<string>, i: nat, b: Binding)
    requires OneBinding(st, ctx, InstallTask(destId, fileId, mode), i, b).Ok?
    ensures Rendering(st, ctx.engine, destId, b).Ok? && Rendering(st, ctx.engine, fileId, b).Ok?
    ensures var dest := Rendering(st, ctx.engine, destId, b).value;
      var content := Rendering(st, ctx.engine, fileId, b).value;
      var one := OneBinding(st, ctx, InstallTask(destId, fileId, mode), i, b).value;
      && one.staged == map[Mangle(dest) := FileData(content, ctx.createMode)]
      && one.staged.Keys == {Mangle(dest)}
      && one.warnings == CheckManagedDisclaimer(StagedPath(ctx.target, ctx.dir.name, Mangle(dest)), content)
  {
  }

  /** The mangled rendered destinations of the bindings from i on that render. */
  ghost function MangledDests(st: EnvState, ctx: Ctx, destId: TemplateId, bs: seq<Binding>, i: nat): set<string>
    requires i <= |bs|
    decreases |bs| - i
  {
    if i == |bs| then {}
    else
      var r := Rendering(st, ctx.engine, destId, bs[i]);
      (if r.Ok? then {Mangle(r.value)} else {}) + MangledDests(st, ctx, destId, bs, i + 1)
  }

  lemma {:induction false} MangledDestsAre(st: EnvState, ctx: Ctx, destId: TemplateId, bs: seq<Binding>, i: nat)
    requires i <= |bs|
    ensures forall name :: name in MangledDests(st, ctx, destId, bs, i) <==>
      exists j :: i <= j < |bs| && MangledDestOf(st, ctx, destId, bs[j], name)
    ensures forall name <- MangledDests(st, ctx, destId, bs, i) :: '/' !in name
    decreases |bs| - i
  {
    if i < |bs| {
      MangledDestsAre(st, ctx, destId, bs, i + 1);
      forall name | exists j :: i <= j < |bs| && MangledDestOf(st, ctx, destId, bs[j], name)
        ensures name in MangledDests(st, ctx, destId, bs, i)
      {
        var j :| i <= j < |bs| && MangledDestOf(st, ctx, destId, bs[j], name);
        if j > i {
          assert name in MangledDests(st, ctx, destId, bs, i + 1);
        }
      }
    }
  }

  lemma KeysOfUnion(a: map<string, FileData>, b: map<string, FileData>)
    ensures (a + b).Keys == a.Keys + b.Keys
  {
  }

  lemma {:induction false} InstallKeys(st: EnvState, ctx: Ctx, destId: TemplateId, fileId: TemplateId,
                                       mode: Option<string>, bs: seq<Binding>, i: nat)
    requires i <= |bs|
    requires EachBinding(st, ctx, InstallTask(destId, fileId, mode), bs, i).Ok?
    ensures EachBinding(st, ctx, InstallTask(destId, fileId, mode), bs, i).value.staged.Keys == MangledDests(st, ctx, destId, bs, i)
    decreases |bs| - i
  {
    var task := InstallTask(destId, fileId, mode);
    if i < |bs| {
      EachBindingUnfold(st, ctx, task, bs, i);
      OneInstall(st, ctx, destId, fileId, mode, i, bs[i]);
      InstallKeys(st, ctx, destId, fileId, mode, bs, i + 1);
      var rest := EachBinding(st, ctx, task, bs, i + 1).value;
      var one := OneBinding(st, ctx, task, i, bs[i]).value;
      KeysOfUnion(one.staged, rest.staged);
    } else {
      assert EachBinding(st, ctx, task, bs, i).value == Nothing;
    }
  }

  lemma OneInstallRenders(st: EnvState, ctx: Ctx, destId: TemplateId, fileId: TemplateId, mode: Option<string>, i: nat, b: Binding)
    requires OneBinding(st, ctx, InstallTask(destId, fileId, mode), i, b).Ok?
    ensures Rendering(st, ctx.engine, destId, b).Ok?
  {
  }

  /** A successful run over bindings i.. succeeds for each of them. */
  lemma {:induction false} EachBindingOkAt(st: EnvState, ctx: Ctx, task: Task, bs: seq<Binding>, i: nat, j: nat)
    requires i <= j < |bs|
    requires EachBinding(st, ctx, task, bs, i).Ok?
    ensures OneBinding(st, ctx, task, j, bs[j]).Ok?
    decreases j - i
  {
    EachBindingOk(st, ctx, task, bs, i);
    if i < j {
      EachBindingOkAt(st, ctx, task, bs, i + 1, j);
    }
  }

  /**
   * A templated install stages a file under the mangled rendered destination
   * of every binding and under no other name, so no staging name contains `/`.
   */
  lemma TemplatedInstallStaged(st: EnvState, ctx: Ctx, destId: TemplateId, fileId: TemplateId,
                               mode: Option<string>, bs: seq<Binding>)
    requires EachBinding(st, ctx, InstallTask(destId, fileId, mode), bs, 0).Ok?
    ensures var e := EachBinding(st, ctx, InstallTask(destId, fileId, mode), bs, 0).value;
      && (forall name <- e.staged :: '/' !in name)
      && (forall name <- e.staged :: exists j :: 0 <= j < |bs| && MangledDestOf(st, ctx, destId, bs[j], name))
      && (forall j :: 0 <= j < |bs| ==>
            Rendering(st, ctx.engine, destId, bs[j]).Ok? && Mangle(Rendering(st, ctx.engine, destId, bs[j]).value) in e.staged)
  {
    InstallKeys(st, ctx, destId, fileId, mode, bs, 0);
    MangledDestsAre(st, ctx, destId, bs, 0);
    var e := EachBinding(st, ctx, InstallTask(destId, fileId, mode), bs, 0).value;
    forall j | 0 <= j < |bs|
      ensures Rendering(st, ctx.engine, destId, bs[j]).Ok? && Mangle(Rendering(st, ctx.engine, destId, bs[j]).value) in e.staged
    {
      EachBindingOkAt(st, ctx, InstallTask(destId, fileId, mode), bs, 0, j);
      OneInstallRenders(st, ctx, destId, fileId, mode, j, bs[j]);
      assert MangledDestOf(st, ctx, destId, bs[j], Mangle(Rendering(st, ctx.engine, destId, bs[j]).value));
    }
  }

  /** No binding after j renders a destination that mangles to `name`: binding j is the last to write it. */
  ghost predicate NoLaterStage(st: EnvState, ctx: Ctx, destId: TemplateId, bs: seq<Binding>, j: nat, name: string)
    requires j < |bs|
  {
    forall k :: j < k < |bs| ==> !MangledDestOf(st, ctx, destId, bs[k], name)
  }

  /**
   * Binding j of a templated install (j >= i) renders its destination and the
   * file; when no later binding writes the same staging name, that name holds
   * binding j's rendering of the file, with the creation mode.
   */
  lemma {:induction false} InstallContent(st: EnvState, ctx: Ctx, destId: TemplateId, fileId: TemplateId,
                                          mode: Option<string>, bs: seq<Binding>, i: nat, j: nat)
    requires i <= j < |bs|
    requires EachBinding(st, ctx, InstallTask(destId, fileId, mode), bs, i).Ok?
    ensures Rendering(st, ctx.engine, destId, bs[j]).Ok? && Rendering(st, ctx.engine, fileId, bs[j]).Ok?
    ensures var name := Mangle(Rendering(st, ctx.engine, destId, bs[j]).value);
      var e := EachBinding(st, ctx, InstallTask(destId, fileId, mode), bs, i).value;
      NoLaterStage(st, ctx, destId, bs, j, name) ==>
        name in e.staged && e.staged[name] == FileData(Rendering(st, ctx.engine, fileId, bs[j]).value, ctx.createMode)
    decreases j - i
  {
    var task := InstallTask(destId, fileId, mode);
    EachBindingUnfold(st, ctx, task, bs, i);
    var one := OneBinding(st, ctx, task, i, bs[i]).value;
    var rest := EachBinding(st, ctx, task, bs, i + 1).value;
    if i < j {
      InstallContent(st, ctx, destId, fileId, mode, bs, i + 1, j);
      StagedLater(one.staged, rest.staged);
    } else {
      InstallContentHere(st, ctx, destId, fileId, mode, bs, i);
    }
  }

  /** In `a + b`, a name staged by `b` keeps `b`'s file. */
  lemma StagedLater(a: map<string, FileData>, b: map<string, FileData>)
    ensures forall name <- b :: name in a + b && (a + b)[name] == b[name]
  {
  }

  /** The base case of `InstallContent`: binding i is the last to write its name. */
  lemma InstallContentHere(st: EnvState, ctx: Ctx, destId: TemplateId, fileId: TemplateId,
                           mode: Option<string>, bs: seq<Binding>, i: nat)
    requires i < |bs|
    requires EachBinding(st, ctx, InstallTask(destId, fileId, mode), bs, i).Ok?
    ensures Rendering(st, ctx.engine, destId, bs[i]).Ok? && Rendering(st, ctx.engine, fileId, bs[i]).Ok?
    ensures var name := Mangle(Rendering(st, ctx.engine, destId, bs[i]).value);
      var e := EachBinding(st, ctx, InstallTask(destId, fileId, mode), bs, i).value;
      NoLaterStage(st, ctx, destId, bs, i, name) ==>
        name in e.staged && e.staged[name] == FileData(Rendering(st, ctx.engine, fileId, bs[i]).value, ctx.createMode)
  {
    var task := InstallTask(destId, fileId, mode);
    EachBindingUnfold(st, ctx, task, bs, i);
    OneInstall(st, ctx, destId, fileId, mode, i, bs[i]);
    var one := OneBinding(st, ctx, task, i, bs[i]).value;
    var rest := EachBinding(st, ctx, task, bs, i + 1).value;
    var name := Mangle(Rendering(st, ctx.engine, destId, bs[i]).value);
    if NoLaterStage(st, ctx, destId, bs, i, name) {
      InstallKeys(st, ctx, destId, fileId, mode, bs, i + 1);
      MangledDestsAre(st, ctx, destId, bs, i + 1);
      assert name !in rest.staged;
      StagedEarlier(one.staged, rest.staged, name);
    }
  }

  /** In `a + b`, a name `b` does not stage keeps `a`'s file. */
  lemma StagedEarlier(a: map<string, FileData>, b: map<string, FileData>, name: string)
    requires name in a && name !in b
    ensures name in a + b && (a + b)[name] == a[name]
  {
  }

  /**
   * What a templated install stages: for every binding, the file rendered for
   * the last binding whose destination mangles to the same name.
   */
  lemma TemplatedInstallContents(st: EnvState, ctx: Ctx, destId: TemplateId, fileId: TemplateId,
                                 mode: Option<string>, bs: seq<Binding>)
    requires EachBinding(st, ctx, InstallTask(destId, fileId, mode), bs, 0).Ok?
    ensures var e := EachBinding(st, ctx, InstallTask(destId, fileId, mode), bs, 0).value;
      forall j :: 0 <= j < |bs| ==>
        && Rendering(st, ctx.engine, destId, bs[j]).Ok? && Rendering(st, ctx.engine, fileId, bs[j]).Ok?
        && (NoLaterStage(st, ctx, destId, bs, j, Mangle(Rendering(st, ctx.engine, destId, bs[j]).value)) ==>
              && Mangle(Rendering(st, ctx.engine, destId, bs[j]).value) in e.staged
              && e.staged[Mangle(Rendering(st, ctx.engine, destId, bs[j]).value)] ==
                 FileData(Rendering(st, ctx.engine, fileId, bs[j]).value, ctx.createMode))
  {
    forall j | 0 <= j < |bs|
      ensures Rendering(st, ctx.engine, destId, bs[j]).Ok? && Rendering(st, ctx.engine, fileId, bs[j]).Ok?
      ensures var e := EachBinding(st, ctx, InstallTask(destId, fileId, mode), bs, 0).value;
        NoLaterStage(st, ctx, destId, bs, j, Mangle(Rendering(st, ctx.engine, destId, bs[j]).value)) ==>
          && Mangle(Rendering(st, ctx.engine, destId, bs[j]).value) in e.staged
          && e.staged[Mangle(Rendering(st, ctx.engine, destId, bs[j]).value)] ==
             FileData(Rendering(st, ctx.engine, fileId, bs[j]).value, ctx.createMode)
    {
      InstallContent(st, ctx, destId, fileId, mode, bs, 0, j);
    }
  }

  /** No two bindings render destinations with the same staging name. */
  ghost predicate DistinctDests(st: EnvState, ctx: Ctx, destId: TemplateId, bs: seq<Binding>) {
    forall j, k, name :: 0 <= j < k < |bs| && MangledDestOf(st, ctx, destId, bs[j], name) ==>
      !MangledDestOf(st, ctx, destId, bs[k], name)
  }

  lemma {:induction false} MangledDestsCount(st: EnvState, ctx: Ctx, destId: TemplateId, bs: seq<Binding>, i: nat)
    requires i <= |bs| && DistinctDests(st, ctx, destId, bs)
    requires forall j :: i <= j < |bs| ==> Rendering(st, ctx.engine, destId, bs[j]).Ok?
    ensures |MangledDests(st, ctx, destId, bs, i)| == |bs| - i
    decreases |bs| - i
  {
    if i < |bs| {
      MangledDestsCount(st, ctx, destId, bs, i + 1);
      MangledDestsAre(st, ctx, destId, bs, i + 1);
      var name := Mangle(Rendering(st, ctx.engine, destId, bs[i]).value);
      assert MangledDestOf(st, ctx, destId, bs[i], name);
      assert name !in MangledDests(st, ctx, destId, bs, i + 1);
      assert MangledDests(st, ctx, destId, bs, i) == {name} + MangledDests(st, ctx, destId, bs, i + 1);
    }
  }

  /**
   * When the bindings' staging names are pairwise distinct, a templated
   * install stages one file per binding, holding that binding's rendering.
   */
  lemma TemplatedInstallDistinct(st: EnvState, ctx: Ctx, destId: TemplateId, fileId: TemplateId,
                                 mode: Option<string>, bs: seq<Binding>)
    requires EachBinding(st, ctx, InstallTask(destId, fileId, mode), bs, 0).Ok?
    requires DistinctDests(st, ctx, destId, bs)
    ensures var e := EachBinding(st, ctx, InstallTask(destId, fileId, mode), bs, 0).value;
      && |e.staged| == |bs|
      && forall j :: 0 <= j < |bs| ==>
           && Rendering(st, ctx.engine, destId, bs[j]).Ok? && Rendering(st, ctx.engine, fileId, bs[j]).Ok?
           && Mangle(Rendering(st, ctx.engine, destId, bs[j]).value) in e.staged
           && e.staged[Mangle(Rendering(st, ctx.engine, destId, bs[j]).value)] ==
              FileData(Rendering(st, ctx.engine, fileId, bs[j]).value, ctx.createMode)
  {
    var e := EachBinding(st, ctx, InstallTask(destId, fileId, mode), bs, 0).value;
    forall j | 0 <= j < |bs|
      ensures Rendering(st, ctx.engine, destId, bs[j]).Ok? && Rendering(st, ctx.engine, fileId, bs[j]).Ok?
      ensures Mangle(Rendering(st, ctx.engine, destId, bs[j]).value) in e.staged
      ensures e.staged[Mangle(Rendering(st, ctx.engine, destId, bs[j]).value)] ==
              FileData(Rendering(st, ctx.engine, fileId, bs[j]).value, ctx.createMode)
    {
      InstallContent(st, ctx, destId, fileId, mode, bs, 0, j);
      var name := Mangle(Rendering(st, ctx.engine, destId, bs[j]).value);
      assert MangledDestOf(st, ctx, destId, bs[j], name);
      assert NoLaterStage(st, ctx, destId, bs, j, name);
    }
    InstallKeys(st, ctx, destId, fileId, mode, bs, 0);
    MangledDestsCount(st, ctx, destId, bs, 0);
    assert |e.staged| == |e.staged.Keys|;
  }

  /** Every binding from i on renders the file, and every rendering carries the disclaimer. */
  ghost predicate AllCarryDisclaimer(st: EnvState, ctx: Ctx, fileId: TemplateId, bs: seq<Binding>, i: nat)
    requires i <= |bs|
  {
    forall j :: i <= j < |bs| ==> CarriesDisclaimer(st, ctx, fileId, bs[j])
  }

  /** Binding b renders the file, and the rendering carries the disclaimer. */
  ghost predicate CarriesDisclaimer(st: EnvState, ctx: Ctx, fileId: TemplateId, b: Binding) {
    Rendering(st, ctx.engine, fileId, b).Ok? && Contains(Rendering(st, ctx.engine, fileId, b).value, ManagedMarker)
  }

  /** A templated install warns for no binding exactly when every rendered file carries the disclaimer. */
  lemma {:induction false} TemplatedInstallWarnings(st: EnvState, ctx: Ctx, destId: TemplateId, fileId: TemplateId,
                                                    mode: Option<string>, bs: seq<Binding>, i: nat)
    requires i <= |bs|
    requires EachBinding(st, ctx, InstallTask(destId, fileId, mode), bs, i).Ok?
    ensures (EachBinding(st, ctx, InstallTask(destId, fileId, mode), bs, i).value.warnings == []) <==>
      AllCarryDisclaimer(st, ctx, fileId, bs, i)
    decreases |bs| - i
  {
    if i < |bs| {
      EachBindingOk(st, ctx, InstallTask(destId, fileId, mode), bs, i);
      TemplatedInstallWarnings(st, ctx, destId, fileId, mode, bs, i + 1);
      InstallWarningsCons(st, ctx, destId, fileId, mode, bs, i);
    }
  }

  /** The step case of `TemplatedInstallWarnings`: binding i's warning joins those of the rest. */
  lemma InstallWarningsCons(st: EnvState, ctx: Ctx, destId: TemplateId, fileId: TemplateId,
                            mode: Option<string>, bs: seq<Binding>, i: nat)
    requires i < |bs|
    requires EachBinding(st, ctx, InstallTask(destId, fileId, mode), bs, i).Ok?
    requires EachBinding(st, ctx, InstallTask(destId, fileId, mode), bs, i + 1).Ok?
    requires (EachBinding(st, ctx, InstallTask(destId, fileId, mode), bs, i + 1).value.warnings == []) <==>
      AllCarryDisclaimer(st, ctx, fileId, bs, i + 1)
    ensures (EachBinding(st, ctx, InstallTask(destId, fileId, mode), bs, i).value.warnings == []) <==>
      AllCarryDisclaimer(st, ctx, fileId, bs, i)
  {
    var task := InstallTask(destId, fileId, mode);
    EachBindingWarnings(st, ctx, task, bs, i);
    OneInstallWarning(st, ctx, destId, fileId, mode, i, bs[i]);
    var rest := EachBinding(st, ctx, task, bs, i + 1).value;
    var one := OneBinding(st, ctx, task, i, bs[i]).value;
    DisclaimerStep(st, ctx, fileId, bs, i, one.warnings, rest.warnings);
  }

  lemma EachBindingWarnings(st: EnvState, ctx: Ctx, task: Task, bs: seq<Binding>, i: nat)
    requires i < |bs|
    requires EachBinding(st, ctx, task, bs, i).Ok?
    ensures OneBinding(st, ctx, task, i, bs[i]).Ok? && EachBinding(st, ctx, task, bs, i + 1).Ok?
    ensures EachBinding(st, ctx, task, bs, i).value.warnings ==
      OneBinding(st, ctx, task, i, bs[i]).value.warnings + EachBinding(st, ctx, task, bs, i + 1).value.warnings
  {
  }

  /** Binding i of a templated install warns exactly when its rendered file lacks the disclaimer. */
  lemma OneInstallWarning(st: EnvState, ctx: Ctx, destId: TemplateId, fileId: TemplateId, mode: Option<string>, i: nat, b: Binding)
    requires OneBinding(st, ctx, InstallTask(destId, fileId, mode), i, b).Ok?
    ensures OneBinding(st, ctx, InstallTask(destId, fileId, mode), i, b).value.warnings == [] <==>
      CarriesDisclaimer(st, ctx, fileId, b)
  {
  }

  lemma DisclaimerStep(st: EnvState, ctx: Ctx, fileId: TemplateId, bs: seq<Binding>, i: nat, w: seq<string>, rest: seq<string>)
    requires i < |bs|
    requires w == [] <==> CarriesDisclaimer(st, ctx, fileId, bs[i])
    requires rest == [] <==> AllCarryDisclaimer(st, ctx, fileId, bs, i + 1)
    ensures w + rest == [] <==> AllCarryDisclaimer(st, ctx, fileId, bs, i)
  {
    if w + rest == [] {
      assert w == [] && rest == [];
    }
  }

  /**
   * An untemplated step leaves the engine alone and emits exactly one line
   * whatever the bindings: `install  -D src dest` with the source staged under
   * its own path and warned about iff it lacks the disclaimer, the command
   * itself, or `./script` with the script staged unchanged.
   */
  lemma UntemplatedStepOnce(st: EnvState, ctx: Ctx, step: Step)
    requires !step.template
    requires CompileStep(st, ctx, step).Ok?
    ensures var (st', e) := CompileStep(st, ctx, step).value;
      && st' == st
      && |e.lines| == 1
      && (step.Install? ==>
            && e.lines == ["install  -D " + step.install.src + " " + step.install.dest]
            && e.staged == map[step.install.src := ctx.dir.files[step.install.src]]
            && (e.warnings == [] <==> Contains(ctx.dir.files[step.install.src].content, ManagedMarker)))
      && (step.Shell? ==> e.lines == [step.cmd] && e.staged == map[] && e.warnings == [])
      && (step.Run? ==> e.lines == ["./" + step.script] && e.staged == map[step.script := ctx.dir.files[step.script]] && e.warnings == [])
  {
  }

  /** The bindings play no part in an untemplated step. */
  lemma UntemplatedIgnoresBindings(st: EnvState, ctx: Ctx, step: Step, bs: seq<Binding>)
    requires !step.template
    ensures CompileStep(st, ctx, step) ==
      CompileStep(st, ctx.(dir := ctx.dir.(recipe := ctx.dir.recipe.(templateVars := bs))), step)
  {
  }

  /** The mode of an install step never reaches the emitted line. */
  lemma InstallModeIgnored(st: EnvState, ctx: Ctx, t: bool, src: string, dest: string, m1: Option<string>, m2: Option<string>)
    requires CompileStep(st, ctx, Install(t, InstallFile(src, dest, m1))).Ok?
    ensures CompileStep(st, ctx, Install(t, InstallFile(src, dest, m2))) == CompileStep(st, ctx, Install(t, InstallFile(src, dest, m1)))
  {
    if t {
      var bs := ctx.dir.recipe.templateVars;
      var reg1 := Registration(st, ctx.engine, Some(dest));
      var reg2 := Registration(reg1.0, ctx.engine, FileSource(ctx.dir.files, src));
      EachBindingModeIgnored(reg2.0, ctx, reg1.1.value, reg2.1.value, m1, m2, bs, 0);
    }
  }

  lemma OneBindingModeIgnored(st: EnvState, ctx: Ctx, destId: TemplateId, fileId: TemplateId,
                              m1: Option<string>, m2: Option<string>, i: nat, b: Binding)
    ensures OneBinding(st, ctx, InstallTask(destId, fileId, m1), i, b) == OneBinding(st, ctx, InstallTask(destId, fileId, m2), i, b)
  {
  }

  lemma {:induction false} EachBindingModeIgnored(st: EnvState, ctx: Ctx, destId: TemplateId, fileId: TemplateId,
                                                  m1: Option<string>, m2: Option<string>, bs: seq<Binding>, i: nat)
    requires i <= |bs|
    ensures EachBinding(st, ctx, InstallTask(destId, fileId, m1), bs, i) == EachBinding(st, ctx, InstallTask(destId, fileId, m2), bs, i)
    decreases |bs| - i
  {
    if i < |bs| {
      OneBindingModeIgnored(st, ctx, destId, fileId, m1, m2, i, bs[i]);
      EachBindingModeIgnored(st, ctx, destId, fileId, m1, m2, bs, i + 1);
    }
  }

  /** Lines a step emits given N bindings. */
  function StepLines(step: Step, n: nat): nat {
    if step.template then n else 1
  }

  /** Template names a step consumes: templated install two (dest, then file), templated shell and run one. */
  function StepNames(step: Step): nat {
    match step
    case Install(t, _) => if t then 2 else 0
    case Shell(t, _) => if t then 1 else 0
    case Run(t, _) => if t then 1 else 0
  }

  function TotalLines(steps: seq<Step>, n: nat): nat {
    if steps == [] then 0 else StepLines(steps[0], n) + TotalLines(steps[1..], n)
  }

  function TotalNames(steps: seq<Step>): nat {
    if steps == [] then 0 else StepNames(steps[0]) + TotalNames(steps[1..])
  }

  /** The per-binding part of a templated step emits one line per binding from i on. */
  lemma {:induction false} EachBindingCount(st: EnvState, ctx: Ctx, task: Task, bs: seq<Binding>, i: nat)
    requires i <= |bs|
    requires EachBinding(st, ctx, task, bs, i).Ok?
    ensures |EachBinding(st, ctx, task, bs, i).value.lines| == |bs| - i
    decreases |bs| - i
  {
    if i < |bs| {
      EachBindingUnfold(st, ctx, task, bs, i);
      OneBindingLine(st, ctx, task, i, bs[i]);
      EachBindingCount(st, ctx, task, bs, i + 1);
    }
  }

  /** One step: its line count and the template names it consumes, even with zero bindings. */
  lemma StepCardinality(st: EnvState, ctx: Ctx, step: Step)
    requires CompileStep(st, ctx, step).Ok?
    ensures var p := CompileStep(st, ctx, step).value;
      |p.1.lines| == StepLines(step, |ctx.dir.recipe.templateVars|) && p.0.counter == st.counter + StepNames(step)
  {
    var bs := ctx.dir.recipe.templateVars;
    var files := ctx.dir.files;
    match step
    case Install(true, f) =>
      var reg1 := Registration(st, ctx.engine, Some(f.dest));
      var reg2 := Registration(reg1.0, ctx.engine, FileSource(files, f.src));
      EachBindingCount(reg2.0, ctx, InstallTask(reg1.1.value, reg2.1.value, f.mode), bs, 0);
    case Shell(true, cmd) =>
      var reg := Registration(st, ctx.engine, Some(cmd));
      EachBindingCount(reg.0, ctx, ShellTask(reg.1.value), bs, 0);
    case Run(true, script) =>
      var reg := Registration(st, ctx.engine, FileSource(files, script));
      EachBindingCount(reg.0, ctx, RunTask(reg.1.value, script), bs, 0);
    case _ =>
  }

  /**
   * Steps k..m of a recipe: the number of lines is the sum over the steps (N
   * per templated step, 1 per other step) and the counter advances by the
   * template names they consume.
   */
  lemma {:induction false} StepsCardinality(st: EnvState, ctx: Ctx, k: nat, m: nat)
    requires k <= m <= |ctx.dir.recipe.steps|
    requires CompileStepsBetween(st, ctx, k, m).Ok?
    ensures var p := CompileStepsBetween(st, ctx, k, m).value;
      && |p.1.lines| == TotalLines(ctx.dir.recipe.steps[k..m], |ctx.dir.recipe.templateVars|)
      && p.0.counter == st.counter + TotalNames(ctx.dir.recipe.steps[k..m])
    decreases m - k
  {
    var steps := ctx.dir.recipe.steps;
    if k < m {
      var p := CompileStep(st, ctx, steps[k]).value;
      StepCardinality(st, ctx, steps[k]);
      StepsCardinality(p.0, ctx, k + 1, m);
      assert steps[k..m][1..] == steps[k + 1..m];
    }
  }

  /**
   * Order: compiling steps k..n is compiling k..m, then m..n from the state
   * the first part left, with the second part's lines after the first's.
   */
  lemma {:induction false} StepsSplit(st: EnvState, ctx: Ctx, k: nat, m: nat, n: nat)
    requires k <= m <= n <= |ctx.dir.recipe.steps|
    ensures CompileStepsBetween(st, ctx, k, n) ==
      match CompileStepsBetween(st, ctx, k, m)
      case Err(e) => Err(e)
      case Ok(p) => Prefix(p.1, CompileStepsBetween(p.0, ctx, m, n))
    decreases m - k
  {
    if k == m {
      var r := CompileStepsBetween(st, ctx, m, n);
      if r.Ok? { NothingThen(r.value.1); }
    } else {
      match CompileStep(st, ctx, ctx.dir.recipe.steps[k])
      case Err(e) =>
      case Ok(p) =>
        StepsSplit(p.0, ctx, k + 1, m, n);
        var q := CompileStepsBetween(p.0, ctx, k + 1, m);
        if q.Ok? {
          PrefixAssoc(p.1, q.value.1, CompileStepsBetween(q.value.0, ctx, m, n));
        }
    }
  }

  /** The file a step reads from the recipe directory, if any. */
  function SourceOf(step: Step): Option<string> {
    match step
    case Install(_, f) => Some(f.src)
    case Shell(_, _) => None
    case Run(_, script) => Some(script)
  }

  /** Every file the recipe's steps read is in its directory. */
  ghost predicate SourcesPresent(dir: RecipeDir) {
    forall k :: 0 <= k < |dir.recipe.steps| && SourceOf(dir.recipe.steps[k]).Some? ==>
      SourceOf(dir.recipe.steps[k]).value in dir.files
  }

  /** The engine compiles every text and renders every text against every binding. */
  ghost predicate Total(engine: Engine) {
    (forall s :: engine.accepts(s)) && (forall s, b :: engine.render(s, b).Some?)
  }

  lemma {:induction false} EachBindingSucceeds(st: EnvState, ctx: Ctx, task: Task, bs: seq<Binding>, i: nat)
    requires i <= |bs| && Total(ctx.engine)
    requires match task
      case ShellTask(id) => id.name in st.registry
      case InstallTask(d, f, _) => d.name in st.registry && f.name in st.registry
      case RunTask(f, _) => f.name in st.registry
    ensures EachBinding(st, ctx, task, bs, i).Ok?
    decreases |bs| - i
  {
    if i < |bs| {
      EachBindingSucceeds(st, ctx, task, bs, i + 1);
    }
  }

  /**
   * The only failures are missing files, template registration and
   * rendering: with every source present and an engine that accepts and
   * renders everything, a recipe's steps always compile. In particular the
   * disclaimer check never fails the run.
   */
  lemma {:induction false} StepsSucceed(st: EnvState, ctx: Ctx, k: nat)
    requires k <= |ctx.dir.recipe.steps|
    requires WellFormed(st) && Total(ctx.engine) && SourcesPresent(ctx.dir)
    ensures CompileStepsBetween(st, ctx, k, |ctx.dir.recipe.steps|).Ok?
    decreases |ctx.dir.recipe.steps| - k
  {
    var steps := ctx.dir.recipe.steps;
    if k < |steps| {
      assert SourceOf(steps[k]).Some? ==> SourceOf(steps[k]).value in ctx.dir.files;
      StepSucceeds(st, ctx, steps[k]);
      StepKeepsWellFormed(st, ctx, steps[k]);
      StepsSucceed(CompileStep(st, ctx, steps[k]).value.0, ctx, k + 1);
    }
  }

  /** One step succeeds once its source is present and the engine accepts and renders everything. */
  lemma StepSucceeds(st: EnvState, ctx: Ctx, step: Step)
    requires WellFormed(st) && Total(ctx.engine)
    requires SourceOf(step).Some? ==> SourceOf(step).value in ctx.dir.files
    ensures CompileStep(st, ctx, step).Ok?
  {
    var bs := ctx.dir.recipe.templateVars;
    var files := ctx.dir.files;
    match step
    case Install(true, f) =>
      var reg1 := Registration(st, ctx.engine, Some(f.dest));
      RegistrationIssuesFreshName(st, ctx.engine, Some(f.dest));
      var reg2 := Registration(reg1.0, ctx.engine, FileSource(files, f.src));
      RegistrationIssuesFreshName(reg1.0, ctx.engine, FileSource(files, f.src));
      EachBindingSucceeds(reg2.0, ctx, InstallTask(reg1.1.value, reg2.1.value, f.mode), bs, 0);
    case Shell(true, cmd) =>
      var reg := Registration(st, ctx.engine, Some(cmd));
      RegistrationIssuesFreshName(st, ctx.engine, Some(cmd));
      EachBindingSucceeds(reg.0, ctx, ShellTask(reg.1.value), bs, 0);
    case Run(true, script) =>
      var reg := Registration(st, ctx.engine, FileSource(files, script));
      RegistrationIssuesFreshName(st, ctx.engine, FileSource(files, script));
      EachBindingSucceeds(reg.0, ctx, RunTask(reg.1.value, script), bs, 0);
    case _ =>
  }

  /** Every registration a step performs keeps the engine state well formed. */
  lemma StepKeepsWellFormed(st: EnvState, ctx: Ctx, step: Step)
    requires WellFormed(st)
    requires CompileStep(st, ctx, step).Ok?
    ensures WellFormed(CompileStep(st, ctx, step).value.0)
  {
    var files := ctx.dir.files;
    match step
    case Install(true, f) =>
      var reg1 := Registration(st, ctx.engine, Some(f.dest));
      RegistrationIssuesFreshName(st, ctx.engine, Some(f.dest));
      RegistrationIssuesFreshName(reg1.0, ctx.engine, FileSource(files, f.src));
    case Shell(true, cmd) =>
      RegistrationIssuesFreshName(st, ctx.engine, Some(cmd));
    case Run(true, script) =>
      RegistrationIssuesFreshName(st, ctx.engine, FileSource(files, script));
    case _ =>
  }

  lemma {:induction false} StepsKeepWellFormed(st: EnvState, ctx: Ctx, k: nat, m: nat)
    requires k <= m <= |ctx.dir.recipe.steps|
    requires WellFormed(st)
    requires CompileStepsBetween(st, ctx, k, m).Ok?
    ensures WellFormed(CompileStepsBetween(st, ctx, k, m).value.0)
    decreases m - k
  {
    if k < m {
      var p := CompileStep(st, ctx, ctx.dir.recipe.steps[k]).value;
      StepKeepsWellFormed(st, ctx, ctx.dir.recipe.steps[k]);
      StepsKeepWellFormed(p.0, ctx, k + 1, m);
    }
  }
}
