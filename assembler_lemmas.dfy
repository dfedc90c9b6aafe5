/**
 * Properties of the top-level script: the package batches, the three-phase
 * layout of `cook.sh`, the skip rule for recipes without steps, the systemd
 * pairs, and when the run can fail.
 */
module AssemblerProperties {
  import opened Wrappers
  import opened Recipes
  import opened Templates
  import opened Staging
  import opened Steps
  import opened StepProperties
  import opened Assembler

  function Flatten(cs: seq<seq<string>>): seq<string> {
    if cs == [] then [] else cs[0] + Flatten(cs[1..])
  }

  /** Batching loses, reorders and duplicates nothing. */
  lemma {:induction false} ChunksFlatten(s: seq<string>)
    ensures Flatten(Chunks(s)) == s
    decreases |s|
  {
    if |s| > BatchSize {
      ChunksFlatten(s[BatchSize..]);
      assert s == s[..BatchSize] + s[BatchSize..];
    } else if s != [] {
      assert Flatten(Chunks(s)) == s + [];
    }
  }

  /** Every batch holds 1 to 64 packages, every batch but the last exactly 64, and there are ceil(n / 64) of them. */
  lemma {:induction false} ChunksBounded(s: seq<string>)
    ensures |Chunks(s)| == (|s| + BatchSize - 1) / BatchSize
    ensures forall i :: 0 <= i < |Chunks(s)| ==> 1 <= |Chunks(s)[i]| <= BatchSize
    ensures forall i :: 0 <= i < |Chunks(s)| - 1 ==> |Chunks(s)[i]| == BatchSize
    decreases |s|
  {
    if |s| > BatchSize {
      ChunksBounded(s[BatchSize..]);
      assert Chunks(s) == [s[..BatchSize]] + Chunks(s[BatchSize..]);
    }
  }

  lemma {:induction false} PackageLinesAt(cs: seq<seq<string>>)
    ensures |PackageLines(cs)| == |cs|
    ensures forall i :: 0 <= i < |cs| ==> PackageLines(cs)[i] == "apt-get install" + Words(cs[i])
  {
    if cs != [] {
      PackageLinesAt(cs[1..]);
    }
  }

  /** The index of the last space in `s`, or -1 when there is none. */
  function LastSpace(s: string): (r: int)
    ensures -1 <= r < |s|
    ensures r >= 0 ==> s[r] == ' '
    ensures forall i :: r < i < |s| ==> s[i] != ' '
    decreases |s|
  {
    if s == [] then -1 else if s[|s| - 1] == ' ' then |s| - 1 else LastSpace(s[..|s| - 1])
  }

  /** Reads ` p1 p2 ...` back into its words: the inverse of `Words`. */
  function Unwords(s: string): seq<string>
    decreases |s|
  {
    var k := LastSpace(s);
    if k < 0 then [] else Unwords(s[..k]) + [s[k + 1..]]
  }

  /** Packages without spaces are read back from ` p1 p2 ...` unchanged. */
  lemma {:induction false} WordsRoundTrip(c: seq<string>)
    requires forall p <- c :: ' ' !in p
    ensures Unwords(Words(c)) == c
    decreases |c|
  {
    if c != [] {
      var init, last := c[..|c| - 1], c[|c| - 1];
      assert forall p <- init :: p in c;
      WordsRoundTrip(init);
      assert last in c;
      UnwordsSnoc(Words(init), last);
    }
  }

  /** Reading back `w + " " + last` yields the words of `w`, then `last`. */
  lemma UnwordsSnoc(w: string, last: string)
    requires ' ' !in last
    ensures Unwords(w + " " + last) == Unwords(w) + [last]
  {
    LastSpaceAfter(w, last);
    assert (w + " " + last)[..|w|] == w;
    assert (w + " " + last)[|w| + 1..] == last;
  }

  /** The last space of `w + " " + last` is the separator when `last` has none. */
  lemma {:induction false} LastSpaceAfter(w: string, last: string)
    requires ' ' !in last
    ensures LastSpace(w + " " + last) == |w|
    decreases |last|
  {
    var s := w + " " + last;
    if last == [] {
      assert s[|s| - 1] == ' ';
    } else {
      var init := last[..|last| - 1];
      assert last[|last| - 1] in last;
      assert s[|s| - 1] == last[|last| - 1];
      assert s[..|s| - 1] == w + " " + init;
      assert forall x <- init :: x in last;
      LastSpaceAfter(w, init);
    }
  }

  /**
   * An `apt-get install` line starts with the command and reads back into
   * exactly the batch's packages, in order, when no package name holds a space.
   */
  lemma PackageLineRoundTrip(c: seq<string>)
    requires forall p <- c :: ' ' !in p
    ensures |PackageLine(c)| >= 15 && PackageLine(c)[..15] == "apt-get install"
    ensures Unwords(PackageLine(c)[15..]) == c
  {
    WordsRoundTrip(c);
    assert PackageLine(c)[15..] == Words(c);
  }

  /**
   * The package phase lists exactly the flattened packages in order, at most
   * 64 and at least one per line, and has no line when there are no packages.
   */
  lemma PackagePhase(dirs: seq<RecipeDir>)
    ensures var chunks := Chunks(AllPackages(dirs));
      && Flatten(chunks) == AllPackages(dirs)
      && |PackageLines(chunks)| == |chunks|
      && (forall i :: 0 <= i < |chunks| ==> 1 <= |chunks[i]| <= BatchSize && PackageLines(chunks)[i] == "apt-get install" + Words(chunks[i]))
      && (PackageLines(chunks) == [] <==> AllPackages(dirs) == [])
  {
    ChunksFlatten(AllPackages(dirs));
    ChunksBounded(AllPackages(dirs));
    PackageLinesAt(Chunks(AllPackages(dirs)));
  }

  /** Packages of several recipes follow recipe order. */
  lemma {:induction false} AllPackagesAppend(a: seq<RecipeDir>, b: seq<RecipeDir>)
    ensures AllPackages(a + b) == AllPackages(a) + AllPackages(b)
  {
    if a != [] {
      assert (a + b)[0] == a[0] && (a + b)[1..] == a[1..] + b;
      AllPackagesAppend(a[1..], b);
      assert AllPackages(a + b) == a[0].recipe.packages + (AllPackages(a[1..]) + AllPackages(b));
    } else {
      assert a + b == b;
    }
  }

  /**
   * The recipe phase writes a banner and invocation exactly for the recipes
   * that have steps, in recipe order, and creates a directory exactly for them,
   * each with an executable `_cook.sh` that starts with the header.
   */
  lemma {:induction false} RecipesShape(st: EnvState, engine: Engine, target: string, cm: Mode, dirs: seq<RecipeDir>, k: nat)
    requires k <= |dirs|
    requires RecipesFrom(st, engine, target, cm, dirs, k).Ok?
    ensures var ph := RecipesFrom(st, engine, target, cm, dirs, k).value.1;
      && ph.lines == Invocations(dirs[k..])
      && (forall name :: name in ph.recipes <==> exists j :: k <= j < |dirs| && dirs[j].name == name && dirs[j].recipe.steps != [])
      && (forall name <- ph.recipes :: |ph.recipes[name].script.lines| >= |ScriptHeader| &&
            ph.recipes[name].script.lines[..|ScriptHeader|] == ScriptHeader &&
            ph.recipes[name].script.mode == ChmodPlusX(cm))
    decreases |dirs| - k
  {
    assert dirs[k..] != [] ==> dirs[k..][1..] == dirs[k + 1..];
    if k < |dirs| {
      if dirs[k].recipe.steps == [] {
        RecipesShape(st, engine, target, cm, dirs, k + 1);
      } else {
        var p := CompileSteps(st, Ctx(engine, target, dirs[k], cm)).value;
        RecipesShape(p.0, engine, target, cm, dirs, k + 1);
        var mine := RecipePhase(dirs[k], p.1, cm);
        assert (ScriptHeader + p.1.lines)[..|ScriptHeader|] == ScriptHeader;
      }
    }
  }

  /**
   * With distinct names, the directory of every recipe with steps holds
   * `_cook.sh` = header + that recipe's compiled step lines, and the staged
   * files those steps produced, starting from the engine state the earlier
   * recipes left.
   */
  lemma {:induction false} RecipeScripts(st: EnvState, engine: Engine, target: string, cm: Mode, dirs: seq<RecipeDir>, k: nat)
    requires k <= |dirs| && DistinctNames(dirs)
    requires RecipesFrom(st, engine, target, cm, dirs, k).Ok?
    ensures var ph := RecipesFrom(st, engine, target, cm, dirs, k).value.1;
      forall j :: k <= j < |dirs| && dirs[j].recipe.steps != [] ==> (dirs[j].name in ph.recipes &&
        var stj := StateBefore(st, engine, target, cm, dirs, k, j);
        CompileSteps(stj, Ctx(engine, target, dirs[j], cm)).Ok? &&
          var e := CompileSteps(stj, Ctx(engine, target, dirs[j], cm)).value.1;
          ph.recipes[dirs[j].name] == RecipeOutput(ScriptFile(ScriptHeader + e.lines, ChmodPlusX(cm)), e.staged))
    decreases |dirs| - k
  {
    if k < |dirs| {
      if dirs[k].recipe.steps == [] {
        RecipeScripts(st, engine, target, cm, dirs, k + 1);
      } else {
        var p := CompileSteps(st, Ctx(engine, target, dirs[k], cm)).value;
        RecipeScripts(p.0, engine, target, cm, dirs, k + 1);
        RecipesShape(p.0, engine, target, cm, dirs, k + 1);
        var rest := RecipesFrom(p.0, engine, target, cm, dirs, k + 1).value.1;
        assert dirs[k].name !in rest.recipes;
      }
    }
  }

  /**
   * Recipe j is the first of the loop started at k to fail, with error `e`:
   * it has steps, compiling them from the engine state the loop holds on
   * reaching it fails with `e`, every earlier recipe with steps compiles, and
   * a missing file is missing from recipe j's directory.
   */
  ghost predicate FirstFailure(st: EnvState, engine: Engine, target: string, cm: Mode, dirs: seq<RecipeDir>,
                               k: nat, j: nat, e: Error)
    requires k <= j < |dirs|
  {
    && dirs[j].recipe.steps != []
    && CompileSteps(StateBefore(st, engine, target, cm, dirs, k, j), Ctx(engine, target, dirs[j], cm)) == Err(e)
    && (e.IoError? ==> e.path !in dirs[j].files)
    && (forall i :: k <= i < j && dirs[i].recipe.steps != [] ==>
          CompileSteps(StateBefore(st, engine, target, cm, dirs, k, i), Ctx(engine, target, dirs[i], cm)).Ok?)
  }

  /** The recipe loop fails exactly with the error of the first recipe whose steps fail. */
  lemma {:induction false} RecipesFailure(st: EnvState, engine: Engine, target: string, cm: Mode, dirs: seq<RecipeDir>, k: nat)
    requires k <= |dirs|
    requires RecipesFrom(st, engine, target, cm, dirs, k).Err?
    ensures exists j :: k <= j < |dirs| && FirstFailure(st, engine, target, cm, dirs, k, j, RecipesFrom(st, engine, target, cm, dirs, k).error)
    decreases |dirs| - k
  {
    var e := RecipesFrom(st, engine, target, cm, dirs, k).error;
    var ctx := Ctx(engine, target, dirs[k], cm);
    if dirs[k].recipe.steps == [] {
      RecipesFailure(st, engine, target, cm, dirs, k + 1);
      var j :| k + 1 <= j < |dirs| && FirstFailure(st, engine, target, cm, dirs, k + 1, j, e);
      FirstFailureSkip(st, engine, target, cm, dirs, k, j, e);
    } else if CompileSteps(st, ctx).Err? {
      assert StateBefore(st, engine, target, cm, dirs, k, k) == st;
      assert FirstFailure(st, engine, target, cm, dirs, k, k, e);
    } else {
      var p := CompileSteps(st, ctx).value;
      RecipesFailure(p.0, engine, target, cm, dirs, k + 1);
      var j :| k + 1 <= j < |dirs| && FirstFailure(p.0, engine, target, cm, dirs, k + 1, j, e);
      FirstFailureAfter(st, engine, target, cm, dirs, k, j, e);
    }
  }

  /** A recipe without steps in front of the first failure changes nothing. */
  lemma FirstFailureSkip(st: EnvState, engine: Engine, target: string, cm: Mode, dirs: seq<RecipeDir>, k: nat, j: nat, e: Error)
    requires k < j < |dirs| && dirs[k].recipe.steps == []
    requires FirstFailure(st, engine, target, cm, dirs, k + 1, j, e)
    ensures FirstFailure(st, engine, target, cm, dirs, k, j, e)
  {
    forall i | k < i <= j
      ensures StateBefore(st, engine, target, cm, dirs, k, i) == StateBefore(st, engine, target, cm, dirs, k + 1, i)
    {
    }
  }

  /** A recipe that compiles in front of the first failure passes its engine state on. */
  lemma FirstFailureAfter(st: EnvState, engine: Engine, target: string, cm: Mode, dirs: seq<RecipeDir>, k: nat, j: nat, e: Error)
    requires k < j < |dirs| && dirs[k].recipe.steps != []
    requires CompileSteps(st, Ctx(engine, target, dirs[k], cm)).Ok?
    requires FirstFailure(CompileSteps(st, Ctx(engine, target, dirs[k], cm)).value.0, engine, target, cm, dirs, k + 1, j, e)
    ensures FirstFailure(st, engine, target, cm, dirs, k, j, e)
  {
    var st1 := CompileSteps(st, Ctx(engine, target, dirs[k], cm)).value.0;
    forall i | k < i <= j
      ensures StateBefore(st, engine, target, cm, dirs, k, i) == StateBefore(st1, engine, target, cm, dirs, k + 1, i)
    {
    }
    assert StateBefore(st, engine, target, cm, dirs, k, k) == st;
  }

  /** A failed run fails with the error of the first recipe whose steps fail. */
  lemma CompileSpecFailure(dirs: seq<RecipeDir>, engine: Engine, target: string, cm: Mode)
    requires CompileSpec(dirs, engine, target, cm).Err?
    ensures var e := CompileSpec(dirs, engine, target, cm).error;
      exists j :: 0 <= j < |dirs| && FirstFailure(EnvState(0, map[]), engine, target, cm, dirs, 0, j, e)
  {
    RecipesFailure(EnvState(0, map[]), engine, target, cm, dirs, 0);
  }

  /**
   * `cook.sh` is the header, the start banner, the package lines, a blank
   * line, the banner/invocation pairs, a blank line and the systemd pairs,
   * and it is executable.
   */
  lemma CookLayout(dirs: seq<RecipeDir>, engine: Engine, target: string, cm: Mode)
    requires CompileSpec(dirs, engine, target, cm).Ok?
    ensures var out := CompileSpec(dirs, engine, target, cm).value;
      && out.cook.lines == ScriptHeader + ["echo 'starting to cook'"] + PackageLines(Chunks(AllPackages(dirs))) + [""]
                           + Invocations(dirs) + [""] + SystemdLines(dirs)
      && out.cook.mode & OwnerReadExecute == OwnerReadExecute
  {
    RecipesShape(EnvState(0, map[]), engine, target, cm, dirs, 0);
    assert dirs[0..] == dirs;
  }

  lemma {:induction false} InvocationsMember(dirs: seq<RecipeDir>, line: string)
    ensures line in Invocations(dirs) <==>
      exists j :: 0 <= j < |dirs| && dirs[j].recipe.steps != [] && (line == Banner(dirs[j].name) || line == Invocation(dirs[j].name))
  {
    if dirs != [] {
      InvocationsMember(dirs[1..], line);
      if line in Invocations(dirs[1..]) {
        var j :| 0 <= j < |dirs[1..]| && dirs[1..][j].recipe.steps != [] && (line == Banner(dirs[1..][j].name) || line == Invocation(dirs[1..][j].name));
        assert dirs[j + 1] == dirs[1..][j];
      }
      if exists j :: 0 <= j < |dirs| && dirs[j].recipe.steps != [] && (line == Banner(dirs[j].name) || line == Invocation(dirs[j].name)) {
        var j :| 0 <= j < |dirs| && dirs[j].recipe.steps != [] && (line == Banner(dirs[j].name) || line == Invocation(dirs[j].name));
        if j > 0 {
          assert dirs[1..][j - 1] == dirs[j];
        }
      }
    }
  }

  lemma InvocationKindOf(name: string)
    ensures IsInvocationLine(Invocation(name))
  {
    assert Invocation(name)[..4] == "(cd ";
  }

  lemma BannerNotInvocation(a: string, b: string)
    ensures Banner(a) != Invocation(b)
  {
    assert Banner(a)[0] == 'e' && Invocation(b)[0] == '(';
  }

  lemma InvocationInjective(a: string, b: string)
    requires Invocation(a) == Invocation(b)
    ensures a == b
  {
    assert Invocation(a)[4..|Invocation(a)| - 15] == a;
    assert Invocation(b)[4..|Invocation(b)| - 15] == b;
  }

  predicate IsPackageLine(l: string) { |l| >= 15 && l[..15] == "apt-get install" }
  predicate IsInvocationLine(l: string) { |l| >= 4 && l[..4] == "(cd " }
  predicate IsActivationLine(l: string) { |l| >= 10 && l[..10] == "systemctl " }

  /** Lines that are none of the three kinds. */
  predicate OtherLines(h: seq<string>) {
    forall l <- h :: !IsPackageLine(l) && !IsInvocationLine(l) && !IsActivationLine(l)
  }

  /** Lines starting with `a`, as package lines do. */
  predicate PackageLike(p: seq<string>) {
    forall l <- p :: |l| > 0 && l[0] == 'a'
  }

  /** Lines starting with `e` or `(`, as banners and invocations do. */
  predicate InvocationLike(iv: seq<string>) {
    forall l <- iv :: |l| > 0 && (l[0] == 'e' || l[0] == '(')
  }

  predicate ActivationLike(y: seq<string>) {
    forall l <- y :: IsActivationLine(l)
  }

  lemma PackageLinesKind(cs: seq<seq<string>>)
    ensures PackageLike(PackageLines(cs))
  {
    PackageLinesAt(cs);
  }

  lemma {:induction false} InvocationsKind(dirs: seq<RecipeDir>)
    ensures InvocationLike(Invocations(dirs))
    ensures forall l <- Invocations(dirs) :: IsInvocationLine(l) <==> exists j :: 0 <= j < |dirs| && dirs[j].recipe.steps != [] && l == Invocation(dirs[j].name)
  {
    forall l <- Invocations(dirs)
      ensures |l| > 0 && (l[0] == 'e' || l[0] == '(')
      ensures IsInvocationLine(l) <==> exists j :: 0 <= j < |dirs| && dirs[j].recipe.steps != [] && l == Invocation(dirs[j].name)
    {
      InvocationsMember(dirs, l);
      var j :| 0 <= j < |dirs| && dirs[j].recipe.steps != [] && (l == Banner(dirs[j].name) || l == Invocation(dirs[j].name));
      if l == Banner(dirs[j].name) {
        assert l[0] == 'e';
      } else {
        assert l[..4] == "(cd ";
      }
    }
  }

  lemma {:induction false} UnitLinesAt(units: seq<string>)
    ensures |UnitLines(units)| == 2 * |units|
    ensures forall k :: 0 <= k < |units| ==> UnitLines(units)[2 * k] == EnableLine(units[k]) && UnitLines(units)[2 * k + 1] == RestartLine(units[k])
  {
    if units != [] {
      UnitLinesAt(units[1..]);
      forall k | 1 <= k < |units|
        ensures UnitLines(units)[2 * k] == EnableLine(units[k]) && UnitLines(units)[2 * k + 1] == RestartLine(units[k])
      {
        assert UnitLines(units)[2 * k] == UnitLines(units[1..])[2 * (k - 1)];
        assert UnitLines(units)[2 * k + 1] == UnitLines(units[1..])[2 * (k - 1) + 1];
      }
    }
  }

  lemma {:induction false} UnitLinesAppend(a: seq<string>, b: seq<string>)
    ensures UnitLines(a + b) == UnitLines(a) + UnitLines(b)
  {
    if a != [] {
      assert (a + b)[0] == a[0] && (a + b)[1..] == a[1..] + b;
      UnitLinesAppend(a[1..], b);
      assert UnitLines(a + b) == [EnableLine(a[0]), RestartLine(a[0])] + (UnitLines(a[1..]) + UnitLines(b));
    } else {
      assert a + b == b;
    }
  }

  /** Every unit of every recipe, recipe order then declaration order. */
  function AllUnits(dirs: seq<RecipeDir>): seq<string> {
    if dirs == [] then [] else dirs[0].recipe.systemd + AllUnits(dirs[1..])
  }

  /**
   * The systemd phase is, for each unit in order, `systemctl enable --now u`
   * immediately followed by `systemctl reload-or-restart u`, whether or not
   * the unit's recipe has steps.
   */
  lemma {:induction false} SystemdPairs(dirs: seq<RecipeDir>)
    ensures var units := AllUnits(dirs);
      && |SystemdLines(dirs)| == 2 * |units|
      && forall k :: 0 <= k < |units| ==>
           SystemdLines(dirs)[2 * k] == "systemctl enable --now " + units[k] &&
           SystemdLines(dirs)[2 * k + 1] == "systemctl reload-or-restart " + units[k]
  {
    SystemdIsUnitLines(dirs);
    UnitLinesAt(AllUnits(dirs));
  }

  lemma {:induction false} SystemdIsUnitLines(dirs: seq<RecipeDir>)
    ensures SystemdLines(dirs) == UnitLines(AllUnits(dirs))
  {
    if dirs != [] {
      SystemdIsUnitLines(dirs[1..]);
      UnitLinesAppend(dirs[0].recipe.systemd, AllUnits(dirs[1..]));
    }
  }

  lemma SystemdKind(dirs: seq<RecipeDir>)
    ensures ActivationLike(SystemdLines(dirs))
  {
    SystemdPairs(dirs);
    forall l <- SystemdLines(dirs) ensures IsActivationLine(l) {
      var i :| 0 <= i < |SystemdLines(dirs)| && SystemdLines(dirs)[i] == l;
      var k := i / 2;
      var u := AllUnits(dirs)[k];
      if i % 2 == 0 {
        assert i == 2 * k;
        assert l == "systemctl enable --now " + u;
        assert l[..10] == "systemctl ";
      } else {
        assert i == 2 * k + 1;
        assert l == "systemctl reload-or-restart " + u;
        assert l[..10] == "systemctl ";
      }
    }
  }

  lemma FirstChars(l: string)
    ensures IsPackageLine(l) ==> l[0] == 'a'
    ensures IsInvocationLine(l) ==> l[0] == '('
    ensures IsActivationLine(l) ==> l[0] == 's'
  {
    if IsPackageLine(l) { assert l[0] == l[..15][0]; }
    if IsInvocationLine(l) { assert l[0] == l[..4][0]; }
    if IsActivationLine(l) { assert l[0] == l[..10][0]; }
  }

  /** The lines of a script laid out as header, packages, recipes, systemd with blank separators. */
  function Layout(h: seq<string>, p: seq<string>, iv: seq<string>, y: seq<string>): seq<string> {
    h + p + [""] + iv + [""] + y
  }

  /**
   * Package lines precede invocations and activations, and invocations
   * precede activations.
   */
  predicate PhasesOrdered(cook: seq<string>) {
    forall a, b :: 0 <= a < |cook| && 0 <= b < |cook| ==>
      && (IsPackageLine(cook[a]) && (IsInvocationLine(cook[b]) || IsActivationLine(cook[b])) ==> a < b)
      && (IsInvocationLine(cook[a]) && IsActivationLine(cook[b]) ==> a < b)
  }

  /** In such a layout, package lines precede invocations, which precede activations. */
  lemma LayoutOrder(h: seq<string>, p: seq<string>, iv: seq<string>, y: seq<string>)
    requires OtherLines(h) && PackageLike(p) && InvocationLike(iv) && ActivationLike(y)
    ensures PhasesOrdered(Layout(h, p, iv, y))
  {
    var cook := Layout(h, p, iv, y);
    forall a, b | 0 <= a < |cook| && 0 <= b < |cook|
      ensures IsPackageLine(cook[a]) && (IsInvocationLine(cook[b]) || IsActivationLine(cook[b])) ==> a < b
      ensures IsInvocationLine(cook[a]) && IsActivationLine(cook[b]) ==> a < b
    {
      Regions(h, p, iv, y, a);
      Regions(h, p, iv, y, b);
    }
  }

  /** What the lines before the package phase are: none is a package, invocation or activation line. */
  lemma HeaderKinds()
    ensures OtherLines(ScriptHeader + [StartLine])
  {
    var h := ScriptHeader + [StartLine];
    forall l <- h ensures !IsPackageLine(l) && !IsInvocationLine(l) && !IsActivationLine(l) {
      var i :| 0 <= i < |h| && h[i] == l;
      assert i < 7;
      if i == 4 { assert l[1] == 'e'; }
      if i == 6 || i == 0 || i == 2 { assert |l| > 0 && l[0] != 'a' && l[0] != '(' && l[0] != 's'; }
    }
  }

  /**
   * Regions of a script laid out as `h + p + [""] + iv + [""] + y`: which of
   * the three kinds of line can stand where.
   */
  lemma Regions(h: seq<string>, p: seq<string>, iv: seq<string>, y: seq<string>, x: nat)
    requires OtherLines(h) && PackageLike(p) && InvocationLike(iv) && ActivationLike(y)
    requires x < |Layout(h, p, iv, y)|
    ensures var cook := Layout(h, p, iv, y);
      && (IsPackageLine(cook[x]) ==> x < |h| + |p|)
      && (IsInvocationLine(cook[x]) ==> |h| + |p| + 1 <= x < |h| + |p| + 1 + |iv|)
      && (IsActivationLine(cook[x]) ==> |h| + |p| + 1 + |iv| + 1 <= x)
  {
    var cook := Layout(h, p, iv, y);
    FirstChars(cook[x]);
    var p0 := |h|;
    var i0 := p0 + |p| + 1;
    var y0 := i0 + |iv| + 1;
    if x < p0 {
      assert cook[x] == h[x];
      assert cook[x] in h;
    } else if x < p0 + |p| {
      assert cook[x] == p[x - p0];
      assert cook[x] in p;
    } else if x < i0 {
      assert cook[x] == "";
    } else if x < i0 + |iv| {
      assert cook[x] == iv[x - i0];
      assert cook[x] in iv;
    } else if x < y0 {
      assert cook[x] == "";
    } else {
      assert cook[x] == y[x - y0];
      assert cook[x] in y;
    }
  }

  /**
   * Phase order of `cook.sh`: every package line comes before every
   * invocation and every activation, and every invocation comes before every
   * systemd activation.
   */
  lemma PhaseOrder(dirs: seq<RecipeDir>, engine: Engine, target: string, cm: Mode)
    requires CompileSpec(dirs, engine, target, cm).Ok?
    ensures PhasesOrdered(CompileSpec(dirs, engine, target, cm).value.cook.lines)
  {
    CookLayout(dirs, engine, target, cm);
    HeaderKinds();
    PackageLinesKind(Chunks(AllPackages(dirs)));
    InvocationsKind(dirs);
    SystemdKind(dirs);
    LayoutOrder(ScriptHeader + [StartLine], PackageLines(Chunks(AllPackages(dirs))), Invocations(dirs), SystemdLines(dirs));
  }

  /**
   * Skip rule: a recipe gets a directory, a banner and an invocation line in
   * `cook.sh` exactly when it has steps; its systemd units are activated
   * either way.
   */
  lemma SkipRule(dirs: seq<RecipeDir>, engine: Engine, target: string, cm: Mode, j: nat)
    requires DistinctNames(dirs) && j < |dirs|
    requires CompileSpec(dirs, engine, target, cm).Ok?
    ensures var out := CompileSpec(dirs, engine, target, cm).value;
      && (dirs[j].name in out.recipes <==> dirs[j].recipe.steps != [])
      && (Banner(dirs[j].name) in out.cook.lines <==> dirs[j].recipe.steps != [])
      && (Invocation(dirs[j].name) in out.cook.lines <==> dirs[j].recipe.steps != [])
      && (forall u <- dirs[j].recipe.systemd :: EnableLine(u) in out.cook.lines && RestartLine(u) in out.cook.lines)
  {
    DirectoryRule(dirs, engine, target, cm, j);
    BannerRule(dirs, engine, target, cm, j);
    InvocationRule(dirs, engine, target, cm, j);
    ActivationRule(dirs, engine, target, cm, j);
  }

  lemma DirectoryRule(dirs: seq<RecipeDir>, engine: Engine, target: string, cm: Mode, j: nat)
    requires j < |dirs|
    requires CompileSpec(dirs, engine, target, cm).Ok?
    ensures (dirs[j].name in CompileSpec(dirs, engine, target, cm).value.recipes) <==>
      exists k :: 0 <= k < |dirs| && dirs[k].name == dirs[j].name && dirs[k].recipe.steps != []
  {
    RecipesShape(EnvState(0, map[]), engine, target, cm, dirs, 0);
    assert dirs[0..] == dirs;
  }

  /** An invocation line is in such a layout exactly when it is in its recipe phase. */
  lemma InvocationInLayout(h: seq<string>, p: seq<string>, iv: seq<string>, y: seq<string>, l: string)
    requires OtherLines(h) && PackageLike(p) && InvocationLike(iv) && ActivationLike(y)
    requires IsInvocationLine(l)
    ensures l in Layout(h, p, iv, y) <==> l in iv
  {
    var cook := Layout(h, p, iv, y);
    if l in cook {
      var x :| 0 <= x < |cook| && cook[x] == l;
      Regions(h, p, iv, y, x);
      assert cook[x] == iv[x - (|h| + |p| + 1)];
    }
    if l in iv {
      assert cook == (h + p + [""]) + iv + ([""] + y);
    }
  }

  /** An invocation line is in the recipe phase exactly when its recipe has steps. */
  lemma InvocationOfRecipe(dirs: seq<RecipeDir>, j: nat)
    requires DistinctNames(dirs) && j < |dirs|
    ensures Invocation(dirs[j].name) in Invocations(dirs) <==> dirs[j].recipe.steps != []
  {
    var inv := Invocation(dirs[j].name);
    InvocationsMember(dirs, inv);
    if inv in Invocations(dirs) {
      var k :| 0 <= k < |dirs| && dirs[k].recipe.steps != [] && (inv == Banner(dirs[k].name) || inv == Invocation(dirs[k].name));
      BannerNotInvocation(dirs[k].name, dirs[j].name);
      InvocationInjective(dirs[j].name, dirs[k].name);
    }
  }

  /** The four regions of `cook.sh` hold the kinds of line the layout lemmas expect. */
  lemma CookKinds(dirs: seq<RecipeDir>)
    ensures OtherLines(ScriptHeader + [StartLine])
    ensures PackageLike(PackageLines(Chunks(AllPackages(dirs))))
    ensures InvocationLike(Invocations(dirs))
    ensures ActivationLike(SystemdLines(dirs))
  {
    HeaderKinds();
    PackageLinesKind(Chunks(AllPackages(dirs)));
    InvocationsKind(dirs);
    SystemdKind(dirs);
  }

  lemma InvocationInCook(dirs: seq<RecipeDir>, j: nat)
    requires DistinctNames(dirs) && j < |dirs|
    ensures Invocation(dirs[j].name) in CookLines(dirs, Invocations(dirs)) <==> dirs[j].recipe.steps != []
  {
    var inv := Invocation(dirs[j].name);
    CookKinds(dirs);
    InvocationKindOf(dirs[j].name);
    assert CookLines(dirs, Invocations(dirs)) == Layout(ScriptHeader + [StartLine], PackageLines(Chunks(AllPackages(dirs))), Invocations(dirs), SystemdLines(dirs));
    InvocationInLayout(ScriptHeader + [StartLine], PackageLines(Chunks(AllPackages(dirs))), Invocations(dirs), SystemdLines(dirs), inv);
    InvocationOfRecipe(dirs, j);
  }

  lemma InvocationRule(dirs: seq<RecipeDir>, engine: Engine, target: string, cm: Mode, j: nat)
    requires DistinctNames(dirs) && j < |dirs|
    requires CompileSpec(dirs, engine, target, cm).Ok?
    ensures Invocation(dirs[j].name) in CompileSpec(dirs, engine, target, cm).value.cook.lines <==> dirs[j].recipe.steps != []
  {
    CookLayout(dirs, engine, target, cm);
    InvocationInCook(dirs, j);
  }

  predicate IsBannerLine(l: string) { |l| >= 14 && l[..14] == "echo 'running " }

  lemma BannerKindOf(name: string)
    ensures IsBannerLine(Banner(name))
  {
    assert Banner(name)[..14] == "echo 'running ";
  }

  lemma BannerInjective(a: string, b: string)
    requires Banner(a) == Banner(b)
    ensures a == b
  {
    assert Banner(a)[23..|Banner(a)| - 2] == a;
    assert Banner(b)[23..|Banner(b)| - 2] == b;
  }

  /** None of the lines before the package phase is a banner. */
  lemma HeaderHasNoBanner()
    ensures forall l <- ScriptHeader + [StartLine] :: !IsBannerLine(l)
  {
    var h := ScriptHeader + [StartLine];
    forall l <- h ensures !IsBannerLine(l) {
      var i :| 0 <= i < |h| && h[i] == l;
      assert i < 7;
      if |l| >= 14 {
        assert l[..14][0] == l[0] && l[..14][6] == l[6];
        assert l[0] == '#' || l[6] == 's';
      }
    }
  }

  /** A banner is in such a layout exactly when it is in its recipe phase. */
  lemma BannerInLayout(h: seq<string>, p: seq<string>, iv: seq<string>, y: seq<string>, l: string)
    requires (forall m <- h :: !IsBannerLine(m)) && PackageLike(p) && ActivationLike(y)
    requires IsBannerLine(l)
    ensures l in Layout(h, p, iv, y) <==> l in iv
  {
    assert l[0] == l[..14][0];
    assert l !in p;
    assert l !in y by {
      FirstChars(l);
    }
    assert Layout(h, p, iv, y) == (h + p + [""]) + iv + ([""] + y);
  }

  /** A banner is in the recipe phase exactly when its recipe has steps. */
  lemma BannerOfRecipe(dirs: seq<RecipeDir>, j: nat)
    requires DistinctNames(dirs) && j < |dirs|
    ensures Banner(dirs[j].name) in Invocations(dirs) <==> dirs[j].recipe.steps != []
  {
    var ban := Banner(dirs[j].name);
    InvocationsMember(dirs, ban);
    if ban in Invocations(dirs) {
      var k :| 0 <= k < |dirs| && dirs[k].recipe.steps != [] && (ban == Banner(dirs[k].name) || ban == Invocation(dirs[k].name));
      BannerNotInvocation(dirs[j].name, dirs[k].name);
      BannerInjective(dirs[j].name, dirs[k].name);
    }
  }

  lemma BannerRule(dirs: seq<RecipeDir>, engine: Engine, target: string, cm: Mode, j: nat)
    requires DistinctNames(dirs) && j < |dirs|
    requires CompileSpec(dirs, engine, target, cm).Ok?
    ensures Banner(dirs[j].name) in CompileSpec(dirs, engine, target, cm).value.cook.lines <==> dirs[j].recipe.steps != []
  {
    CookLayout(dirs, engine, target, cm);
    CookKinds(dirs);
    HeaderHasNoBanner();
    BannerKindOf(dirs[j].name);
    assert CookLines(dirs, Invocations(dirs)) == Layout(ScriptHeader + [StartLine], PackageLines(Chunks(AllPackages(dirs))), Invocations(dirs), SystemdLines(dirs));
    BannerInLayout(ScriptHeader + [StartLine], PackageLines(Chunks(AllPackages(dirs))), Invocations(dirs), SystemdLines(dirs), Banner(dirs[j].name));
    BannerOfRecipe(dirs, j);
  }

  lemma ActivationRule(dirs: seq<RecipeDir>, engine: Engine, target: string, cm: Mode, j: nat)
    requires j < |dirs|
    requires CompileSpec(dirs, engine, target, cm).Ok?
    ensures forall u <- dirs[j].recipe.systemd ::
      EnableLine(u) in CompileSpec(dirs, engine, target, cm).value.cook.lines &&
      RestartLine(u) in CompileSpec(dirs, engine, target, cm).value.cook.lines
  {
    var cook := CompileSpec(dirs, engine, target, cm).value.cook.lines;
    CookLayout(dirs, engine, target, cm);
    var pre := ScriptHeader + [StartLine] + PackageLines(Chunks(AllPackages(dirs))) + [""] + Invocations(dirs) + [""];
    assert cook == pre + SystemdLines(dirs);
    SystemdUnitsPresent(dirs, j);
  }

  lemma SystemdUnitsPresent(dirs: seq<RecipeDir>, j: nat)
    requires j < |dirs|
    ensures forall u <- dirs[j].recipe.systemd :: EnableLine(u) in SystemdLines(dirs) && RestartLine(u) in SystemdLines(dirs)
  {
    SystemdIsUnitLines(dirs);
    UnitsOfRecipe(dirs, j);
    UnitLinesAt(AllUnits(dirs));
    forall u <- dirs[j].recipe.systemd
      ensures EnableLine(u) in SystemdLines(dirs) && RestartLine(u) in SystemdLines(dirs)
    {
      var k :| 0 <= k < |AllUnits(dirs)| && AllUnits(dirs)[k] == u;
      assert UnitLines(AllUnits(dirs))[2 * k] == EnableLine(u);
      assert UnitLines(AllUnits(dirs))[2 * k + 1] == RestartLine(u);
    }
  }

  lemma {:induction false} UnitsOfRecipe(dirs: seq<RecipeDir>, j: nat)
    requires j < |dirs|
    ensures forall u <- dirs[j].recipe.systemd :: u in AllUnits(dirs)
  {
    if j > 0 {
      UnitsOfRecipe(dirs[1..], j - 1);
      assert dirs[1..][j - 1] == dirs[j];
    }
  }

  /**
   * The run fails only through a missing file or the template engine: with
   * every recipe's sources present and an engine that compiles and renders
   * everything, the compile succeeds, whatever the disclaimer check finds.
   */
  lemma {:induction false} CompileSucceeds(st: EnvState, dirs: seq<RecipeDir>, engine: Engine, target: string, cm: Mode, k: nat)
    requires k <= |dirs| && WellFormed(st) && Total(engine)
    requires forall j :: 0 <= j < |dirs| ==> SourcesPresent(dirs[j])
    ensures RecipesFrom(st, engine, target, cm, dirs, k).Ok?
    decreases |dirs| - k
  {
    if k < |dirs| {
      if dirs[k].recipe.steps == [] {
        CompileSucceeds(st, dirs, engine, target, cm, k + 1);
      } else {
        var ctx := Ctx(engine, target, dirs[k], cm);
        StepsSucceed(st, ctx, 0);
        StepsKeepWellFormed(st, ctx, 0, |ctx.dir.recipe.steps|);
        var p := CompileSteps(st, ctx).value;
        CompileSucceeds(p.0, dirs, engine, target, cm, k + 1);
      }
    }
  }

  lemma CompileSpecSucceeds(dirs: seq<RecipeDir>, engine: Engine, target: string, cm: Mode)
    requires Total(engine)
    requires forall j :: 0 <= j < |dirs| ==> SourcesPresent(dirs[j])
    ensures CompileSpec(dirs, engine, target, cm).Ok?
  {
    CompileSucceeds(EnvState(0, map[]), dirs, engine, target, cm, 0);
  }
}
