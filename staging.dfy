/**
 * Pure helpers of the step compiler: the names under which rendered files are
 * staged, the executable-bit update, the emitted install command and the
 * advisory disclaimer check.
 */
module Staging {
  import opened Text
  import opened Recipes

  /** Staging name of a templated install: the rendered destination with every `/` replaced by `__`. */
  function Mangle(dest: string): (r: string)
    ensures '/' !in r
    ensures '/' !in dest ==> r == dest
  {
    ReplaceChar(dest, '/', "__")
  }

  /** Reads a staging name back as a destination: every `__` becomes `/`. */
  function Unmangle(t: string): string
    decreases |t|
  {
    if |t| >= 2 && t[0] == '_' && t[1] == '_' then "/" + Unmangle(t[2..])
    else if t == [] then []
    else [t[0]] + Unmangle(t[1..])
  }

  /** Destinations without underscores are recovered from their staging names. */
  lemma {:induction false} UnmangleMangle(dest: string)
    requires '_' !in dest
    ensures Unmangle(Mangle(dest)) == dest
    decreases |dest|
  {
    if dest != [] {
      var rest := dest[1..];
      assert Mangle(dest) == (if dest[0] == '/' then "__" else [dest[0]]) + Mangle(rest);
      UnmangleMangle(rest);
      if dest[0] == '/' {
        assert ("__" + Mangle(rest))[2..] == Mangle(rest);
      } else {
        assert ([dest[0]] + Mangle(rest))[1..] == Mangle(rest);
      }
      assert dest == [dest[0]] + rest;
    }
  }

  /** So two destinations without underscores never share a staging name. */
  lemma MangleInjective(a: string, b: string)
    requires '_' !in a && '_' !in b
    requires Mangle(a) == Mangle(b)
    ensures a == b
  {
    UnmangleMangle(a);
    UnmangleMangle(b);
  }

  /** With underscores allowed, two different destinations can collide. */
  lemma MangleCollides()
    ensures Mangle("a/b") == Mangle("a__b")
    ensures "a/b" != "a__b"
  {
    assert "a/b"[1..] == "/b" && "/b"[1..] == "b" && "b"[1..] == [];
    assert ReplaceChar("b", '/', "__") == "b";
    assert ReplaceChar("/b", '/', "__") == "__b";
    assert ReplaceChar("a/b", '/', "__") == "a__b";
    assert ReplaceChar("a__b", '/', "__") == "a__b";
  }

  /** Staging name of binding `i` of a templated run step: `script` with the extension `.{i}` added. */
  function RunStageName(script: string, i: nat): string {
    script + "." + NatToString(i)
  }

  /** `script.{i}` reads back as the script's name, a dot and the decimal index. */
  lemma RunStageNameParts(script: string, i: nat)
    ensures var r := RunStageName(script, i);
      |r| > |script| + 1 && r[..|script|] == script && r[|script|] == '.' && r[|script| + 1..] == NatToString(i)
  {
  }

  /** Different bindings of one templated run step get different staging names. */
  lemma RunStageNamesDistinct(script: string, i: nat, j: nat)
    requires RunStageName(script, i) == RunStageName(script, j)
    ensures i == j
  {
    var p := script + ".";
    assert RunStageName(script, i)[|p|..] == NatToString(i);
    assert RunStageName(script, j)[|p|..] == NatToString(j);
    NatToStringInjective(i, j);
  }

  /** Owner read and execute, `0o500`. */
  const OwnerReadExecute: Mode := 0x140

  /** `chmod_plus_x`: add owner read and execute to a mode. */
  function ChmodPlusX(mode: Mode): (r: Mode)
    ensures r & OwnerReadExecute == OwnerReadExecute
    ensures r & !OwnerReadExecute == mode & !OwnerReadExecute
  {
    mode | OwnerReadExecute
  }

  lemma ChmodPlusXIdempotent(mode: Mode)
    ensures ChmodPlusX(ChmodPlusX(mode)) == ChmodPlusX(mode)
  {
  }

  /** A mode that already has both bits is left unchanged. */
  lemma ChmodPlusXFixes(mode: Mode)
    ensures ChmodPlusX(mode) == mode <==> mode & OwnerReadExecute == OwnerReadExecute
  {
  }

  /** The command `install_in_script` emits: two spaces after `install`, and no `--mode`. */
  function InstallLine(f: InstallFile): string {
    "install  -D " + f.src + " " + f.dest
  }

  /** The install line reads back as `src` and `dest` after `install  -D `: nothing else of the step is in it. */
  lemma InstallLineParts(f: InstallFile)
    ensures var r := InstallLine(f);
      && |r| == 13 + |f.src| + |f.dest|
      && r[..12] == "install  -D " && r[12..12 + |f.src|] == f.src && r[12 + |f.src|] == ' ' && r[13 + |f.src|..] == f.dest
  {
  }

  /** `install_in_script`: formats the `--mode=` argument, then appends a line that does not use it. */
  method InstallInScript(script: seq<string>, f: InstallFile) returns (out: seq<string>)
    ensures out == script + ["install  -D " + f.src + " " + f.dest]
    ensures forall m :: out == script + [InstallLine(InstallFile(f.src, f.dest, m))]
  {
    var args := "";
    if f.mode.Some? {
      args := args + " --mode=" + f.mode.value;
    }
    out := script + ["install  -D " + f.src + " " + f.dest];
  }

  const ManagedMarker := "managed by cocinero"

  /** Path of a staged file as printed: `<target>/<recipe>/<name>`. */
  function StagedPath(target: string, recipe: string, name: string): string {
    target + "/" + recipe + "/" + name
  }

  /** The printed path starts with the target directory and ends with the staged name. */
  lemma StagedPathParts(target: string, recipe: string, name: string)
    ensures var r := StagedPath(target, recipe, name);
      && |r| == |target| + |recipe| + |name| + 2
      && r[..|target| + 1] == target + "/" && r[|r| - |name| - 1..] == "/" + name
  {
  }

  function DisclaimerMessage(path: string): string {
    "File " + path + " has no \"managed by cocinero\" disclaimer."
  }

  /** `check_managed_disclaimer`: the warnings printed for a staged file; the disclaimer check never fails. */
  function CheckManagedDisclaimer(path: string, content: string): (warnings: seq<string>)
    ensures warnings == [] <==> exists i: nat :: OccursAt(content, ManagedMarker, i)
    ensures warnings != [] ==> warnings == [DisclaimerMessage(path)]
  {
    if Contains(content, ManagedMarker) then [] else [DisclaimerMessage(path)]
  }
}
