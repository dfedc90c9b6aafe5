/**
 * The already-parsed recipes the compiler consumes, and the errors it can
 * fail with. A recipe comes from one directory of the recipes root, together
 * with the files that directory holds.
 */
module Recipes {
  import opened Wrappers

  /** A Unix permission word (`u32` in the source). */
  type Mode = bv32

  /** A file's content and permission bits, in the recipe directory or in the staging area. */
  datatype FileData = FileData(content: string, mode: Mode)

  /** The fields of an install step: source path relative to the recipe directory, destination, optional mode. */
  datatype InstallFile = InstallFile(src: string, dest: string, mode: Option<string>)

  /** One provisioning action; `template` selects per-binding rendering. */
  datatype Step =
    | Install(template: bool, install: InstallFile)
    | Shell(template: bool, cmd: string)
    | Run(template: bool, script: string)

  /** One entry of `template_vars`: a table of variable names to (printed) values. */
  type Binding = map<string, string>

  datatype Recipe = Recipe(
    packages: seq<string>,
    systemd: seq<string>,
    templateVars: seq<Binding>,
    steps: seq<Step>)

  /** A loaded recipe: its directory name (the key in the recipe table), the recipe and the directory's files by relative path. */
  datatype RecipeDir = RecipeDir(name: string, recipe: Recipe, files: map<string, FileData>)

  datatype Error =
    | IoError(path: string)        // a file the step needs is missing from the recipe directory
    | TemplateError(name: string)  // registering the template under this name failed
    | RenderError(name: string)    // rendering the template of this name failed (strict mode)

  /** Directory names are keys of a map in the source, so they are pairwise distinct. */
  predicate DistinctNames(dirs: seq<RecipeDir>) {
    forall i, j :: 0 <= i < j < |dirs| ==> dirs[i].name != dirs[j].name
  }
}
