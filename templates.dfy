/**
 * The template engine wrapper `TemplateEnv`: an engine-owned counter that
 * names every registration `template_1`, `template_2`, ..., and a registry
 * from those names to template texts. Handlebars itself is abstract: an
 * `Engine` decides which texts compile and what rendering a text against a
 * binding yields (None is a strict-mode render error).
 */
module Templates {
  import opened Wrappers
  import opened Text
  import opened Recipes

  datatype Engine = Engine(accepts: string -> bool, render: (string, Binding) -> Option<string>)

  datatype TemplateId = TemplateId(name: string)

  /** The engine's state: registrations issued so far and the registered texts by name. */
  datatype EnvState = EnvState(counter: nat, registry: map<string, string>)

  function TemplateName(k: nat): string {
    "template_" + NatToString(k)
  }

  lemma TemplateNameInjective(a: nat, b: nat)
    requires TemplateName(a) == TemplateName(b)
    ensures a == b
  {
    assert TemplateName(a)[9..] == NatToString(a);
    assert TemplateName(b)[9..] == NatToString(b);
    NatToStringInjective(a, b);
  }

  /** Every registered name was issued by this engine, i.e. is `template_k` for some 1 <= k <= counter. */
  ghost predicate WellFormed(st: EnvState) {
    forall name <- st.registry :: exists k :: 1 <= k <= st.counter && name == TemplateName(k)
  }

  /** The text of a file template: None when the file is not in the recipe directory. */
  function FileSource(files: map<string, FileData>, path: string): Option<string> {
    if path in files then Some(files[path].content) else None
  }

  /**
   * One registration: the next name is taken first, so the counter advances
   * even when the text is missing or does not compile.
   */
  function Registration(st: EnvState, engine: Engine, source: Option<string>): (res: (EnvState, Result<TemplateId, Error>))
    ensures res.0.counter == st.counter + 1
    ensures res.1.Ok? <==> source.Some? && engine.accepts(source.value)
    ensures res.1.Ok? ==> res.1.value == TemplateId(TemplateName(res.0.counter)) && res.0.registry == st.registry[res.1.value.name := source.value]
    ensures res.1.Err? ==> res.1.error == TemplateError(TemplateName(res.0.counter)) && res.0.registry == st.registry
  {
    var name := TemplateName(st.counter + 1);
    if source.Some? && engine.accepts(source.value) then
      (EnvState(st.counter + 1, st.registry[name := source.value]), Ok(TemplateId(name)))
    else
      (EnvState(st.counter + 1, st.registry), Err(TemplateError(name)))
  }

  /** Rendering a registered template; an unknown name is a render error too. */
  function Rendering(st: EnvState, engine: Engine, id: TemplateId, b: Binding): (r: Result<string, Error>)
    ensures r.Ok? <==> id.name in st.registry && engine.render(st.registry[id.name], b).Some?
    ensures r.Ok? ==> engine.render(st.registry[id.name], b) == Some(r.value)
    ensures r.Err? ==> r.error == RenderError(id.name)
  {
    if id.name !in st.registry then Err(RenderError(id.name))
    else match engine.render(st.registry[id.name], b)
      case Some(s) => Ok(s)
      case None => Err(RenderError(id.name))
  }

  /**
   * A registration advances the counter by exactly one, issues a name that no
   * earlier registration holds, binds it to the text on success only, and
   * keeps the state well formed.
   */
  lemma RegistrationIssuesFreshName(st: EnvState, engine: Engine, source: Option<string>)
    requires WellFormed(st)
    ensures var (st', r) := Registration(st, engine, source);
      && st'.counter == st.counter + 1
      && WellFormed(st')
      && TemplateName(st'.counter) !in st.registry
      && (r.Ok? <==> source.Some? && engine.accepts(source.value))
      && (r.Ok? ==> r.value.name == TemplateName(st'.counter) && st'.registry == st.registry[r.value.name := source.value])
      && (r.Err? ==> r.error == TemplateError(TemplateName(st'.counter)) && st'.registry == st.registry)
  {
    var name := TemplateName(st.counter + 1);
    if name in st.registry {
      var k :| 1 <= k <= st.counter && name == TemplateName(k);
      TemplateNameInjective(k, st.counter + 1);
      assert false;
    }
  }

  /** Names issued at different counter values differ, so no two registrations of one engine alias. */
  lemma IssuedNamesDistinct(st1: EnvState, st2: EnvState, engine: Engine, s1: Option<string>, s2: Option<string>)
    requires st1.counter < st2.counter
    ensures Registration(st1, engine, s1).1.Ok? && Registration(st2, engine, s2).1.Ok? ==>
      Registration(st1, engine, s1).1.value != Registration(st2, engine, s2).1.value
  {
    if TemplateName(st1.counter + 1) == TemplateName(st2.counter + 1) {
      TemplateNameInjective(st1.counter + 1, st2.counter + 1);
    }
  }

  /** A registration never disturbs what earlier registrations render. */
  lemma RegistrationKeepsRenderings(st: EnvState, engine: Engine, source: Option<string>, id: TemplateId, b: Binding)
    requires WellFormed(st)
    requires id.name in st.registry
    ensures Rendering(Registration(st, engine, source).0, engine, id, b) == Rendering(st, engine, id, b)
  {
    RegistrationIssuesFreshName(st, engine, source);
  }

  /** `TemplateEnv`: Handlebars in strict mode plus the registration counter. */
  class TemplateEnv {
    const engine: Engine
    var counter: nat
    var registry: map<string, string>

    function State(): EnvState
      reads this
    {
      EnvState(counter, registry)
    }

    ghost predicate Valid()
      reads this
    {
      WellFormed(State())
    }

    /** `TemplateEnv::new`: nothing registered, counter at zero. */
    constructor (engine: Engine)
      ensures Valid() && this.engine == engine
      ensures State() == EnvState(0, map[])
    {
      this.engine := engine;
      counter := 0;
      registry := map[];
    }

    /** `next_template_name`: advance the counter, then name the registration after it. */
    method NextTemplateName() returns (name: string)
      requires Valid()
      modifies this
      ensures counter == old(counter) + 1 && registry == old(registry)
      ensures name == TemplateName(counter)
      ensures name !in registry
      ensures forall n <- registry :: exists k :: 1 <= k < counter && n == TemplateName(k)
    {
      counter := counter + 1;
      name := "template_" + NatToString(counter);
      if name in registry {
        var k :| 1 <= k <= counter - 1 && name == TemplateName(k);
        TemplateNameInjective(k, counter);
        assert false;
      }
    }

    /** Registers `source` (None: the template file could not be read) under a fresh name. */
    method Register(source: Option<string>) returns (r: Result<TemplateId, Error>)
      requires Valid()
      modifies this
      ensures Valid()
      ensures (State(), r) == Registration(old(State()), engine, source)
    {
      var name := NextTemplateName();
      if source.Some? && engine.accepts(source.value) {
        registry := registry[name := source.value];
        r := Ok(TemplateId(name));
      } else {
        r := Err(TemplateError(name));
      }
    }

    /** `register_template_string`. */
    method RegisterTemplateString(template: string) returns (r: Result<TemplateId, Error>)
      requires Valid()
      modifies this
      ensures Valid()
      ensures (State(), r) == Registration(old(State()), engine, Some(template))
    {
      r := Register(Some(template));
    }

    /** `register_template_file`: reading the file is part of registering, and fails the same way. */
    method RegisterTemplateFile(files: map<string, FileData>, path: string) returns (r: Result<TemplateId, Error>)
      requires Valid()
      modifies this
      ensures Valid()
      ensures (State(), r) == Registration(old(State()), engine, FileSource(files, path))
    {
      r := Register(FileSource(files, path));
    }

    /** `render` and `render_to_write`: rendering reads the registry only. */
    function Render(id: TemplateId, b: Binding): (r: Result<string, Error>)
      reads this
      ensures r.Ok? <==> id.name in registry && engine.render(registry[id.name], b).Some?
      ensures r.Err? ==> r.error == RenderError(id.name)
      ensures r.Ok? ==> id.name in registry && engine.render(registry[id.name], b) == Some(r.value)
    {
      Rendering(State(), engine, id, b)
    }
  }
}
