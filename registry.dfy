/** The environment registry: two tables keyed by environment id, one of
    specifications and one of factories, filled together by `register`.
    The global lock around them is not modelled; a factory builds some
    environment value `E` from its keyword arguments. */
module Registry {
  import opened Common

  /** Keyword arguments of `make`. */
  type KwArgs = map<string, string>

  /** Environment metadata. */
  datatype EnvSpec = EnvSpec(
    id: string,
    maxEpisodeSteps: Option<u32>,
    rewardThreshold: Option<real>,
    nondeterministic: bool,
    orderEnforce: bool,
    version: Option<string>)

  /** `EnvSpec::new(id)`: only the id is set; the rest takes its default. */
  function NewEnvSpec(id: string): (s: EnvSpec)
    ensures s.id == id
    ensures s.maxEpisodeSteps.None? && s.rewardThreshold.None? && s.version.None?
    ensures !s.nondeterministic && s.orderEnforce
  {
    EnvSpec(id, None, None, false, true, None)
  }

  /** The two tables as one value. */
  datatype Tables<E> = Tables(specs: map<string, EnvSpec>, factories: map<string, KwArgs -> E>)

  /** Both tables have the same ids, and each spec is filed under its own
      id. */
  predicate TablesValid<E>(t: Tables<E>)
  {
    t.specs.Keys == t.factories.Keys && forall id :: id in t.specs ==> t.specs[id].id == id
  }

  /** `register` on the tables: a spec whose id is already present is
      refused and nothing changes; otherwise both tables gain the id. */
  function RegisterIn<E>(t: Tables<E>, spec: EnvSpec, factory: KwArgs -> E): (p: (Result<(), GymError>, Tables<E>))
    ensures spec.id in t.specs ==> p.0.Err? && p.1 == t
    ensures spec.id !in t.specs ==> p.0.Ok? && p.1 == Tables(t.specs[spec.id := spec], t.factories[spec.id := factory])
  {
    if spec.id in t.specs then
      (Err(Other("Env id already registered: " + spec.id)), t)
    else
      (Ok(()), Tables(t.specs[spec.id := spec], t.factories[spec.id := factory]))
  }

  /** `get_spec` on the tables. */
  function SpecIn<E>(t: Tables<E>, id: string): (r: Option<EnvSpec>)
    ensures r.Some? <==> id in t.specs
    ensures r.Some? ==> r.value == t.specs[id]
  {
    if id in t.specs then Some(t.specs[id]) else None
  }

  /** `make` on the tables: the factory applied to the arguments, or an
      error for an unknown id. */
  function MakeIn<E>(t: Tables<E>, id: string, kwargs: KwArgs): (r: Result<E, GymError>)
    ensures r.Ok? <==> id in t.factories
    ensures r.Ok? ==> r.value == t.factories[id](kwargs)
  {
    if id in t.factories then Ok(t.factories[id](kwargs))
    else Err(Other("Unknown environment id: " + id))
  }

  /** `register` keeps the tables in step. */
  lemma RegisterKeepsValid<E>(t: Tables<E>, spec: EnvSpec, factory: KwArgs -> E)
    requires TablesValid(t)
    ensures TablesValid(RegisterIn(t, spec, factory).1)
  {
  }

  /** After a successful `register`, `get_spec` returns the spec and `make`
      calls the factory; every other id answers as before. */
  lemma RegisterThenLookup<E>(t: Tables<E>, spec: EnvSpec, factory: KwArgs -> E, id: string, kwargs: KwArgs)
    requires spec.id !in t.specs
    ensures var t' := RegisterIn(t, spec, factory).1;
      && SpecIn(t', spec.id) == Some(spec)
      && MakeIn(t', spec.id, kwargs) == Ok(factory(kwargs))
      && (id != spec.id ==> SpecIn(t', id) == SpecIn(t, id) && MakeIn(t', id, kwargs) == MakeIn(t, id, kwargs))
  {
  }

  /** A second `register` of the same id fails, whatever spec and factory
      it brings. */
  lemma RegisterTwiceFails<E>(t: Tables<E>, spec: EnvSpec, f1: KwArgs -> E, spec2: EnvSpec, f2: KwArgs -> E)
    requires spec.id !in t.specs && spec2.id == spec.id
    ensures var t' := RegisterIn(t, spec, f1).1;
      RegisterIn(t', spec2, f2).0.Err? && RegisterIn(t', spec2, f2).1 == t'
  {
  }

  /** The registry, its two tables updated in place. */
  class Registry<E> {
    var specs: map<string, EnvSpec>
    var factories: map<string, KwArgs -> E>

    ghost predicate Valid()
      reads this
    {
      TablesValid(Tables(specs, factories))
    }

    constructor ()
      ensures specs == map[] && factories == map[] && Valid()
    {
      specs := map[];
      factories := map[];
    }

    /** `register`: refuses an id already in `specs`, else inserts the
        factory and the spec under the spec's id. */
    method Register(spec: EnvSpec, factory: KwArgs -> E) returns (r: Result<(), GymError>)
      modifies this
      ensures (r, Tables(specs, factories)) == RegisterIn(Tables(old(specs), old(factories)), spec, factory)
      ensures old(Valid()) ==> Valid()
    {
      if spec.id in specs {
        return Err(Other("Env id already registered: " + spec.id));
      }
      factories := factories[spec.id := factory];
      specs := specs[spec.id := spec];
      r := Ok(());
    }

    /** `get_spec`: the registered spec, or `None` for an unknown id. */
    function GetSpec(id: string): (r: Option<EnvSpec>)
      reads this
      ensures r == SpecIn(Tables(specs, factories), id)
    {
      if id in specs then Some(specs[id]) else None
    }

    /** `make`: the registered factory applied to `kwargs`, or an error for
        an unknown id. */
    function Make(id: string, kwargs: KwArgs): (r: Result<E, GymError>)
      reads this
      ensures r == MakeIn(Tables(specs, factories), id, kwargs)
    {
      if id in factories then Ok(factories[id](kwargs))
      else Err(Other("Unknown environment id: " + id))
    }
  }
}
