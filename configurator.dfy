/** The `Configurator` (configurator.go): it holds the target, the ordered
    provider list, the set of registered provider names and its options, and
    `InitValues` runs one resolution pass over the target. Each method is
    proved against the functions of `Resolution`. The calls a pass makes to
    providers' `Init` and `Provide` and to `onErrorFn` are recorded in ghost
    logs so that their order and number can be stated. */
module Configuration {
  import opened Fields
  import opened Resolution
  import DefaultProvider

  /** The options a `ConfiguratorOption` can change: the error handler
      (`onErrorFn`) and whether logging is enabled. */
  datatype Settings = Settings(onError: Handler, loggingEnabled: bool)

  /** What `New` installs: the handler that logs the error and exits, and
      logging off. */
  const InitialSettings: Settings := Settings(FatalLog, false)

  type ConfiguratorOption = Settings -> Settings

  /** The settings after applying `options` to `s`, first to last. */
  function ApplyOptions(s: Settings, options: seq<ConfiguratorOption>): Settings
    decreases |options|
  {
    if options == [] then s else ApplyOptions(options[0](s), options[1..])
  }

  /** Applying two lists of options one after the other is applying their
      concatenation. */
  lemma {:induction false} ApplyOptionsConcat(s: Settings, a: seq<ConfiguratorOption>, b: seq<ConfiguratorOption>)
    ensures ApplyOptions(s, a + b) == ApplyOptions(ApplyOptions(s, a), b)
    decreases |a|
  {
    if a == [] {
      assert a + b == b;
    } else {
      assert (a + b)[0] == a[0];
      assert (a + b)[1..] == a[1..] + b;
      ApplyOptionsConcat(a[0](s), a[1..], b);
    }
  }

  class Configurator {
    var configPtr: Target
    var providers: seq<Provider>
    var registeredTags: set<string>
    var settings: Settings
    /** The providers whose `Init` was called, in call order. */
    ghost var initCalls: seq<string>
    /** The `Provide` calls made, in call order. */
    ghost var provideCalls: seq<Call>
    /** The `onErrorFn` calls made, in call order. */
    ghost var reported: seq<Report>

    /** `New(cfgPtr, providers...)`. */
    constructor (cfgPtr: Target, providers: seq<Provider>)
      ensures configPtr == cfgPtr && this.providers == providers
      ensures registeredTags == {} && settings == InitialSettings
      ensures initCalls == [] && provideCalls == [] && reported == []
    {
      configPtr := cfgPtr;
      this.providers := providers;
      registeredTags := {};
      settings := InitialSettings;
      initCalls, provideCalls, reported := [], [], [];
    }

    /** `SetOptions(options...)`: applies each option in order and returns
        the configurator itself. */
    method SetOptions(options: seq<ConfiguratorOption>) returns (c: Configurator)
      modifies this`settings
      ensures c == this
      ensures settings == ApplyOptions(old(settings), options)
    {
      var i := 0;
      while i < |options|
        invariant 0 <= i <= |options|
        invariant settings == ApplyOptions(old(settings), options[..i])
      {
        ApplyOptionsConcat(old(settings), options[..i], [options[i]]);
        assert options[..i + 1] == options[..i] + [options[i]];
        assert [options[i]][1..] == [];
        settings := options[i](settings);
        i := i + 1;
      }
      assert options[..i] == options;
      c := this;
    }

    /** `InitValues`: check the target and the provider list, register and
        initialise the providers in order, then walk the target. */
    method InitValues() returns (err: Option<Error>)
      requires InitValuesRun(configPtr, providers, registeredTags, settings.onError).err == None ==>
        configPtr.Ptr? && WellFormed(configPtr.root)
      modifies this`configPtr, this`registeredTags, this`initCalls, this`provideCalls, this`reported
      ensures var run := InitValuesRun(old(configPtr), providers, old(registeredTags), settings.onError);
        err == run.err && configPtr == run.target && registeredTags == run.registered &&
        initCalls == old(initCalls) + run.inited &&
        provideCalls == old(provideCalls) + run.calls &&
        reported == old(reported) + run.reports
      ensures err == None ==> configPtr.Ptr? && WellFormed(configPtr.root)
    {
      if configPtr.NonPtr? {
        return Some(NotAPointer);
      }
      if |providers| == 0 {
        return Some(NoProviders);
      }
      var root := configPtr.root;
      ghost var reg0 := registeredTags;
      ghost var inited: seq<string> := [];
      var i := 0;
      while i < |providers|
        invariant 0 <= i <= |providers|
        invariant configPtr == old(configPtr) && provideCalls == old(provideCalls) && reported == old(reported)
        invariant initCalls == old(initCalls) + inited
        invariant Register(providers, reg0, root, 0, []) == Register(providers, registeredTags, root, i, inited)
      {
        var p := providers[i];
        if p.name in registeredTags {
          return Some(ProviderNameCollision);
        }
        registeredTags := registeredTags + {p.name};
        initCalls, inited := initCalls + [p.name], inited + [p.name];
        var e := p.init(root);
        if e.Some? {
          return Some(InitFailed(p.name, e.value));
        }
        i := i + 1;
      }
      var filled := FillUp(root);
      WalkPreservesWellFormed(providers, settings.onError, root, |root.fields|);
      configPtr := Ptr(filled);
      return None;
    }

    /** `fillUp`: walk the fields of `s` in declaration order, descending into
        struct fields, replacing every pointer-to-struct field by a fresh zero
        value of its pointee type and descending into that, and passing leaves
        to `ApplyProviders`. */
    method FillUp(s: Struct) returns (r: Struct)
      modifies this`provideCalls, this`reported
      ensures var w := WalkAll(providers, settings.onError, s);
        r == Struct(w.fields) &&
        provideCalls == old(provideCalls) + w.calls &&
        reported == old(reported) + w.reports
      decreases s, 1
    {
      var ps, h := providers, settings.onError;
      var fields := s.fields;
      var i := 0;
      while i < |s.fields|
        invariant 0 <= i <= |s.fields| && |fields| == |s.fields|
        invariant fields[..i] == Walk(ps, h, s, i).fields
        invariant provideCalls == old(provideCalls) + Walk(ps, h, s, i).calls
        invariant reported == old(reported) + Walk(ps, h, s, i).reports
        decreases |s.fields| - i
      {
        ghost var w := Walk(ps, h, s, i);
        var f := FillField(s, i);
        WalkUnfold(ps, h, s, i + 1);
        fields := fields[i := f];
        assert fields[..i + 1] == w.fields + [f];
        i := i + 1;
      }
      assert fields == fields[..i];
      r := Struct(fields);
    }

    /** One iteration of `fillUp`'s loop, on field `i` of `s`: a struct field
        is filled in place; a pointer-to-struct field is set to a fresh zero
        value of its pointee type, which is then filled; a leaf goes to
        `ApplyProviders`. */
    method FillField(s: Struct, i: nat) returns (f: Field)
      requires i < |s.fields|
      modifies this`provideCalls, this`reported
      ensures var st := FieldStep(providers, settings.onError, s, i);
        [f] == st.fields &&
        provideCalls == old(provideCalls) + st.calls &&
        reported == old(reported) + st.reports
      decreases s, 0
    {
      match s.fields[i] {
        case StructField(name, exported, body) =>
          var filled := FillUp(body);
          f := StructField(name, exported, filled);
        case StructPtrField(name, exported, zero, _) =>
          var filled := FillUp(zero);
          f := StructPtrField(name, exported, zero, Some(filled));
        case Leaf(d, v) =>
          var nv := ApplyProviders(d, v);
          f := Leaf(d, nv);
      }
    }

    /** `applyProviders`: skip an unexported leaf; otherwise ask the providers
        in order and stop at the first that returns nil; when none does, call
        the error handler once. */
    method ApplyProviders(field: FieldDesc, v: Value) returns (nv: Value)
      modifies this`provideCalls, this`reported
      ensures var st := Settle(providers, settings.onError, field, v);
        nv == st.value &&
        provideCalls == old(provideCalls) + st.calls &&
        reported == old(reported) + st.reports
    {
      if !field.exported {
        return v;
      }
      var ps, h := providers, settings.onError;
      var i := 0;
      while i < |ps|
        invariant 0 <= i <= |ps|
        invariant forall j | 0 <= j < i :: ps[j].provide(field, v).Failed?
        invariant provideCalls == old(provideCalls) + Consulted(ps, field, i)
        invariant reported == old(reported)
      {
        provideCalls := provideCalls + [Call(ps[i].name, field)];
        ConsultedStep(ps, field, i);
        var outcome := ps[i].provide(field, v);
        if outcome.Assigned? {
          SettleAt(ps, h, field, v, i);
          return outcome.value;
        }
        i := i + 1;
      }
      SettleAt(ps, h, field, v, i);
      reported := reported + [UnresolvedReport(h, field)];
      return v;
    }
  }

  /** `FromEnvAndDefault(cfg)`: one pass with the environment provider first
      and the default-tag provider second. The environment provider and
      `SetField` are parameters; the walked target is returned. */
  method FromEnvAndDefault(cfg: Target, env: Provider, setField: DefaultProvider.SetField)
    returns (err: Option<Error>, filled: Target)
    requires InitValuesRun(cfg, [env, DefaultProvider.New(setField)], {}, FatalLog).err == None ==>
      cfg.Ptr? && WellFormed(cfg.root)
    ensures var run := InitValuesRun(cfg, [env, DefaultProvider.New(setField)], {}, FatalLog);
      err == run.err && filled == run.target
  {
    var c := new Configurator(cfg, [env, DefaultProvider.New(setField)]);
    err := c.InitValues();
    filled := c.configPtr;
  }
}
