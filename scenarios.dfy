/** A worked run of `FromEnvAndDefault`: a struct whose `Host` field has an
    `env` and a `default` tag and whose `Port` field has only a `default`
    tag, resolved by an environment provider followed by the default-tag
    provider. */
module Scenarios {
  import opened Fields
  import opened Resolution
  import DefaultProvider

  const HostField: FieldDesc :=
    FieldDesc("Host", true, StringKind, map["env" := "HOST", "default" := "localhost"])
  const PortField: FieldDesc :=
    FieldDesc("Port", true, IntKind, map["default" := "8080"])

  /** `struct { Host string; Port int }` at its zero value. */
  const Config: Struct := Struct([Leaf(HostField, StringVal("")), Leaf(PortField, IntVal(0))])

  /** With `HOST=example.com` in the environment and no `PORT`, the
      environment provider sets `Host` and declines `Port`; the default
      provider is then asked for `Port` only and sets it from its tag. The
      call succeeds with Host "example.com" and Port 8080, no field is
      reported, and the `default` tag of `Host` is never read. */
  lemma {:induction false} EnvThenDefault(env: Provider, setField: DefaultProvider.SetField)
    requires env.name != "DefaultProvider" && env.init(Config) == None
    requires env.provide(HostField, StringVal("")) == Assigned(StringVal("example.com"))
    requires env.provide(PortField, IntVal(0)).Failed?
    requires setField(PortField, IntVal(0), "8080") == Assigned(IntVal(8080))
    ensures var run := InitValuesRun(Ptr(Config), [env, DefaultProvider.New(setField)], {}, FatalLog);
      run.err == None &&
      run.target == Ptr(Struct([Leaf(HostField, StringVal("example.com")), Leaf(PortField, IntVal(8080))])) &&
      run.calls == [Call(env.name, HostField), Call(env.name, PortField), Call("DefaultProvider", PortField)] &&
      run.reports == [] &&
      run.inited == [env.name, "DefaultProvider"]
  {
    var dp := DefaultProvider.New(setField);
    var ps := [env, dp];
    assert TagValue(PortField.tags, "default") == "8080";
    DefaultProvider.NonEmptyDefaultDelegates(setField, PortField, IntVal(0));
    ConfigWalk(ps);
    ConfigRegisters(ps);
  }

  lemma {:induction false} HostSettles(ps: seq<Provider>)
    requires |ps| == 2 && ps[0].provide(HostField, StringVal("")) == Assigned(StringVal("example.com"))
    ensures Settle(ps, FatalLog, HostField, StringVal("")) ==
      Step(StringVal("example.com"), [Call(ps[0].name, HostField)], [])
  {
    SettleAt(ps, FatalLog, HostField, StringVal(""), 0);
    assert Consulted(ps, HostField, 1) == [Call(ps[0].name, HostField)];
  }

  lemma {:induction false} PortSettles(ps: seq<Provider>)
    requires |ps| == 2 && ps[0].provide(PortField, IntVal(0)).Failed?
    requires ps[1].provide(PortField, IntVal(0)) == Assigned(IntVal(8080))
    ensures Settle(ps, FatalLog, PortField, IntVal(0)) ==
      Step(IntVal(8080), [Call(ps[0].name, PortField), Call(ps[1].name, PortField)], [])
  {
    SettleAt(ps, FatalLog, PortField, IntVal(0), 1);
    assert Consulted(ps, PortField, 2) == [Call(ps[0].name, PortField), Call(ps[1].name, PortField)];
  }

  lemma {:induction false} ConfigWalkHost(ps: seq<Provider>)
    requires |ps| == 2 && ps[0].provide(HostField, StringVal("")) == Assigned(StringVal("example.com"))
    ensures Walk(ps, FatalLog, Config, 1) ==
      Walked([Leaf(HostField, StringVal("example.com"))], [Call(ps[0].name, HostField)], [])
  {
    HostSettles(ps);
    assert Config.fields[0] == Leaf(HostField, StringVal(""));
    assert Walk(ps, FatalLog, Config, 0) == Walked([], [], []);
    WalkUnfold(ps, FatalLog, Config, 1);
  }

  lemma {:induction false} ConfigWalk(ps: seq<Provider>)
    requires |ps| == 2 && ps[0].provide(HostField, StringVal("")) == Assigned(StringVal("example.com"))
    requires ps[0].provide(PortField, IntVal(0)).Failed?
    requires ps[1].provide(PortField, IntVal(0)) == Assigned(IntVal(8080))
    ensures Walk(ps, FatalLog, Config, 2) ==
      Walked([Leaf(HostField, StringVal("example.com")), Leaf(PortField, IntVal(8080))],
             [Call(ps[0].name, HostField), Call(ps[0].name, PortField), Call(ps[1].name, PortField)], [])
  {
    ConfigWalkHost(ps);
    PortSettles(ps);
    assert Config.fields[1] == Leaf(PortField, IntVal(0));
    WalkUnfold(ps, FatalLog, Config, 2);
    var w1 := Walk(ps, FatalLog, Config, 1);
    assert FieldStep(ps, FatalLog, Config, 1) ==
      Walked([Leaf(PortField, IntVal(8080))], [Call(ps[0].name, PortField), Call(ps[1].name, PortField)], []);
    assert w1.fields + [Leaf(PortField, IntVal(8080))] ==
      [Leaf(HostField, StringVal("example.com")), Leaf(PortField, IntVal(8080))];
    assert w1.calls + [Call(ps[0].name, PortField), Call(ps[1].name, PortField)] ==
      [Call(ps[0].name, HostField), Call(ps[0].name, PortField), Call(ps[1].name, PortField)];
  }

  lemma {:induction false} ConfigRegisters(ps: seq<Provider>)
    requires |ps| == 2 && ps[0].name != ps[1].name
    requires ps[0].init(Config) == None && ps[1].init(Config) == None
    ensures Register(ps, {}, Config, 0, []) ==
      Registration(None, {ps[0].name, ps[1].name}, [ps[0].name, ps[1].name])
  {
    var done := Registration(None, {ps[0].name, ps[1].name}, [ps[0].name, ps[1].name]);
    assert {ps[0].name} + {ps[1].name} == {ps[0].name, ps[1].name};
    assert [ps[0].name] + [ps[1].name] == [ps[0].name, ps[1].name];
    assert Register(ps, {ps[0].name}, Config, 1, [ps[0].name]) == done;
    assert {} + {ps[0].name} == {ps[0].name} && [] + [ps[0].name] == [ps[0].name];
  }

  const BadPortField: FieldDesc :=
    FieldDesc("Port", true, IntKind, map["default" := "notanumber"])

  /** When `SetField` cannot convert a default, the conversion error itself
      goes nowhere: the default provider's error only makes the chain move
      on, and the handler receives the generic unresolved-field message
      naming the field and its tags. */
  lemma {:induction false} ConversionFailureIsUnresolved(setField: DefaultProvider.SetField, v: Value)
    requires setField(BadPortField, v, "notanumber").Failed?
    ensures Settle([DefaultProvider.New(setField)], FatalLog, BadPortField, v) ==
      Step(v, [Call("DefaultProvider", BadPortField)],
           [Report(FatalLog, BadPortField, Unresolved("Port", map["default" := "notanumber"]))])
  {
    var ps := [DefaultProvider.New(setField)];
    assert TagValue(BadPortField.tags, "default") == "notanumber";
    DefaultProvider.NonEmptyDefaultDelegates(setField, BadPortField, v);
    assert FirstClaim(ps, BadPortField, v, 0) == 1;
    AllDeclineReported(ps, FatalLog, BadPortField, v);
    assert Consulted(ps, BadPortField, 1) == [Call("DefaultProvider", BadPortField)];
  }
}
