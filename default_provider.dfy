/** The provider that takes a field's value from its `default` tag
    (defaultProvider.go). It has no state. `SetField`, which converts the
    tag's text to the field's kind and stores it, is not part of this model:
    it is a parameter. */
module DefaultProvider {
  import opened Fields

  /** `SetField(field, v, valStr)`: the outcome of converting `valStr` for
      `field` and storing it in the field whose current value is `v`. */
  type SetField = (FieldDesc, Value, string) -> Outcome

  const ProviderName: string := "DefaultProvider"
  const DefaultTag: string := "default"

  /** The error the provider gives for a field without a default: "no value
      here", wrapping `ErrEmptyValue`. */
  const NoDefault: Error := Wrapped("defaultProvider", EmptyValue)

  /** `Init` ignores the target and always returns nil. */
  function Init(target: Struct): (e: Option<Error>)
    ensures e.None?
  {
    None
  }

  /** `Provide`: read the `default` tag; with no text, decline; otherwise hand
      the text to `SetField`. Only a field with a default can be set, and
      every outcome is either the refusal or what `SetField` makes of the
      tag's text. */
  function Provide(setField: SetField, field: FieldDesc, v: Value): (r: Outcome)
    ensures r.Assigned? ==> TagValue(field.tags, DefaultTag) != ""
    ensures r == Failed(NoDefault) || r == setField(field, v, TagValue(field.tags, DefaultTag))
  {
    var valStr := TagValue(field.tags, DefaultTag);
    if |valStr| == 0 then Failed(NoDefault)
    else setField(field, v, valStr)
  }

  /** `NewDefaultProvider()`, with the `SetField` it delegates to. */
  function New(setField: SetField): (p: Provider)
    ensures p.name == "DefaultProvider"
    ensures forall target :: p.init(target) == None
    ensures forall field, v :: p.provide(field, v) == Provide(setField, field, v)
  {
    Provider(ProviderName, Init, (field, v) => Provide(setField, field, v))
  }

  /** A field whose `default` tag is absent or empty is declined with the
      "empty value" error and keeps its value; `SetField` is never consulted,
      so any two `SetField`s give the same outcome. */
  lemma EmptyDefaultDeclines(sf1: SetField, sf2: SetField, field: FieldDesc, v: Value)
    requires TagValue(field.tags, "default") == ""
    ensures Provide(sf1, field, v) == Provide(sf2, field, v) == Failed(Wrapped("defaultProvider", EmptyValue))
  {
  }

  /** A non-empty `default` tag yields exactly what `SetField` returns for
      that tag's text. Together with EmptyDefaultDeclines: the provider reads
      no tag but `default`. */
  lemma NonEmptyDefaultDelegates(sf: SetField, field: FieldDesc, v: Value)
    requires "default" in field.tags && field.tags["default"] != ""
    ensures Provide(sf, field, v) == sf(field, v, field.tags["default"])
  {
  }
}
