/** The configuration structure as the resolution engine sees it through
    reflection: a struct is a sequence of fields in declaration order, and
    each field is an embedded struct, a pointer to a struct, or a leaf with
    its descriptor (name, exported-ness, declared kind, tags) and its value.
    Providers, field descriptors and the errors of the package live here too. */
module Fields {

  datatype Option<T> = None | Some(value: T)

  /** A struct tag, as the key/value pairs `reflect.StructTag.Get` reads. */
  type Tags = map<string, string>

  /** `StructTag.Get`: the value under `key`, or "" when the key is absent. */
  function TagValue(tags: Tags, key: string): string
  {
    if key in tags then tags[key] else ""
  }

  /** The declared kind of a leaf field. */
  datatype Kind =
    | BoolKind | IntKind | UintKind | FloatKind | StringKind
    | PtrKind(elem: Kind)          // a pointer to a non-struct type
    | OtherKind(name: string)      // slices, maps, funcs, ...

  /** The value stored in a leaf field. */
  datatype Value =
    | Nil
    | BoolVal(b: bool)
    | IntVal(i: int)
    | UintVal(u: nat)
    | FloatVal(f: real)
    | StringVal(s: string)
    | PtrVal(to: Value)
    | OtherVal(repr: string)

  /** The zero value Go gives a field of kind `k`. */
  function ZeroOf(k: Kind): Value
  {
    match k
    case BoolKind => BoolVal(false)
    case IntKind => IntVal(0)
    case UintKind => UintVal(0)
    case FloatKind => FloatVal(0.0)
    case StringKind => StringVal("")
    case PtrKind(_) => Nil
    case OtherKind(_) => Nil
  }

  /** What a provider is shown of a leaf field (`reflect.StructField`). */
  datatype FieldDesc = FieldDesc(name: string, exported: bool, kind: Kind, tags: Tags)

  /** One field of a struct. A pointer-to-struct field records its pointee type
      by that type's zero value (`zero`), which is what `reflect.New` allocates,
      and its current pointee (`target`, None for nil). */
  datatype Field =
    | StructField(name: string, exported: bool, body: Struct)
    | StructPtrField(name: string, exported: bool, zero: Struct, target: Option<Struct>)
    | Leaf(desc: FieldDesc, value: Value)

  datatype Struct = Struct(fields: seq<Field>)

  /** The value handed to the configurator (`configPtr any`): a non-nil
      pointer to a struct, or a value that is not a pointer. A nil value, a
      nil pointer and a pointer to a non-struct are not represented. */
  datatype Target = Ptr(root: Struct) | NonPtr

  /** The errors of the package. `InitFailed` is the message built at
      configurator.go:63, `Wrapped` a `%w` wrapping, `Unresolved` the message
      built at configurator.go:114, `Message` any error produced by code that
      is not part of this model (SetField, other providers). */
  datatype Error =
    | NotAPointer
    | NoProviders
    | ProviderNameCollision
    | EmptyValue
    | InitFailed(provider: string, cause: Error)
    | Wrapped(prefix: string, inner: Error)
    | Unresolved(field: string, tags: Tags)
    | Message(text: string)

  /** The outcome of `Provide` (and of `SetField`): nil with the field's new
      value, or an error. */
  datatype Outcome = Assigned(value: Value) | Failed(err: Error)

  /** A provider: its `Name()`, the result of its `Init(target)` and its
      `Provide(field, value)`. */
  datatype Provider = Provider(
    name: string,
    init: Struct -> Option<Error>,
    provide: (FieldDesc, Value) -> Outcome)

  /** The error handler installed as `onErrorFn`. */
  datatype Handler = FatalLog | Custom(id: string)

  /** One call of `Provide`: which provider was asked about which field. */
  datatype Call = Call(provider: string, field: FieldDesc)

  /** One call of `onErrorFn`: the handler called, the field and the error. */
  datatype Report = Report(handler: Handler, field: FieldDesc, err: Error)

  /** A leaf field and its value, as met in a depth-first walk. */
  datatype Slot = Slot(desc: FieldDesc, value: Value)

  /** The zero value of a struct type: every leaf holds its kind's zero value,
      every pointer is nil. */
  ghost predicate IsZero(s: Struct)
    decreases s
  {
    forall i | 0 <= i < |s.fields| ::
      match s.fields[i]
      case StructField(_, _, body) => IsZero(body)
      case StructPtrField(_, _, zero, target) => target == None && IsZero(zero)
      case Leaf(d, v) => v == ZeroOf(d.kind)
  }

  /** The structs reflection walks without panicking: struct and
      pointer-to-struct fields are exported (otherwise `Interface()` at
      configurator.go:89 and `Set` at configurator.go:94 panic), and each
      pointee type is described by a zero value. */
  ghost predicate WellFormed(s: Struct)
    decreases s
  {
    forall i | 0 <= i < |s.fields| ::
      match s.fields[i]
      case StructField(_, exported, body) => exported && WellFormed(body)
      case StructPtrField(_, exported, zero, _) => exported && IsZero(zero) && WellFormed(zero)
      case Leaf(_, _) => true
  }

  /** Every pointer-to-struct field, at any depth, is non-nil. */
  ghost predicate Allocated(s: Struct)
    decreases s
  {
    forall i | 0 <= i < |s.fields| ::
      match s.fields[i]
      case StructField(_, _, body) => Allocated(body)
      case StructPtrField(_, _, _, target) => target.Some? && Allocated(target.value)
      case Leaf(_, _) => true
  }

  /** The leaves a depth-first walk of the first `n` fields meets: a struct
      field is expanded where it occurs, a pointer-to-struct field is expanded
      into its pointee type's zero value. */
  function Visited(s: Struct, n: nat): seq<Slot>
    requires n <= |s.fields|
    decreases s, n
  {
    if n == 0 then []
    else
      Visited(s, n - 1) +
      match s.fields[n - 1]
      case StructField(_, _, body) => Visited(body, |body.fields|)
      case StructPtrField(_, _, zero, _) => Visited(zero, |zero.fields|)
      case Leaf(d, v) => [Slot(d, v)]
  }

  /** The leaves the first `n` fields actually hold, in declaration order,
      looking through non-nil pointers and skipping nil ones. */
  function Leaves(s: Struct, n: nat): seq<Slot>
    requires n <= |s.fields|
    decreases s, n
  {
    if n == 0 then []
    else
      Leaves(s, n - 1) +
      match s.fields[n - 1]
      case StructField(_, _, body) => Leaves(body, |body.fields|)
      case StructPtrField(_, _, _, target) =>
        (match target case None => [] case Some(t) => Leaves(t, |t.fields|))
      case Leaf(d, v) => [Slot(d, v)]
  }

  /** The same struct with every pointer reset to nil: what remains when the
      current pointees are ignored. */
  function Detached(s: Struct, n: nat): (fs: seq<Field>)
    requires n <= |s.fields|
    ensures |fs| == n
    decreases s, n
  {
    if n == 0 then []
    else
      Detached(s, n - 1) +
      match s.fields[n - 1]
      case StructField(name, exported, body) =>
        [StructField(name, exported, Struct(Detached(body, |body.fields|)))]
      case StructPtrField(name, exported, zero, _) => [StructPtrField(name, exported, zero, None)]
      case Leaf(d, v) => [Leaf(d, v)]
  }

  /** `Leaves` of the first `n` fields depends on those fields only. */
  lemma {:induction false} LeavesPrefix(a: Struct, b: Struct, n: nat)
    requires n <= |a.fields| && n <= |b.fields|
    requires a.fields[..n] == b.fields[..n]
    ensures Leaves(a, n) == Leaves(b, n)
  {
    if n > 0 {
      assert a.fields[n - 1] == a.fields[..n][n - 1];
      assert a.fields[..n - 1] == a.fields[..n][..n - 1];
      assert b.fields[..n - 1] == b.fields[..n][..n - 1];
      LeavesPrefix(a, b, n - 1);
    }
  }
}
