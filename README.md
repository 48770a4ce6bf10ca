# configuration: the field-resolution engine, in Dafny

This project models the core of the Go package `configuration`. The package
fills in a caller's configuration struct through an ordered chain of value
providers.

- `New` builds a `Configurator` from a target and an ordered list of
  providers. `SetOptions` applies options to it.
- `InitValues` checks the target and the provider list. It then registers
  each provider's name and calls the provider's `Init`, in order.
- `fillUp` walks the target depth-first in declaration order:
  - it descends into struct fields;
  - it sets every pointer-to-struct field to a freshly allocated zero value
    and descends into that;
  - it hands every other field to `applyProviders`.
- `applyProviders` skips unexported fields. For any other field it asks the
  providers in order and stops at the first whose `Provide` returns nil.
  When none does, it passes one "cannot be set" error to the configured
  error handler (`onErrorFn`).
- `FromEnvAndDefault` is the preset chain: the environment provider, then
  the default-tag provider.
- The default-tag provider (`defaultProvider.go`) sets a field from its
  `default` struct tag through `SetField`, and declines a field whose tag is
  empty.

The model has five modules:

- `Fields` (`fields.dfy`): what reflection shows of a struct, as values.
  - A `Struct` is a sequence of fields.
  - A field is an embedded struct, a pointer-to-struct (its pointee type
    given by that type's zero value, plus its current pointee), or a leaf
    with its descriptor (name, exported-ness, kind, tags) and value.
  - The module also holds providers, errors, and the shape predicates
    `IsZero`, `WellFormed` and `Allocated`.
- `DefaultProvider` (`default_provider.dfy`): the default-tag provider, as
  pure functions over a `SetField` parameter.
- `Resolution` (`resolution.dfy`): functions giving what one call computes.
  - `Settle` gives the chain for one leaf.
  - `Walk` gives the walk.
  - `Register` gives the registration loop.
  - `InitValuesRun` gives the whole call.
  - The module also holds lemmas for the properties the package promises.
- `Configuration` (`configurator.dfy`): the `Configurator` class.
  - Its fields are `configPtr`, `providers`, `registeredTags` and the
    options.
  - Ghost logs record the `Init`, `Provide` and handler calls, in order.
  - Its methods are loops that mirror the Go code, and each is proved equal
    to the `Resolution` function for it.
- `Scenarios` (`scenarios.dfy`): two worked runs.

## Model

| member | source | states |
|---|---|---|
| Configuration.Configurator.constructor | configurator.go:10-27 | the new configurator holds the given target and providers in order, no registered names, the fatal-log handler and logging off; nothing has been called yet |
| Configuration.Configurator.SetOptions | configurator.go:38-43 | the options are applied to the configurator in order; the same configurator is returned |
| Configuration.ApplyOptionsConcat | configurator.go:39-41 | applying two option lists one after the other equals applying their concatenation |
| Configuration.Configurator.InitValues | configurator.go:45-69 | result, new target, registered names, and `Init`/`Provide`/handler call logs are exactly those of `InitValuesRun` on the old state; on success the filled target is well-formed; a well-formed target is demanded only when the walk runs |
| Configuration.Configurator.FillUp | configurator.go:71-101 | the filled struct and the `Provide`/handler calls appended are exactly those of walking every field in declaration order |
| Configuration.Configurator.FillField | configurator.go:83-99 | one loop iteration: a struct field is filled in place; a pointer field is replaced by its filled fresh zero value; a leaf goes through the provider chain; the calls made are that field's and no others |
| Configuration.Configurator.ApplyProviders | configurator.go:103-115 | the new value and the calls appended are those of `Settle`: unexported fields untouched; otherwise providers asked in order up to and including the first that accepts; one report when none does |
| Configuration.FromEnvAndDefault | configurator.go:117-120 | the result and filled target are those of one `InitValues` with the chain [environment provider, default provider] on a fresh configurator; a well-formed target is demanded only when the walk runs |
| DefaultProvider.New | defaultProvider.go:8-23 | the provider's name is "DefaultProvider", its `Init` returns nil for every target, and its `Provide` is the default-tag lookup |
| DefaultProvider.Init | defaultProvider.go:21-23 | `Init` returns nil for every target |
| DefaultProvider.Provide | defaultProvider.go:25-33 | a field is set only when its `default` tag is non-empty; every outcome is either the empty-value refusal or what `SetField` returns for the tag's text |
| DefaultProvider.EmptyDefaultDeclines | defaultProvider.go:25-30 | an absent or empty `default` tag gives the wrapped empty-value error whatever `SetField` would do: the field is declined without being touched |
| DefaultProvider.NonEmptyDefaultDelegates | defaultProvider.go:25-33 | a non-empty `default` tag gives exactly the outcome of `SetField` on the tag's text |
| Resolution.FirstClaim | configurator.go:108-112 | the position found is the first provider, from the start position on, whose `Provide` returns nil; every provider before it declines; the list length means none accepts |
| Resolution.FirstClaimIs | configurator.go:108-112 | if every provider before `k` declines and provider `k`, if there is one, accepts, then the first claim is at `k` |
| Resolution.Consulted | configurator.go:108-109 | the `Provide` calls made on a field by the first `n` providers: exactly `n` calls, the `j`-th to provider `j` |
| Resolution.Settle | configurator.go:103-115 | each provider is asked at most once and at most one report is made; a report is made exactly when the field is exported and every provider declines it |
| Resolution.SettleAt | configurator.go:103-115 | for an exported leaf with first claim `k`: the field takes provider `k`'s value, providers `0..k` were asked and nothing is reported; with no claim, every provider was asked, the value is kept and one report is made |
| Resolution.UnexportedLeafSkipped | configurator.go:104-106 | an unexported leaf is shown to no provider, keeps its value and is never reported |
| Resolution.FirstSuccessWins | configurator.go:108-112 | when provider `k` is the first to accept, the field takes `k`'s value, exactly providers `0..k` were asked, in order, and nothing is reported |
| Resolution.AllDeclineReported | configurator.go:108-114 | when every provider declines, each is asked once in order, the value is kept, and exactly one report naming the field and its tags goes to the handler |
| Resolution.EarlierProviderWins | configurator.go:108-112 | when providers `i < j` can both set a field, the first claim is at or before `i`, an exported field takes the claiming provider's value, provider `j` is never asked and nothing is reported |
| Resolution.Walk | configurator.go:82-100 | walking `n` fields yields exactly `n` fields |
| Resolution.WalkSettlesVisited | configurator.go:71-101 | after the walk, the struct's leaves, in depth-first declaration order, are the visited leaves each settled independently; the `Provide` calls and reports are those of settling the visited leaves, in that order |
| Resolution.SettleAllConsultsExported | configurator.go:104-106 | every `Provide` call of a pass is about an exported leaf of the pass |
| Resolution.Unclaimed | configurator.go:112-114 | every leaf it lists is one of the given leaves, exported, and declined by every provider |
| Resolution.UnclaimedComplete | configurator.go:108-114 | conversely, every exported leaf that every provider declines is listed |
| Resolution.ReportsAreUnclaimedLeaves | configurator.go:114 | the handler is called once per unclaimed leaf, in walk order, with the message naming that field and its tags, and for nothing else |
| Resolution.WalkAllocates | configurator.go:93-96 | after the walk every pointer-to-struct field, at every depth, is non-nil |
| Resolution.WalkKeepsLayout | configurator.go:82-100 | field `i` after the walk is the same kind of field as before, with the same name and exported-ness; a pointer field keeps its pointee type and a leaf its descriptor |
| Resolution.WalkPreservesWellFormed | configurator.go:82-100 | a walked well-formed struct is still well-formed, so it can be walked again |
| Resolution.WalkIgnoresTargets | configurator.go:93-95 | what pointer fields held before the walk has no effect on the result: the pointer is replaced by a fresh zero value whether or not it was nil |
| Resolution.Stop | configurator.go:56-65 | the stop position is the first provider whose name is already registered or whose `Init` fails; every provider before it has a new name and an `Init` that succeeds |
| Resolution.Register | configurator.go:56-65 | names already registered stay registered; the loop returns no error other than the name collision and an `Init` failure |
| Resolution.RegisterCompletes | configurator.go:56-65 | with no stop, every provider's name is registered and its `Init` called once, in order |
| Resolution.RegisterCollides | configurator.go:57-59 | a stop at a registered name returns the collision error, having registered and initialised exactly the providers before it |
| Resolution.RegisterInitFails | configurator.go:60-64 | a stop at a failing `Init` returns that error formatted with the provider's name (`%v`), having registered and initialised the providers up to and including it |
| Resolution.RegisterStops | configurator.go:56-65 | registration ends in exactly one of the three ways above, decided by the stop position |
| Resolution.InitValuesRun | configurator.go:47-68 | a failing call leaves the target as it was and asks no provider for a value; a successful one had a pointer target and a non-empty provider list and leaves a pointer; registered names are never removed |
| Resolution.PreconditionsChecked | configurator.go:48-54 | a non-pointer target or an empty provider list is rejected with its own error before any `Init` runs and before anything is registered or changed |
| Resolution.CollisionLeavesTargetUntouched | configurator.go:56-59 | on a name collision the target is unchanged, nothing is shown to any provider or reported, and exactly the providers before the colliding one were registered and initialised |
| Resolution.InitFailureNamesProvider | configurator.go:62-64 | an `Init` failure is returned formatted with that provider's name and cause (`%v`); no later provider is registered or initialised; the target is unchanged and no field is touched |
| Resolution.SuccessInitialisesAll | configurator.go:47-68 | on success the target was a pointer, the list was non-empty, every provider had a fresh name and a succeeding `Init` called once in order, and the target is the walked struct |
| Resolution.DuplicateNamesFail | configurator.go:56-59 | two providers with the same name, at any two positions, make the call fail, leaving the target unchanged and asking no provider for a value |
| Resolution.SecondRunCollides | configurator.go:56-60 | registered names are never cleared: a second `InitValues` after one that passed the precondition checks fails with the collision before any `Init`, leaving the target as the first call left it |
| Scenarios.EnvThenDefault | configurator.go:117-120 | Host with `env` and `default` tags, Port with only `default:"8080"`, HOST=example.com set, no PORT: Host becomes "example.com" and Port 8080; the default provider is asked about Port only; nothing is reported |
| Scenarios.ConversionFailureIsUnresolved | defaultProvider.go:32 | a default that `SetField` cannot convert is not reported itself: the chain moves on and the handler gets the generic "cannot be set" message for the field |

## Left out

- Reflection is not modelled. A struct is a value (`Fields.Struct`), and the walk returns the new struct rather than writing through pointers. So aliasing between the target and other references is not modelled.
- The reflection panics become preconditions:
  - `WellFormed` requires struct and pointer-to-struct fields to be exported. Otherwise `Addr().Interface()` and `Set` panic.
  - `InitValues` and `FromEnvAndDefault` demand a well-formed target only when the walk runs, that is when `InitValuesRun` returns no error.
- A `Fields.Target` is either a non-nil pointer to a struct value or a non-pointer. Three targets cannot be written as one:
  - a nil `any`, on which `reflect.TypeOf(nil).Kind()` panics at configurator.go:48;
  - a nil `*T` for a struct type `T`: it passes the kind check, so the call still returns `ErrNoProviders`, the collision or the `Init` error; once registration completes, `fillUp` panics at the first field (`v.Field` on the zero value), and returns normally only when `T` has no fields;
  - a pointer to a non-struct such as `*int`: the same early paths, and `fillUp` then panics in `NumField`.
- A struct type that reaches itself through a pointer-to-struct field (`type Node struct { Next *Node }`) makes `fillUp` recurse without end at configurator.go:93-95, since each level allocates a fresh pointee and walks it. `Fields.Struct` is a finite value, so such a type cannot be written, and the termination of `Resolution.Walk` relies on that.
- `Init` receives the target pointer (configurator.go:62) and may write through it. `Fields.Provider.init` maps the target's value to an optional error and cannot change it:
  - Resolution.CollisionLeavesTargetUntouched: its "target unchanged" conclusion holds only for providers whose `Init` does not write to the target.
  - Resolution.InitFailureNamesProvider: likewise for its "target unchanged" conclusion, and the walk in `InitValuesRun` starts from the target as it was before the `Init` calls.
- `SetField` is not modelled: it is a parameter of the default provider. Its conversions, its pointer allocation and its errors are outside this model.
- The environment provider is not modelled: it is a parameter of `FromEnvAndDefault`. So is any other provider's `Name`, `Init` and `Provide`.
- A provider is modelled by its outcome, and it is stateless:
  - `Provide` either assigns a value or fails. A provider that writes to the field and then returns an error is not modelled.
  - State a provider sets up in `Init` is not modelled.
- `onErrorFn` is recorded in a ghost log of reports, and the model continues after each one. With the default handler, `log.Fatal` ends the process at the first report. So under that handler only the walk up to the first report is observable.
- The following are not modelled; options are functions on the `Settings` record (handler, logging flag):
  - `loggerFn`;
  - the logging output;
  - the concrete `ConfiguratorOption` constructors.
- The error values are constructors of `Fields.Error`, not Go error values. The messages of `fmt.Errorf` are represented by their arguments.
- Integer widths and conversions of field values are not modelled. They belong to `SetField`.

Where the code's behaviour may surprise:

- Any non-nil error from `Provide` makes the chain move on to the next provider (configurator.go:109). So a malformed value does not end the chain for that field. The handler then receives only the generic "cannot be set" message (`Scenarios.ConversionFailureIsUnresolved`).
- A pointer-to-struct field is replaced by a fresh zero value whether or not it was nil (configurator.go:94). Whatever it pointed to is dropped (`Resolution.WalkIgnoresTargets`).
- A duplicate name is detected during the registration loop. So providers before it have already been registered and their `Init` has run.
- defaultProvider.go:29 is a bare `return` in a function that returns an `error`, which does not compile. The model follows the commented-out line 28: the provider declines with `ErrEmptyValue` wrapped under "defaultProvider".
