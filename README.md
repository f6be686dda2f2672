# Resource tracker of the OpenStack validator, in Dafny

The validator checks that an OpenStack account works for a BOSH deployment.
Its tests create real cloud resources, and `Validator::Api::ResourceTracker`
records each of them so that a later step can look one up by name and so
that every resource still alive is destroyed at the end of the run. This
project models that tracker and proves properties of it:

- `ServiceCatalog` (catalog.dfy) is the fixed table `RESOURCE_SERVICES`. It
  maps each resource type to its service (compute, network, image, volume).
  It also defines `service` and `resource_types`.
- `Handlers` (handlers.dfy) holds the per-type behaviour: `Base`, `Images`,
  `Servers` and `RESOURCE_HANDLER`. That is the `wait_for` predicate of each
  type, the light-stemcell shortcut of `Images#get_ready`, and the three
  destroy paths. The OpenStack client and the CPI are an oracle, `Cloud`.
  `get` answers a resource state or `Absent` for each (type, id). `delete`
  says how the delete call behind a destroy ends: it returns, it raises
  `CloudError`, or it raises something else.
- `Tracker` (tracker.dfy) holds the class `ResourceTracker`. Its field
  `resources` is the append-only `@resources`. The module also has the pure
  functions behind `resources`, `count` and `consumes`, and the `cleanup`
  loop.
- `Scenarios` (scenarios.dfy) holds client methods. Each drives a tracker
  through one everyday situation: a ready server is counted, an
  unknown type is rejected, a missing name skips, a light stemcell needs no
  provider, and two cleanups (one where a `CloudError` is absorbed, one
  where a generic destroy raises). The contracts alone decide each outcome.
- `Wrappers` (wrappers.dfy) holds `Option`, which stands for Ruby's `nil`.

Resource types are Ruby symbols. The model writes them as their names
(`:servers` is `"servers"`), so an unknown type can still be written down.
An exception that ends a call is an `Err` value. The test skip of `consumes`
is the value `Skipped(message)`.

In several places the code behaves differently from what one might expect
of such a tracker. The model follows the code:
- `consumes` returns the FIRST record with the name (`Array#find`), not the
  last.
- One might expect `cleanup` to catch every destroy failure. In the code, only
  the `Images` and `Servers` destroys rescue `CloudError`. Any other
  exception escapes `map`. It aborts `cleanup` before the remaining
  resources are attempted (`CleanupVolumesAfterRaise` shows this).
- When the provider has no resource under the id the block returned,
  `produce` fails. The cause is `resource.name` on `nil` (`NoResource`), not
  a dedicated "vanished" error.
- `resources` and `count` wait for readiness again on every call. A record
  whose wait gives up makes the whole call fail (`ReadinessTimeout`).
- `Images#get_ready` names the stub of every light stemcell
  "light_stemcell_", whatever its id (see "## Findings"). The model records
  that name.

## Model

| member | source | states |
|---|---|---|
| `ServiceCatalog.ServiceOf` | lib/validator/api/resource_tracker.rb:173-179 | `service` on the catalog of lines 5-10. It has no contract of its own: `ServiceOfIffListed` and `ServiceOfListed` state what it returns. |
| `ServiceCatalog.ServiceIn` | lib/validator/api/resource_tracker.rb:173-179 | `service` returns None exactly when no entry lists the type. Otherwise it returns the service of the first entry that lists it. |
| `ServiceCatalog.FirstListingDetermines` | lib/validator/api/resource_tracker.rb:173-179 | The first entry listing a type decides its service. |
| `ServiceCatalog.ServiceUnique` | lib/validator/api/resource_tracker.rb:5-10 | In a table whose lists are disjoint, any entry listing the type gives the answer, so the answer is unique. |
| `ServiceCatalog.CatalogDisjoint` | lib/validator/api/resource_tracker.rb:5-10 | No type appears under two services in `RESOURCE_SERVICES`. |
| `ServiceCatalog.ServiceOfListed` | lib/validator/api/resource_tracker.rb:5-10 | Each type's service is the entry that lists it (servers → compute, images → image, ...). |
| `ServiceCatalog.Flatten` | lib/validator/api/resource_tracker.rb:167-169 | `values.flatten` contains exactly the types some entry lists, in table order. |
| `ServiceCatalog.ResourceTypes` | lib/validator/api/resource_tracker.rb:167-169 | `resource_types`, the flattened catalog. It has no contract of its own: `Flatten` states what it holds and `ResourceTypesListed` states its value. |
| `ServiceCatalog.ResourceTypesListed` | lib/validator/api/resource_tracker.rb:167-169 | `resource_types` is the 13 types in declaration order. |
| `ServiceCatalog.ServiceOfIffListed` | lib/validator/api/resource_tracker.rb:167-179 | `service(t)` is non-nil exactly when t is in `resource_types`, and it is then the first entry listing t. |
| `ServiceCatalog.LookupService` | lib/validator/api/resource_tracker.rb:173-179 | The loop with early return computes `service`. The result is the service of an entry listing t. The identical `Base#service` (lines 31-37) is the same member. |
| `Handlers.HandlerFor` | lib/validator/api/resource_tracker.rb:68-76 | `RESOURCE_HANDLER.fetch(type, Base.new)`. It has no contract of its own; `HandlerOverrides` states what it gives. |
| `Handlers.HandlerOverrides` | lib/validator/api/resource_tracker.rb:68-76 | Only images take the light-stemcell shortcut. Only images and servers override destroy. A type without an entry gets `Base` with its always-true predicate. |
| `Handlers.MatchesLight` | lib/validator/api/resource_tracker.rb:43 | `id =~ / light$/`, tried at each position from the left. It has no contract of its own; `MatchesLightIff` states what it decides. |
| `Handlers.MatchesLightIff` | lib/validator/api/resource_tracker.rb:43 | The left-to-right search for `/ light$/` succeeds exactly when " light" occurs followed by the end of the id or by a line break. |
| `Handlers.EndsInLight` | lib/validator/api/resource_tracker.rb:43 | Every id ending in " light" is a light stemcell id. |
| `Handlers.LightWithoutLineBreak` | lib/validator/api/resource_tracker.rb:43 | For an id without a line break, the pattern means exactly "ends in ' light'". |
| `Handlers.LightBeforeLineBreak` | lib/validator/api/resource_tracker.rb:43 | Ruby's `$` also matches before a line break, so "stem-1 light\nx" counts as light. |
| `Handlers.LightStubNameAsWritten` | lib/validator/api/resource_tracker.rb:44 | The stub name as written: `@id` is `nil`, so it is "light_stemcell_" for every id. `LightStubNameAsWrittenCollides` states the consequence. |
| `Handlers.LightStubNameAsWrittenCollides` | lib/validator/api/resource_tracker.rb:44 | As written, the stub name ignores the id: two stemcells get the same name. |
| `Handlers.LightStubNameInjective` | lib/validator/api/resource_tracker.rb:44 | Distinct light stemcells get distinct corrected stub names. |
| `Handlers.ProviderGetReady` | lib/validator/api/resource_tracker.rb:19-25 | `Base#get_ready` returns nil exactly when the provider has no such resource. It returns the resource (with its name) exactly when the resource is present and meets the handler's predicate. Otherwise `wait_for` gives up. |
| `Handlers.GetReady` | lib/validator/api/resource_tracker.rb:42-48 | `get_ready` of the type's handler. It has no contract of its own; `GetReadyDispatch`, `LightStemcellSkipsProvider` and `UnlistedTypesAreReadyAtOnce` state what it returns. |
| `Handlers.GetReadyDispatch` | lib/validator/api/resource_tracker.rb:42-48 | An image with a light id gets a stub named "light_stemcell_", as line 44 is written. Every other case is the generic fetch and wait under the type's predicate. |
| `Handlers.LightStemcellSkipsProvider` | lib/validator/api/resource_tracker.rb:42-48 | For a light id of an image, any two providers give the same answer: the stub "light_stemcell_". The provider is never consulted. |
| `Handlers.UnlistedTypesAreReadyAtOnce` | lib/validator/api/resource_tracker.rb:15-25 | A type with no `RESOURCE_HANDLER` entry uses `Base`'s always-true predicate. Its resource is ready exactly when present, and its wait never gives up. |
| `Handlers.Destroy` | lib/validator/api/resource_tracker.rb:27-65 | `destroy` of the type's handler. It has no contract of its own; the next four rows state its outcomes. |
| `Handlers.CpiDestroyOutcome` | lib/validator/api/resource_tracker.rb:50-65 | The image and server destroys return true when the CPI call returns and false on `CloudError`. They raise only on other errors. |
| `Handlers.GenericDestroyOutcome` | lib/validator/api/resource_tracker.rb:27-29 | `Base#destroy` returns the provider's value exactly when `get_ready` finds the resource and its destroy returns. Otherwise it raises. |
| `Handlers.OnlyImagesAndServersRescue` | lib/validator/api/resource_tracker.rb:50-76 | On `CloudError`, a type's destroy yields false exactly for images and servers. It raises for every other type. |
| `Handlers.GenericDestroyOfAbsentRaises` | lib/validator/api/resource_tracker.rb:27-29 | The generic destroy raises on a resource the provider no longer has (`nil.destroy`). |
| `Tracker.LiveWith` | lib/validator/api/resource_tracker.rb:161-165 | `reject` front to back under any per-record fetch, aborting at the first fetch that raises. The result is never longer than its input. |
| `Tracker.LiveResources` | lib/validator/api/resource_tracker.rb:161-165 | `LiveWith` under each record's handler `get_ready` against the provider. It is never longer than `@resources`. |
| `Tracker.LiveIsSubsequence` | lib/validator/api/resource_tracker.rb:161-165 | `reject` keeps records in production order: the live view is a subsequence of `@resources`. |
| `Tracker.LiveOnlyLive` | lib/validator/api/resource_tracker.rb:161-165 | Every record in the live view is tracked, and its `get_ready` returns a resource. |
| `Tracker.LiveKeepsEveryLive` | lib/validator/api/resource_tracker.rb:161-165 | Every tracked record whose `get_ready` returns a resource is in the live view. |
| `Tracker.LiveFailsIffTimeout` | lib/validator/api/resource_tracker.rb:161-165 | The live view fails exactly when some record's wait gives up. |
| `Tracker.LiveFailsAtFirstTimeout` | lib/validator/api/resource_tracker.rb:161-165 | A failing live view reports the first record whose wait gave up. |
| `Tracker.LiveIdempotent` | lib/validator/api/resource_tracker.rb:161-165 | Filtering the live view again, against the same provider, returns it unchanged. |
| `Tracker.LiveAppend` | lib/validator/api/resource_tracker.rb:123-129 | Appending a record extends the live view by that record exactly when the record's fetch finds it. A timeout of the new record fails the view. |
| `Tracker.ProducedRecordIsLive` | lib/validator/api/resource_tracker.rb:117-130 | A record that `produce` appends (its fetch found it) ends the live view of the same provider, so `count` grows by one. |
| `Tracker.FindNamed` | lib/validator/api/resource_tracker.rb:147 | `find` returns the index of the first record whose `provide_as` equals the name, or None when no record has it. |
| `Tracker.FindNamedAppend` | lib/validator/api/resource_tracker.rb:147 | Appending a record changes the first match only when there was none before. |
| `Tracker.ConsumeFrom` | lib/validator/api/resource_tracker.rb:146-153 | `consumes` returns an id exactly when some record has the name, and it is the id of the first such record. Otherwise it skips, with the given message or "Required resource '<name>' does not exist.". |
| `Tracker.ResourceTracker.Consumes` | lib/validator/api/resource_tracker.rb:146-153 | On `@resources`: an id exactly when some record has the name, and then the id of the first such record. Otherwise a skip with the given or the default message. |
| `Tracker.MissingMessage` | lib/validator/api/resource_tracker.rb:146 | The default message of `consumes`. It has no contract of its own; `MissingMessageNamesResource` states what it says. |
| `Tracker.MissingMessageNamesResource` | lib/validator/api/resource_tracker.rb:146 | Two names give the same default message only when they are equal, or when one is `nil` and the other empty (`nil` interpolates as ""). |
| `Tracker.ConsumeAfterAppend` | lib/validator/api/resource_tracker.rb:146-153 | A newly produced name can be consumed. A name already in use keeps its earlier record, so the first producer wins. |
| `Tracker.ResourceTracker.constructor` | lib/validator/api/resource_tracker.rb:86-88 | A new tracker holds no records. |
| `Tracker.ResourceTracker.Resources` | lib/validator/api/resource_tracker.rb:161-165 | `resources` fails exactly when some tracked record's wait gives up. Otherwise it is a subsequence of `@resources`, and a tracked record is in it exactly when its `get_ready` returns a resource. |
| `Tracker.ResourceTracker.Count` | lib/validator/api/resource_tracker.rb:90-92 | `count` is the length of the live view, at most the number of tracked records. It fails exactly when `resources` fails. |
| `Tracker.InvalidTypeMessage` | lib/validator/api/resource_tracker.rb:113 | The `ArgumentError` message, which lists `resource_types`. It has no contract of its own; `InvalidTypeMessageInjective` states what it says. |
| `Tracker.InvalidTypeMessageInjective` | lib/validator/api/resource_tracker.rb:113 | Different types give different messages, so the message names the rejected type. |
| `Tracker.ResourceTracker.Produce` | lib/validator/api/resource_tracker.rb:109-132 | An unknown type fails with the `ArgumentError` message and leaves `@resources` unchanged. Without a block, `produce` returns nil and records nothing. With a block yielding X and a found resource, it appends exactly `{type, X, provide_as, name, description}` and returns X. A nil or timed-out fetch fails and records nothing. Earlier records are never touched, and only known types are ever recorded. |
| `Tracker.ResourceTracker.Cleanup` | lib/validator/api/resource_tracker.rb:155-159 | If `resources` fails, cleanup fails the same way and destroys nothing. Otherwise the live records are destroyed in order. A destroy that raises ends cleanup at that record, with the earlier destroys done. Otherwise every live record is attempted once, and the result is true exactly when every destroy returned a truthy value, so an empty tracker gives true. |
| `Tracker.DestroyAll` | lib/validator/api/resource_tracker.rb:155-158 | `map { destroy }.all?` over the live records: the calls form a prefix of the records. They stop right after the first destroy that raises. Otherwise the result is the conjunction of the results. |
| `Tracker.CleanupStopsAtFirstRaise` | lib/validator/api/resource_tracker.rb:155-158 | When the destroy of live record k raises and every earlier destroy returned, cleanup fails naming record k, and exactly records 0 to k were attempted. |
| `Tracker.AllTruthy` | lib/validator/api/resource_tracker.rb:158 | `all?` is true exactly when every collected result is truthy. |
| `Scenarios.LightStemcellLifecycle` | lib/validator/api/resource_tracker.rb:42-55 | A light stemcell that the provider does not know is found under the name "light_stemcell_", live, and destroyed successfully through `delete_stemcell`. |

## Left out

- The OpenStack client (`FogOpenStack.send(...).get`, the resource's own `destroy`) and the CPI (`delete_vm`, `delete_stemcell`) are not modelled. They become the `Cloud` oracle.
- Cleanup: one provider snapshot serves a whole call, so one destroy does not change what later lookups in the same call see. For example, a second record with the same type and id is still found after the first was destroyed.
- `ProviderGetReady`: `wait_for`'s polling, interval and timeout are not modelled. The predicate is checked once on the state the oracle reports. An unmet predicate is the `Fog::Errors::TimeoutError` that `wait_for` raises. A resource vanishing mid-wait is not modelled.
- `ResourceTracker.create` (lines 82-84) is RSpec configuration glue, so it is left out. `RSpec.current_example.full_description` becomes the `description` parameter of `Produce`. `Api.skip_test` becomes the `Skipped` result.
- The block of `produce` is its yielded id (`Some(id)`), or `None` when no block is given. An exception raised inside the block is not modelled.
- Ruby symbols and strings are not distinguished. Types and `provide_as` names are strings, so `consumes("db")` matching a record provided as `:db` is not captured. A `nil` `provide_as` is `None`. `consumes(nil)` matches the first unnamed record, as `==` does in Ruby.
- `Valid()` requires that every tracked type is in the catalog. So `FogOpenStack.send(nil)` on an unknown type inside `get_ready` cannot arise: every record comes from `produce`, which checks the type first.
- The text of the `ArgumentError` message is modelled (`InvalidTypeMessage`), but no lemma spells out its full string. `InvalidTypeMessageInjective` only states that it names the type.
- `FetchIn` and `DestroyIn` give `NotFound` and `Raised` for a record of an unknown type. Under `Valid()` no such record exists, so these values are never used.
- `spec/unit/validator/converter_spec.rb` tests `Validator::Converter`, which is not part of this model. `lib/validator.rb` only loads libraries.

## Findings

| source | as written | input that shows it | evidently intended | confidence | as-written member | corrected member |
|---|---|---|---|---|---|---|
| lib/validator/api/resource_tracker.rb:44 | The light-stemcell stub is named `"light_stemcell_#{@id}"`. `@id` is an instance variable no handler ever sets, so it is `nil` and the name is always "light_stemcell_". | id "stem-1 light" gives name "light_stemcell_", and so does "stem-2 light" | `"light_stemcell_#{id}"`: the method's parameter, giving "light_stemcell_stem-1 light" | high; not executed | `Handlers.LightStubNameAsWrittenCollides` | `Handlers.LightStubNameInjective` |

The tracker model follows the code as written: `Handlers.GetReady` names every light stemcell's stub `Handlers.LightStubNameAsWritten`. `Handlers.LightStubName` is the intended name, and `Handlers.LightStubNameInjective` is proved about it.
