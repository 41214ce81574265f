# Resource labels and resource creation in the dcos-commons scheduler

This project models two value-level pieces of the scheduler's offer-evaluation
package (`com.mesosphere.sdk.offer.evaluate`) and proves what they do.

- `ResourceLabels` is an immutable record. It pairs the `original` and the
  `updated` `ResourceSpec` of a resource with the resource's `resourceId` and
  two optional volume identifiers, `persistenceId` and `sourceRoot`. It has
  three constructors and five getters. The two shorter constructors each
  delegate to the next longer one, and the five-argument one stores its
  arguments. It performs no validation. In Dafny it is a `datatype` (module
  `ResourceLabels`). The constructors are the functions `OfSpec`, `OfUpdate`
  and `Of`. The getters are member functions of the datatype.
- `ResourceCreator.getResource` fills a local `Protos.Resource.Builder` from
  the creator's `ResourceSpec`. It copies the name, sets the role to
  `Constants.ANY_ROLE` and copies the value type. It then switches on the type.
  The `RANGES` and `SET` cases have no `break`, so both fall through into
  `default`, which throws `IllegalArgumentException`. Only a `SCALAR` value
  yields a resource. Module `ResourceCreator` models this in two ways:
  - `Exec`, `EntryGroup` and `RunSwitch` execute the switch block as Java
    does. The block is a list of labelled statement groups. Control enters at
    the matching `case` label, or else at `default`. It then runs on through
    later groups until a `break` or a `throw`.
  - `GetResource` is the imperative method. It creates a `ResourceBuilder`
    object (module `Mesos`) and calls its setters step by step. It is proved
    equal to the executable semantics, and its postcondition states the
    outcome for every value type.

Module `Mesos` holds the parts of the Mesos protobuf messages `Value` and
`Resource` that are used. `Value.Type` has the four kinds `SCALAR`, `RANGES`,
`SET` and `TEXT`, so the `default` branch is reachable without a fall-through.
Module `Specification` holds `ResourceSpec` and `ANY_ROLE`.

The constructors do not check that `persistenceId` and `sourceRoot` are
present together, and they accept an empty `resourceId`. As written,
`getResource` rejects `RANGES` and `SET`.

## Model

| member | source | states |
|---|---|---|
| `ResourceLabels.Of` | sdk/scheduler/src/main/java/com/mesosphere/sdk/offer/evaluate/ResourceLabels.java:27-58 | The five-argument constructor stores every argument unchanged. Each getter (`GetOriginal`, `GetUpdated`, `GetResourceId`, `GetPersistenceId`, `GetSourceRoot`) returns its constructor argument exactly, for any combination of present and absent optionals. |
| `ResourceLabels.OfUpdate` | sdk/scheduler/src/main/java/com/mesosphere/sdk/offer/evaluate/ResourceLabels.java:23-25 | The three-argument constructor keeps `original`, `updated` and `resourceId`. Both volume identifiers are empty. |
| `ResourceLabels.OfSpec` | sdk/scheduler/src/main/java/com/mesosphere/sdk/offer/evaluate/ResourceLabels.java:19-21 | The two-argument constructor makes the spec both `original` and `updated`. It keeps `resourceId`, and both volume identifiers are empty. |
| `ResourceLabels.OfSpecDelegates` | sdk/scheduler/src/main/java/com/mesosphere/sdk/offer/evaluate/ResourceLabels.java:19-21 | The two-argument constructor equals the three-argument one with the spec passed twice. |
| `ResourceLabels.ShortFormsHaveNoVolume` | sdk/scheduler/src/main/java/com/mesosphere/sdk/offer/evaluate/ResourceLabels.java:19-25 | Labels from the two- and three-argument constructors satisfy volume-identifier co-presence. |
| `ResourceLabels.FullFormDoesNotEnforceCoPresence` | sdk/scheduler/src/main/java/com/mesosphere/sdk/offer/evaluate/ResourceLabels.java:27-38 | The five-argument constructor accepts a persistence id without a source root, and the reverse. The resulting labels break co-presence, and the id is kept. |
| `ResourceLabels.GettersRebuild` | sdk/scheduler/src/main/java/com/mesosphere/sdk/offer/evaluate/ResourceLabels.java:12-58 | Passing the five getters' results back to the five-argument constructor rebuilds the same labels. The getters expose all of the final fields. |
| `ResourceLabels.EqualIffGettersAgree` | sdk/scheduler/src/main/java/com/mesosphere/sdk/offer/evaluate/ResourceLabels.java:12-58 | The five getters determine the whole state: two labels agree on every field if and only if all five getters agree. The fields are final, so every getter read gives the same result. |
| `Mesos.ResourceBuilder.constructor` | sdk/scheduler/src/main/java/com/mesosphere/sdk/offer/evaluate/ResourceCreator.java:13 | A new builder has no field set. |
| `Mesos.ResourceBuilder.SetName` | sdk/scheduler/src/main/java/com/mesosphere/sdk/offer/evaluate/ResourceCreator.java:16 | Sets the name and changes no other field. |
| `Mesos.ResourceBuilder.SetRole` | sdk/scheduler/src/main/java/com/mesosphere/sdk/offer/evaluate/ResourceCreator.java:17 | Sets the role and changes no other field. |
| `Mesos.ResourceBuilder.SetType` | sdk/scheduler/src/main/java/com/mesosphere/sdk/offer/evaluate/ResourceCreator.java:18 | Sets the value type and changes no other field. |
| `Mesos.ResourceBuilder.SetScalar` | sdk/scheduler/src/main/java/com/mesosphere/sdk/offer/evaluate/ResourceCreator.java:22 | Sets the scalar payload and changes no other field. |
| `Mesos.ResourceBuilder.SetRanges` | sdk/scheduler/src/main/java/com/mesosphere/sdk/offer/evaluate/ResourceCreator.java:25 | Sets the ranges payload and changes no other field. |
| `Mesos.ResourceBuilder.SetSet` | sdk/scheduler/src/main/java/com/mesosphere/sdk/offer/evaluate/ResourceCreator.java:27 | Sets the set payload and changes no other field. |
| `ResourceCreator.StmtsFromCoversLaterGroups` | sdk/scheduler/src/main/java/com/mesosphere/sdk/offer/evaluate/ResourceCreator.java:20-31 | Fall-through (`StmtsFrom`): entering group `k` runs that group's statements first. The statements run contain those of every later group and nothing else. |
| `ResourceCreator.StmtsFromSuffix` | sdk/scheduler/src/main/java/com/mesosphere/sdk/offer/evaluate/ResourceCreator.java:20-31 | Order: the statements run from a later group `j` are exactly the tail of those run from an earlier group `k`. The run from `k` is as long as group `k`'s body plus the run from `k + 1`. With the prefix fact of `StmtsFromCoversLaterGroups`, this makes the run group `k`'s body followed by the run from `k + 1`: the groups' bodies concatenated in block order. |
| `ResourceCreator.FindLabel` | sdk/scheduler/src/main/java/com/mesosphere/sdk/offer/evaluate/ResourceCreator.java:20-31 | Returns the first group carrying the label, or the end of the block when no group carries it. |
| `ResourceCreator.EntryGroup` | sdk/scheduler/src/main/java/com/mesosphere/sdk/offer/evaluate/ResourceCreator.java:20-31 | A switch on a type enters at that type's `case` label when one exists. Otherwise it enters at `default`. It enters past the end only when there is no `default`. |
| `ResourceCreator.Exec` | sdk/scheduler/src/main/java/com/mesosphere/sdk/offer/evaluate/ResourceCreator.java:20-31 | Statements in the switch never change the name, role or type. A throw always raises the unsupported-type error for the value's type, and only statements that contain a `throw` can throw. |
| `ResourceCreator.ExecThrowsIffReached` | sdk/scheduler/src/main/java/com/mesosphere/sdk/offer/evaluate/ResourceCreator.java:20-31 | A run of switch statements throws if and only if some `throw` has no `break` before it. |
| `ResourceCreator.ExecThrowsWithoutBreak` | sdk/scheduler/src/main/java/com/mesosphere/sdk/offer/evaluate/ResourceCreator.java:24-30 | Statements that contain a `throw` and no `break` always end by throwing. Writes made on the way are discarded. |
| `ResourceCreator.SetterThenBreak` | sdk/scheduler/src/main/java/com/mesosphere/sdk/offer/evaluate/ResourceCreator.java:21-23 | A setter followed by `break` completes normally with only that setter's write. |
| `ResourceCreator.SwitchEntryPoints` | sdk/scheduler/src/main/java/com/mesosphere/sdk/offer/evaluate/ResourceCreator.java:20-30 | Gives the statements run for each type by the block as written (`GetResourceSwitch`). `SCALAR` runs `setScalar; break`. `RANGES` runs `setRanges; setSet; throw`. `SET` runs `setSet; throw`. `TEXT` runs `throw`. |
| `ResourceCreator.ScalarCopied` | sdk/scheduler/src/main/java/com/mesosphere/sdk/offer/evaluate/ResourceCreator.java:15-33 | A `SCALAR` spec returns the spec's name, role `ANY_ROLE`, type `SCALAR` and the spec's scalar. Ranges and set stay unset. |
| `ResourceCreator.RangesFallsThroughToDefault` | sdk/scheduler/src/main/java/com/mesosphere/sdk/offer/evaluate/ResourceCreator.java:24-30 | A `RANGES` spec falls through `SET` into `default` and always raises the unsupported-type error. |
| `ResourceCreator.SetFallsThroughToDefault` | sdk/scheduler/src/main/java/com/mesosphere/sdk/offer/evaluate/ResourceCreator.java:26-30 | A `SET` spec falls through into `default` and always raises the unsupported-type error. |
| `ResourceCreator.OnlyScalarReturns` | sdk/scheduler/src/main/java/com/mesosphere/sdk/offer/evaluate/ResourceCreator.java:20-33 | `getResource` returns if and only if the type is `SCALAR`. Any other type raises the unsupported-type error naming that type. |
| `ResourceCreator.Prologue` | sdk/scheduler/src/main/java/com/mesosphere/sdk/offer/evaluate/ResourceCreator.java:13-18 | Before the switch, the fresh builder holds the spec's name, role `ANY_ROLE` and the spec value's type. No payload is set yet. |
| `ResourceCreator.RunSwitch` | sdk/scheduler/src/main/java/com/mesosphere/sdk/offer/evaluate/ResourceCreator.java:11-34 | For any switch block: a returned resource has the spec's name, role `ANY_ROLE` and the spec value's type, and a throw raises the unsupported-type error naming the spec value's type. |
| `ResourceCreator.RunGetResource` | sdk/scheduler/src/main/java/com/mesosphere/sdk/offer/evaluate/ResourceCreator.java:11-34 | `getResource` as written (block `GetResourceSwitch`): a returned resource has the spec's name, role `ANY_ROLE` and the spec value's type. A throw raises the unsupported-type error for that type. |
| `ResourceCreator.SpecRoleIgnored` | sdk/scheduler/src/main/java/com/mesosphere/sdk/offer/evaluate/ResourceCreator.java:16-17 | The spec's own role has no effect on the outcome. |
| `ResourceCreator.GetResource` | sdk/scheduler/src/main/java/com/mesosphere/sdk/offer/evaluate/ResourceCreator.java:11-34 | The builder method agrees with the switch semantics. It succeeds if and only if the type is `SCALAR`. It then returns exactly the name, `ANY_ROLE`, `SCALAR` and the scalar, with ranges and set unset. Otherwise it raises the unsupported-type error. |
| `ResourceCreator.IntendedEntryPoints` | sdk/scheduler/src/main/java/com/mesosphere/sdk/offer/evaluate/ResourceCreator.java:20-31 | With a `break` after each case, every supported type runs its own setter and then `break`. |
| `ResourceCreator.GetResourceIntended` | sdk/scheduler/src/main/java/com/mesosphere/sdk/offer/evaluate/ResourceCreator.java:20-31 | The corrected switch succeeds if and only if the type is not `TEXT`. The result has the spec's name, `ANY_ROLE` and its type. Exactly the matching payload is copied, and the other two stay unset. |
| `ResourceCreator.PortsRangeRejectedAsWritten` | sdk/scheduler/src/main/java/com/mesosphere/sdk/offer/evaluate/ResourceCreator.java:24-30 | A `ports` spec with range 8080-8080 is rejected as written. The corrected switch returns that range. |

## Left out

- `ResourceLabels.toString` (ResourceLabels.java:60-63) is reflection-based formatting in a third-party library. It is not modelled.
- `getResourceSpec()` is an abstract method implemented elsewhere. Its result is the `spec` parameter of `GetResource`.
- `GetResource` returns the builder's final state as a `Resource` value. The Java code returns the `Builder` object itself. The model does not capture aliasing of that object, which the caller receives freshly made.
- `Constants.ANY_ROLE` is not part of this model. It is a constant whose value is left unspecified.
- `ResourceSpec` holds only the name, value and role that `getResource` reads. The rest of the interface is not part of this model.
- Mesos `Value` and `Resource` hold only the fields used. An input `Value` is seen through its getters, so whether a payload is actually present on the input is not modelled.
- Scalars are doubles in the protobuf. They are kept as their 64-bit patterns and only copied, so no floating-point behaviour is modelled.
- The range bounds are `uint64` in the protobuf. Here they are unbounded naturals and are only copied.
- The `IllegalArgumentException` message is represented by its argument, the value type. The formatted string is not modelled.
- `ResourceLabels` does not override `equals` or `hashCode`. Java therefore compares two labels by object identity, even when they were built from the same arguments. The datatype model compares by value and does not capture that identity.
- Null arguments are not modelled. In Java, any constructor argument of `ResourceLabels` may be `null`, and the getters then return `null`. A spec whose name is `null` makes `setName` (ResourceCreator.java:16) throw `NullPointerException`. In the model every string, spec and optional is a present value.

## Findings

| source | as written | input that shows it | evidently intended | confidence | as-written member | corrected member |
|---|---|---|---|---|---|---|
| sdk/scheduler/src/main/java/com/mesosphere/sdk/offer/evaluate/ResourceCreator.java:24-30 | `case RANGES` and `case SET` have no `break`. Both fall through into `default` and throw, and their `setRanges`/`setSet` writes are thrown away. | A spec named `ports` with type `RANGES` and the range 8080-8080 raises "Unsupported spec value type: RANGES". | Each supported type returns a resource with only its own payload copied. Only an unknown type throws. | medium, not executed | `ResourceCreator.PortsRangeRejectedAsWritten` | `ResourceCreator.GetResourceIntended` |

The imperative model `GetResource` follows the code as written. The corrected switch is stated beside it, with its properties proved.
