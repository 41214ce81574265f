/**
 * `ResourceCreator.getResource`: builds a Mesos `Resource` from the creator's
 * resource specification. It copies the name, forces the role to
 * `ANY_ROLE`, copies the value type and then dispatches on that type in a
 * Java `switch` whose `RANGES` and `SET` cases have no `break`: both fall
 * through into `default`, which throws. Only a `SCALAR` value yields a
 * resource.
 *
 * The switch block is modelled twice: as Java executes it (a list of labelled
 * statement groups, entered at the matching label and run with fall-through
 * until a `break` or a `throw`), and as the imperative method `GetResource`
 * over a `ResourceBuilder`, which is proved to agree with it.
 */
module ResourceCreator {
  import opened Wrappers
  import opened Mesos
  import opened Specification

  /** `IllegalArgumentException("Unsupported spec value type: %s")`. */
  datatype Error = UnsupportedSpecValueType(valueType: ValueType)

  /** The statements that occur in the switch block. */
  datatype Stmt = SetScalar | SetRanges | SetSet | Break | ThrowUnsupported

  /** A switch label: `case T:` or `default:`. */
  datatype Label = Case(valueType: ValueType) | Default

  /** A label with the statements written after it, up to the next label. */
  datatype Group = Group(switchLabel: Label, body: seq<Stmt>)

  /** The switch block of `getResource`, as written. */
  const GetResourceSwitch: seq<Group> := [
    Group(Case(SCALAR), [SetScalar, Break]),
    Group(Case(RANGES), [SetRanges]),
    Group(Case(SET), [SetSet]),
    Group(Default, [ThrowUnsupported])
  ]

  /** The index of the first group from `from` on that carries `target`, or `|groups|`. */
  function FindLabel(groups: seq<Group>, target: Label, from: nat): (k: nat)
    requires from <= |groups|
    ensures from <= k <= |groups|
    ensures k < |groups| ==> groups[k].switchLabel == target
    ensures forall j :: from <= j < k ==> groups[j].switchLabel != target
    decreases |groups| - from
  {
    if from == |groups| then from
    else if groups[from].switchLabel == target then from
    else FindLabel(groups, target, from + 1)
  }

  /**
   * Where execution of a switch on `t` enters the block: the group labelled
   * `case t`, otherwise the `default` group, otherwise past the end.
   */
  function EntryGroup(groups: seq<Group>, t: ValueType): (k: nat)
    ensures k <= |groups|
    ensures k < |groups| ==> groups[k].switchLabel == Case(t) || groups[k].switchLabel == Default
    ensures (exists j :: 0 <= j < |groups| && groups[j].switchLabel == Case(t)) ==>
              k < |groups| && groups[k].switchLabel == Case(t)
    ensures k == |groups| ==> forall j :: 0 <= j < |groups| ==> groups[j].switchLabel != Default
  {
    var c := FindLabel(groups, Case(t), 0);
    if c < |groups| then c else FindLabel(groups, Default, 0)
  }

  /** The statements of groups `k..` in order: what runs once control enters group `k`. */
  function StmtsFrom(groups: seq<Group>, k: nat): seq<Stmt>
    requires k <= |groups|
    decreases |groups| - k
  {
    if k == |groups| then [] else groups[k].body + StmtsFrom(groups, k + 1)
  }

  /**
   * Fall-through: once control enters group `k`, its own statements come
   * first, the statements of every later group follow, and nothing else.
   */
  lemma {:induction false} StmtsFromCoversLaterGroups(groups: seq<Group>, k: nat)
    requires k <= |groups|
    ensures k < |groups| ==>
              |groups[k].body| <= |StmtsFrom(groups, k)| &&
              StmtsFrom(groups, k)[..|groups[k].body|] == groups[k].body
    ensures forall j, s :: k <= j < |groups| && s in groups[j].body ==> s in StmtsFrom(groups, k)
    ensures forall s :: s in StmtsFrom(groups, k) ==>
              exists j :: k <= j < |groups| && s in groups[j].body
    decreases |groups| - k
  {
    if k < |groups| {
      StmtsFromCoversLaterGroups(groups, k + 1);
    }
  }

  /**
   * Order: the statements run from group `j` are exactly the tail of those
   * run from any earlier group `k`, and group `k` adds only its own body to
   * the length. With the prefix fact of `StmtsFromCoversLaterGroups`, the
   * run from `k` is group `k`'s body followed by the run from `k + 1`.
   */
  lemma {:induction false} StmtsFromSuffix(groups: seq<Group>, k: nat, j: nat)
    requires k <= j <= |groups|
    ensures |StmtsFrom(groups, j)| <= |StmtsFrom(groups, k)|
    ensures StmtsFrom(groups, k)[|StmtsFrom(groups, k)| - |StmtsFrom(groups, j)|..] == StmtsFrom(groups, j)
    ensures k < |groups| ==> |StmtsFrom(groups, k)| == |groups[k].body| + |StmtsFrom(groups, k + 1)|
    decreases j - k
  {
    if k < j {
      StmtsFromSuffix(groups, k + 1, j);
      var whole := StmtsFrom(groups, k);
      var next := StmtsFrom(groups, k + 1);
      assert whole == groups[k].body + next;
      assert whole[|whole| - |next|..] == next;
    }
  }

  /** How a run of statements ends: normally, with the builder's state, or by a throw. */
  datatype Completion = Normal(resource: Resource) | Abrupt(error: Error)

  /**
   * Runs `stmts` from builder state `r` on value `v`: each setter writes its
   * payload field, `break` leaves the switch, `throw` abandons the builder.
   */
  function Exec(stmts: seq<Stmt>, r: Resource, v: Value): (c: Completion)
    ensures c.Normal? ==>
              c.resource.name == r.name && c.resource.role == r.role &&
              c.resource.valueType == r.valueType
    ensures c.Abrupt? ==> c.error == UnsupportedSpecValueType(v.valueType)
    ensures c.Abrupt? ==> ThrowUnsupported in stmts
    decreases |stmts|
  {
    if stmts == [] then Normal(r)
    else match stmts[0]
      case Break => Normal(r)
      case ThrowUnsupported => Abrupt(UnsupportedSpecValueType(v.valueType))
      case SetScalar => Exec(stmts[1..], r.(scalar := Some(v.scalar)), v)
      case SetRanges => Exec(stmts[1..], r.(ranges := Some(v.ranges)), v)
      case SetSet => Exec(stmts[1..], r.(valueSet := Some(v.valueSet)), v)
  }

  /** Statements that reach a `throw` with no `break` on the way always throw. */
  lemma {:induction false} ExecThrowsWithoutBreak(stmts: seq<Stmt>, r: Resource, v: Value)
    requires ThrowUnsupported in stmts && Break !in stmts
    ensures Exec(stmts, r, v) == Abrupt(UnsupportedSpecValueType(v.valueType))
    decreases |stmts|
  {
    if stmts[0] != ThrowUnsupported {
      assert ThrowUnsupported in stmts[1..] && Break !in stmts[1..] by {
        assert stmts == [stmts[0]] + stmts[1..];
      }
      match stmts[0]
      case SetScalar => ExecThrowsWithoutBreak(stmts[1..], r.(scalar := Some(v.scalar)), v);
      case SetRanges => ExecThrowsWithoutBreak(stmts[1..], r.(ranges := Some(v.ranges)), v);
      case SetSet => ExecThrowsWithoutBreak(stmts[1..], r.(valueSet := Some(v.valueSet)), v);
    }
  }

  /**
   * A run throws exactly when it reaches a `throw` before any `break`: some
   * `throw` has no `break` ahead of it.
   */
  lemma {:induction false} ExecThrowsIffReached(stmts: seq<Stmt>, r: Resource, v: Value)
    ensures Exec(stmts, r, v).Abrupt? <==>
              exists i :: 0 <= i < |stmts| && stmts[i] == ThrowUnsupported && Break !in stmts[..i]
    decreases |stmts|
  {
    if stmts != [] {
      var tail := stmts[1..];
      var r' := match stmts[0]
        case SetScalar => r.(scalar := Some(v.scalar))
        case SetRanges => r.(ranges := Some(v.ranges))
        case SetSet => r.(valueSet := Some(v.valueSet))
        case _ => r;
      match stmts[0]
      case ThrowUnsupported =>
        assert stmts[..0] == [];
      case Break =>
        forall i | 0 <= i < |stmts| && stmts[i] == ThrowUnsupported
          ensures Break in stmts[..i]
        {
          assert stmts[..i][0] == Break;
        }
      case _ =>
        ExecThrowsIffReached(tail, r', v);
        assert Exec(stmts, r, v) == Exec(tail, r', v);
        if Exec(tail, r', v).Abrupt? {
          var i :| 0 <= i < |tail| && tail[i] == ThrowUnsupported && Break !in tail[..i];
          assert stmts[..i + 1] == [stmts[0]] + tail[..i];
          assert stmts[i + 1] == ThrowUnsupported && Break !in stmts[..i + 1];
        } else {
          forall i | 0 <= i < |stmts| && stmts[i] == ThrowUnsupported
            ensures Break in stmts[..i]
          {
            assert i > 0;
            assert stmts[..i] == [stmts[0]] + tail[..i - 1];
            assert tail[i - 1] == ThrowUnsupported;
          }
        }
    }
  }

  /** A setter followed by `break` completes with just that setter's write. */
  lemma SetterThenBreak(s: Stmt, rest: seq<Stmt>, r: Resource, v: Value)
    requires s == SetScalar || s == SetRanges || s == SetSet
    ensures Exec([s, Break] + rest, r, v) == Normal(
      match s
      case SetScalar => r.(scalar := Some(v.scalar))
      case SetRanges => r.(ranges := Some(v.ranges))
      case _ => r.(valueSet := Some(v.valueSet)))
  {
  }

  /** The builder after `setName`, `setRole(ANY_ROLE)` and `setType`, before the switch. */
  function Prologue(spec: ResourceSpec): (r: Resource)
    ensures r.name == Some(spec.name) && r.role == Some(ANY_ROLE)
    ensures r.valueType == Some(spec.value.valueType)
    ensures r.scalar == None && r.ranges == None && r.valueSet == None
  {
    Unset.(name := Some(spec.name), role := Some(ANY_ROLE), valueType := Some(spec.value.valueType))
  }

  /** `getResource` with the given switch block: the prologue, the switch, then `return builder`. */
  function RunSwitch(groups: seq<Group>, spec: ResourceSpec): (r: Result<Resource, Error>)
    ensures r.Ok? ==>
              r.value.name == Some(spec.name) && r.value.role == Some(ANY_ROLE) &&
              r.value.valueType == Some(spec.value.valueType)
    ensures r.Err? ==> r.error == UnsupportedSpecValueType(spec.value.valueType)
  {
    match Exec(StmtsFrom(groups, EntryGroup(groups, spec.value.valueType)), Prologue(spec), spec.value)
    case Normal(r) => Ok(r)
    case Abrupt(e) => Err(e)
  }

  /** `getResource` as written. */
  function RunGetResource(spec: ResourceSpec): (r: Result<Resource, Error>)
    ensures r.Ok? ==>
              r.value.name == Some(spec.name) && r.value.role == Some(ANY_ROLE) &&
              r.value.valueType == Some(spec.value.valueType)
    ensures r.Err? ==> r.error == UnsupportedSpecValueType(spec.value.valueType)
  {
    RunSwitch(GetResourceSwitch, spec)
  }

  /**
   * Where each value type enters the switch as written, and what then runs:
   * `RANGES` runs on through `setSet` into `default`.
   */
  lemma SwitchEntryPoints()
    ensures StmtsFrom(GetResourceSwitch, EntryGroup(GetResourceSwitch, SCALAR))
            == [SetScalar, Break, SetRanges, SetSet, ThrowUnsupported]
    ensures StmtsFrom(GetResourceSwitch, EntryGroup(GetResourceSwitch, RANGES))
            == [SetRanges, SetSet, ThrowUnsupported]
    ensures StmtsFrom(GetResourceSwitch, EntryGroup(GetResourceSwitch, SET))
            == [SetSet, ThrowUnsupported]
    ensures StmtsFrom(GetResourceSwitch, EntryGroup(GetResourceSwitch, TEXT))
            == [ThrowUnsupported]
  {
  }

  /** A `SCALAR` value yields the spec's name, role `ANY_ROLE`, type `SCALAR` and its scalar only. */
  lemma ScalarCopied(spec: ResourceSpec)
    requires spec.value.valueType == SCALAR
    ensures RunGetResource(spec) ==
            Ok(Resource(Some(spec.name), Some(ANY_ROLE), Some(SCALAR), Some(spec.value.scalar), None, None))
  {
    SwitchEntryPoints();
    SetterThenBreak(SetScalar, [SetRanges, SetSet, ThrowUnsupported], Prologue(spec), spec.value);
  }

  /** A `RANGES` value falls through `SET` into `default` and throws. */
  lemma RangesFallsThroughToDefault(spec: ResourceSpec)
    requires spec.value.valueType == RANGES
    ensures RunGetResource(spec) == Err(UnsupportedSpecValueType(RANGES))
  {
    SwitchEntryPoints();
    ExecThrowsWithoutBreak([SetRanges, SetSet, ThrowUnsupported], Prologue(spec), spec.value);
  }

  /** A `SET` value falls through into `default` and throws. */
  lemma SetFallsThroughToDefault(spec: ResourceSpec)
    requires spec.value.valueType == SET
    ensures RunGetResource(spec) == Err(UnsupportedSpecValueType(SET))
  {
    SwitchEntryPoints();
    ExecThrowsWithoutBreak([SetSet, ThrowUnsupported], Prologue(spec), spec.value);
  }

  /** Only a `SCALAR` value returns normally; every other type raises the same error. */
  lemma OnlyScalarReturns(spec: ResourceSpec)
    ensures RunGetResource(spec).Ok? <==> spec.value.valueType == SCALAR
    ensures RunGetResource(spec).Err? ==>
              RunGetResource(spec).error == UnsupportedSpecValueType(spec.value.valueType)
  {
    SwitchEntryPoints();
    match spec.value.valueType
    case SCALAR => ScalarCopied(spec);
    case RANGES => RangesFallsThroughToDefault(spec);
    case SET => SetFallsThroughToDefault(spec);
    case TEXT =>
  }

  /** The role carried by the spec has no effect on the outcome. */
  lemma SpecRoleIgnored(spec: ResourceSpec, otherRole: string)
    ensures RunGetResource(spec.(role := otherRole)) == RunGetResource(spec)
  {
  }

  /**
   * `getResource`, imperatively: a local builder is filled in step by step.
   * Dafny has no fall-through, so the shared tail of the `RANGES` and `SET`
   * cases is written as guarded steps before the `default` throw. Java
   * returns the builder itself; here its final state is returned.
   */
  method GetResource(spec: ResourceSpec) returns (r: Result<Resource, Error>)
    ensures r == RunGetResource(spec)
    ensures r.Ok? <==> spec.value.valueType == SCALAR
    ensures r.Ok? ==>
              r.value == Resource(Some(spec.name), Some(ANY_ROLE), Some(SCALAR), Some(spec.value.scalar), None, None)
    ensures r.Err? ==> r.error == UnsupportedSpecValueType(spec.value.valueType)
  {
    var resourceValue := spec.value;
    var builder := new ResourceBuilder();
    builder.SetName(spec.name);
    builder.SetRole(ANY_ROLE);
    builder.SetType(resourceValue.valueType);
    assert builder.Current() == Prologue(spec);

    var t := resourceValue.valueType;
    if t == SCALAR {
      builder.SetScalar(resourceValue.scalar);
      ScalarCopied(spec);
    } else {
      if t == RANGES {
        builder.SetRanges(resourceValue.ranges);
      }
      if t == RANGES || t == SET {
        builder.SetSet(resourceValue.valueSet);
      }
      OnlyScalarReturns(spec);
      return Err(UnsupportedSpecValueType(t));
    }
    return Ok(builder.Current());
  }

  /** The switch block with the `break`s that `RANGES` and `SET` evidently need. */
  const IntendedSwitch: seq<Group> := [
    Group(Case(SCALAR), [SetScalar, Break]),
    Group(Case(RANGES), [SetRanges, Break]),
    Group(Case(SET), [SetSet, Break]),
    Group(Default, [ThrowUnsupported])
  ]

  /** Where each value type enters the corrected switch, and what then runs. */
  lemma IntendedEntryPoints()
    ensures StmtsFrom(IntendedSwitch, EntryGroup(IntendedSwitch, SCALAR))
            == [SetScalar, Break, SetRanges, Break, SetSet, Break, ThrowUnsupported]
    ensures StmtsFrom(IntendedSwitch, EntryGroup(IntendedSwitch, RANGES))
            == [SetRanges, Break, SetSet, Break, ThrowUnsupported]
    ensures StmtsFrom(IntendedSwitch, EntryGroup(IntendedSwitch, SET))
            == [SetSet, Break, ThrowUnsupported]
    ensures StmtsFrom(IntendedSwitch, EntryGroup(IntendedSwitch, TEXT))
            == [ThrowUnsupported]
  {
  }

  /**
   * `getResource` with one case per value type and no fall-through: each
   * supported type returns a resource with exactly its own payload copied.
   */
  function GetResourceIntended(spec: ResourceSpec): (r: Result<Resource, Error>)
    ensures r.Ok? <==> spec.value.valueType != TEXT
    ensures r.Err? ==> r.error == UnsupportedSpecValueType(spec.value.valueType)
    ensures r.Ok? ==>
              r.value.name == Some(spec.name) && r.value.role == Some(ANY_ROLE) &&
              r.value.valueType == Some(spec.value.valueType)
    ensures r.Ok? ==>
              r.value.scalar == (if spec.value.valueType == SCALAR then Some(spec.value.scalar) else None) &&
              r.value.ranges == (if spec.value.valueType == RANGES then Some(spec.value.ranges) else None) &&
              r.value.valueSet == (if spec.value.valueType == SET then Some(spec.value.valueSet) else None)
  {
    IntendedEntryPoints();
    match spec.value.valueType
    case SCALAR =>
      SetterThenBreak(SetScalar, [SetRanges, Break, SetSet, Break, ThrowUnsupported], Prologue(spec), spec.value);
      RunSwitch(IntendedSwitch, spec)
    case RANGES =>
      SetterThenBreak(SetRanges, [SetSet, Break, ThrowUnsupported], Prologue(spec), spec.value);
      RunSwitch(IntendedSwitch, spec)
    case SET =>
      SetterThenBreak(SetSet, [ThrowUnsupported], Prologue(spec), spec.value);
      RunSwitch(IntendedSwitch, spec)
    case TEXT =>
      RunSwitch(IntendedSwitch, spec)
  }

  /**
   * The discrepancy on a concrete input: a `ports` spec with the range
   * 8080-8080 is rejected as written, and yields that range once the
   * `break`s are in place.
   */
  lemma PortsRangeRejectedAsWritten()
    ensures var ports := ResourceSpec("ports",
              Value(RANGES, Scalar(0), Ranges([Range(8080, 8080)]), ValueSet([]), Text("")), "*");
            RunGetResource(ports) == Err(UnsupportedSpecValueType(RANGES)) &&
            GetResourceIntended(ports).Ok? &&
            GetResourceIntended(ports).value.ranges == Some(Ranges([Range(8080, 8080)]))
  {
  }
}
