/**
 * The parts of the Apache Mesos protobuf messages `Value` and `Resource`
 * (mesos.proto) that the resource creator reads and writes, together with
 * the mutable `Protos.Resource.Builder` it fills in.
 */
module Mesos {
  import opened Wrappers

  /** `Value.Type`: the kind of quantity a value carries. */
  datatype ValueType = SCALAR | RANGES | SET | TEXT

  /**
   * `Value.Scalar`: a double, kept as its IEEE 754 bit pattern. It is only
   * ever copied, so no floating-point arithmetic is modelled.
   */
  datatype Scalar = Scalar(bits: bv64)

  /** `Value.Range`: an inclusive interval of unsigned integers. */
  datatype Range = Range(begin: nat, end: nat)

  /** `Value.Ranges`: a repeated list of ranges. */
  datatype Ranges = Ranges(range: seq<Range>)

  /** `Value.Set`: a repeated list of items. */
  datatype ValueSet = ValueSet(item: seq<string>)

  /** `Value.Text`. */
  datatype Text = Text(value: string)

  /**
   * `Value` as its getters see it: a type tag and one payload per kind.
   * A protobuf getter always yields a message (the default instance when the
   * field is unset), so every payload is present here.
   */
  datatype Value = Value(valueType: ValueType, scalar: Scalar, ranges: Ranges,
                         valueSet: ValueSet, text: Text)

  /**
   * The fields of a `Resource` that the creator touches; `None` means the
   * field has not been set on the builder.
   */
  datatype Resource = Resource(name: Option<string>, role: Option<string>,
                               valueType: Option<ValueType>, scalar: Option<Scalar>,
                               ranges: Option<Ranges>, valueSet: Option<ValueSet>)

  /** What `Protos.Resource.newBuilder()` starts from: nothing set. */
  const Unset := Resource(None, None, None, None, None, None)

  /** `Protos.Resource.Builder`: a mutable record updated field by field. */
  class ResourceBuilder {
    var name: Option<string>
    var role: Option<string>
    var valueType: Option<ValueType>
    var scalar: Option<Scalar>
    var ranges: Option<Ranges>
    var valueSet: Option<ValueSet>

    /** The resource the builder currently describes. */
    function Current(): Resource
      reads this
    {
      Resource(name, role, valueType, scalar, ranges, valueSet)
    }

    /** `Protos.Resource.newBuilder()`. */
    constructor ()
      ensures Current() == Unset
    {
      name, role, valueType := None, None, None;
      scalar, ranges, valueSet := None, None, None;
    }

    method SetName(n: string)
      modifies this
      ensures Current() == old(Current()).(name := Some(n))
    {
      name := Some(n);
    }

    method SetRole(r: string)
      modifies this
      ensures Current() == old(Current()).(role := Some(r))
    {
      role := Some(r);
    }

    method SetType(t: ValueType)
      modifies this
      ensures Current() == old(Current()).(valueType := Some(t))
    {
      valueType := Some(t);
    }

    method SetScalar(s: Scalar)
      modifies this
      ensures Current() == old(Current()).(scalar := Some(s))
    {
      scalar := Some(s);
    }

    method SetRanges(rs: Ranges)
      modifies this
      ensures Current() == old(Current()).(ranges := Some(rs))
    {
      ranges := Some(rs);
    }

    method SetSet(s: ValueSet)
      modifies this
      ensures Current() == old(Current()).(valueSet := Some(s))
    {
      valueSet := Some(s);
    }
  }
}
