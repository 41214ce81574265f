/** The scheduler's declarative resource requirement, as far as this model reads it. */
module Specification {
  import Mesos

  /** `ResourceSpec`: a named requirement with a typed value and a role. */
  datatype ResourceSpec = ResourceSpec(name: string, value: Mesos.Value, role: string)

  /**
   * `Constants.ANY_ROLE`, the wildcard role. Its value is not part of this
   * model, so it is left unspecified.
   */
  const ANY_ROLE: string
}
