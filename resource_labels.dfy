/**
 * `ResourceLabels`: pairs a resource specification with the labels an
 * existing task already carries for that resource. It is an immutable value:
 * every field is assigned once, by one of three constructors, and only read
 * afterwards. The constructors check nothing.
 */
module ResourceLabels {
  import opened Wrappers
  import opened Specification

  datatype ResourceLabels = ResourceLabels(
    original: ResourceSpec,
    updated: ResourceSpec,
    resourceId: string,
    persistenceId: Option<string>,
    sourceRoot: Option<string>)
  {
    function GetOriginal(): ResourceSpec { original }
    function GetUpdated(): ResourceSpec { updated }
    function GetResourceId(): string { resourceId }
    function GetPersistenceId(): Option<string> { persistenceId }
    function GetSourceRoot(): Option<string> { sourceRoot }

    /** Both volume identifiers are present, or both are absent. */
    predicate VolumeIdsCoPresent() {
      persistenceId.Some? <==> sourceRoot.Some?
    }
  }

  /**
   * The five-argument constructor: stores every argument as given. Any
   * combination of present and absent optionals is accepted.
   */
  function Of(original: ResourceSpec, updated: ResourceSpec, resourceId: string,
              persistenceId: Option<string>, sourceRoot: Option<string>): (l: ResourceLabels)
    ensures l.GetOriginal() == original && l.GetUpdated() == updated
    ensures l.GetResourceId() == resourceId
    ensures l.GetPersistenceId() == persistenceId && l.GetSourceRoot() == sourceRoot
  {
    ResourceLabels(original, updated, resourceId, persistenceId, sourceRoot)
  }

  /** The three-argument constructor: an update of a resource with no volume. */
  function OfUpdate(original: ResourceSpec, updated: ResourceSpec, resourceId: string): (l: ResourceLabels)
    ensures l.GetOriginal() == original && l.GetUpdated() == updated
    ensures l.GetResourceId() == resourceId
    ensures l.GetPersistenceId() == None && l.GetSourceRoot() == None
  {
    Of(original, updated, resourceId, None, None)
  }

  /** The two-argument constructor: the specification is both original and updated. */
  function OfSpec(resourceSpec: ResourceSpec, resourceId: string): (l: ResourceLabels)
    ensures l.GetOriginal() == resourceSpec && l.GetUpdated() == resourceSpec
    ensures l.GetResourceId() == resourceId
    ensures l.GetPersistenceId() == None && l.GetSourceRoot() == None
  {
    OfUpdate(resourceSpec, resourceSpec, resourceId)
  }

  /** The two-argument constructor is the three-argument one with the spec twice. */
  lemma OfSpecDelegates(resourceSpec: ResourceSpec, resourceId: string)
    ensures OfSpec(resourceSpec, resourceId) == OfUpdate(resourceSpec, resourceSpec, resourceId)
  {
  }

  /** The shorter constructors always produce labels with no volume identifiers. */
  lemma ShortFormsHaveNoVolume(original: ResourceSpec, updated: ResourceSpec, resourceId: string)
    ensures OfSpec(original, resourceId).VolumeIdsCoPresent()
    ensures OfUpdate(original, updated, resourceId).VolumeIdsCoPresent()
  {
  }

  /**
   * No co-presence check: the full constructor keeps a persistence id without
   * a source root (and the reverse), giving labels that break co-presence.
   */
  lemma FullFormDoesNotEnforceCoPresence(original: ResourceSpec, updated: ResourceSpec,
                                         resourceId: string, id: string)
    ensures !Of(original, updated, resourceId, Some(id), None).VolumeIdsCoPresent()
    ensures !Of(original, updated, resourceId, None, Some(id)).VolumeIdsCoPresent()
    ensures Of(original, updated, resourceId, Some(id), None).GetPersistenceId() == Some(id)
  {
  }

  /**
   * Reading the five getters and passing them back to the full constructor
   * rebuilds the same labels: the getters expose the whole state.
   */
  lemma GettersRebuild(l: ResourceLabels)
    ensures Of(l.GetOriginal(), l.GetUpdated(), l.GetResourceId(),
               l.GetPersistenceId(), l.GetSourceRoot()) == l
  {
  }

  /** Two labels are the same value exactly when all five getters agree. */
  lemma EqualIffGettersAgree(a: ResourceLabels, b: ResourceLabels)
    ensures a == b <==>
      (a.GetOriginal() == b.GetOriginal() && a.GetUpdated() == b.GetUpdated() &&
       a.GetResourceId() == b.GetResourceId() &&
       a.GetPersistenceId() == b.GetPersistenceId() && a.GetSourceRoot() == b.GetSourceRoot())
  {
  }
}
