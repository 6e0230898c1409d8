/** The identity and timestamps every entity of the workshop carries.
    Instants are natural numbers; the caller supplies the current one. */
module BaseEntities {

  /** `id` and `createdAt` are fixed at construction; only `updatedAt` has
      a setter. */
  class BaseEntity {
    /** Assigned by the repository; `''` until the entity is saved. */
    const id: string
    const createdAt: nat
    var updatedAt: nat

    constructor (id: string, createdAt: nat, updatedAt: nat)
      ensures this.id == id && this.createdAt == createdAt && this.updatedAt == updatedAt
    {
      this.id := id;
      this.createdAt := createdAt;
      this.updatedAt := updatedAt;
    }

    /** The `updatedAt` setter: the getter then returns exactly `value`. */
    method SetUpdatedAt(value: nat)
      modifies this
      ensures updatedAt == value
    {
      updatedAt := value;
    }

    /** Identity is the id alone. */
    function Equals(other: BaseEntity): bool {
      id == other.id
    }
  }

  /** `equals` is an equivalence relation. */
  lemma EqualsIsEquivalence(a: BaseEntity, b: BaseEntity, c: BaseEntity)
    ensures a.Equals(a)
    ensures a.Equals(b) == b.Equals(a)
    ensures a.Equals(b) && b.Equals(c) ==> a.Equals(c)
  {
  }

  /** Two entities not yet saved (both with id `''`) compare equal, whatever
      their timestamps. */
  lemma UnsavedEntitiesAreEqual(a: BaseEntity, b: BaseEntity)
    requires a.id == "" && b.id == ""
    ensures a.Equals(b)
  {
  }
}
