/** Entities are identified by their id alone. */
module Entities {
  import opened Wrappers

  /** An entity id: a string or a number (never both: `===` tells them
      apart). */
  datatype Id = TextId(text: string) | NumberId(number: int)

  /** An entity: its id and its other properties. */
  datatype Entity<P> = Entity(id: Id, props: P)

  /** `equals(other)`: false for a missing argument, otherwise whether the
      ids are identical. */
  predicate Equals<P>(e: Entity<P>, other: Option<Entity<P>>) {
    other.Some? && e.id == other.value.id
  }

  /** Only the presence of the other entity and the two ids matter. */
  lemma EqualsIffSameId<P>(e: Entity<P>, other: Option<Entity<P>>)
    ensures other == None ==> !Equals(e, other)
    ensures other.Some? ==> (Equals(e, other) <==> e.id == other.value.id)
  {
  }

  /** Equality by id is reflexive, symmetric and transitive. */
  lemma EqualsIsEquivalence<P>(a: Entity<P>, b: Entity<P>, c: Entity<P>)
    ensures Equals(a, Some(a))
    ensures Equals(a, Some(b)) <==> Equals(b, Some(a))
    ensures Equals(a, Some(b)) && Equals(b, Some(c)) ==> Equals(a, Some(c))
  {
  }

  /** Entities with the same id are equal whatever their other properties. */
  lemma EqualsIgnoresProps<P>(id: Id, p: P, q: P)
    ensures Equals(Entity(id, p), Some(Entity(id, q)))
    ensures Equals(Entity(TextId("1"), p), Some(Entity(NumberId(1), p))) == false
  {
  }
}
