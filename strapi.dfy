/** The envelopes of the content service's responses: each record is an
    `{id, attributes}` pair, and a relation is `{data: entity | null}` or
    `{data: entity[]}`. */
module Strapi {
  import opened Wrappers

  datatype Entity<A> = Entity(id: int, attributes: A)

  /** A to-one relation `{ data: Entity<A> | null }`. */
  datatype One<A> = One(data: Option<Entity<A>>)

  /** A to-many relation `{ data: Entity<A>[] }`; `data` may be missing. */
  datatype Many<A> = Many(data: Option<seq<Entity<A>>>)

  /** `rel?.data`: the related entity, when the relation is there and not null. */
  function Related<A>(rel: Option<One<A>>): Option<Entity<A>>
  {
    if rel.Some? then rel.value.data else None
  }

  /** `rel?.data?.map(f) ?? []`. */
  function MapMany<A, B>(rel: Option<Many<A>>, f: Entity<A> -> B): (r: seq<B>)
    ensures rel.None? || rel.value.data.None? ==> r == []
    ensures rel.Some? && rel.value.data.Some? ==>
              |r| == |rel.value.data.value| &&
              forall i :: 0 <= i < |r| ==> r[i] == f(rel.value.data.value[i])
  {
    if rel.Some? && rel.value.data.Some? then MapSeq(rel.value.data.value, f) else []
  }
}
