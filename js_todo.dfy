/** What the Node and Bun repositories exchange with their entity: the
  * record `toPrimitives` produces and `fromPrimitives` accepts. The entity
  * itself is not part of this model; the record stands for it. */
module JsTodo {
  import opened Wrappers

  /** A JavaScript value that may be a string, `null` or `undefined`. */
  datatype Nullable = Str(text: string) | Null | Undefined

  /** `value ?? null`: `undefined` becomes `null`; a string stays itself. */
  function OrNull(v: Nullable): (r: Option<string>)
    ensures r.Some? <==> v.Str?
    ensures r.Some? ==> r.value == v.text
  {
    if v.Str? then Some(v.text) else None
  }

  /** A nullable column read back into the record. */
  function FromColumn(d: Option<string>): (v: Nullable)
    ensures v != Undefined
    ensures OrNull(v) == d
  {
    if d.Some? then Str(d.value) else Null
  }

  /** `toPrimitives()` / the argument of `fromPrimitives`. */
  datatype Primitives = Primitives(id: string, title: string, description: Nullable, isCompleted: bool)

  /** The record with a missing description written as `null`. */
  function Normalized(p: Primitives): (q: Primitives)
    ensures q.id == p.id && q.title == p.title && q.isCompleted == p.isCompleted
    ensures q.description != Undefined && OrNull(q.description) == OrNull(p.description)
  {
    p.(description := FromColumn(OrNull(p.description)))
  }
}
