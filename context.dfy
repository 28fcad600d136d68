/** The request-scoped `Context` of sdk/core/src/context.rs. Only its empty
    constructor exists there; the model passes it through unchanged. */
module RequestContext {

  /** A `TypeId` key. */
  type TypeKey = nat

  /** An `Arc<dyn Any + Send + Sync>` value, known only by identity. */
  datatype ContextValue = ContextValue(handle: nat)

  datatype Context = Context(typeMap: map<TypeKey, ContextValue>)

  /** `Context::new` and `Default`: no values. */
  function New(): (c: Context)
    ensures c.typeMap == map[]
  {
    Context(map[])
  }
}
