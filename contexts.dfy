/** Request-scoped contexts as built by `context.WithValue`: a chain of key/value
    bindings in which the innermost binding of a key hides the outer ones. */
module Contexts {
  import opened Outcomes

  /** The dynamic type of a stored value matters: the readers assert it. */
  datatype CtxValue = StrValue(s: string) | IntValue(i: int) | OtherValue

  datatype Context = Background | WithValue(parent: Context, key: string, val: CtxValue)

  /** `ctx.Value(key)`: the innermost binding of `key`, `None` when there is none. */
  function Value(ctx: Context, key: string): (r: Option<CtxValue>)
    ensures ctx.WithValue? && ctx.key == key ==> r == Some(ctx.val)
    ensures ctx.Background? ==> r.None?
  {
    match ctx
    case Background => None
    case WithValue(parent, k, v) => if k == key then Some(v) else Value(parent, key)
  }
}
