/**
 * Go's `context.Context` as far as values are concerned: a chain of
 * `context.WithValue` links ending in `context.Background()`. A lookup
 * walks the chain from the newest link and yields nil when no link
 * carries the key.
 */
module GoContext {

  /** A context key: Go compares keys by dynamic type and by value. */
  datatype Key = Key(keyType: string, name: string)

  /** A value stored in a context, as an `interface{}`. */
  datatype Any = Nil | Str(s: string) | NonString(typeName: string)

  datatype Context = Background | WithValue(parent: Context, key: Key, val: Any)

  /** ctx.Value(key) */
  function Value(ctx: Context, key: Key): (v: Any)
    ensures ctx.Background? ==> v == Nil
    ensures ctx.WithValue? && ctx.key == key ==> v == ctx.val
  {
    match ctx
    case Background => Nil
    case WithValue(parent, k, val) => if k == key then val else Value(parent, key)
  }
}
