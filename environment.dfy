/**
 * The deployment environments (constant.Prod and constant.Test) and the
 * registries the database layers keep per environment.
 */
module Environment {
  import opened Wrappers

  const Prod: string := "prod"
  const Test: string := "test"

  /**
   * A registry lookup with a fallback: the entry of `env` when one is
   * registered, otherwise the entry under `fallback`, otherwise nothing (a
   * nil client).
   */
  function LookupOr<V>(registry: map<string, V>, env: string, fallback: string): (r: Option<V>)
    ensures r.Some? <==> env in registry || fallback in registry
    ensures env in registry ==> r == Some(registry[env])
    ensures env !in registry && fallback in registry ==> r == Some(registry[fallback])
  {
    if env in registry then Some(registry[env])
    else if fallback in registry then Some(registry[fallback])
    else None
  }
}
