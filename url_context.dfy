/** The coordinate-system tag carried by every URL value (`UrlContext` in the location module).
    The tag is a type parameter that no value stores, as with Rust's `PhantomData`: a
    router-space value and a browser-space value have different types, and the only ways
    between them are the named operations below. */
module UrlContexts {

  /** The literal document location. */
  datatype BrowserUrlContext = BrowserUrlContext

  /** The router's logical, base-relative location. */
  datatype RouterUrlContext = RouterUrlContext

  /** A value `T` tagged with the coordinate system `C`. */
  datatype UrlContext<C, T> = UrlContext(value: T)

  type RouterContext<T> = UrlContext<RouterUrlContext, T>

  type BrowserContext<T> = UrlContext<BrowserUrlContext, T>

  /** `UrlContext::new`. */
  function New<C, T>(value: T): UrlContext<C, T> {
    UrlContext(value)
  }

  /** `UrlContext::map`: transform the inner value, keeping the tag. */
  function Map<C, T, Q>(u: UrlContext<C, T>, mapper: T -> Q): UrlContext<C, Q> {
    UrlContext(mapper(u.value))
  }

  /** `UrlContext::map_mut`: the mapper may update the inner value in place while it computes
      its result; the pair is the updated wrapper and the tagged result. */
  function MapMut<C, T, Q>(u: UrlContext<C, T>, mapper: T -> (T, Q)): (UrlContext<C, T>, UrlContext<C, Q>) {
    (UrlContext(mapper(u.value).0), UrlContext(mapper(u.value).1))
  }

  /** `UrlContext::forget_context`: the caller names the tag it expects and gets the inner value. */
  function ForgetContext<C, T>(u: UrlContext<C, T>, context: C): T {
    u.value
  }

  /** `UrlContext::change_context`: the caller asserts that the value is valid in `C2`. */
  function ChangeContext<C, C2, T>(u: UrlContext<C, T>, context: C): UrlContext<C2, T> {
    UrlContext(u.value)
  }

  /** `map` changes nothing but the inner value: mapping the identity is the identity, and two
      maps compose. */
  lemma MapLaws<C, T, Q, R>(u: UrlContext<C, T>, f: T -> Q, g: Q -> R, c: C)
    ensures Map(u, (x: T) => x) == u
    ensures Map(Map(u, f), g) == Map(u, (x: T) => g(f(x)))
    ensures ForgetContext(Map(u, f), c) == f(ForgetContext(u, c))
  {
  }

  /** `map_mut` leaves exactly what its mapper wrote, under the same tag. */
  lemma MapMutLaws<C, T, Q>(u: UrlContext<C, T>, mapper: T -> (T, Q), c: C)
    ensures ForgetContext(MapMut(u, mapper).0, c) == mapper(ForgetContext(u, c)).0
    ensures ForgetContext(MapMut(u, mapper).1, c) == mapper(ForgetContext(u, c)).1
    ensures (forall x :: mapper(x).0 == x) ==> MapMut(u, mapper).0 == u
  {
  }

  /** Retagging never touches the value: there and back again is the identity, and
      `forget_context` returns what `new` was given. */
  lemma ContextLaws<C, C2, T>(v: T, u: UrlContext<C, T>, c: C, c2: C2)
    ensures ForgetContext(New<C, T>(v), c) == v
    ensures ForgetContext(ChangeContext<C, C2, T>(u, c), c2) == ForgetContext(u, c)
    ensures ChangeContext<C2, C, T>(ChangeContext<C, C2, T>(u, c), c2) == u
  {
  }
}
