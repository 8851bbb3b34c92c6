/** `Isso.sign` and `Isso.unsign`. The timed serializer is opaque: its `dumps` and
    `loads` are inputs, and only the choice of `max_age` is modelled. */
module Signing {
  import opened Outcomes
  import opened Settings

  /** Raised by the serializer for a forged, tampered or expired token. */
  datatype BadSignature = BadSignature(reason: string)

  /** A URL-safe timed serializer, seen only through its two calls. */
  datatype Signer<!P> = Signer(
    dumps: P -> string,
    loads: (string, int) -> Result<P, BadSignature>)

  /** Python truthiness of a `max_age` argument, which is None or an int. */
  predicate Truthy(maxAge: Option<int>) {
    maxAge.Some? && maxAge.value != 0
  }

  /** `max_age or conf.getint('general', 'max-age')`. */
  function EffectiveMaxAge(maxAge: Option<int>, configured: int): (age: int)
    ensures Truthy(maxAge) ==> age == maxAge.value
    ensures !Truthy(maxAge) ==> age == configured
  {
    match maxAge
    case None => configured
    case Some(v) => if v == 0 then configured else v
  }

  function Sign<P>(signer: Signer<P>, obj: P): string {
    signer.dumps(obj)
  }

  function Unsign<P>(signer: Signer<P>, conf: Config, token: string, maxAge: Option<int>): Result<P, BadSignature> {
    signer.loads(token, EffectiveMaxAge(maxAge, conf.maxAge))
  }

  /** A caller's non-zero `max_age`, negative ones included, reaches the serializer as given. */
  lemma UnsignPassesCallerAge<P>(signer: Signer<P>, conf: Config, token: string, age: int)
    requires age != 0
    ensures Unsign(signer, conf, token, Some(age)) == signer.loads(token, age)
  {
  }

  /** Omitting `max_age` and passing 0 are the same call: both verify against the
      configured `max-age`, so a zero maximum age cannot be requested. */
  lemma UnsignFalsyUsesConfigured<P>(signer: Signer<P>, conf: Config, token: string)
    ensures Unsign(signer, conf, token, None) == signer.loads(token, conf.maxAge)
    ensures Unsign(signer, conf, token, Some(0)) == signer.loads(token, conf.maxAge)
  {
  }
}
