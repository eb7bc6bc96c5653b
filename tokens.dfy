/** Bearer tokens as the server issues and reads them. A JSON Web Token is
    represented by its claims: the subject id, an optional role, and the
    issue and expiry times `iat` and `exp` in whole seconds (the NumericDate
    of section 4.1.4 of RFC 7519). Signing and signature checking are not
    modelled: a token whose signature checks is given by its claims. */
module Tokens {
  import opened Wrappers

  /** `expiresIn: '24h'`, in seconds. */
  const Lifetime: nat := 24 * 60 * 60

  datatype Claims = Claims(id: string, role: Option<string>, iat: int, exp: int)

  /** Whole seconds of a millisecond clock (`Math.floor(ms / 1000)`). */
  function Seconds(nowMs: nat): nat {
    nowMs / 1000
  }

  /** `jwt.sign(payload, secret, { expiresIn: '24h' })` at time `nowMs`. */
  function Sign(id: string, role: Option<string>, nowMs: nat): (c: Claims)
    ensures c.id == id && c.role == role
    ensures c.iat * 1000 <= nowMs < (c.iat + 1) * 1000
    ensures c.exp == c.iat + Lifetime
  {
    Claims(id, role, Seconds(nowMs), Seconds(nowMs) + Lifetime)
  }

  /** `jwt.verify`: `signed` is the token's claims when its signature checks;
      it is accepted while the current second is before `exp`. */
  function Verify(signed: Option<Claims>, nowMs: nat): (r: Option<Claims>)
    ensures r.Some? <==> signed.Some? && Seconds(nowMs) < signed.value.exp
    ensures r.Some? ==> r == signed
  {
    match signed
    case None => None
    case Some(c) => if Seconds(nowMs) < c.exp then Some(c) else None
  }

  /** A token issued at `issuedMs` is accepted at a later `nowMs` exactly
      until 24 hours of whole seconds have passed. */
  lemma FreshTokenAccepted(id: string, role: Option<string>, issuedMs: nat, nowMs: nat)
    requires issuedMs <= nowMs
    ensures Verify(Some(Sign(id, role, issuedMs)), nowMs).Some? <==> Seconds(nowMs) < Seconds(issuedMs) + Lifetime
    ensures nowMs < issuedMs + 1000 * (Lifetime - 1) ==> Verify(Some(Sign(id, role, issuedMs)), nowMs).Some?
    ensures nowMs >= issuedMs + 1000 * Lifetime ==> Verify(Some(Sign(id, role, issuedMs)), nowMs).None?
  {
  }

  // ---------------------------------------------------------------------
  // The Authorization header

  const BearerPrefix := "Bearer "

  predicate OccursAt(s: string, pat: string, j: nat) {
    j + |pat| <= |s| && s[j..j + |pat|] == pat
  }

  /** The first position at or after `from` where `pat` occurs in `s`. */
  function IndexOfFrom(s: string, pat: string, from: nat): (r: Option<nat>)
    requires from <= |s|
    ensures r.Some? ==> from <= r.value && OccursAt(s, pat, r.value)
    ensures r.Some? ==> forall j :: from <= j < r.value ==> !OccursAt(s, pat, j)
    ensures r.None? ==> forall j :: from <= j ==> !OccursAt(s, pat, j)
    decreases |s| - from
  {
    if from + |pat| > |s| then None
    else if s[from..from + |pat|] == pat then Some(from)
    else IndexOfFrom(s, pat, from + 1)
  }

  /** `s.replace(pat, rep)` with a string pattern: the first occurrence only. */
  function ReplaceFirst(s: string, pat: string, rep: string): string {
    match IndexOfFrom(s, pat, 0)
    case None => s
    case Some(i) => s[..i] + rep + s[i + |pat|..]
  }

  /** `req.header('Authorization')?.replace('Bearer ', '')`. */
  function BearerToken(header: Option<string>): Option<string> {
    match header
    case None => None
    case Some(h) => Some(ReplaceFirst(h, BearerPrefix, ""))
  }

  /** The handlers' `if (!token)`: no header, or nothing left after the prefix. */
  predicate HasToken(header: Option<string>) {
    BearerToken(header).Some? && BearerToken(header).value != ""
  }

  /** A credential sent as `Bearer <token>` (section 2.1 of RFC 6750) is read back as `<token>`. */
  lemma BearerTokenOfCredential(t: string)
    ensures BearerToken(Some(BearerPrefix + t)) == Some(t)
    ensures t != "" ==> HasToken(Some(BearerPrefix + t))
  {
    var h := BearerPrefix + t;
    assert OccursAt(h, BearerPrefix, 0) by { assert h[0..|BearerPrefix|] == BearerPrefix; }
    assert IndexOfFrom(h, BearerPrefix, 0) == Some(0);
    assert h[..0] + "" + h[|BearerPrefix|..] == t;
  }

  /** A header holding only the scheme carries no token. */
  lemma EmptyCredential()
    ensures !HasToken(Some(BearerPrefix))
  {
    BearerTokenOfCredential("");
  }
}
