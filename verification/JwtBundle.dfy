/** JWT bundles over mutable memory: bundle/jwtbundle/bundle.go. */
module JwtBundle {
  import opened PublicKeys
  import opened SpiffeId

  class Bundle {
    const trustDomain: TrustDomain
    var jwtAuthorities: KeyTable

    ghost function Repr(): set<object>
      reads this
    {
      {this, jwtAuthorities}
    }

    ghost function Authorities(): KeyMap
      reads this, jwtAuthorities
    {
      jwtAuthorities.keys
    }

    constructor (trustDomain: TrustDomain)
      ensures fresh(Repr()) && this.trustDomain == trustDomain && Authorities() == map[]
    {
      this.trustDomain := trustDomain;
      jwtAuthorities := new KeyTable(map[]);
    }

    constructor FromJWTAuthorities(trustDomain: TrustDomain, authorities: KeyTable)
      ensures fresh(Repr()) && this.trustDomain == trustDomain && Authorities() == authorities.keys
    {
      var copied := CopyJWTAuthorities(authorities);
      this.trustDomain := trustDomain;
      jwtAuthorities := copied;
    }

    method AddJWTAuthority(keyId: string, key: PublicKey) returns (ok: bool)
      modifies jwtAuthorities
      ensures ok <==> keyId != ""
      ensures Authorities() == if ok then old(Authorities())[keyId := key] else old(Authorities())
    {
      ok := keyId != "";
      if ok {
        jwtAuthorities.keys := jwtAuthorities.keys[keyId := key];
      }
    }

    method RemoveJWTAuthority(keyId: string)
      modifies jwtAuthorities
      ensures Authorities() == old(Authorities()) - {keyId}
    {
      jwtAuthorities.keys := jwtAuthorities.keys - {keyId};
    }

    method JWTAuthorities() returns (authorities: KeyTable)
      ensures fresh(authorities) && authorities.keys == Authorities()
    {
      authorities := CopyJWTAuthorities(jwtAuthorities);
    }

    method SetJWTAuthorities(authorities: KeyTable)
      modifies this
      ensures fresh(jwtAuthorities) && Authorities() == old(authorities.keys)
    {
      jwtAuthorities := CopyJWTAuthorities(authorities);
    }

    method Clone() returns (b: Bundle)
      ensures fresh(b.Repr()) && b.trustDomain == trustDomain && b.Authorities() == Authorities()
    {
      b := new Bundle.FromJWTAuthorities(trustDomain, jwtAuthorities);
    }
  }
}
