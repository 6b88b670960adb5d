/** X.509 bundles over mutable memory: bundle/x509bundle/bundle.go. */
module X509Bundle {
  import opened Certificates
  import opened CertSlices
  import opened SpiffeId

  class Bundle {
    const trustDomain: TrustDomain
    var x509Authorities: Slice

    ghost predicate Valid()
      reads this
    {
      Fits(x509Authorities)
    }

    ghost function Repr(): set<object>
      reads this
    {
      {this, x509Authorities.backing}
    }

    ghost function Authorities(): Certs
      requires Valid()
      reads this, x509Authorities.backing
    {
      Contents(x509Authorities)
    }

    constructor (trustDomain: TrustDomain)
      ensures Valid() && fresh(Repr()) && this.trustDomain == trustDomain && Authorities() == []
    {
      var empty := MakeSlice();
      this.trustDomain := trustDomain;
      x509Authorities := empty;
    }

    constructor FromX509Authorities(trustDomain: TrustDomain, authorities: Slice)
      requires Fits(authorities)
      ensures Valid() && fresh(Repr()) && this.trustDomain == trustDomain
      ensures Authorities() == Contents(authorities)
    {
      var copied := CopyX509Authorities(authorities);
      this.trustDomain := trustDomain;
      x509Authorities := copied;
    }

    method HasX509Authority(c: Certificate) returns (has: bool)
      requires Valid()
      ensures has <==> c in Authorities()
    {
      var i := IndexOf(x509Authorities, c);
      has := i < x509Authorities.len;
    }

    method AddX509Authority(c: Certificate)
      requires Valid()
      modifies Repr()
      ensures Valid() && fresh(Repr() - old(Repr()))
      ensures Authorities() == Added(old(Authorities()), c)
    {
      x509Authorities := AddTo(x509Authorities, c);
    }

    method RemoveX509Authority(c: Certificate)
      requires Valid()
      modifies Repr()
      ensures Valid() && fresh(Repr() - old(Repr()))
      ensures Authorities() == Removed(old(Authorities()), c)
    {
      x509Authorities := RemoveFrom(x509Authorities, c);
    }

    method X509Authorities() returns (authorities: Slice)
      requires Valid()
      ensures Fits(authorities) && fresh(authorities.backing) && Contents(authorities) == Authorities()
    {
      authorities := CopyX509Authorities(x509Authorities);
    }

    method SetX509Authorities(authorities: Slice)
      requires Valid() && Fits(authorities)
      modifies this
      ensures Valid() && fresh(x509Authorities.backing) && Authorities() == old(Contents(authorities))
    {
      x509Authorities := CopyX509Authorities(authorities);
    }

    method Clone() returns (b: Bundle)
      requires Valid()
      ensures b.Valid() && fresh(b.Repr())
      ensures b.trustDomain == trustDomain && b.Authorities() == Authorities()
    {
      b := new Bundle.FromX509Authorities(trustDomain, x509Authorities);
    }
  }
}
