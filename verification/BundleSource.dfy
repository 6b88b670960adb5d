/** The merged bundle cache: workloadapi/bundlesource.go. */
module BundleSource {
  import opened Wrappers
  import opened PublicKeys
  import opened Certificates
  import opened CertSlices
  import opened SpiffeId
  import opened BundleSet
  import JwtBundle
  import X509Bundle
  import SpiffeBundle

  type X509Map = map<TrustDomain, Certs>
  type JwtMap = map<TrustDomain, KeyMap>

  datatype SourceError = Closed | NoBundle(td: TrustDomain)

  class BundleSource {
    var x509Authorities: map<TrustDomain, Slice>
    var jwtAuthorities: map<TrustDomain, KeyTable>
    var closed: bool

    ghost predicate Valid()
      reads this
    {
      forall td | td in x509Authorities :: Fits(x509Authorities[td])
    }

    ghost function Arrays(): set<object>
      reads this
    {
      set td | td in x509Authorities :: x509Authorities[td].backing as object
    }

    ghost function Tables(): set<object>
      reads this
    {
      set td | td in jwtAuthorities :: jwtAuthorities[td] as object
    }

    /** The memory of the source; nothing else may share it. */
    ghost function Repr(): set<object>
      reads this
    {
      {this} + Arrays() + Tables()
    }

    ghost function Contents(): Cache
      requires Valid()
      reads this, Arrays(), Tables()
    {
      Cache(X509Contents(x509Authorities), JwtContents(jwtAuthorities))
    }

    constructor ()
      ensures Valid() && Repr() == {this} && Contents() == Cache(map[], map[]) && !closed
    {
      x509Authorities, jwtAuthorities, closed := map[], map[], false;
    }

    method Close()
      modifies this`closed
      ensures closed
    {
      closed := true;
    }

    /** The first loop of setX509Context: add and replace, and note the domains seen. */
    method MergeX509(newBundles: seq<X509Bundle.Bundle>, ghost wanted: X509Map) returns (trustDomains: set<TrustDomain>)
      requires Valid()
      requires forall i | 0 <= i < |newBundles| :: newBundles[i].Valid()
                 && newBundles[i].trustDomain in wanted && wanted[newBundles[i].trustDomain] == newBundles[i].Authorities()
      requires wanted.Keys == Domains(newBundles)
      modifies this`x509Authorities
      ensures Valid()
      ensures trustDomains == wanted.Keys <= x509Authorities.Keys
      ensures forall td | td in trustDomains ::
                fresh(x509Authorities[td].backing) && CertSlices.Contents(x509Authorities[td]) == wanted[td]
    {
      trustDomains := {};
      for i := 0 to |newBundles|
        invariant Valid()
        invariant trustDomains == Domains(newBundles[..i]) <= x509Authorities.Keys
        invariant forall td | td in trustDomains ::
                    fresh(x509Authorities[td].backing) && CertSlices.Contents(x509Authorities[td]) == wanted[td]
      {
        var td := newBundles[i].trustDomain;
        var authorities := newBundles[i].X509Authorities();
        trustDomains := trustDomains + {td};
        x509Authorities := x509Authorities[td := authorities];
        assert newBundles[..i + 1] == newBundles[..i] + [newBundles[i]];
      }
      assert newBundles[..|newBundles|] == newBundles;
    }

    /** Merge the new bundles in, then delete what they do not mention: a replacement, in memory of its own. */
    method SetX509Context(bundles: Set)
      requires Valid() && bundles.Valid() && forall td | td in bundles.bundles :: bundles.bundles[td].Valid()
      modifies this`x509Authorities
      ensures Valid() && fresh(Arrays())
      ensures Contents() == Step(old(Contents()), X509Update(old(map td | td in bundles.bundles :: bundles.bundles[td].Authorities())))
    {
      ghost var wanted := map td | td in bundles.bundles :: bundles.bundles[td].Authorities();
      var newBundles := bundles.Bundles();
      ListingCovers(bundles.bundles, newBundles);
      var trustDomains := MergeX509(newBundles, wanted);
      DropX509(trustDomains, wanted);
    }

    /** The second loop of setX509Context. */
    method DropX509(trustDomains: set<TrustDomain>, ghost wanted: X509Map)
      requires Valid() && trustDomains <= x509Authorities.Keys && trustDomains == wanted.Keys
      requires forall td | td in trustDomains :: CertSlices.Contents(x509Authorities[td]) == wanted[td]
      modifies this`x509Authorities
      ensures Valid() && X509Contents(x509Authorities) == wanted
      ensures forall td | td in x509Authorities :: td in trustDomains && x509Authorities[td] == old(x509Authorities[td])
    {
      x509Authorities := DeleteUnmentioned(x509Authorities, trustDomains);
    }

    /** The first loop of setJWTBundles, over the bundles of a set in any order. */
    method MergeJWT(newBundles: map<TrustDomain, JwtBundle.Bundle>, ghost wanted: JwtMap) returns (trustDomains: set<TrustDomain>)
      requires wanted.Keys == newBundles.Keys && forall td | td in newBundles :: wanted[td] == newBundles[td].Authorities()
      modifies this`jwtAuthorities
      ensures trustDomains == wanted.Keys <= jwtAuthorities.Keys
      ensures forall td | td in wanted :: fresh(jwtAuthorities[td]) && jwtAuthorities[td].keys == wanted[td]
    {
      trustDomains := {};
      var rest := newBundles.Keys;
      while rest != {}
        invariant rest <= newBundles.Keys && trustDomains == newBundles.Keys - rest <= jwtAuthorities.Keys
        invariant forall td | td in trustDomains :: fresh(jwtAuthorities[td]) && jwtAuthorities[td].keys == wanted[td]
      {
        var td :| td in rest;
        var authorities := newBundles[td].JWTAuthorities();
        trustDomains := trustDomains + {td};
        jwtAuthorities := jwtAuthorities[td := authorities];
        rest := rest - {td};
      }
    }

    method DropJWT(trustDomains: set<TrustDomain>, ghost wanted: JwtMap)
      requires trustDomains <= jwtAuthorities.Keys && trustDomains == wanted.Keys
      requires forall td | td in trustDomains :: jwtAuthorities[td].keys == wanted[td]
      modifies this`jwtAuthorities
      ensures JwtContents(jwtAuthorities) == wanted
      ensures forall td | td in jwtAuthorities :: td in trustDomains && jwtAuthorities[td] == old(jwtAuthorities[td])
    {
      jwtAuthorities := DeleteUnmentioned(jwtAuthorities, trustDomains);
    }

    /** The same for the JWT half. */
    method SetJWTBundles(newBundles: map<TrustDomain, JwtBundle.Bundle>)
      requires Valid()
      modifies this`jwtAuthorities
      ensures Valid() && fresh(Tables())
      ensures Contents() == Step(old(Contents()), JwtUpdate(old(map td | td in newBundles :: newBundles[td].Authorities())))
    {
      ghost var wanted := map td | td in newBundles :: newBundles[td].Authorities();
      var trustDomains := MergeJWT(newBundles, wanted);
      DropJWT(trustDomains, wanted);
    }

    method GetBundleForTrustDomain(td: TrustDomain) returns (r: Result<SpiffeBundle.Bundle, SourceError>)
      requires Valid()
      ensures match r
              case Err(Closed) => closed
              case Err(NoBundle(d)) => !closed && d == td && td !in Contents().x509 && td !in Contents().jwt
              case Ok(b) => !closed && (td in Contents().x509 || td in Contents().jwt)
                            && b.Valid() && fresh(b.Repr()) && b.Value() == Combined(Contents(), td)
      ensures r.Ok? ==>
                var v := r.value.Value();
                && v.trustDomain == td && v.refreshHint == None && v.sequenceNumber == None && v.wit == map[]
                && v.x509 == (if td in Contents().x509 then Contents().x509[td] else [])
                && v.jwt == (if td in Contents().jwt then Contents().jwt[td] else map[])
    {
      if closed {
        return Err(Closed);
      }
      if td !in x509Authorities && td !in jwtAuthorities {
        return Err(NoBundle(td));
      }
      var bundle := Combine(td);
      return Ok(bundle);
    }

    method Combine(td: TrustDomain) returns (bundle: SpiffeBundle.Bundle)
      requires Valid()
      ensures bundle.Valid() && fresh(bundle.Repr()) && bundle.Value() == Combined(Contents(), td)
    {
      bundle := new SpiffeBundle.Bundle(td);
      if td in x509Authorities {
        bundle.SetX509Authorities(x509Authorities[td]);
      }
      if td in jwtAuthorities {
        bundle.SetJWTAuthorities(jwtAuthorities[td]);
      }
    }

    method GetX509BundleForTrustDomain(td: TrustDomain) returns (r: Result<X509Bundle.Bundle, SourceError>)
      requires Valid()
      ensures match r
              case Err(Closed) => closed
              case Err(NoBundle(d)) => !closed && d == td && td !in Contents().x509
              case Ok(b) => !closed && td in Contents().x509 && b.Valid() && fresh(b.Repr())
                            && b.trustDomain == td && b.Authorities() == Contents().x509[td]
    {
      if closed {
        return Err(Closed);
      }
      if td !in x509Authorities {
        return Err(NoBundle(td));
      }
      var b := new X509Bundle.Bundle.FromX509Authorities(td, x509Authorities[td]);
      return Ok(b);
    }

    method GetJWTBundleForTrustDomain(td: TrustDomain) returns (r: Result<JwtBundle.Bundle, SourceError>)
      requires Valid()
      ensures match r
              case Err(Closed) => closed
              case Err(NoBundle(d)) => !closed && d == td && td !in Contents().jwt
              case Ok(b) => !closed && td in Contents().jwt && fresh(b.Repr())
                            && b.trustDomain == td && b.Authorities() == Contents().jwt[td]
    {
      if closed {
        return Err(Closed);
      }
      if td !in jwtAuthorities {
        return Err(NoBundle(td));
      }
      var b := new JwtBundle.Bundle.FromJWTAuthorities(td, jwtAuthorities[td]);
      return Ok(b);
    }
  }

  /**
   The combined bundle against the two narrower getters on the same source: it succeeds iff one of them does,
   and its parts are what they return.
   */
  method GetAll(s: BundleSource, td: TrustDomain)
      returns (both: Result<SpiffeBundle.Bundle, SourceError>, x509: Result<X509Bundle.Bundle, SourceError>, jwt: Result<JwtBundle.Bundle, SourceError>)
    requires s.Valid()
    ensures both.Ok? <==> x509.Ok? || jwt.Ok?
    ensures both.Ok? ==> both.value.Valid()
    ensures x509.Ok? ==> x509.value.Valid() && x509.value.trustDomain == td == both.value.trustDomain
                         && x509.value.Authorities() == both.value.Value().x509
    ensures jwt.Ok? ==> jwt.value.trustDomain == td == both.value.trustDomain && jwt.value.Authorities() == both.value.Value().jwt
    ensures both.Ok? && x509.Err? ==> both.value.Value().x509 == []
    ensures both.Ok? && jwt.Err? ==> both.value.Value().jwt == map[]
    ensures both.Err? ==> x509 == Err(both.error) && jwt == Err(both.error)
  {
    both := s.GetBundleForTrustDomain(td);
    x509 := s.GetX509BundleForTrustDomain(td);
    jwt := s.GetJWTBundleForTrustDomain(td);
  }

  ghost function Domains(bundles: seq<X509Bundle.Bundle>): set<TrustDomain> {
    set b | b in bundles :: b.trustDomain
  }

  lemma ListingCovers(m: map<TrustDomain, X509Bundle.Bundle>, out: seq<X509Bundle.Bundle>)
    requires IsListing(m, out) && forall td | td in m :: m[td].trustDomain == td
    ensures Domains(out) == m.Keys
    ensures forall i | 0 <= i < |out| :: out[i].trustDomain in m && m[out[i].trustDomain] == out[i]
  {}

  ghost function X509Contents(m: map<TrustDomain, Slice>): X509Map
    requires forall td | td in m :: Fits(m[td])
    reads set td | td in m :: m[td].backing
  {
    map td | td in m :: CertSlices.Contents(m[td])
  }

  ghost function JwtContents(m: map<TrustDomain, KeyTable>): JwtMap
    reads set td | td in m :: m[td]
  {
    map td | td in m :: m[td].keys
  }

  /** The second loop of an update, over the domains in any order. */
  method DeleteUnmentioned<V>(m: map<TrustDomain, V>, mentioned: set<TrustDomain>) returns (r: map<TrustDomain, V>)
    ensures r == map td | td in m && td in mentioned :: m[td]
  {
    r := m;
    var rest := m.Keys;
    while rest != {}
      invariant rest <= m.Keys
      invariant r == map td | td in m && (td in rest || td in mentioned) :: m[td]
    {
      var td :| td in rest;
      if td !in mentioned {
        r := r - {td};
      }
      rest := rest - {td};
    }
  }

  /** What a caller gets for a domain: both kinds of authority when both are known. */
  function Combined(c: Cache, td: TrustDomain): SpiffeBundle.BundleValue {
    SpiffeBundle.EmptyBundle(td).(
      x509 := if td in c.x509 then c.x509[td] else [],
      jwt := if td in c.jwt then c.jwt[td] else map[])
  }

  // ---------- Histories of updates ----------

  datatype Update = X509Update(x509: X509Map) | JwtUpdate(jwt: JwtMap)

  datatype Cache = Cache(x509: X509Map, jwt: JwtMap)

  /** The specification of an update: it replaces one half. */
  function Step(c: Cache, u: Update): Cache {
    match u case X509Update(m) => c.(x509 := m) case JwtUpdate(m) => c.(jwt := m)
  }

  function Replay(c: Cache, us: seq<Update>): Cache {
    if us == [] then c else Step(Replay(c, us[..|us| - 1]), us[|us| - 1])
  }

  lemma {:induction false} ReplayAppends(c: Cache, us: seq<Update>, vs: seq<Update>)
    ensures Replay(c, us + vs) == Replay(Replay(c, us), vs)
    decreases |vs|
  {
    if vs == [] {
      assert us + vs == us;
    } else {
      assert (us + vs)[..|us + vs| - 1] == us + vs[..|vs| - 1];
      ReplayAppends(c, us, vs[..|vs| - 1]);
    }
  }

  lemma {:induction false} OtherStreamOnly(c: Cache, us: seq<Update>)
    ensures (forall i | 0 <= i < |us| :: us[i].JwtUpdate?) ==> Replay(c, us).x509 == c.x509
    ensures (forall i | 0 <= i < |us| :: us[i].X509Update?) ==> Replay(c, us).jwt == c.jwt
    decreases |us|
  {
    if us != [] {
      OtherStreamOnly(c, us[..|us| - 1]);
    }
  }

  /** However the two streams interleave, each half of the cache is the last update of its own stream. */
  lemma CacheIsLastOfEach(c: Cache, before: seq<Update>, last: Update, after: seq<Update>)
    ensures last.X509Update? && (forall i | 0 <= i < |after| :: after[i].JwtUpdate?) ==>
              Replay(c, before + [last] + after).x509 == last.x509
    ensures last.JwtUpdate? && (forall i | 0 <= i < |after| :: after[i].X509Update?) ==>
              Replay(c, before + [last] + after).jwt == last.jwt
  {
    var us := before + [last];
    assert us[..|us| - 1] == before;
    ReplayAppends(c, us, after);
    OtherStreamOnly(Replay(c, us), after);
  }
}
