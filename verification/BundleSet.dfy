/**
 The set of bundles keyed by trust domain, and its sorted listing: bundle/x509bundle/set.go with
 TrustDomain.Compare of spiffeid/trustdomain.go.
 */
module BundleSet {
  import opened Certificates
  import opened SpiffeId
  import opened X509Bundle

  /** strings.Compare: bytewise, a proper prefix comes first. */
  function CompareNames(a: string, b: string): int
    decreases |a|
  {
    if a == "" then (if b == "" then 0 else -1)
    else if b == "" then 1
    else if a[0] != b[0] then (if a[0] < b[0] then -1 else 1)
    else CompareNames(a[1..], b[1..])
  }

  function Compare(td: TrustDomain, other: TrustDomain): int {
    CompareNames(td.name, other.name)
  }

  predicate Less(a: Bundle, b: Bundle) {
    Compare(a.trustDomain, b.trustDomain) < 0
  }

  lemma {:induction false} NamesAreOrdered(a: string, b: string, c: string)
    ensures -1 <= CompareNames(a, b) <= 1
    ensures CompareNames(a, b) == 0 <==> a == b
    ensures CompareNames(b, a) == -CompareNames(a, b)
    ensures CompareNames(a, b) < 0 && CompareNames(b, c) <= 0 ==> CompareNames(a, c) < 0
    decreases |a|
  {
    if a != "" && b != "" && a[0] == b[0] {
      NamesAreOrdered(a[1..], b[1..], if c != "" then c[1..] else c);
      assert a == b <==> a[1..] == b[1..] by {
        assert a == [a[0]] + a[1..] && b == [b[0]] + b[1..];
      }
    }
  }

  /** The order is bytewise: a proper prefix is less, and otherwise the smaller byte at the first difference. */
  lemma {:induction false} CompareIsBytewise(common: string, a: string, b: string)
    ensures b != "" ==> CompareNames(common, common + b) == -1
    ensures a != "" && b != "" && a[0] < b[0] ==> CompareNames(common + a, common + b) == -1
    ensures a != "" && b != "" && a[0] > b[0] ==> CompareNames(common + a, common + b) == 1
  {
    if common == "" {
      assert common + a == a && common + b == b;
    } else {
      CompareIsBytewise(common[1..], a, b);
      assert (common + a)[1..] == common[1..] + a && (common + b)[1..] == common[1..] + b;
    }
  }

  /** Compare is a strict total order on trust domains, and zero means equal. */
  lemma CompareIsTotalOrder(a: TrustDomain, b: TrustDomain, c: TrustDomain)
    ensures Compare(a, b) == 0 <==> a == b
    ensures Compare(b, a) == -Compare(a, b)
    ensures Compare(a, b) < 0 && Compare(b, c) < 0 ==> Compare(a, c) < 0
  {
    NamesAreOrdered(a.name, b.name, c.name);
  }

  ghost predicate Ascending(s: seq<Bundle>) {
    forall i, j | 0 <= i < j < |s| :: Less(s[i], s[j])
  }

  /**
   An ascending sequence is fixed by its elements, so neither the order in which Go ranges over the
   map nor the choice of sorting algorithm can show.
   */
  lemma {:induction false} AscendingIsUnique(s: seq<Bundle>, t: seq<Bundle>)
    requires Ascending(s) && Ascending(t)
    requires forall b :: b in s <==> b in t
    ensures s == t
    decreases |s|
  {
    SameElementsBothEmpty(s, t);
    if s != [] {
      FirstIsLeast(s, t);
      FirstIsLeast(t, s);
      CompareIsTotalOrder(s[0].trustDomain, t[0].trustDomain, s[0].trustDomain);
      assert s[0] == t[0];
      forall b ensures b in s[1..] <==> b in t[1..] {
        TailElements(s, b);
        TailElements(t, b);
      }
      AscendingIsUnique(s[1..], t[1..]);
    }
  }

  lemma SameElementsBothEmpty(s: seq<Bundle>, t: seq<Bundle>)
    requires forall b :: b in s <==> b in t
    ensures s == [] <==> t == []
  {
    if s != [] {
      assert s[0] in s;
    }
    if t != [] {
      assert t[0] in t;
    }
  }

  lemma FirstIsLeast(s: seq<Bundle>, t: seq<Bundle>)
    requires s != [] && t != [] && Ascending(s) && t[0] in s
    ensures s[0] == t[0] || Less(s[0], t[0])
  {
    var i :| 0 <= i < |s| && s[i] == t[0];
  }

  lemma TailElements(s: seq<Bundle>, b: Bundle)
    requires s != [] && Ascending(s)
    ensures b in s[1..] <==> b in s && b != s[0]
  {
    CompareIsTotalOrder(s[0].trustDomain, s[0].trustDomain, s[0].trustDomain);
    assert s == [s[0]] + s[1..];
    if b in s[1..] {
      var i :| 0 <= i < |s[1..]| && s[1..][i] == b;
      assert Less(s[0], s[i + 1]);
    }
  }

  /** A sorted listing of the stored bundles: each once, in ascending order of domain. */
  ghost predicate IsListing(m: map<TrustDomain, Bundle>, out: seq<Bundle>) {
    && Ascending(out) && |out| == |m|
    && (forall i | 0 <= i < |out| :: out[i].trustDomain in m && m[out[i].trustDomain] == out[i])
    && (forall td | td in m :: m[td] in out)
  }

  /** There is only one listing of a set. */
  lemma ListingIsUnique(m: map<TrustDomain, Bundle>, s: seq<Bundle>, t: seq<Bundle>)
    requires IsListing(m, s) && IsListing(m, t)
    ensures s == t
  {
    forall b ensures b in s <==> b in t {
      ListedIff(m, s, b);
      ListedIff(m, t, b);
    }
    AscendingIsUnique(s, t);
  }

  lemma ListedIff(m: map<TrustDomain, Bundle>, s: seq<Bundle>, b: Bundle)
    requires IsListing(m, s)
    ensures b in s <==> b.trustDomain in m && m[b.trustDomain] == b
  {}

  /** Where the sort places one more bundle. */
  method Insert(s: seq<Bundle>, b: Bundle) returns (r: seq<Bundle>)
    requires Ascending(s) && forall x | x in s :: x.trustDomain != b.trustDomain
    ensures Ascending(r)
    ensures forall x :: x in r <==> x == b || x in s
    ensures |r| == |s| + 1
  {
    var i := 0;
    while i < |s| && Less(s[i], b)
      invariant i <= |s|
      invariant forall j | 0 <= j < i :: Less(s[j], b)
    {
      i := i + 1;
    }
    r := s[..i] + [b] + s[i..];
    forall j | i <= j < |s| ensures Less(b, s[j]) {
      assert s[i] in s;
      CompareIsTotalOrder(s[i].trustDomain, b.trustDomain, s[i].trustDomain);
      CompareIsTotalOrder(b.trustDomain, s[i].trustDomain, s[j].trustDomain);
    }
    AscendingInsert(s, b, i);
  }

  lemma AscendingInsert(s: seq<Bundle>, b: Bundle, i: nat)
    requires Ascending(s) && i <= |s|
    requires forall j | 0 <= j < i :: Less(s[j], b)
    requires forall j | i <= j < |s| :: Less(b, s[j])
    ensures Ascending(s[..i] + [b] + s[i..])
    ensures forall x :: x in s[..i] + [b] + s[i..] <==> x == b || x in s
  {
    var r := s[..i] + [b] + s[i..];
    assert s == s[..i] + s[i..];
    AscendingAround(s, b, i, r);
  }

  lemma AscendingAround(s: seq<Bundle>, b: Bundle, i: nat, r: seq<Bundle>)
    requires Ascending(s) && i <= |s| && |r| == |s| + 1
    requires forall j | 0 <= j < i :: Less(s[j], b)
    requires forall j | i <= j < |s| :: Less(b, s[j])
    requires forall j | 0 <= j < |r| :: r[j] == if j < i then s[j] else if j == i then b else s[j - 1]
    ensures Ascending(r)
  {
    forall x, y | 0 <= x < y < |r| ensures Less(r[x], r[y]) {
      if y < i {
        assert Less(s[x], s[y]);
      } else if y == i {
        assert Less(s[x], b);
      } else if x == i {
        assert Less(b, s[y - 1]);
      } else if x > i {
        assert Less(s[x - 1], s[y - 1]);
      } else {
        assert Less(s[x], s[y - 1]);
      }
    }
  }

  function LastOfEachDomain(bundles: seq<Bundle?>): map<TrustDomain, Bundle> {
    if bundles == [] then map[]
    else
      var before, b := LastOfEachDomain(bundles[..|bundles| - 1]), bundles[|bundles| - 1];
      if b == null then before else before[b.trustDomain := b]
  }

  /** Each domain that occurs is mapped to the last bundle of that domain, and no other is. */
  lemma {:induction false} LastOfEachDomainMeaning(bundles: seq<Bundle?>)
    ensures var m := LastOfEachDomain(bundles);
            && (forall td | td in m :: m[td].trustDomain == td && m[td] in bundles)
            && (forall i | 0 <= i < |bundles| && bundles[i] != null :: bundles[i].trustDomain in m)
            && (forall i | 0 <= i < |bundles| && bundles[i] != null ::
                  (forall j | i < j < |bundles| && bundles[j] != null :: bundles[j].trustDomain != bundles[i].trustDomain)
                  ==> m[bundles[i].trustDomain] == bundles[i])
  {
    if bundles != [] {
      var n := |bundles| - 1;
      LastOfEachDomainMeaning(bundles[..n]);
      var before := LastOfEachDomain(bundles[..n]);
      forall i | 0 <= i < n && bundles[i] != null
                 && forall j | i < j <= n && bundles[j] != null :: bundles[j].trustDomain != bundles[i].trustDomain
        ensures before[bundles[i].trustDomain] == bundles[i]
      {
        assert bundles[..n][i] == bundles[i];
      }
    }
  }

  class Set {
    var bundles: map<TrustDomain, Bundle>

    ghost predicate Valid()
      reads this
    {
      forall td | td in bundles :: bundles[td].trustDomain == td
    }

    /** Later bundles replace earlier ones of the same domain; nil is skipped. */
    constructor (bundles: seq<Bundle?>)
      ensures Valid() && this.bundles == LastOfEachDomain(bundles)
    {
      var m: map<TrustDomain, Bundle> := map[];
      for n := 0 to |bundles|
        invariant m == LastOfEachDomain(bundles[..n])
      {
        assert bundles[..n + 1][..n] == bundles[..n];
        var b := bundles[n];
        if b != null {
          m := m[b.trustDomain := b];
        }
      }
      assert bundles[..|bundles|] == bundles;
      LastOfEachDomainMeaning(bundles);
      this.bundles := m;
    }

    method Add(bundle: Bundle?)
      requires Valid()
      modifies this
      ensures Valid()
      ensures bundles == if bundle == null then old(bundles) else old(bundles)[bundle.trustDomain := bundle]
    {
      if bundle != null {
        bundles := bundles[bundle.trustDomain := bundle];
      }
    }

    method Remove(td: TrustDomain)
      requires Valid()
      modifies this
      ensures Valid() && bundles == old(bundles) - {td}
    {
      bundles := bundles - {td};
    }

    /** The sorted listing: strictly ascending, one entry for each stored domain. */
    method Bundles() returns (out: seq<Bundle>)
      requires Valid()
      ensures IsListing(bundles, out)
    {
      out := [];
      var rest := bundles.Keys;
      while rest != {}
        invariant rest <= bundles.Keys
        invariant Ascending(out) && |out| + |rest| == |bundles|
        invariant forall b | b in out :: b.trustDomain in bundles && b.trustDomain !in rest && bundles[b.trustDomain] == b
        invariant forall td | td in bundles && td !in rest :: bundles[td] in out
      {
        var td :| td in rest;
        out := Insert(out, bundles[td]);
        rest := rest - {td};
      }
    }
  }
}
