/** Public keys: internal/cryptoutil/keys.go and the key maps of internal/jwtutil/util.go. */
module PublicKeys {

  /** The three supported key types, and any other value a crypto.PublicKey can hold. */
  datatype PublicKey =
    | Rsa(n: int, e: int)
    | Ecdsa(curve: string, x: int, y: int)
    | Ed25519(bytes: seq<bv8>)
    | Unsupported(goType: string)

  type KeyMap = map<string, PublicKey>

  predicate PublicKeyEqual(a: PublicKey, b: PublicKey) {
    match a
    case Rsa(n, e) => b.Rsa? && e == b.e && n == b.n
    case Ecdsa(curve, x, y) => b.Ecdsa? && curve == b.curve && x == b.x && y == b.y
    case Ed25519(bytes) => b.Ed25519? && bytes == b.bytes
    case Unsupported(_) => false
  }

  /** Keys of the supported types are equal when all their parts are; other keys never are. */
  lemma PublicKeyEqualIff(a: PublicKey, b: PublicKey)
    ensures PublicKeyEqual(a, b) <==> a == b && !a.Unsupported?
  {}

  predicate AllSupported(m: KeyMap) {
    forall k | k in m :: !m[k].Unsupported?
  }

  /** A Go map: a reference, so that whoever holds the table sees every change made to it. */
  class KeyTable {
    var keys: KeyMap

    constructor (keys: KeyMap)
      ensures this.keys == keys
    {
      this.keys := keys;
    }
  }

  /**
   The one-directional loop, entered in any order Go chooses, decides full map equality because the
   sizes are compared first. An unsupported key makes a map unequal even to itself.
   */
  method JWTAuthoritiesEqual(a: KeyTable, b: KeyTable) returns (equal: bool)
    ensures equal <==> a.keys == b.keys && forall k | k in a.keys :: !a.keys[k].Unsupported?
  {
    if |a.keys| != |b.keys| {
      return false;
    }
    var rest := a.keys.Keys;
    while rest != {}
      invariant rest <= a.keys.Keys
      invariant forall k | k in a.keys.Keys - rest :: k in b.keys && PublicKeyEqual(a.keys[k], b.keys[k])
    {
      var k :| k in rest;
      if k !in b.keys || !PublicKeyEqual(a.keys[k], b.keys[k]) {
        return false;
      }
      rest := rest - {k};
    }
    assert forall k | k in a.keys.Keys :: k in a.keys.Keys - rest;
    SameSizeSubset(a.keys.Keys, b.keys.Keys);
    return true;
  }

  lemma SameSizeSubset<T>(s: set<T>, t: set<T>)
    requires s <= t && |s| == |t|
    ensures s == t
  {
    assert t == s + (t - s);
  }

  /** internal/jwtutil/util.go: always a new table. */
  method CopyJWTAuthorities(table: KeyTable) returns (copied: KeyTable)
    ensures fresh(copied) && copied.keys == table.keys
  {
    copied := new KeyTable(map[]);
    var rest := table.keys.Keys;
    while rest != {}
      modifies copied
      invariant rest <= table.keys.Keys
      invariant copied.keys == map k | k in table.keys.Keys - rest :: table.keys[k]
    {
      var k :| k in rest;
      copied.keys := copied.keys[k := table.keys[k]];
      rest := rest - {k};
    }
  }
}

/**
 Lists of X.509 authorities as the bundle types keep them. Certificate.Equal compares the raw
 bytes, and a certificate is determined by them.
 */
module Certificates {

  datatype Certificate = Certificate(raw: seq<bv8>)

  type Certs = seq<Certificate>

  /** AddX509Authority keeps a list that has the certificate already. */
  function Added(s: Certs, c: Certificate): Certs {
    if c in s then s else s + [c]
  }

  /** The position of the first occurrence, or the length. */
  function Find(s: Certs, c: Certificate): (i: nat)
    ensures i <= |s| && (forall j | 0 <= j < i :: s[j] != c) && (i < |s| ==> s[i] == c)
  {
    if s == [] || s[0] == c then 0 else 1 + Find(s[1..], c)
  }

  /** RemoveX509Authority takes out the first occurrence only. */
  function Removed(s: Certs, c: Certificate): Certs {
    var i := Find(s, c);
    if i < |s| then s[..i] + s[i + 1..] else s
  }

  ghost predicate NoDuplicates(s: Certs) {
    forall i, j | 0 <= i < j < |s| :: s[i] != s[j]
  }

  function AddedAll(s: Certs, cs: Certs): Certs
    decreases |cs|
  {
    if cs == [] then s else AddedAll(Added(s, cs[0]), cs[1..])
  }

  /** The list with every later occurrence of a certificate dropped. */
  function Deduplicated(s: Certs): Certs {
    AddedAll([], s)
  }

  /** s keeps the elements of t at increasing positions. */
  ghost predicate Subsequence(s: Certs, t: Certs) {
    if s == [] then true
    else t != [] && ((s[0] == t[0] && Subsequence(s[1..], t[1..])) || Subsequence(s, t[1..]))
  }

  lemma FindIs(s: Certs, c: Certificate, i: nat)
    requires i <= |s| && (forall j | 0 <= j < i :: s[j] != c) && (i < |s| ==> s[i] == c)
    ensures Find(s, c) == i
  {}

  lemma RemovedCounts(s: Certs, c: Certificate)
    ensures multiset(Removed(s, c)) == multiset(s) - multiset{c}
  {
    var i := Find(s, c);
    if i < |s| {
      assert s == s[..i] + [c] + s[i + 1..];
    } else {
      assert c !in multiset(s);
    }
  }

  /** Removal takes one occurrence, so the certificate stays exactly when it was there twice. */
  lemma RemoveMeaning(s: Certs, c: Certificate, d: Certificate)
    ensures c in Removed(s, c) <==> multiset(s)[c] >= 2
    ensures d != c ==> (d in Removed(s, c) <==> d in s)
  {
    RemovedCounts(s, c);
    InBySeq(s, d);
    InBySeq(Removed(s, c), d);
    InBySeq(Removed(s, c), c);
  }

  lemma RemoveKeepsDistinct(s: Certs, c: Certificate)
    requires NoDuplicates(s)
    ensures NoDuplicates(Removed(s, c)) && c !in Removed(s, c)
  {
    var i, r := Find(s, c), Removed(s, c);
    if i < |s| {
      assert forall j | 0 <= j < |r| :: r[j] == if j < i then s[j] else s[j + 1];
    }
  }

  lemma InBySeq(s: Certs, c: Certificate)
    ensures c in s <==> multiset(s)[c] > 0
  {}

  lemma {:induction false} RemoveKeepsOrder(s: Certs, c: Certificate)
    ensures Subsequence(Removed(s, c), s)
  {
    if s != [] {
      if s[0] == c {
        assert Removed(s, c) == s[1..];
        SubsequenceOfSelf(s[1..]);
        DropHead(s);
      } else {
        RemoveKeepsOrder(s[1..], c);
        var i := Find(s[1..], c);
        assert Removed(s, c) == [s[0]] + Removed(s[1..], c);
      }
    }
  }

  lemma DropHead(s: Certs)
    requires s != []
    ensures Subsequence(s[1..], s)
  {
    SubsequenceOfSelf(s[1..]);
  }

  lemma SubsequenceOfSelf(s: Certs)
    ensures Subsequence(s, s)
  {}

  lemma {:induction false} AddedAllMeaning(s: Certs, cs: Certs)
    requires NoDuplicates(s)
    decreases |cs|
    ensures NoDuplicates(AddedAll(s, cs))
    ensures s <= AddedAll(s, cs)
    ensures forall c :: c in AddedAll(s, cs) <==> c in s || c in cs
  {
    if cs != [] {
      AddedAllMeaning(Added(s, cs[0]), cs[1..]);
    }
  }

  lemma {:induction false} AddedAllOfFresh(s: Certs, cs: Certs)
    requires NoDuplicates(s + cs)
    ensures AddedAll(s, cs) == s + cs
    decreases |cs|
  {
    if cs != [] {
      assert cs[0] == (s + cs)[|s|];
      forall i | 0 <= i < |s| ensures s[i] != cs[0] {
        assert s[i] == (s + cs)[i];
      }
      assert s + [cs[0]] + cs[1..] == s + cs;
      AddedAllOfFresh(s + [cs[0]], cs[1..]);
    }
  }

  lemma {:induction false} AddedAllAppends(s: Certs, a: Certs, b: Certs)
    ensures AddedAll(s, a + b) == AddedAll(AddedAll(s, a), b)
    decreases |a|
  {
    if a == [] {
      assert a + b == b;
    } else {
      assert (a + b)[1..] == a[1..] + b;
      AddedAllAppends(Added(s, a[0]), a[1..], b);
    }
  }

  /** Exactly the first occurrences remain, in their order. */
  lemma DeduplicatedMeaning(s: Certs, c: Certificate)
    ensures NoDuplicates(Deduplicated(s))
    ensures Deduplicated(s) == s <==> NoDuplicates(s)
    ensures Deduplicated(s + [c]) == if c in s then Deduplicated(s) else Deduplicated(s) + [c]
  {
    AddedAllMeaning([], s);
    AddedAllAppends([], s, [c]);
    if NoDuplicates(s) {
      assert [] + s == s;
      AddedAllOfFresh([], s);
    }
  }
}

/**
 Go slices of certificates: a backing array, whose length is the capacity, and a length. Copying a
 slice value shares the array; append writes in place while there is capacity left, and removal
 shifts the rest of the list to the left in the same array.
 */
module CertSlices {
  import opened Certificates

  datatype Slice = Slice(backing: array<Certificate>, len: nat)

  predicate Fits(s: Slice) {
    s.len <= s.backing.Length
  }

  ghost function Contents(s: Slice): Certs
    requires Fits(s)
    reads s.backing
  {
    s.backing[..s.len]
  }

  method MakeSlice() returns (s: Slice)
    ensures fresh(s.backing) && Fits(s) && Contents(s) == []
  {
    var backing := new Certificate[0];
    s := Slice(backing, 0);
  }

  /** internal/x509util/util.go: always a new array. */
  method CopyX509Authorities(s: Slice) returns (copied: Slice)
    requires Fits(s)
    ensures fresh(copied.backing) && Fits(copied) && Contents(copied) == Contents(s)
  {
    var backing := new Certificate[s.len];
    for i := 0 to s.len
      modifies backing
      invariant backing[..i] == s.backing[..i]
    {
      backing[i] := s.backing[i];
    }
    copied := Slice(backing, s.len);
  }

  /** internal/x509util/util.go */
  method CertsEqual(a: Slice, b: Slice) returns (equal: bool)
    requires Fits(a) && Fits(b)
    ensures equal <==> Contents(a) == Contents(b)
  {
    if a.len != b.len {
      return false;
    }
    for i := 0 to a.len
      invariant forall j | 0 <= j < i :: a.backing[j] == b.backing[j]
    {
      if a.backing[i].raw != b.backing[i].raw {
        assert Contents(a)[i] != Contents(b)[i];
        return false;
      }
    }
    return true;
  }

  method IndexOf(s: Slice, c: Certificate) returns (i: nat)
    requires Fits(s)
    ensures i == Find(Contents(s), c)
  {
    i := 0;
    while i < s.len && s.backing[i].raw != c.raw
      invariant i <= s.len
      invariant forall j | 0 <= j < i :: s.backing[j] != c
    {
      i := i + 1;
    }
    FindIs(Contents(s), c, i);
  }

  /** append(s, c): in place while the capacity lasts, into a longer array after that. */
  method Append(s: Slice, c: Certificate) returns (t: Slice)
    requires Fits(s)
    modifies s.backing
    ensures Fits(t) && (t.backing == s.backing || fresh(t.backing))
    ensures Contents(t) == old(Contents(s)) + [c]
  {
    if s.len < s.backing.Length {
      s.backing[s.len] := c;
      return Slice(s.backing, s.len + 1);
    }
    var capacity: nat :| capacity > s.len;
    var grown := new Certificate[capacity];
    for i := 0 to s.len
      modifies grown
      invariant grown[..i] == s.backing[..i]
    {
      grown[i] := s.backing[i];
    }
    grown[s.len] := c;
    return Slice(grown, s.len + 1);
  }

  /** append(s[:i], s[i+1:]...): the tail moves one place down in the same array. */
  method RemoveAt(s: Slice, i: nat) returns (t: Slice)
    requires Fits(s) && i < s.len
    modifies s.backing
    ensures t == Slice(s.backing, s.len - 1) && Fits(t)
    ensures Contents(t) == old(Contents(s)[..i] + Contents(s)[i + 1..])
  {
    for j := i to s.len - 1
      invariant forall k | 0 <= k < i || j <= k < s.len :: s.backing[k] == old(s.backing[k])
      invariant forall k | i <= k < j :: s.backing[k] == old(s.backing[k + 1])
    {
      s.backing[j] := s.backing[j + 1];
    }
    return Slice(s.backing, s.len - 1);
  }

  /** AddX509Authority of both kinds of bundle. */
  method AddTo(s: Slice, c: Certificate) returns (t: Slice)
    requires Fits(s)
    modifies s.backing
    ensures Fits(t) && (t.backing == s.backing || fresh(t.backing))
    ensures Contents(t) == Added(old(Contents(s)), c)
  {
    var i := IndexOf(s, c);
    if i < s.len {
      return s;
    }
    t := Append(s, c);
  }

  /** RemoveX509Authority of both kinds of bundle. */
  method RemoveFrom(s: Slice, c: Certificate) returns (t: Slice)
    requires Fits(s)
    modifies s.backing
    ensures Fits(t) && t.backing == s.backing
    ensures Contents(t) == Removed(old(Contents(s)), c)
  {
    var i := IndexOf(s, c);
    if i == s.len {
      return s;
    }
    t := RemoveAt(s, i);
  }
}
