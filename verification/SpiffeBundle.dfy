/**
 SPIFFE bundles and their documents: bundle/spiffebundle/bundle.go. A document is modelled after its
 JSON text has been decoded: a key list that may be missing, a sequence number and a refresh hint.
 */
module SpiffeBundle {
  import opened Wrappers
  import opened PublicKeys
  import opened Certificates
  import opened CertSlices
  import opened RefreshHint
  import opened SpiffeId
  import JwtBundle
  import X509Bundle

  type Uint64 = i: int | 0 <= i <= 0xffff_ffff_ffff_ffff

  datatype BundleValue = BundleValue(
    trustDomain: TrustDomain,
    refreshHint: Option<Int64>,
    sequenceNumber: Option<Uint64>,
    x509: Certs,
    jwt: KeyMap,
    wit: KeyMap)

  function EmptyBundle(td: TrustDomain): BundleValue {
    BundleValue(td, None, None, [], map[], map[])
  }

  predicate SupportedKeys(v: BundleValue) {
    AllSupported(v.jwt) && AllSupported(v.wit)
  }

  /** What Equal decides: equality, except that a bundle with an unsupported key equals nothing. */
  predicate BundlesEqual(a: BundleValue, b: BundleValue) {
    a == b && SupportedKeys(a)
  }

  predicate HasAuthorities(v: BundleValue) {
    v.x509 != [] || v.jwt != map[] || v.wit != map[]
  }

  // ---------- Documents ----------

  datatype Use = X509Svid | JwtSvid | WitSvid | OtherUse(use: string)

  datatype Jwk = Jwk(use: Use, keyId: string, key: PublicKey, certificates: Certs)

  /** keys is None when the list is absent or null. */
  datatype Document = Document(keys: Option<seq<Jwk>>, sequenceNumber: Option<Uint64>, refreshHint: Option<Int64>)

  datatype ParseError =
    | NoAuthorities
    | CertificateCount(entry: nat, count: nat)
    | EmptyKeyId(entry: nat)

  /** The extraction of a certificate's public key, which is a library matter. */
  type KeyOf = Certificate -> PublicKey

  /** Which keys the JSON encoder of the JOSE library has a form for. */
  type Encodable = PublicKey -> bool

  /** Marshal fails on a key that has no JSON form. */
  datatype MarshalError = NotEncodable(key: PublicKey)

  function KeysHeld(v: BundleValue, keyOf: KeyOf): set<PublicKey> {
    (set c | c in v.x509 :: keyOf(c)) + v.jwt.Values + v.wit.Values
  }

  ghost predicate AllEncodable(v: BundleValue, keyOf: KeyOf, encodable: Encodable) {
    forall key | key in KeysHeld(v, keyOf) :: encodable(key)
  }

  function X509Keys(certs: Certs, keyOf: KeyOf): (keys: seq<Jwk>)
    ensures |keys| == |certs|
  {
    seq(|certs|, i requires 0 <= i < |certs| => Jwk(X509Svid, "", keyOf(certs[i]), [certs[i]]))
  }

  function MapKeys(use: Use, order: seq<string>, m: KeyMap): (keys: seq<Jwk>)
    requires forall k | k in order :: k in m
    ensures |keys| == |order|
  {
    seq(|order|, i requires 0 <= i < |order| => Jwk(use, order[i], m[order[i]], []))
  }

  /** An order in which Go may range over a map. */
  ghost predicate IsOrder(order: seq<string>, m: KeyMap) {
    && (forall i, j | 0 <= i < j < |order| :: order[i] != order[j])
    && (forall k :: k in order <==> k in m)
  }

  function KeyList(v: BundleValue, keyOf: KeyOf, jwtOrder: seq<string>, witOrder: seq<string>): seq<Jwk>
    requires (forall k | k in jwtOrder :: k in v.jwt) && (forall k | k in witOrder :: k in v.wit)
  {
    X509Keys(v.x509, keyOf) + (MapKeys(JwtSvid, jwtOrder, v.jwt) + MapKeys(WitSvid, witOrder, v.wit))
  }

  /** The document written when the two key maps are ranged over in the given orders. */
  ghost function DocumentOf(v: BundleValue, keyOf: KeyOf, jwtOrder: seq<string>, witOrder: seq<string>): Document
    requires IsOrder(jwtOrder, v.jwt) && IsOrder(witOrder, v.wit)
  {
    var keys := KeyList(v, keyOf, jwtOrder, witOrder);
    Document(
      if keys == [] then None else Some(keys),
      v.sequenceNumber,
      match v.refreshHint case None => None case Some(h) => Some(ToSeconds(h)))
  }

  ghost predicate Describes(doc: Document, v: BundleValue, keyOf: KeyOf) {
    exists jwtOrder, witOrder :: IsOrder(jwtOrder, v.jwt) && IsOrder(witOrder, v.wit) && doc == DocumentOf(v, keyOf, jwtOrder, witOrder)
  }

  /** What Marshal may return: a document of the bundle, or an error when some key cannot be encoded. */
  ghost predicate Marshaled(r: Result<Document, MarshalError>, v: BundleValue, keyOf: KeyOf, encodable: Encodable) {
    match r
    case Ok(doc) => AllEncodable(v, keyOf, encodable) && Describes(doc, v, keyOf)
    case Err(NotEncodable(key)) => key in KeysHeld(v, keyOf) && !encodable(key)
  }

  function WithKey(v: BundleValue, key: Jwk, entry: nat): Result<BundleValue, ParseError> {
    match key.use
    case X509Svid =>
      if |key.certificates| != 1 then Err(CertificateCount(entry, |key.certificates|))
      else Ok(v.(x509 := Added(v.x509, key.certificates[0])))
    case JwtSvid => if key.keyId == "" then Err(EmptyKeyId(entry)) else Ok(v.(jwt := v.jwt[key.keyId := key.key]))
    case WitSvid => if key.keyId == "" then Err(EmptyKeyId(entry)) else Ok(v.(wit := v.wit[key.keyId := key.key]))
    case OtherUse(_) => Ok(v)
  }

  function WithKeys(v: BundleValue, keys: seq<Jwk>, entry: nat): Result<BundleValue, ParseError>
    decreases |keys|
  {
    if keys == [] then Ok(v)
    else match WithKey(v, keys[0], entry)
      case Err(e) => Err(e)
      case Ok(w) => WithKeys(w, keys[1..], entry + 1)
  }

  function HeaderOf(td: TrustDomain, doc: Document): BundleValue {
    EmptyBundle(td).(
      refreshHint := match doc.refreshHint case None => None case Some(s) => Some(FromSeconds(s)),
      sequenceNumber := doc.sequenceNumber)
  }

  function Parsed(td: TrustDomain, doc: Document): Result<BundleValue, ParseError> {
    match doc.keys
    case None => Err(NoAuthorities)
    case Some(keys) => WithKeys(HeaderOf(td, doc), keys, 0)
  }

  // ---------- The mutable bundle ----------

  class Bundle {
    const trustDomain: TrustDomain
    var refreshHint: Option<Int64>
    var sequenceNumber: Option<Uint64>
    var x509Authorities: Slice
    var jwtAuthorities: KeyTable
    var witAuthorities: KeyTable

    ghost predicate Valid()
      reads this
    {
      Fits(x509Authorities) && jwtAuthorities != witAuthorities
    }

    /** The memory a bundle lives in; nothing else may share it. */
    ghost function Repr(): set<object>
      reads this
    {
      {this, x509Authorities.backing, jwtAuthorities, witAuthorities}
    }

    ghost function Value(): BundleValue
      requires Valid()
      reads this, Repr()
    {
      BundleValue(trustDomain, refreshHint, sequenceNumber,
                  Contents(x509Authorities), jwtAuthorities.keys, witAuthorities.keys)
    }

    constructor (trustDomain: TrustDomain)
      ensures Valid() && fresh(Repr()) && Value() == EmptyBundle(trustDomain)
      ensures Value() == BundleValue(trustDomain, None, None, [], map[], map[])
    {
      var empty := MakeSlice();
      this.trustDomain := trustDomain;
      refreshHint, sequenceNumber := None, None;
      x509Authorities := empty;
      jwtAuthorities := new KeyTable(map[]);
      witAuthorities := new KeyTable(map[]);
    }

    /** No copy here: the getter of the X.509 bundle has made one. */
    static method FromX509Bundle(x509Bundle: X509Bundle.Bundle) returns (b: Bundle)
      requires x509Bundle.Valid()
      ensures b.Valid() && fresh(b.Repr())
      ensures b.Value() == EmptyBundle(x509Bundle.trustDomain).(x509 := x509Bundle.Authorities())
    {
      b := new Bundle(x509Bundle.trustDomain);
      b.x509Authorities := x509Bundle.X509Authorities();
    }

    static method FromJWTBundle(jwtBundle: JwtBundle.Bundle) returns (b: Bundle)
      ensures b.Valid() && fresh(b.Repr())
      ensures b.Value() == EmptyBundle(jwtBundle.trustDomain).(jwt := jwtBundle.Authorities())
    {
      b := new Bundle(jwtBundle.trustDomain);
      b.jwtAuthorities := jwtBundle.JWTAuthorities();
    }

    static method FromX509Authorities(td: TrustDomain, authorities: Slice) returns (b: Bundle)
      requires Fits(authorities)
      ensures b.Valid() && fresh(b.Repr()) && b.Value() == EmptyBundle(td).(x509 := Contents(authorities))
    {
      b := new Bundle(td);
      b.x509Authorities := CopyX509Authorities(authorities);
    }

    static method FromJWTAuthorities(td: TrustDomain, authorities: KeyTable) returns (b: Bundle)
      ensures b.Valid() && fresh(b.Repr()) && b.Value() == EmptyBundle(td).(jwt := authorities.keys)
    {
      b := new Bundle(td);
      b.jwtAuthorities := CopyJWTAuthorities(authorities);
    }

    static method FromWITAuthorities(td: TrustDomain, authorities: KeyTable) returns (b: Bundle)
      ensures b.Valid() && fresh(b.Repr()) && b.Value() == EmptyBundle(td).(wit := authorities.keys)
    {
      b := new Bundle(td);
      b.witAuthorities := CopyJWTAuthorities(authorities);
    }

    method X509Authorities() returns (authorities: Slice)
      requires Valid()
      ensures Fits(authorities) && fresh(authorities.backing) && Contents(authorities) == Value().x509
    {
      authorities := CopyX509Authorities(x509Authorities);
    }

    method AddX509Authority(c: Certificate)
      requires Valid()
      modifies Repr()
      ensures Valid() && fresh(Repr() - old(Repr()))
      ensures Value() == old(Value()).(x509 := Added(old(Value()).x509, c))
    {
      x509Authorities := AddTo(x509Authorities, c);
    }

    method RemoveX509Authority(c: Certificate)
      requires Valid()
      modifies Repr()
      ensures Valid() && fresh(Repr() - old(Repr()))
      ensures Value() == old(Value()).(x509 := Removed(old(Value()).x509, c))
    {
      x509Authorities := RemoveFrom(x509Authorities, c);
    }

    method SetX509Authorities(authorities: Slice)
      requires Valid() && Fits(authorities)
      modifies this
      ensures Valid() && fresh(Repr() - old(Repr()))
      ensures Value() == old(Value()).(x509 := old(Contents(authorities)))
    {
      x509Authorities := CopyX509Authorities(authorities);
    }

    method JWTAuthorities() returns (authorities: KeyTable)
      requires Valid()
      ensures fresh(authorities) && authorities.keys == Value().jwt
    {
      authorities := CopyJWTAuthorities(jwtAuthorities);
    }

    method AddJWTAuthority(keyId: string, key: PublicKey) returns (ok: bool)
      requires Valid()
      modifies jwtAuthorities
      ensures ok <==> keyId != ""
      ensures Value() == if ok then old(Value()).(jwt := old(Value()).jwt[keyId := key]) else old(Value())
    {
      ok := keyId != "";
      if ok {
        jwtAuthorities.keys := jwtAuthorities.keys[keyId := key];
      }
    }

    method RemoveJWTAuthority(keyId: string)
      requires Valid()
      modifies jwtAuthorities
      ensures Value() == old(Value()).(jwt := old(Value()).jwt - {keyId})
    {
      jwtAuthorities.keys := jwtAuthorities.keys - {keyId};
    }

    method SetJWTAuthorities(authorities: KeyTable)
      requires Valid()
      modifies this
      ensures Valid() && fresh(Repr() - old(Repr()))
      ensures Value() == old(Value()).(jwt := old(authorities.keys))
    {
      jwtAuthorities := CopyJWTAuthorities(authorities);
    }

    method WITAuthorities() returns (authorities: KeyTable)
      requires Valid()
      ensures fresh(authorities) && authorities.keys == Value().wit
    {
      authorities := CopyJWTAuthorities(witAuthorities);
    }

    method AddWITAuthority(keyId: string, key: PublicKey) returns (ok: bool)
      requires Valid()
      modifies witAuthorities
      ensures ok <==> keyId != ""
      ensures Value() == if ok then old(Value()).(wit := old(Value()).wit[keyId := key]) else old(Value())
    {
      ok := keyId != "";
      if ok {
        witAuthorities.keys := witAuthorities.keys[keyId := key];
      }
    }

    method RemoveWITAuthority(keyId: string)
      requires Valid()
      modifies witAuthorities
      ensures Value() == old(Value()).(wit := old(Value()).wit - {keyId})
    {
      witAuthorities.keys := witAuthorities.keys - {keyId};
    }

    method SetWITAuthorities(authorities: KeyTable)
      requires Valid()
      modifies this
      ensures Valid() && fresh(Repr() - old(Repr()))
      ensures Value() == old(Value()).(wit := old(authorities.keys))
    {
      witAuthorities := CopyJWTAuthorities(authorities);
    }

    method RefreshHint() returns (hint: Int64, ok: bool)
      ensures refreshHint == (if ok then Some(hint) else None) && (!ok ==> hint == 0)
    {
      if refreshHint.Some? {
        return refreshHint.value, true;
      }
      return 0, false;
    }

    /** The hint is stored as it is: what is stored is the truncated hint only when that is the same. */
    method SetRefreshHint(hint: Int64)
      requires Valid()
      modifies this
      ensures Valid() && Repr() == old(Repr()) && Value() == old(Value()).(refreshHint := Some(hint))
      ensures Value().refreshHint == Some(Truncated(hint)) <==> hint % SECOND == 0
    {
      refreshHint := Some(hint);
    }

    method ClearRefreshHint()
      requires Valid()
      modifies this
      ensures Valid() && Repr() == old(Repr()) && Value() == old(Value()).(refreshHint := None)
    {
      refreshHint := None;
    }

    method SetSequenceNumber(number: Uint64)
      requires Valid()
      modifies this
      ensures Valid() && Repr() == old(Repr()) && Value() == old(Value()).(sequenceNumber := Some(number))
    {
      sequenceNumber := Some(number);
    }

    method ClearSequenceNumber()
      requires Valid()
      modifies this
      ensures Valid() && Repr() == old(Repr()) && Value() == old(Value()).(sequenceNumber := None)
    {
      sequenceNumber := None;
    }

    method Clone() returns (b: Bundle)
      requires Valid()
      ensures b.Valid() && fresh(b.Repr()) && b.Value() == Value()
    {
      b := new Bundle(trustDomain);
      b.refreshHint, b.sequenceNumber := refreshHint, sequenceNumber;
      b.x509Authorities := CopyX509Authorities(x509Authorities);
      b.jwtAuthorities := CopyJWTAuthorities(jwtAuthorities);
      b.witAuthorities := CopyJWTAuthorities(witAuthorities);
    }

    /** The internal slice is passed on directly: FromX509Authorities copies. */
    method X509Bundle() returns (b: X509Bundle.Bundle)
      requires Valid()
      ensures b.Valid() && fresh(b.Repr()) && b.trustDomain == trustDomain && b.Authorities() == Value().x509
    {
      b := new X509Bundle.Bundle.FromX509Authorities(trustDomain, x509Authorities);
    }

    method JWTBundle() returns (b: JwtBundle.Bundle)
      requires Valid()
      ensures fresh(b.Repr()) && b.trustDomain == trustDomain && b.Authorities() == Value().jwt
    {
      b := new JwtBundle.Bundle.FromJWTAuthorities(trustDomain, jwtAuthorities);
    }

    static method Equal(b: Bundle?, other: Bundle?) returns (equal: bool)
      requires (b != null ==> b.Valid()) && (other != null ==> other.Valid())
      ensures equal <==> if b == null || other == null then b == other else BundlesEqual(b.Value(), other.Value())
    {
      if b == null || other == null {
        return b == other;
      }
      var jwtEqual := JWTAuthoritiesEqual(b.jwtAuthorities, other.jwtAuthorities);
      var witEqual := JWTAuthoritiesEqual(b.witAuthorities, other.witAuthorities);
      var x509Equal := CertsEqual(b.x509Authorities, other.x509Authorities);
      return b.trustDomain == other.trustDomain && b.refreshHint == other.refreshHint
             && b.sequenceNumber == other.sequenceNumber && jwtEqual && witEqual && x509Equal;
    }

    method Marshal(keyOf: KeyOf, encodable: Encodable) returns (r: Result<Document, MarshalError>)
      requires Valid()
      ensures Marshaled(r, Value(), keyOf, encodable)
    {
      var hint := match refreshHint case None => None case Some(h) => Some(ToSeconds(h));
      var keys: seq<Jwk> := [];
      for i := 0 to x509Authorities.len
        invariant keys == X509Keys(Contents(x509Authorities)[..i], keyOf)
      {
        var c := x509Authorities.backing[i];
        keys := keys + [Jwk(X509Svid, "", keyOf(c), [c])];
      }
      assert Contents(x509Authorities)[..x509Authorities.len] == Contents(x509Authorities);
      var jwtKeys := MarshalMap(JwtSvid, jwtAuthorities);
      ghost var jwtOrder :| IsOrder(jwtOrder, jwtAuthorities.keys) && jwtKeys == MapKeys(JwtSvid, jwtOrder, jwtAuthorities.keys);
      var witKeys := MarshalMap(WitSvid, witAuthorities);
      ghost var witOrder :| IsOrder(witOrder, witAuthorities.keys) && witKeys == MapKeys(WitSvid, witOrder, witAuthorities.keys);
      keys := keys + (jwtKeys + witKeys);
      var bad := FirstNotEncodable(keys, encodable);
      ListHoldsKeys(Value(), keyOf, jwtOrder, witOrder);
      if bad.Some? {
        return Err(NotEncodable(bad.value));
      }
      var doc := Document(if keys == [] then None else Some(keys), sequenceNumber, hint);
      assert doc == DocumentOf(Value(), keyOf, jwtOrder, witOrder);
      return Ok(doc);
    }

    /** One range loop over a key map, in whatever order it comes. */
    static method MarshalMap(use: Use, table: KeyTable) returns (keys: seq<Jwk>)
      ensures exists order :: IsOrder(order, table.keys) && keys == MapKeys(use, order, table.keys)
    {
      keys := [];
      ghost var order: seq<string> := [];
      var m := table.keys;
      var rest := m.Keys;
      while rest != {}
        invariant rest <= m.Keys
        invariant forall i, j | 0 <= i < j < |order| :: order[i] != order[j]
        invariant forall k :: k in order <==> k in m && k !in rest
        invariant keys == MapKeys(use, order, m)
      {
        var k :| k in rest;
        keys := keys + [Jwk(use, k, m[k], [])];
        order := order + [k];
        rest := rest - {k};
      }
    }
  }

  /** The JSON encoder gives up at the first key it has no form for. */
  method FirstNotEncodable(keys: seq<Jwk>, encodable: Encodable) returns (bad: Option<PublicKey>)
    ensures bad == None ==> forall i | 0 <= i < |keys| :: encodable(keys[i].key)
    ensures bad.Some? ==> !encodable(bad.value) && exists i :: 0 <= i < |keys| && keys[i].key == bad.value
  {
    for n := 0 to |keys|
      invariant forall i | 0 <= i < n :: encodable(keys[i].key)
    {
      if !encodable(keys[n].key) {
        return Some(keys[n].key);
      }
    }
    return None;
  }

  /** The keys in the list are exactly the keys of the bundle and of its certificates. */
  lemma ListHoldsKeys(v: BundleValue, keyOf: KeyOf, jwtOrder: seq<string>, witOrder: seq<string>)
    requires IsOrder(jwtOrder, v.jwt) && IsOrder(witOrder, v.wit)
    ensures forall i | 0 <= i < |KeyList(v, keyOf, jwtOrder, witOrder)| :: KeyList(v, keyOf, jwtOrder, witOrder)[i].key in KeysHeld(v, keyOf)
    ensures forall key | key in KeysHeld(v, keyOf) ::
              exists i :: 0 <= i < |KeyList(v, keyOf, jwtOrder, witOrder)| && KeyList(v, keyOf, jwtOrder, witOrder)[i].key == key
  {
    var keys := KeyList(v, keyOf, jwtOrder, witOrder);
    forall key | key in KeysHeld(v, keyOf) ensures exists i :: 0 <= i < |keys| && keys[i].key == key {
      if key in v.jwt.Values {
        var k :| k in v.jwt && v.jwt[k] == key;
        var n :| 0 <= n < |jwtOrder| && jwtOrder[n] == k;
        assert keys[|v.x509| + n].key == key;
      } else if key in v.wit.Values {
        var k :| k in v.wit && v.wit[k] == key;
        var n :| 0 <= n < |witOrder| && witOrder[n] == k;
        assert keys[|v.x509| + |jwtOrder| + n].key == key;
      } else {
        var c :| c in v.x509 && keyOf(c) == key;
        var n :| 0 <= n < |v.x509| && v.x509[n] == c;
        assert keys[n].key == key;
      }
    }
  }

  method Parse(td: TrustDomain, doc: Document) returns (r: Result<Bundle, ParseError>)
    ensures match r
            case Err(e) => Parsed(td, doc) == Err(e)
            case Ok(b) => b.Valid() && fresh(b.Repr()) && Parsed(td, doc) == Ok(b.Value())
  {
    var bundle := new Bundle(td);
    if doc.refreshHint.Some? {
      bundle.SetRefreshHint(FromSeconds(doc.refreshHint.value));
    }
    if doc.sequenceNumber.Some? {
      bundle.SetSequenceNumber(doc.sequenceNumber.value);
    }
    if doc.keys.None? {
      return Err(NoAuthorities);
    }
    var keys := doc.keys.value;
    assert keys[0..] == keys;
    for i := 0 to |keys|
      invariant bundle.Valid() && fresh(bundle.Repr())
      invariant Parsed(td, doc) == WithKeys(bundle.Value(), keys[i..], i)
    {
      assert keys[i..][1..] == keys[i + 1..];
      var key := keys[i];
      if key.use == X509Svid {
        if |key.certificates| != 1 {
          return Err(CertificateCount(i, |key.certificates|));
        }
        bundle.AddX509Authority(key.certificates[0]);
      } else if key.use == JwtSvid {
        var ok := bundle.AddJWTAuthority(key.keyId, key.key);
        if !ok {
          return Err(EmptyKeyId(i));
        }
      } else if key.use == WitSvid {
        var ok := bundle.AddWITAuthority(key.keyId, key.key);
        if !ok {
          return Err(EmptyKeyId(i));
        }
      }
    }
    return Ok(bundle);
  }

  // ---------- Main results ----------

  /** Two bundles are Equal when all their fields are, and no key of theirs is of an unsupported type. */
  lemma EqualIff(a: BundleValue, b: BundleValue)
    ensures BundlesEqual(a, b) <==>
              && a.trustDomain == b.trustDomain && a.refreshHint == b.refreshHint && a.sequenceNumber == b.sequenceNumber
              && a.x509 == b.x509 && a.jwt == b.jwt && a.wit == b.wit
              && (forall k | k in a.jwt :: !a.jwt[k].Unsupported?) && (forall k | k in a.wit :: !a.wit[k].Unsupported?)
  {}

  /** Equal is symmetric and transitive on all bundles, and reflexive exactly where every key is supported. */
  lemma EqualIsAnEquivalence(a: BundleValue, b: BundleValue, c: BundleValue)
    ensures BundlesEqual(a, b) <==> BundlesEqual(b, a)
    ensures BundlesEqual(a, b) && BundlesEqual(b, c) ==> BundlesEqual(a, c)
    ensures BundlesEqual(a, a) <==> SupportedKeys(a)
  {}

  lemma {:induction false} WithKeysAppends(v: BundleValue, a: seq<Jwk>, b: seq<Jwk>, entry: nat)
    ensures WithKeys(v, a + b, entry) ==
            match WithKeys(v, a, entry) case Err(e) => Err(e) case Ok(w) => WithKeys(w, b, entry + |a|)
    decreases |a|
  {
    if a == [] {
      assert a + b == b;
    } else {
      assert (a + b)[1..] == a[1..] + b;
      match WithKey(v, a[0], entry)
      case Err(_) =>
      case Ok(w) => WithKeysAppends(w, a[1..], b, entry + 1);
    }
  }

  lemma {:induction false} ReadX509Keys(v: BundleValue, certs: Certs, keyOf: KeyOf, entry: nat)
    ensures WithKeys(v, X509Keys(certs, keyOf), entry) == Ok(v.(x509 := AddedAll(v.x509, certs)))
    decreases |certs|
  {
    if certs != [] {
      assert X509Keys(certs, keyOf)[1..] == X509Keys(certs[1..], keyOf);
      ReadX509Keys(v.(x509 := Added(v.x509, certs[0])), certs[1..], keyOf, entry + 1);
    }
  }

  function MapFor(v: BundleValue, use: Use): KeyMap {
    if use == JwtSvid then v.jwt else v.wit
  }

  function WithMapFor(v: BundleValue, use: Use, m: KeyMap): BundleValue {
    if use == JwtSvid then v.(jwt := m) else v.(wit := m)
  }

  function Listed(order: seq<string>, m: KeyMap): KeyMap
    requires forall k | k in order :: k in m
  {
    map k | k in order :: m[k]
  }

  /** Reading the entries of a map adds them; an empty key ID stops it. */
  lemma {:induction false} ReadMapKeys(v: BundleValue, use: Use, order: seq<string>, m: KeyMap, entry: nat)
    requires use == JwtSvid || use == WitSvid
    requires forall k | k in order :: k in m
    ensures "" !in order ==> WithKeys(v, MapKeys(use, order, m), entry)
                             == Ok(WithMapFor(v, use, MapFor(v, use) + Listed(order, m)))
    ensures "" in order ==> WithKeys(v, MapKeys(use, order, m), entry).Err? && WithKeys(v, MapKeys(use, order, m), entry).error.EmptyKeyId?
    decreases |order|
  {
    var keys := MapKeys(use, order, m);
    if order == [] {
      assert MapFor(v, use) + Listed(order, m) == MapFor(v, use);
    } else {
      assert keys[1..] == MapKeys(use, order[1..], m);
      if order[0] != "" {
        var w := WithMapFor(v, use, MapFor(v, use)[order[0] := m[order[0]]]);
        assert WithKey(v, keys[0], entry) == Ok(w);
        ReadMapKeys(w, use, order[1..], m, entry + 1);
        assert MapFor(w, use) + Listed(order[1..], m) == MapFor(v, use) + Listed(order, m);
        assert "" in order <==> "" in order[1..];
      }
    }
  }

  lemma ReadWholeMap(v: BundleValue, use: Use, order: seq<string>, m: KeyMap, entry: nat)
    requires use == JwtSvid || use == WitSvid
    requires IsOrder(order, m) && MapFor(v, use) == map[]
    ensures "" !in m ==> WithKeys(v, MapKeys(use, order, m), entry) == Ok(WithMapFor(v, use, m))
    ensures "" in m ==> WithKeys(v, MapKeys(use, order, m), entry).Err? && WithKeys(v, MapKeys(use, order, m), entry).error.EmptyKeyId?
  {
    ReadMapKeys(v, use, order, m, entry);
    assert map[] + Listed(order, m) == m;
  }

  // ---------- What Parse reads ----------

  /** The certificates of the X.509 entries, in order. */
  function CertsListed(keys: seq<Jwk>): Certs {
    if keys == [] then []
    else (if keys[0].use == X509Svid then keys[0].certificates else []) + CertsListed(keys[1..])
  }

  /** The key of the last entry of this use with this key ID. */
  function LastKey(keys: seq<Jwk>, use: Use, id: string): Option<PublicKey> {
    if keys == [] then None
    else
      var rest := LastKey(keys[1..], use, id);
      if rest.Some? then rest
      else if keys[0].use == use && keys[0].keyId == id then Some(keys[0].key)
      else None
  }

  lemma {:induction false} LastKeyMeaning(keys: seq<Jwk>, use: Use, id: string) returns (i: nat)
    ensures LastKey(keys, use, id) == None ==> forall j | 0 <= j < |keys| :: keys[j].use != use || keys[j].keyId != id
    ensures LastKey(keys, use, id).Some? ==>
              && i < |keys| && keys[i].use == use && keys[i].keyId == id && LastKey(keys, use, id) == Some(keys[i].key)
              && forall j | i < j < |keys| :: keys[j].use != use || keys[j].keyId != id
  {
    i := 0;
    if keys != [] {
      var n := LastKeyMeaning(keys[1..], use, id);
      assert forall j | 0 < j < |keys| :: keys[j] == keys[1..][j - 1];
      i := if LastKey(keys[1..], use, id).Some? then n + 1 else 0;
    }
  }

  function Lookup(m: KeyMap, id: string): Option<PublicKey> {
    if id in m then Some(m[id]) else None
  }

  function OrElse(last: Option<PublicKey>, before: Option<PublicKey>): Option<PublicKey> {
    if last.Some? then last else before
  }

  /** No entry is at fault: one certificate for each X.509 entry, a key ID for each JWT and WIT entry. */
  ghost predicate Faultless(keys: seq<Jwk>) {
    forall i | 0 <= i < |keys| ::
      && (keys[i].use == X509Svid ==> |keys[i].certificates| == 1)
      && (keys[i].use == JwtSvid || keys[i].use == WitSvid ==> keys[i].keyId != "")
  }

  lemma FirstCertsRead(v: BundleValue, key: Jwk, entry: nat, rest: Certs)
    requires WithKey(v, key, entry).Ok?
    ensures AddedAll(WithKey(v, key, entry).value.x509, rest) == AddedAll(v.x509, (if key.use == X509Svid then key.certificates else []) + rest)
  {
    if key.use == X509Svid {
      var c := key.certificates;
      AddedAllAppends(v.x509, c, rest);
      assert c[1..] == [] && AddedAll(v.x509, c) == AddedAll(Added(v.x509, c[0]), c[1..]);
    } else {
      assert [] + rest == rest;
    }
  }

  lemma {:induction false} FaultlessIsRead(v: BundleValue, keys: seq<Jwk>, entry: nat)
    requires Faultless(keys)
    ensures WithKeys(v, keys, entry).Ok?
    ensures var w := WithKeys(v, keys, entry).value;
            && w == v.(x509 := AddedAll(v.x509, CertsListed(keys)), jwt := w.jwt, wit := w.wit)
            && (forall id :: Lookup(w.jwt, id) == OrElse(LastKey(keys, JwtSvid, id), Lookup(v.jwt, id)))
            && (forall id :: Lookup(w.wit, id) == OrElse(LastKey(keys, WitSvid, id), Lookup(v.wit, id)))
    decreases |keys|
  {
    if keys != [] {
      assert forall i | 0 <= i < |keys| - 1 :: keys[1..][i] == keys[i + 1];
      var next := WithKey(v, keys[0], entry).value;
      FaultlessIsRead(next, keys[1..], entry + 1);
      FirstCertsRead(v, keys[0], entry, CertsListed(keys[1..]));
    }
  }

  /**
   A document without a fault is parsed into exactly this: the header of the document, the certificates of
   its X.509 entries without later duplicates, and for each key ID the last key of its use; entries of
   other uses are ignored.
   */
  lemma ParseReads(td: TrustDomain, doc: Document)
    requires doc.keys.Some? && Faultless(doc.keys.value)
    ensures Parsed(td, doc).Ok?
    ensures var keys, v := doc.keys.value, Parsed(td, doc).value;
            && v.trustDomain == td && v.sequenceNumber == doc.sequenceNumber
            && v.refreshHint == (match doc.refreshHint case None => None case Some(s) => Some(Wrap(SECOND * s)))
            && v.x509 == Deduplicated(CertsListed(keys))
            && (forall id :: Lookup(v.jwt, id) == LastKey(keys, JwtSvid, id))
            && (forall id :: Lookup(v.wit, id) == LastKey(keys, WitSvid, id))
  {
    FaultlessIsRead(HeaderOf(td, doc), doc.keys.value, 0);
  }

  /** Otherwise the first entry at fault is named, and without a list of keys there are no authorities. */
  lemma ParseFailsAt(td: TrustDomain, doc: Document, i: nat)
    ensures doc.keys == None ==> Parsed(td, doc) == Err(NoAuthorities)
    ensures doc.keys.Some? && i < |doc.keys.value| && Faultless(doc.keys.value[..i]) ==>
              var key := doc.keys.value[i];
              && (key.use == X509Svid && |key.certificates| != 1 ==> Parsed(td, doc) == Err(CertificateCount(i, |key.certificates|)))
              && ((key.use == JwtSvid || key.use == WitSvid) && key.keyId == "" ==> Parsed(td, doc) == Err(EmptyKeyId(i)))
  {
    if doc.keys.Some? && i < |doc.keys.value| && Faultless(doc.keys.value[..i]) {
      var keys, v := doc.keys.value, HeaderOf(td, doc);
      assert keys == keys[..i] + keys[i..];
      WithKeysAppends(v, keys[..i], keys[i..], 0);
      FaultlessIsRead(v, keys[..i], 0);
    }
  }

  /** The bundle a round trip is meant to give: hint in whole seconds, later duplicates dropped. */
  function Normalized(v: BundleValue): BundleValue {
    v.(x509 := Deduplicated(v.x509),
       refreshHint := match v.refreshHint case None => None case Some(h) => Some(RoundTrip(h)))
  }

  /** Reading the three parts of a document one after the other. */
  lemma ReadThreeParts(v: BundleValue, w: BundleValue, keyOf: KeyOf, jwtOrder: seq<string>, witOrder: seq<string>)
    requires IsOrder(jwtOrder, v.jwt) && IsOrder(witOrder, v.wit)
    requires w.x509 == [] && w.jwt == map[] && w.wit == map[]
    ensures var keys := KeyList(v, keyOf, jwtOrder, witOrder);
            if "" in v.jwt || "" in v.wit then WithKeys(w, keys, 0).Err? && WithKeys(w, keys, 0).error.EmptyKeyId?
            else WithKeys(w, keys, 0) == Ok(w.(x509 := Deduplicated(v.x509), jwt := v.jwt, wit := v.wit))
  {
    var a, b, c := X509Keys(v.x509, keyOf), MapKeys(JwtSvid, jwtOrder, v.jwt), MapKeys(WitSvid, witOrder, v.wit);
    WithKeysAppends(w, a, b + c, 0);
    ReadX509Keys(w, v.x509, keyOf, 0);
    ReadTwoMaps(w.(x509 := Deduplicated(v.x509)), jwtOrder, v.jwt, witOrder, v.wit, |a|);
  }

  lemma ReadTwoMaps(w: BundleValue, jwtOrder: seq<string>, jwt: KeyMap, witOrder: seq<string>, wit: KeyMap, entry: nat)
    requires IsOrder(jwtOrder, jwt) && IsOrder(witOrder, wit) && w.jwt == map[] && w.wit == map[]
    ensures var r := WithKeys(w, MapKeys(JwtSvid, jwtOrder, jwt) + MapKeys(WitSvid, witOrder, wit), entry);
            if "" in jwt || "" in wit then r.Err? && r.error.EmptyKeyId? else r == Ok(w.(jwt := jwt, wit := wit))
  {
    WithKeysAppends(w, MapKeys(JwtSvid, jwtOrder, jwt), MapKeys(WitSvid, witOrder, wit), entry);
    ReadWholeMap(w, JwtSvid, jwtOrder, jwt, entry);
    ReadWholeMap(w.(jwt := jwt), WitSvid, witOrder, wit, entry + |jwtOrder|);
  }

  lemma NonEmptyOrder(order: seq<string>, m: KeyMap)
    requires IsOrder(order, m)
    ensures order == [] <==> m == map[]
  {
    if order != [] {
      assert order[0] in m;
    }
    if m != map[] {
      var k :| k in m;
      assert k in order;
    }
  }

  /** Marshal then Parse, in every case and for every order of the maps. */
  lemma DocumentRoundTrip(v: BundleValue, keyOf: KeyOf, encodable: Encodable, r: Result<Document, MarshalError>)
    requires Marshaled(r, v, keyOf, encodable)
    ensures r.Ok? <==> AllEncodable(v, keyOf, encodable)
    ensures r.Ok? && !HasAuthorities(v) ==> Parsed(v.trustDomain, r.value) == Err(NoAuthorities)
    ensures r.Ok? && ("" in v.jwt || "" in v.wit) ==>
              Parsed(v.trustDomain, r.value).Err? && Parsed(v.trustDomain, r.value).error.EmptyKeyId?
    ensures r.Ok? && HasAuthorities(v) && "" !in v.jwt && "" !in v.wit ==> Parsed(v.trustDomain, r.value) == Ok(Normalized(v))
  {
    if r.Ok? {
      var jwtOrder, witOrder :|
        IsOrder(jwtOrder, v.jwt) && IsOrder(witOrder, v.wit) && r.value == DocumentOf(v, keyOf, jwtOrder, witOrder);
      NonEmptyOrder(jwtOrder, v.jwt);
      NonEmptyOrder(witOrder, v.wit);
      ReadThreeParts(v, HeaderOf(v.trustDomain, r.value), keyOf, jwtOrder, witOrder);
    }
  }

  /** There is a document and it restores the bundle exactly, on exactly the bundles named here. */
  lemma LosslessIff(v: BundleValue, keyOf: KeyOf, encodable: Encodable, r: Result<Document, MarshalError>)
    requires Marshaled(r, v, keyOf, encodable)
    ensures r.Ok? && Parsed(v.trustDomain, r.value) == Ok(v) <==>
              && AllEncodable(v, keyOf, encodable)
              && HasAuthorities(v) && "" !in v.jwt && "" !in v.wit && NoDuplicates(v.x509)
              && (v.refreshHint.Some? ==> v.refreshHint.value % SECOND == 0 && 0 <= v.refreshHint.value <= 9_223_372_035 * SECOND)
  {
    DocumentRoundTrip(v, keyOf, encodable, r);
    DeduplicatedMeaning(v.x509, Certificate([]));
    if v.refreshHint.Some? {
      UnchangedIff(v.refreshHint.value);
    }
  }

  /** Marshal and Parse one after the other on a bundle in memory: a new bundle exactly when nothing stands in the way. */
  method MarshalThenParse(b: Bundle, keyOf: KeyOf, encodable: Encodable) returns (parsed: Bundle?)
    requires b.Valid()
    ensures parsed != null <==>
              AllEncodable(b.Value(), keyOf, encodable) && HasAuthorities(b.Value())
              && "" !in b.Value().jwt && "" !in b.Value().wit
    ensures parsed != null ==> parsed.Valid() && fresh(parsed.Repr()) && parsed.Value() == Normalized(b.Value())
  {
    var r := b.Marshal(keyOf, encodable);
    DocumentRoundTrip(b.Value(), keyOf, encodable, r);
    if r.Err? {
      return null;
    }
    var p := Parse(b.trustDomain, r.value);
    return match p case Ok(bundle) => bundle case Err(_) => null;
  }
}
