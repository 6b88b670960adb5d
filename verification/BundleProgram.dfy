/**
 Programs over bundles: whatever a program does with certificate slices, key maps, X.509, JWT and SPIFFE
 bundles and bundle sources, it behaves as if they were values. The code shifts and appends in place and
 hands references around, so this is what its defensive copies are for: bundle/x509bundle/bundle.go,
 bundle/jwtbundle/bundle.go, bundle/spiffebundle/bundle.go, workloadapi/bundlesource.go.
 */
module BundleProgram {
  import opened Wrappers
  import opened PublicKeys
  import opened Certificates
  import opened CertSlices
  import opened SpiffeId
  import opened RefreshHint
  import BundleSet
  import BundleSource
  import JwtBundle
  import SpiffeBundle
  import X509Bundle

  // ---------- What a program sees ----------

  datatype Value =
    | CertList(certs: Certs)
    | KeyMapping(keys: KeyMap)
    | X509Value(td: TrustDomain, certs: Certs)
    | JwtValue(td: TrustDomain, keys: KeyMap)
    | SpiffeValue(bundle: SpiffeBundle.BundleValue)
    | SourceValue(cache: BundleSource.Cache, closed: bool)

  /** Everything the program holds, in the order in which it obtained it. */
  type View = seq<Value>

  datatype KeyKind = Jwt | Wit

  /** Calls that give the program something new: from nothing, from something it holds, or from a source. */
  datatype Creation =
    | NewSlice(certs: Certs)
    | NewTable(keys: KeyMap)
    | NewX509(td: TrustDomain)
    | NewJwt(td: TrustDomain)
    | NewSpiffe(td: TrustDomain)
    | NewSource
    | Derive(from: nat, how: Derivation)
    | Ask(from: nat, question: Question, td: TrustDomain)

  datatype Derivation =
    | AsX509(td: TrustDomain)                      // x509bundle.FromX509Authorities
    | AsJwt(td: TrustDomain)                       // jwtbundle.FromJWTAuthorities
    | AsSpiffe(td: TrustDomain)                    // spiffebundle.FromX509Authorities
    | AsSpiffeKeys(td: TrustDomain, kind: KeyKind) // spiffebundle.FromJWTAuthorities, FromWITAuthorities
    | ToSpiffe                                     // spiffebundle.FromX509Bundle, FromJWTBundle
    | Clone
    | CertsOf
    | KeysOf(kind: KeyKind)
    | X509Part                                     // Bundle.X509Bundle
    | JwtPart                                      // Bundle.JWTBundle

  datatype Question = ForBundle | ForX509 | ForJwt

  /** Calls that change one thing, and what a program may do to its own slices and maps. */
  datatype Edit =
    | Write(index: nat, c: Certificate)
    | AppendTo(c: Certificate)
    | Reslice(len: nat)
    | Put(keyId: string, key: PublicKey)
    | Delete(keyId: string)
    | Add(c: Certificate)
    | Remove(c: Certificate)
    | SetCerts(from: nat)
    | AddKey(kind: KeyKind, keyId: string, key: PublicKey)
    | RemoveKey(kind: KeyKind, keyId: string)
    | SetKeys(kind: KeyKind, from: nat)
    | SetHint(hint: Option<Int64>)
    | SetSequence(number: Option<SpiffeBundle.Uint64>)
    | UpdateX509(bundles: seq<nat>)
    | UpdateJwt(bundles: seq<nat>)
    | CloseSource

  datatype Op = Create(creation: Creation) | Change(at: nat, edit: Edit)

  // ---------- The semantics without memory ----------

  function KeysIn(b: SpiffeBundle.BundleValue, kind: KeyKind): KeyMap {
    match kind case Jwt => b.jwt case Wit => b.wit
  }

  function WithKeysIn(b: SpiffeBundle.BundleValue, kind: KeyKind, keys: KeyMap): SpiffeBundle.BundleValue {
    match kind case Jwt => b.(jwt := keys) case Wit => b.(wit := keys)
  }

  /** The bundles of a set made of some of the bundles held: the last one of each domain. */
  function X509Set(v: View, bundles: seq<nat>): BundleSource.X509Map {
    if bundles == [] then map[]
    else
      var before, i := X509Set(v, bundles[..|bundles| - 1]), bundles[|bundles| - 1];
      if i < |v| && v[i].X509Value? then before[v[i].td := v[i].certs] else before
  }

  function JwtSet(v: View, bundles: seq<nat>): BundleSource.JwtMap {
    if bundles == [] then map[]
    else
      var before, i := JwtSet(v, bundles[..|bundles| - 1]), bundles[|bundles| - 1];
      if i < |v| && v[i].JwtValue? then before[v[i].td := v[i].keys] else before
  }

  /** What a creation gives; None when the call does not apply or returns an error. */
  function Created(v: View, c: Creation): Option<Value> {
    match c
    case NewSlice(certs) => Some(CertList(certs))
    case NewTable(keys) => Some(KeyMapping(keys))
    case NewX509(td) => Some(X509Value(td, []))
    case NewJwt(td) => Some(JwtValue(td, map[]))
    case NewSpiffe(td) => Some(SpiffeValue(SpiffeBundle.EmptyBundle(td)))
    case NewSource => Some(SourceValue(BundleSource.Cache(map[], map[]), false))
    case Derive(from, how) => if from < |v| then Derived(v[from], how) else None
    case Ask(from, question, td) => if from < |v| && v[from].SourceValue? then Answer(v[from], question, td) else None
  }

  function Derived(x: Value, how: Derivation): Option<Value> {
    match x
    case CertList(certs) => FromCerts(certs, how)
    case KeyMapping(keys) => FromKeys(keys, how)
    case X509Value(td, certs) => FromX509(td, certs, how)
    case JwtValue(td, keys) => FromJwt(td, keys, how)
    case SpiffeValue(b) => FromSpiffe(b, how)
    case SourceValue(_, _) => None
  }

  function FromCerts(certs: Certs, how: Derivation): Option<Value> {
    match how
    case AsX509(td) => Some(X509Value(td, certs))
    case AsSpiffe(td) => Some(SpiffeValue(SpiffeBundle.EmptyBundle(td).(x509 := certs)))
    case _ => None
  }

  function FromKeys(keys: KeyMap, how: Derivation): Option<Value> {
    match how
    case AsJwt(td) => Some(JwtValue(td, keys))
    case AsSpiffeKeys(td, kind) => Some(SpiffeValue(WithKeysIn(SpiffeBundle.EmptyBundle(td), kind, keys)))
    case _ => None
  }

  function FromX509(td: TrustDomain, certs: Certs, how: Derivation): Option<Value> {
    match how
    case Clone => Some(X509Value(td, certs))
    case CertsOf => Some(CertList(certs))
    case ToSpiffe => Some(SpiffeValue(SpiffeBundle.EmptyBundle(td).(x509 := certs)))
    case _ => None
  }

  function FromJwt(td: TrustDomain, keys: KeyMap, how: Derivation): Option<Value> {
    match how
    case Clone => Some(JwtValue(td, keys))
    case KeysOf(kind) => if kind == Jwt then Some(KeyMapping(keys)) else None
    case ToSpiffe => Some(SpiffeValue(SpiffeBundle.EmptyBundle(td).(jwt := keys)))
    case _ => None
  }

  function FromSpiffe(b: SpiffeBundle.BundleValue, how: Derivation): Option<Value> {
    match how
    case Clone => Some(SpiffeValue(b))
    case CertsOf => Some(CertList(b.x509))
    case KeysOf(kind) => Some(KeyMapping(KeysIn(b, kind)))
    case X509Part => Some(X509Value(b.trustDomain, b.x509))
    case JwtPart => Some(JwtValue(b.trustDomain, b.jwt))
    case _ => None
  }

  function Answer(source: Value, question: Question, td: TrustDomain): Option<Value>
    requires source.SourceValue?
  {
    var cache := source.cache;
    if source.closed then None
    else match question
      case ForBundle => if td in cache.x509 || td in cache.jwt then Some(SpiffeValue(BundleSource.Combined(cache, td))) else None
      case ForX509 => if td in cache.x509 then Some(X509Value(td, cache.x509[td])) else None
      case ForJwt => if td in cache.jwt then Some(JwtValue(td, cache.jwt[td])) else None
  }

  /** What the thing edited is afterwards; an edit that does not apply changes nothing. */
  function Edited(v: View, x: Value, e: Edit): Value {
    match x
    case CertList(certs) => CertList(EditedCerts(certs, e))
    case KeyMapping(keys) =>
      (match e
       case Put(id, key) => KeyMapping(keys[id := key])
       case Delete(id) => KeyMapping(keys - {id})
       case _ => x)
    case X509Value(td, certs) => X509Value(td, EditedAuthorities(v, certs, e))
    case JwtValue(td, keys) => JwtValue(td, EditedKeys(v, Jwt, keys, e))
    case SpiffeValue(b) =>
      (match e
       case SetHint(hint) => SpiffeValue(b.(refreshHint := hint))
       case SetSequence(number) => SpiffeValue(b.(sequenceNumber := number))
       case _ => SpiffeValue(b.(x509 := EditedAuthorities(v, b.x509, e),
                                jwt := EditedKeys(v, Jwt, b.jwt, e), wit := EditedKeys(v, Wit, b.wit, e))))
    case SourceValue(cache, closed) =>
      (match e
       case UpdateX509(bundles) => SourceValue(BundleSource.Step(cache, BundleSource.X509Update(X509Set(v, bundles))), closed)
       case UpdateJwt(bundles) => SourceValue(BundleSource.Step(cache, BundleSource.JwtUpdate(JwtSet(v, bundles))), closed)
       case CloseSource => SourceValue(cache, true)
       case _ => x)
  }

  function EditedCerts(certs: Certs, e: Edit): Certs {
    match e
    case Write(i, c) => if i < |certs| then certs[i := c] else certs
    case AppendTo(c) => certs + [c]
    case Reslice(len) => if len < |certs| then certs[..len] else certs
    case _ => certs
  }

  function EditedAuthorities(v: View, certs: Certs, e: Edit): Certs {
    match e
    case Add(c) => Added(certs, c)
    case Remove(c) => Removed(certs, c)
    case SetCerts(from) => if from < |v| && v[from].CertList? then v[from].certs else certs
    case _ => certs
  }

  function EditedKeys(v: View, kind: KeyKind, keys: KeyMap, e: Edit): KeyMap {
    match e
    case AddKey(k, id, key) => if k == kind && id != "" then keys[id := key] else keys
    case RemoveKey(k, id) => if k == kind then keys - {id} else keys
    case SetKeys(k, from) => if k == kind && from < |v| && v[from].KeyMapping? then v[from].keys else keys
    case _ => keys
  }

  function Effect(v: View, op: Op): View {
    match op
    case Create(c) => (match Created(v, c) case Some(x) => v + [x] case None => v)
    case Change(at, e) => if at < |v| then v[at := Edited(v, v[at], e)] else v
  }

  function Run(v: View, ops: seq<Op>): View {
    if ops == [] then v else Effect(Run(v, ops[..|ops| - 1]), ops[|ops| - 1])
  }

  // ---------- The semantics with memory ----------

  datatype Handle =
    | SliceAt(slice: Slice)
    | TableAt(table: KeyTable)
    | X509At(x509: X509Bundle.Bundle)
    | JwtAt(jwt: JwtBundle.Bundle)
    | SpiffeAt(bundle: SpiffeBundle.Bundle)
    | SourceAt(source: BundleSource.BundleSource)

  ghost function Roots(h: Handle): set<object> {
    match h
    case SliceAt(s) => {s.backing}
    case TableAt(t) => {t}
    case X509At(b) => {b}
    case JwtAt(b) => {b}
    case SpiffeAt(b) => {b}
    case SourceAt(s) => {s}
  }

  /** The memory behind a handle. */
  ghost function Repr(h: Handle): (r: set<object>)
    reads Roots(h)
    ensures Roots(h) <= r
  {
    match h
    case SliceAt(s) => {s.backing}
    case TableAt(t) => {t}
    case X509At(b) => b.Repr()
    case JwtAt(b) => b.Repr()
    case SpiffeAt(b) => b.Repr()
    case SourceAt(s) => s.Repr()
  }

  ghost predicate Sound(h: Handle)
    reads Roots(h)
  {
    match h
    case SliceAt(s) => Fits(s)
    case TableAt(_) => true
    case X509At(b) => b.Valid()
    case JwtAt(_) => true
    case SpiffeAt(b) => b.Valid()
    case SourceAt(s) => s.Valid()
  }

  ghost function ValueOf(h: Handle): Value
    requires Sound(h)
    reads Roots(h), Repr(h)
  {
    match h
    case SliceAt(s) => CertList(Contents(s))
    case TableAt(t) => KeyMapping(t.keys)
    case X509At(b) => X509Value(b.trustDomain, b.Authorities())
    case JwtAt(b) => JwtValue(b.trustDomain, b.Authorities())
    case SpiffeAt(b) => SpiffeValue(b.Value())
    case SourceAt(s) => SourceValue(s.Contents(), s.closed)
  }

  /** The X.509 bundles among the handles named, nil for the others. */
  function Picked(held: seq<Handle>, bundles: seq<nat>): seq<X509Bundle.Bundle?> {
    seq(|bundles|, n requires 0 <= n < |bundles| =>
      if bundles[n] < |held| && held[bundles[n]].X509At? then held[bundles[n]].x509 else null)
  }

  /** A handle for this value, or neither. */
  ghost predicate Gives(h: Option<Handle>, x: Option<Value>)
    reads if h.Some? then Roots(h.value) + Repr(h.value) else {}
  {
    match h
    case None => x == None
    case Some(handle) => Sound(handle) && x == Some(ValueOf(handle))
  }

  /** A handle for an edited value, in the old memory of the thing edited or in new memory. */
  twostate predicate Kept(before: Handle, new h: Handle, x: Value)
    reads Roots(h), Repr(h), Roots(before), Repr(before)
  {
    Sound(h) && fresh(Repr(h) - old(Repr(before))) && ValueOf(h) == x
  }

  /** The handle has this value, in exactly this memory. */
  ghost predicate Entry(h: Handle, memory: set<object>, x: Value)
    reads memory, Roots(h)
  {
    Roots(h) <= memory && Repr(h) == memory && Sound(h) && x == ValueOf(h)
  }

  class Program {
    var held: seq<Handle>
    ghost var view: View
    ghost var memory: seq<set<object>>
    ghost var owned: set<object>

    /** No two things held share memory, and each has the value in view. */
    ghost predicate Valid()
      reads this, owned
    {
      && |view| == |held| == |memory| && this !in owned
      && (forall i | 0 <= i < |held| :: Roots(held[i]) <= memory[i] <= owned && Entry(held[i], memory[i], view[i]))
      && (forall i, j | 0 <= i < j < |memory| :: memory[i] !! memory[j])
    }

    constructor ()
      ensures Valid() && owned == {} && view == []
    {
      held, view, memory, owned := [], [], [], {};
    }

    method CreateNew(c: Creation) returns (h: Option<Handle>)
      requires !c.Derive? && !c.Ask?
      ensures h.Some? ==> fresh(Repr(h.value))
      ensures Gives(h, Created(view, c))
    {
      if c.NewSlice? {
        var certs := c.certs;
        var backing := new Certificate[|certs|](i requires 0 <= i < |certs| => certs[i]);
        assert backing[..|certs|] == certs;
        h := Some(SliceAt(Slice(backing, |certs|)));
      } else if c.NewTable? {
        var table := new KeyTable(c.keys);
        h := Some(TableAt(table));
      } else if c.NewX509? {
        var b := new X509Bundle.Bundle(c.td);
        h := Some(X509At(b));
      } else if c.NewJwt? {
        var b := new JwtBundle.Bundle(c.td);
        h := Some(JwtAt(b));
      } else if c.NewSpiffe? {
        var b := new SpiffeBundle.Bundle(c.td);
        h := Some(SpiffeAt(b));
      } else {
        var s := new BundleSource.BundleSource();
        h := Some(SourceAt(s));
      }
    }

    lemma {:induction false} SetHasView(bundles: seq<nat>)
      requires Valid()
      ensures var m := BundleSet.LastOfEachDomain(Picked(held, bundles));
              && (forall td | td in m :: m[td].Valid())
              && (map td | td in m :: m[td].Authorities()) == X509Set(view, bundles)
      decreases |bundles|
    {
      if bundles != [] {
        var n := |bundles| - 1;
        SetHasView(bundles[..n]);
        assert Picked(held, bundles)[..n] == Picked(held, bundles[..n]);
        assert bundles[n] < |held| ==> view[bundles[n]] == ValueOf(held[bundles[n]]);
      }
    }

    method JwtBundlesOf(bundles: seq<nat>) returns (m: map<TrustDomain, JwtBundle.Bundle>)
      requires Valid()
      ensures (map td | td in m :: m[td].Authorities()) == JwtSet(view, bundles)
    {
      m := map[];
      for n := 0 to |bundles|
        invariant (map td | td in m :: m[td].Authorities()) == JwtSet(view, bundles[..n])
      {
        assert bundles[..n + 1][..n] == bundles[..n];
        var i := bundles[n];
        if i < |held| && held[i].JwtAt? {
          assert view[i] == ValueOf(held[i]);
          m := m[held[i].jwt.trustDomain := held[i].jwt];
        }
      }
      assert bundles[..|bundles|] == bundles;
    }

    method EditX509(b: X509Bundle.Bundle, e: Edit)
      requires Valid() && X509At(b) in held
      modifies b.Repr()
      ensures Kept(X509At(b), X509At(b), X509Value(b.trustDomain, EditedAuthorities(old(view), old(b.Authorities()), e)))
    {
      if e.Add? {
        b.AddX509Authority(e.c);
      } else if e.Remove? {
        b.RemoveX509Authority(e.c);
      } else if e.SetCerts? && e.from < |held| && held[e.from].SliceAt? {
        b.SetX509Authorities(held[e.from].slice);
      }
    }

    method EditJwt(b: JwtBundle.Bundle, e: Edit)
      requires Valid() && JwtAt(b) in held
      modifies b.Repr()
      ensures Kept(JwtAt(b), JwtAt(b), JwtValue(b.trustDomain, EditedKeys(old(view), Jwt, old(b.Authorities()), e)))
    {
      if e.AddKey? && e.kind == Jwt {
        var _ := b.AddJWTAuthority(e.keyId, e.key);
      } else if e.RemoveKey? && e.kind == Jwt {
        b.RemoveJWTAuthority(e.keyId);
      } else if e.SetKeys? && e.kind == Jwt && e.from < |held| && held[e.from].TableAt? {
        b.SetJWTAuthorities(held[e.from].table);
      }
    }

    method EditSpiffe(b: SpiffeBundle.Bundle, e: Edit)
      requires Valid() && SpiffeAt(b) in held
      modifies b.Repr()
      ensures Kept(SpiffeAt(b), SpiffeAt(b), Edited(old(view), SpiffeValue(old(b.Value())), e))
    {
      if e.SetHint? || e.SetSequence? {
        EditSpiffeHeader(b, e);
      } else if e.Add? || e.Remove? || e.SetCerts? {
        EditSpiffeCerts(b, e);
      } else {
        EditSpiffeKeys(b, e);
      }
    }

    method EditSpiffeCerts(b: SpiffeBundle.Bundle, e: Edit)
      requires Valid() && SpiffeAt(b) in held
      modifies b.Repr()
      ensures Kept(SpiffeAt(b), SpiffeAt(b), SpiffeValue(old(b.Value()).(x509 := EditedAuthorities(old(view), old(b.Value()).x509, e))))
    {
      if e.Add? {
        b.AddX509Authority(e.c);
      } else if e.Remove? {
        b.RemoveX509Authority(e.c);
      } else if e.SetCerts? && e.from < |held| && held[e.from].SliceAt? {
        b.SetX509Authorities(held[e.from].slice);
      }
    }

    method EditSpiffeKeys(b: SpiffeBundle.Bundle, e: Edit)
      requires Valid() && SpiffeAt(b) in held
      modifies b.Repr()
      ensures Kept(SpiffeAt(b), SpiffeAt(b), SpiffeValue(old(b.Value()).(
                jwt := EditedKeys(old(view), Jwt, old(b.Value()).jwt, e), wit := EditedKeys(old(view), Wit, old(b.Value()).wit, e))))
    {
      if e.AddKey? && e.kind == Jwt {
        var _ := b.AddJWTAuthority(e.keyId, e.key);
      } else if e.AddKey? {
        var _ := b.AddWITAuthority(e.keyId, e.key);
      } else if e.RemoveKey? && e.kind == Jwt {
        b.RemoveJWTAuthority(e.keyId);
      } else if e.RemoveKey? {
        b.RemoveWITAuthority(e.keyId);
      } else if e.SetKeys? && e.from < |held| && held[e.from].TableAt? {
        if e.kind == Jwt {
          b.SetJWTAuthorities(held[e.from].table);
        } else {
          b.SetWITAuthorities(held[e.from].table);
        }
      }
    }

    method EditHeld(at: nat, e: Edit) returns (h: Handle)
      requires Valid() && at < |held|
      modifies Repr(held[at])
      ensures Kept(old(held[at]), h, Edited(old(view), old(view[at]), e))
    {
      h := held[at];
      match h {
        case SliceAt(s) => var t := EditSlice(s, e); h := SliceAt(t);
        case TableAt(t) => EditTable(t, e);
        case X509At(b) => EditX509(b, e);
        case JwtAt(b) => EditJwt(b, e);
        case SpiffeAt(b) => EditSpiffe(b, e);
        case SourceAt(s) => EditSource(s, e);
      }
    }

    /** Any call: it has its effect on values, and the memory of all things held stays separate. */
    method Do(op: Op)
      requires Valid()
      modifies this, owned
      ensures Valid() && fresh(owned - old(owned)) && view == Effect(old(view), op)
    {
      if op.Create? {
        var h := CreateAny(op.creation);
        if h.Some? {
          Keep(h.value, Created(view, op.creation).value);
        }
      } else if op.at < |held| {
        EditAt(op.at, op.edit);
      }
    }

    /** Any sequence of calls. */
    method DoAll(ops: seq<Op>)
      requires Valid()
      modifies this, owned
      ensures Valid() && fresh(owned - old(owned)) && view == Run(old(view), ops)
    {
      for n := 0 to |ops|
        invariant Valid() && fresh(owned - old(owned))
        invariant view == Run(old(view), ops[..n])
      {
        assert ops[..n + 1][..n] == ops[..n];
        Do(ops[n]);
      }
      assert ops[..|ops|] == ops;
    }

    method CreateAny(c: Creation) returns (h: Option<Handle>)
      requires Valid()
      ensures h.Some? ==> fresh(Repr(h.value))
      ensures Gives(h, Created(view, c))
    {
      h := None;
      if c.Derive? {
        if c.from < |held| { h := DeriveFrom(held[c.from], c.how); }
      } else if c.Ask? {
        if c.from < |held| && held[c.from].SourceAt? { h := AskSource(held[c.from].source, c.question, c.td); }
      } else {
        h := CreateNew(c);
      }
    }

    method Keep(h: Handle, ghost x: Value)
      requires Valid() && Sound(h) && x == ValueOf(h) && Repr(h) !! owned && this !in Repr(h)
      modifies this
      ensures Valid() && owned == old(owned) + Repr(h) && view == old(view) + [x]
    {
      held := held + [h];
      view := view + [x];
      memory := memory + [Repr(h)];
      owned := owned + Repr(h);
    }

    method EditAt(at: nat, e: Edit)
      requires Valid() && at < |held|
      modifies this, owned
      ensures Valid() && fresh(owned - old(owned)) && view == old(view)[at := Edited(old(view), old(view[at]), e)]
    {
      var h := EditHeld(at, e);
      forall i | 0 <= i < |held| && i != at ensures Entry(held[i], memory[i], view[i]) {
        assert memory[i] !! memory[at] && old(Entry(held[i], memory[i], view[i]));
      }
      Replace(at, h, Repr(h), Edited(view, view[at], e));
    }

    method Replace(at: nat, h: Handle, ghost r: set<object>, ghost x: Value)
      requires |view| == |held| == |memory| && at < |held| && this !in owned + r
      requires forall i | 0 <= i < |held| && i != at :: Roots(held[i]) <= memory[i] <= owned && Entry(held[i], memory[i], view[i])
      requires forall i, j | 0 <= i < j < |memory| :: memory[i] !! memory[j]
      requires Roots(h) <= r && Entry(h, r, x) && forall i | 0 <= i < |memory| && i != at :: memory[i] !! r
      modifies this
      ensures Valid() && owned == old(owned) + r && view == old(view)[at := x]
    {
      held, view, memory := held[at := h], view[at := x], memory[at := r];
      owned := owned + r;
    }

    method UpdateX509Half(s: BundleSource.BundleSource, bundles: seq<nat>)
      requires Valid() && s.Valid()
      modifies s`x509Authorities
      ensures s.Valid() && fresh(s.Arrays())
      ensures s.Contents() == BundleSource.Step(old(s.Contents()), BundleSource.X509Update(X509Set(old(view), bundles)))
    {
      SetHasView(bundles);
      var bs := Picked(held, bundles);
      UpdateWithSet(s, bs, BundleSet.LastOfEachDomain(bs));
    }

    method UpdateJwtHalf(s: BundleSource.BundleSource, bundles: seq<nat>)
      requires Valid() && s.Valid()
      modifies s`jwtAuthorities
      ensures s.Valid() && fresh(s.Tables())
      ensures s.Contents() == BundleSource.Step(old(s.Contents()), BundleSource.JwtUpdate(JwtSet(old(view), bundles)))
    {
      var m := JwtBundlesOf(bundles);
      s.SetJWTBundles(m);
    }

    method EditSource(s: BundleSource.BundleSource, e: Edit)
      requires Valid() && SourceAt(s) in held
      modifies s
      ensures Kept(SourceAt(s), SourceAt(s), Edited(old(view), SourceValue(old(s.Contents()), old(s.closed)), e))
    {
      if e.UpdateX509? {
        UpdateX509Half(s, e.bundles);
      } else if e.UpdateJwt? {
        UpdateJwtHalf(s, e.bundles);
      } else if e.CloseSource? {
        s.Close();
      }
    }
  }

  /** An update with a new set of these bundles, which keeps the last one of each domain. */
  method UpdateWithSet(s: BundleSource.BundleSource, bs: seq<X509Bundle.Bundle?>, ghost last: map<TrustDomain, X509Bundle.Bundle>)
    requires s.Valid() && last == BundleSet.LastOfEachDomain(bs) && forall td | td in last :: last[td].Valid()
    modifies s`x509Authorities
    ensures s.Valid() && fresh(s.Arrays())
    ensures s.Contents() == BundleSource.Step(old(s.Contents()), BundleSource.X509Update(old(map td | td in last :: last[td].Authorities())))
  {
    var bundles := new BundleSet.Set(bs);
    s.SetX509Context(bundles);
  }

  method EditSpiffeHeader(b: SpiffeBundle.Bundle, e: Edit)
    requires b.Valid() && (e.SetHint? || e.SetSequence?)
    modifies b
    ensures Kept(SpiffeAt(b), SpiffeAt(b), SpiffeValue(
              if e.SetHint? then old(b.Value()).(refreshHint := e.hint) else old(b.Value()).(sequenceNumber := e.number)))
  {
    if e.SetHint? {
      if e.hint.Some? { b.SetRefreshHint(e.hint.value); } else { b.ClearRefreshHint(); }
    } else {
      if e.number.Some? { b.SetSequenceNumber(e.number.value); } else { b.ClearSequenceNumber(); }
    }
  }

  method EditSlice(s: Slice, e: Edit) returns (t: Slice)
    requires Fits(s)
    modifies s.backing
    ensures Kept(SliceAt(s), SliceAt(t), CertList(EditedCerts(old(Contents(s)), e)))
  {
    t := s;
    if e.Write? && e.index < s.len {
      s.backing[e.index] := e.c;
    } else if e.AppendTo? {
      t := Append(s, e.c);
    } else if e.Reslice? && e.len < s.len {
      t := Slice(s.backing, e.len);
    }
  }

  method EditTable(t: KeyTable, e: Edit)
    modifies t
    ensures KeyMapping(t.keys) == Edited([], KeyMapping(old(t.keys)), e)
  {
    if e.Put? {
      t.keys := t.keys[e.keyId := e.key];
    } else if e.Delete? {
      t.keys := t.keys - {e.keyId};
    }
  }

  method DeriveFromSlice(s: Slice, how: Derivation) returns (h: Option<Handle>)
    requires Fits(s)
    ensures h.Some? ==> fresh(Repr(h.value))
    ensures Gives(h, FromCerts(Contents(s), how))
  {
    if how.AsX509? {
      var b := new X509Bundle.Bundle.FromX509Authorities(how.td, s);
      return Some(X509At(b));
    }
    if how.AsSpiffe? {
      var b := SpiffeBundle.Bundle.FromX509Authorities(how.td, s);
      return Some(SpiffeAt(b));
    }
    return None;
  }

  method DeriveFromTable(t: KeyTable, how: Derivation) returns (h: Option<Handle>)
    ensures h.Some? ==> fresh(Repr(h.value))
    ensures Gives(h, FromKeys(t.keys, how))
  {
    if how.AsJwt? {
      var b := new JwtBundle.Bundle.FromJWTAuthorities(how.td, t);
      return Some(JwtAt(b));
    }
    if how.AsSpiffeKeys? {
      var b;
      if how.kind == Jwt {
        b := SpiffeBundle.Bundle.FromJWTAuthorities(how.td, t);
      } else {
        b := SpiffeBundle.Bundle.FromWITAuthorities(how.td, t);
      }
      return Some(SpiffeAt(b));
    }
    return None;
  }

  method DeriveFromX509(b: X509Bundle.Bundle, how: Derivation) returns (h: Option<Handle>)
    requires b.Valid()
    ensures h.Some? ==> fresh(Repr(h.value))
    ensures Gives(h, FromX509(b.trustDomain, b.Authorities(), how))
  {
    if how.Clone? {
      var x := b.Clone();
      return Some(X509At(x));
    }
    if how.CertsOf? {
      var s := b.X509Authorities();
      return Some(SliceAt(s));
    }
    if how.ToSpiffe? {
      var x := SpiffeBundle.Bundle.FromX509Bundle(b);
      return Some(SpiffeAt(x));
    }
    return None;
  }

  method DeriveFromJwt(b: JwtBundle.Bundle, how: Derivation) returns (h: Option<Handle>)
    ensures h.Some? ==> fresh(Repr(h.value))
    ensures Gives(h, FromJwt(b.trustDomain, b.Authorities(), how))
  {
    if how.Clone? {
      var j := b.Clone();
      return Some(JwtAt(j));
    }
    if how == KeysOf(Jwt) {
      var t := b.JWTAuthorities();
      return Some(TableAt(t));
    }
    if how.ToSpiffe? {
      var x := SpiffeBundle.Bundle.FromJWTBundle(b);
      return Some(SpiffeAt(x));
    }
    return None;
  }

  method DeriveFromSpiffe(b: SpiffeBundle.Bundle, how: Derivation) returns (h: Option<Handle>)
    requires b.Valid()
    ensures h.Some? ==> fresh(Repr(h.value))
    ensures Gives(h, FromSpiffe(b.Value(), how))
  {
    if how.Clone? {
      var x := b.Clone();
      return Some(SpiffeAt(x));
    }
    if how.CertsOf? {
      var s := b.X509Authorities();
      return Some(SliceAt(s));
    }
    if how.KeysOf? {
      var t;
      if how.kind == Jwt {
        t := b.JWTAuthorities();
      } else {
        t := b.WITAuthorities();
      }
      return Some(TableAt(t));
    }
    if how.X509Part? {
      var x := b.X509Bundle();
      return Some(X509At(x));
    }
    if how.JwtPart? {
      var j := b.JWTBundle();
      return Some(JwtAt(j));
    }
    return None;
  }

  method DeriveFrom(x: Handle, how: Derivation) returns (h: Option<Handle>)
    requires Sound(x)
    ensures h.Some? ==> fresh(Repr(h.value))
    ensures Gives(h, Derived(ValueOf(x), how))
  {
    match x {
      case SliceAt(s) => h := DeriveFromSlice(s, how);
      case TableAt(t) => h := DeriveFromTable(t, how);
      case X509At(b) => h := DeriveFromX509(b, how);
      case JwtAt(b) => h := DeriveFromJwt(b, how);
      case SpiffeAt(b) => h := DeriveFromSpiffe(b, how);
      case SourceAt(_) => h := None;
    }
  }

  method AskSource(s: BundleSource.BundleSource, question: Question, td: TrustDomain) returns (h: Option<Handle>)
    requires s.Valid()
    ensures h.Some? ==> fresh(Repr(h.value))
    ensures Gives(h, Answer(SourceValue(s.Contents(), s.closed), question, td))
  {
    h := None;
    match question {
      case ForBundle =>
        var r := s.GetBundleForTrustDomain(td);
        if r.Ok? { h := Some(SpiffeAt(r.value)); }
      case ForX509 =>
        var r := s.GetX509BundleForTrustDomain(td);
        if r.Ok? { h := Some(X509At(r.value)); }
      case ForJwt =>
        var r := s.GetJWTBundleForTrustDomain(td);
        if r.Ok? { h := Some(JwtAt(r.value)); }
    }
  }

  // ---------- What the value semantics says ----------

  function CertsIn(x: Value): Certs {
    match x
    case CertList(certs) => certs
    case X509Value(_, certs) => certs
    case SpiffeValue(b) => b.x509
    case _ => []
  }

  /** What is derived from a SPIFFE bundle agrees with it: its parts give back what its own getters give. */
  lemma PartsAgree(b: SpiffeBundle.BundleValue, td: TrustDomain, certs: Certs, keys: KeyMap)
    ensures var x := SpiffeValue(b);
            && Derived(x, Clone) == Some(x)
            && Derived(x, X509Part).Some? && Derived(Derived(x, X509Part).value, CertsOf) == Some(CertList(b.x509)) == Derived(x, CertsOf)
            && Derived(x, JwtPart).Some? && Derived(Derived(x, JwtPart).value, KeysOf(Jwt)) == Some(KeyMapping(b.jwt)) == Derived(x, KeysOf(Jwt))
            && Derived(x, KeysOf(Wit)) == Some(KeyMapping(b.wit))
            && Derived(Derived(x, X509Part).value, ToSpiffe)
                 == Some(SpiffeValue(SpiffeBundle.BundleValue(b.trustDomain, None, None, b.x509, map[], map[])))
            && Derived(Derived(x, JwtPart).value, ToSpiffe)
                 == Some(SpiffeValue(SpiffeBundle.BundleValue(b.trustDomain, None, None, [], b.jwt, map[])))
    ensures Derived(CertList(certs), AsX509(td)).Some? && Derived(KeyMapping(keys), AsJwt(td)).Some?
    ensures Derived(Derived(CertList(certs), AsX509(td)).value, CertsOf) == Some(CertList(certs))
    ensures Derived(Derived(KeyMapping(keys), AsJwt(td)).value, KeysOf(Jwt)) == Some(KeyMapping(keys))
    ensures Derived(CertList(certs), AsSpiffe(td)) == Some(SpiffeValue(SpiffeBundle.BundleValue(td, None, None, certs, map[], map[])))
    ensures Derived(KeyMapping(keys), AsSpiffeKeys(td, Jwt)) == Some(SpiffeValue(SpiffeBundle.BundleValue(td, None, None, [], keys, map[])))
    ensures Derived(KeyMapping(keys), AsSpiffeKeys(td, Wit)) == Some(SpiffeValue(SpiffeBundle.BundleValue(td, None, None, [], map[], keys)))
  {}

  /** What an open source answers for a domain is what its last updates said of it; a closed one answers nothing. */
  lemma AnswersAgree(cache: BundleSource.Cache, td: TrustDomain, question: Question)
    ensures Answer(SourceValue(cache, true), question, td) == None
    ensures var source := SourceValue(cache, false);
            && Answer(source, ForX509, td) == (if td in cache.x509 then Some(X509Value(td, cache.x509[td])) else None)
            && Answer(source, ForJwt, td) == (if td in cache.jwt then Some(JwtValue(td, cache.jwt[td])) else None)
            && (Answer(source, ForBundle, td).Some? <==> td in cache.x509 || td in cache.jwt)
            && (Answer(source, ForBundle, td).Some? ==>
                 Answer(source, ForBundle, td).value == SpiffeValue(SpiffeBundle.BundleValue(td, None, None,
                   if td in cache.x509 then cache.x509[td] else [], if td in cache.jwt then cache.jwt[td] else map[], map[])))
  {}

  /** An edit of the certificates of a bundle changes them as it says, and no other edit changes them. */
  lemma CertsAfterEdit(v: View, x: Value, e: Edit)
    requires x.X509Value? || x.SpiffeValue?
    ensures var before, after := CertsIn(x), CertsIn(Edited(v, x, e));
            match e
            case Add(c) => after == if c in before then before else before + [c]
            case Remove(c) => multiset(after) == multiset(before) - multiset{c}
            case SetCerts(from) => from < |v| && v[from].CertList? ==> after == v[from].certs
            case _ => after == before
  {
    if e.Remove? {
      RemovedCounts(CertsIn(x), e.c);
    }
  }

  /** An edit of the keys of a SPIFFE bundle changes those of its kind as it says; the rest of the bundle stays. */
  lemma KeysAfterEdit(v: View, b: SpiffeBundle.BundleValue, e: Edit)
    ensures var y := Edited(v, SpiffeValue(b), e);
            && y.SpiffeValue? && y.bundle.trustDomain == b.trustDomain
            && match e
               case AddKey(Jwt, id, key) => y.bundle == if id == "" then b else b.(jwt := b.jwt[id := key])
               case AddKey(Wit, id, key) => y.bundle == if id == "" then b else b.(wit := b.wit[id := key])
               case RemoveKey(Jwt, id) => y.bundle == b.(jwt := b.jwt - {id})
               case RemoveKey(Wit, id) => y.bundle == b.(wit := b.wit - {id})
               case SetKeys(Jwt, from) => y.bundle == b.(jwt := y.bundle.jwt) && (from < |v| && v[from].KeyMapping? ==> y.bundle.jwt == v[from].keys)
               case SetKeys(Wit, from) => y.bundle == b.(wit := y.bundle.wit) && (from < |v| && v[from].KeyMapping? ==> y.bundle.wit == v[from].keys)
               case SetHint(hint) => y.bundle == b.(refreshHint := hint)
               case SetSequence(number) => y.bundle == b.(sequenceNumber := number)
               case _ => y.bundle == b.(x509 := y.bundle.x509)
  {}

  /** A set of JWT bundles holds the last bundle of each domain that occurs. */
  lemma {:induction false} JwtSetMeaning(v: View, bundles: seq<nat>, n: nat)
    requires n < |bundles| && bundles[n] < |v| && v[bundles[n]].JwtValue?
    requires forall m | n < m < |bundles| && bundles[m] < |v| && v[bundles[m]].JwtValue? :: v[bundles[m]].td != v[bundles[n]].td
    ensures v[bundles[n]].td in JwtSet(v, bundles) && JwtSet(v, bundles)[v[bundles[n]].td] == v[bundles[n]].keys
    decreases |bundles|
  {
    if n < |bundles| - 1 {
      JwtSetMeaning(v, bundles[..|bundles| - 1], n);
    }
  }

  predicate Edits(op: Op, i: nat) {
    op.Change? && op.at == i
  }

  predicate Updates(op: Op, i: nat) {
    Edits(op, i) && (op.edit.UpdateX509? || op.edit.UpdateJwt?)
  }

  /** However a program goes on, what it does not edit keeps its value: sources, clones, getters' results alike. */
  lemma {:induction false} OthersUnchanged(v: View, ops: seq<Op>, i: nat)
    requires i < |v| && forall op | op in ops :: !Edits(op, i)
    ensures i < |Run(v, ops)| && Run(v, ops)[i] == v[i]
  {
    if ops != [] {
      OthersUnchanged(v, ops[..|ops| - 1], i);
      assert !Edits(ops[|ops| - 1], i);
    }
  }

  /** Nothing but its own updates changes the cache of a source, whatever callers do with what it returned. */
  lemma {:induction false} CacheUnchanged(v: View, ops: seq<Op>, i: nat)
    requires i < |v| && v[i].SourceValue? && forall op | op in ops :: !Updates(op, i)
    ensures i < |Run(v, ops)| && Run(v, ops)[i].SourceValue? && Run(v, ops)[i].cache == v[i].cache
  {
    if ops != [] {
      CacheUnchanged(v, ops[..|ops| - 1], i);
      assert !Updates(ops[|ops| - 1], i);
    }
  }

  ghost predicate WithoutDuplicates(x: Value) {
    match x
    case X509Value(_, certs) => NoDuplicates(certs)
    case SpiffeValue(b) => NoDuplicates(b.x509)
    case SourceValue(cache, _) => forall td | td in cache.x509 :: NoDuplicates(cache.x509[td])
    case _ => true
  }

  /** Calls that take a caller's list of certificates as it is. */
  predicate TakesList(op: Op) {
    || (op.Change? && op.edit.SetCerts?)
    || (op.Create? && op.creation.Derive? && (op.creation.how.AsX509? || op.creation.how.AsSpiffe?))
  }

  /** Bundles that are made empty, copied, and edited by Add and Remove never hold a duplicate, and sources neither. */
  lemma {:induction false} NoDuplicatesEver(v: View, ops: seq<Op>, i: nat)
    requires forall j | 0 <= j < |v| :: WithoutDuplicates(v[j])
    requires i < |Run(v, ops)| && forall op | op in ops :: !TakesList(op)
    ensures WithoutDuplicates(Run(v, ops)[i])
  {
    if ops != [] {
      var before, op := Run(v, ops[..|ops| - 1]), ops[|ops| - 1];
      forall j | 0 <= j < |before| ensures WithoutDuplicates(before[j]) {
        NoDuplicatesEver(v, ops[..|ops| - 1], j);
      }
      assert op in ops && !TakesList(op);
      if op.Create? && Created(before, op.creation).Some? {
        CreatedWithoutDuplicates(before, op.creation);
      } else if op.Change? && op.at == i < |before| {
        EditedWithoutDuplicates(before, before[i], op.edit);
      }
    }
  }

  lemma CreatedWithoutDuplicates(v: View, c: Creation)
    requires (forall j | 0 <= j < |v| :: WithoutDuplicates(v[j])) && !TakesList(Create(c)) && Created(v, c).Some?
    ensures WithoutDuplicates(Created(v, c).value)
  {}

  lemma EditedWithoutDuplicates(v: View, x: Value, e: Edit)
    requires (forall j | 0 <= j < |v| :: WithoutDuplicates(v[j])) && WithoutDuplicates(x) && !e.SetCerts?
    ensures WithoutDuplicates(Edited(v, x, e))
  {
    if e.Remove? && x.X509Value? {
      RemoveKeepsDistinct(x.certs, e.c);
    } else if e.Remove? && x.SpiffeValue? {
      RemoveKeepsDistinct(x.bundle.x509, e.c);
    } else if e.UpdateX509? {
      SetWithoutDuplicates(v, e.bundles);
    }
  }

  lemma {:induction false} SetWithoutDuplicates(v: View, bundles: seq<nat>)
    requires forall j | 0 <= j < |v| :: WithoutDuplicates(v[j])
    ensures forall td | td in X509Set(v, bundles) :: NoDuplicates(X509Set(v, bundles)[td])
  {
    if bundles != [] {
      SetWithoutDuplicates(v, bundles[..|bundles| - 1]);
    }
  }
}
