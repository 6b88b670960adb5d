/** SPIFFE IDs and trust domains: spiffeid/id.go and spiffeid/trustdomain.go. */
module SpiffeId {
  import opened Wrappers
  import opened IdErrors
  import opened PathSyntax

  const SCHEME_PREFIX := "spiffe://"

  /** The struct of id.go: the whole string and the index at which its path starts. */
  datatype IdFields = IdFields(id: string, pathidx: nat)

  const ZERO_FIELDS := IdFields("", 0)

  predicate InRange(f: IdFields) {
    f == ZERO_FIELDS || (|SCHEME_PREFIX| <= f.pathidx <= |f.id|)
  }

  type ID = f: IdFields | InRange(f) witness ZERO_FIELDS

  const ZERO_ID: ID := ZERO_FIELDS

  datatype TrustDomain = TrustDomain(name: string)

  const ZERO_DOMAIN := TrustDomain("")

  // ---------- What the parsers are specified to do ----------

  predicate ValidName(cs: Charset, s: string) {
    forall i | 0 <= i < |s| :: IsTrustDomainChar(cs, s[i])
  }

  /** Scheme, then a trust domain up to the first slash, then a path. */
  function ParsedId(cs: Charset, s: string): Result<ID, Error> {
    if s == "" then Err(Empty)
    else if !(SCHEME_PREFIX <= s) then Err(WrongScheme)
    else
      var k := NextSlash(s, |SCHEME_PREFIX|);
      if !ValidName(cs, s[|SCHEME_PREFIX|..k]) then Err(BadTrustDomainChar)
      else if k == |SCHEME_PREFIX| then Err(MissingTrustDomain)
      else match PathError(cs, s[k..])
        case Some(e) => Err(e)
        case None => Ok(IdFields(s, k))
  }

  predicate HasSchemeSeparator(s: string) {
    exists i | 0 <= i < |s| - 1 :: s[i] == ':' && s[i + 1] == '/'
  }

  function ParsedDomain(cs: Charset, s: string): Result<TrustDomain, Error> {
    if s == "" then Err(MissingTrustDomain)
    else if HasSchemeSeparator(s) then
      match ParsedId(cs, s)
      case Err(e) => Err(e)
      case Ok(id) => Ok(DomainOf(id))
    else if ValidName(cs, s) then Ok(TrustDomain(s))
    else Err(BadTrustDomainChar)
  }

  // ---------- The operations on values ----------

  predicate IsZero(id: ID) {
    id.id == ""
  }

  function DomainOf(id: ID): TrustDomain {
    if IsZero(id) then ZERO_DOMAIN else TrustDomain(id.id[|SCHEME_PREFIX|..id.pathidx])
  }

  function PathOf(id: ID): string {
    id.id[id.pathidx..]
  }

  function MakeId(td: TrustDomain, path: string): Result<ID, Error> {
    if td.name == "" then Err(EmptyTrustDomain)
    else Ok(IdFields(SCHEME_PREFIX + td.name + path, |SCHEME_PREFIX| + |td.name|))
  }

  function DomainId(td: TrustDomain): ID {
    match MakeId(td, "") case Ok(id) => id case Err(_) => ZERO_ID
  }

  function FromPath(cs: Charset, td: TrustDomain, path: string): Result<ID, Error> {
    match PathError(cs, path) case Some(e) => Err(e) case None => MakeId(td, path)
  }

  function FromSegments(cs: Charset, td: TrustDomain, segments: seq<string>): Result<ID, Error> {
    match JoinResult(cs, segments) case Err(e) => Err(e) case Ok(path) => MakeId(td, path)
  }

  /** The in-place extension of the string; the split index stays. */
  function Extend(id: ID, path: string): ID {
    if IsZero(id) then id else id.(id := id.id + path)
  }

  function AppendPath(cs: Charset, id: ID, path: string): Result<ID, Error> {
    if IsZero(id) then Err(ZeroId)
    else match PathError(cs, path) case Some(e) => Err(e) case None => Ok(Extend(id, path))
  }

  function AppendSegments(cs: Charset, id: ID, segments: seq<string>): Result<ID, Error> {
    if IsZero(id) then Err(ZeroId)
    else match JoinResult(cs, segments) case Err(e) => Err(e) case Ok(path) => Ok(Extend(id, path))
  }

  function ReplacePath(cs: Charset, id: ID, path: string): Result<ID, Error> {
    if IsZero(id) then Err(ZeroId) else FromPath(cs, DomainOf(id), path)
  }

  function ReplaceSegments(cs: Charset, id: ID, segments: seq<string>): Result<ID, Error> {
    if IsZero(id) then Err(ZeroId) else FromSegments(cs, DomainOf(id), segments)
  }

  /** UnmarshalText: what the receiver holds afterwards, and the error returned. */
  function Unmarshaled(cs: Charset, receiver: ID, text: string): (ID, Option<Error>) {
    if text == "" then (ZERO_ID, None)
    else match ParsedId(cs, text)
      case Ok(id) => (id, None)
      case Err(e) => (receiver, Some(e))
  }

  function UnmarshaledDomain(cs: Charset, receiver: TrustDomain, text: string): (TrustDomain, Option<Error>) {
    if text == "" then (ZERO_DOMAIN, None)
    else match ParsedDomain(cs, text)
      case Ok(td) => (td, None)
      case Err(e) => (receiver, Some(e))
  }

  // ---------- The parsers, with their loops ----------

  method FromString(cs: Charset, id: string) returns (r: Result<ID, Error>)
    ensures r == ParsedId(cs, id)
  {
    if id == "" {
      return Err(Empty);
    }
    if !(SCHEME_PREFIX <= id) {
      return Err(WrongScheme);
    }
    var pathidx := |SCHEME_PREFIX|;
    while pathidx < |id| && id[pathidx] != '/'
      invariant |SCHEME_PREFIX| <= pathidx <= |id|
      invariant CleanName(cs, id, pathidx)
    {
      if !IsTrustDomainChar(cs, id[pathidx]) {
        BadNameChar(cs, id, pathidx);
        return Err(BadTrustDomainChar);
      }
      pathidx := pathidx + 1;
    }
    NameScanned(cs, id, pathidx);
    if pathidx == |SCHEME_PREFIX| {
      return Err(MissingTrustDomain);
    }
    var err := ValidatePath(cs, id[pathidx..]);
    if err.Some? {
      return Err(err.value);
    }
    return Ok(IdFields(id, pathidx));
  }

  ghost predicate CleanName(cs: Charset, id: string, end: nat)
    requires end <= |id|
  {
    forall j | |SCHEME_PREFIX| <= j < end :: id[j] != '/' && IsTrustDomainChar(cs, id[j])
  }

  lemma BadNameChar(cs: Charset, id: string, at: nat)
    requires SCHEME_PREFIX <= id && |SCHEME_PREFIX| <= at < |id| && CleanName(cs, id, at)
    requires id[at] != '/' && !IsTrustDomainChar(cs, id[at])
    ensures ParsedId(cs, id) == Err(BadTrustDomainChar)
  {
    var k := NextSlash(id, at);
    assert forall j | at <= j < k :: id[j] == id[at..k][j - at];
    NextSlashIs(id, |SCHEME_PREFIX|, k);
    assert id[|SCHEME_PREFIX|..k][at - |SCHEME_PREFIX|] == id[at];
  }

  lemma NameScanned(cs: Charset, id: string, k: nat)
    requires SCHEME_PREFIX <= id && |SCHEME_PREFIX| <= k <= |id| && CleanName(cs, id, k)
    requires k < |id| ==> id[k] == '/'
    ensures ParsedId(cs, id) ==
            if k == |SCHEME_PREFIX| then Err(MissingTrustDomain)
            else match PathError(cs, id[k..]) case Some(e) => Err(e) case None => Ok(IdFields(id, k))
  {
    NextSlashIs(id, |SCHEME_PREFIX|, k);
  }

  method TrustDomainFromString(cs: Charset, idOrName: string) returns (r: Result<TrustDomain, Error>)
    ensures r == ParsedDomain(cs, idOrName)
  {
    if idOrName == "" {
      return Err(MissingTrustDomain);
    }
    if HasSchemeSeparator(idOrName) {
      var id := FromString(cs, idOrName);
      if id.Err? {
        return Err(id.error);
      }
      return Ok(DomainOf(id.value));
    }
    for i := 0 to |idOrName|
      invariant ValidName(cs, idOrName[..i])
    {
      if !IsTrustDomainChar(cs, idOrName[i]) {
        return Err(BadTrustDomainChar);
      }
    }
    assert idOrName[..|idOrName|] == idOrName;
    return Ok(TrustDomain(idOrName));
  }

  // ---------- Every ID a program can hold ----------

  /** How a program obtains an ID; a failed call leaves the zero ID that Go returns beside the error. */
  datatype IdTerm =
    | ZeroIdTerm
    | Parse(s: string)
    | OnPath(td: DomainTerm, path: string)
    | OnSegments(td: DomainTerm, segments: seq<string>)
    | OfDomain(td: DomainTerm)
    | WithPath(base: IdTerm, path: string)
    | WithSegments(base: IdTerm, segments: seq<string>)
    | NewPath(base: IdTerm, path: string)
    | NewSegments(base: IdTerm, segments: seq<string>)
    | Unmarshal(base: IdTerm, text: string)

  datatype DomainTerm =
    | ZeroDomainTerm
    | ParseDomain(s: string)
    | DomainOfId(id: IdTerm)
    | UnmarshalDomain(base: DomainTerm, text: string)

  function OrZero(r: Result<ID, Error>): ID {
    match r case Ok(id) => id case Err(_) => ZERO_ID
  }

  function EvalId(cs: Charset, t: IdTerm): ID {
    match t
    case ZeroIdTerm => ZERO_ID
    case Parse(s) => OrZero(ParsedId(cs, s))
    case OnPath(td, path) => OrZero(FromPath(cs, EvalDomain(cs, td), path))
    case OnSegments(td, segments) => OrZero(FromSegments(cs, EvalDomain(cs, td), segments))
    case OfDomain(td) => DomainId(EvalDomain(cs, td))
    case WithPath(base, path) => OrZero(AppendPath(cs, EvalId(cs, base), path))
    case WithSegments(base, segments) => OrZero(AppendSegments(cs, EvalId(cs, base), segments))
    case NewPath(base, path) => OrZero(ReplacePath(cs, EvalId(cs, base), path))
    case NewSegments(base, segments) => OrZero(ReplaceSegments(cs, EvalId(cs, base), segments))
    case Unmarshal(base, text) => Unmarshaled(cs, EvalId(cs, base), text).0
  }

  function EvalDomain(cs: Charset, t: DomainTerm): TrustDomain {
    match t
    case ZeroDomainTerm => ZERO_DOMAIN
    case ParseDomain(s) => (match ParsedDomain(cs, s) case Ok(td) => td case Err(_) => ZERO_DOMAIN)
    case DomainOfId(id) => DomainOf(EvalId(cs, id))
    case UnmarshalDomain(base, text) => UnmarshaledDomain(cs, EvalDomain(cs, base), text).0
  }

  /** Parsing what an ID prints gives it back, split index included. */
  ghost predicate RoundTrips(cs: Charset, id: ID) {
    id == ZERO_ID || ParsedId(cs, id.id) == Ok(id)
  }

  /** The grammar of sections 2.1 and 2.2 of the SPIFFE-ID standard, read off the two parts. */
  ghost predicate WellFormed(cs: Charset, id: ID) {
    id == ZERO_ID ||
    (&& DomainOf(id).name != "" && ValidName(cs, DomainOf(id).name)
     && ValidPath(cs, PathOf(id))
     && id.id == SCHEME_PREFIX + DomainOf(id).name + PathOf(id))
  }

  lemma NameIsSlashFree(cs: Charset, name: string)
    requires ValidName(cs, name)
    ensures SlashFree(name) && !HasSchemeSeparator(name)
  {}

  /** An ID round-trips exactly when both its parts obey the grammar. */
  lemma RoundTripsIffWellFormed(cs: Charset, id: ID)
    ensures RoundTrips(cs, id) <==> WellFormed(cs, id)
  {
    if id != ZERO_ID && WellFormed(cs, id) {
      WellFormedRoundTrips(cs, id);
    }
    if id != ZERO_ID && RoundTrips(cs, id) {
      assert id.id == SCHEME_PREFIX + id.id[|SCHEME_PREFIX|..id.pathidx] + id.id[id.pathidx..];
    }
  }

  lemma WellFormedRoundTrips(cs: Charset, id: ID)
    requires WellFormed(cs, id) && id != ZERO_ID
    ensures ParsedId(cs, id.id) == Ok(id)
  {
    var n := |SCHEME_PREFIX|;
    var name, path := DomainOf(id).name, PathOf(id);
    NameIsSlashFree(cs, name);
    assert forall j | n <= j < id.pathidx :: id.id[j] == name[j - n];
    assert id.pathidx < |id.id| ==> id.id[id.pathidx] == path[0];
    NextSlashIs(id.id, n, id.pathidx);
  }

  lemma MadeIsWellFormed(cs: Charset, td: TrustDomain, path: string)
    requires ValidName(cs, td.name) && ValidPath(cs, path) && td.name != ""
    ensures MakeId(td, path).Ok? && WellFormed(cs, MakeId(td, path).value)
    ensures DomainOf(MakeId(td, path).value) == td && PathOf(MakeId(td, path).value) == path
  {
    var id := MakeId(td, path).value;
    assert id.id[|SCHEME_PREFIX|..id.pathidx] == td.name;
    assert id.id[id.pathidx..] == path;
  }

  lemma ExtendedIsWellFormed(cs: Charset, id: ID, path: string)
    requires WellFormed(cs, id) && id != ZERO_ID && ValidPath(cs, path)
    ensures WellFormed(cs, Extend(id, path)) && Extend(id, path) != ZERO_ID
    ensures DomainOf(Extend(id, path)) == DomainOf(id) && PathOf(Extend(id, path)) == PathOf(id) + path
  {
    ValidPathsConcatenate(cs, PathOf(id), path);
    ExtendedParts(id, path);
  }

  lemma ExtendedParts(id: ID, path: string)
    requires id != ZERO_ID
    ensures DomainOf(Extend(id, path)) == DomainOf(id) && PathOf(Extend(id, path)) == PathOf(id) + path
    ensures id.id == SCHEME_PREFIX + DomainOf(id).name + PathOf(id) ==>
              Extend(id, path).id == SCHEME_PREFIX + DomainOf(id).name + (PathOf(id) + path)
  {
    var e := Extend(id, path);
    assert e.id[|SCHEME_PREFIX|..e.pathidx] == id.id[|SCHEME_PREFIX|..id.pathidx];
    assert PathOf(e) == PathOf(id) + path;
  }

  lemma JoinedPathIsValid(cs: Charset, segments: seq<string>)
    requires JoinResult(cs, segments).Ok?
    ensures ValidPath(cs, JoinResult(cs, segments).value)
  {
    ValidPathIffJoined(cs, JoinResult(cs, segments).value);
  }

  lemma ParsedIsWellFormed(cs: Charset, s: string)
    ensures ParsedId(cs, s).Ok? ==> WellFormed(cs, ParsedId(cs, s).value) && ParsedId(cs, s).value.id == s
    ensures ParsedDomain(cs, s).Ok? ==> ValidName(cs, ParsedDomain(cs, s).value.name) && ParsedDomain(cs, s).value != ZERO_DOMAIN
  {
    if ParsedId(cs, s).Ok? {
      RoundTripsIffWellFormed(cs, ParsedId(cs, s).value);
    }
  }

  lemma {:induction false} EveryIdIsWellFormed(cs: Charset, t: IdTerm)
    ensures WellFormed(cs, EvalId(cs, t))
  {
    match t
    case ZeroIdTerm =>
    case Parse(s) => ParsedIsWellFormed(cs, s);
    case OnPath(td, path) =>
      EveryDomainIsValid(cs, td);
      if FromPath(cs, EvalDomain(cs, td), path).Ok? { MadeIsWellFormed(cs, EvalDomain(cs, td), path); }
    case OnSegments(td, segments) =>
      EveryDomainIsValid(cs, td);
      if FromSegments(cs, EvalDomain(cs, td), segments).Ok? {
        JoinedPathIsValid(cs, segments);
        MadeIsWellFormed(cs, EvalDomain(cs, td), JoinResult(cs, segments).value);
      }
    case OfDomain(td) =>
      EveryDomainIsValid(cs, td);
      if EvalDomain(cs, td) != ZERO_DOMAIN { MadeIsWellFormed(cs, EvalDomain(cs, td), ""); }
    case WithPath(base, path) =>
      EveryIdIsWellFormed(cs, base);
      if AppendPath(cs, EvalId(cs, base), path).Ok? { ExtendedIsWellFormed(cs, EvalId(cs, base), path); }
    case WithSegments(base, segments) =>
      EveryIdIsWellFormed(cs, base);
      if AppendSegments(cs, EvalId(cs, base), segments).Ok? {
        JoinedPathIsValid(cs, segments);
        ExtendedIsWellFormed(cs, EvalId(cs, base), JoinResult(cs, segments).value);
      }
    case NewPath(base, path) =>
      EveryIdIsWellFormed(cs, base);
      if ReplacePath(cs, EvalId(cs, base), path).Ok? { MadeIsWellFormed(cs, DomainOf(EvalId(cs, base)), path); }
    case NewSegments(base, segments) =>
      EveryIdIsWellFormed(cs, base);
      if ReplaceSegments(cs, EvalId(cs, base), segments).Ok? {
        JoinedPathIsValid(cs, segments);
        MadeIsWellFormed(cs, DomainOf(EvalId(cs, base)), JoinResult(cs, segments).value);
      }
    case Unmarshal(base, text) =>
      EveryIdIsWellFormed(cs, base);
      ParsedIsWellFormed(cs, text);
  }

  lemma {:induction false} EveryDomainIsValid(cs: Charset, t: DomainTerm)
    ensures ValidName(cs, EvalDomain(cs, t).name)
  {
    match t
    case ZeroDomainTerm =>
    case ParseDomain(s) => ParsedIsWellFormed(cs, s);
    case DomainOfId(id) => EveryIdIsWellFormed(cs, id);
    case UnmarshalDomain(base, text) =>
      EveryDomainIsValid(cs, base);
      ParsedIsWellFormed(cs, text);
  }

  // ---------- Main results about IDs ----------

  /** Parser and printer undo each other on every ID, however it was built; text marshalling too. */
  lemma EveryIdRoundTrips(cs: Charset, t: IdTerm, receiver: ID)
    ensures var id := EvalId(cs, t); id == ZERO_ID || ParsedId(cs, id.id) == Ok(id)
    ensures Unmarshaled(cs, receiver, EvalId(cs, t).id) == (EvalId(cs, t), None)
  {
    EveryIdIsWellFormed(cs, t);
    RoundTripsIffWellFormed(cs, EvalId(cs, t));
  }

  /** Struct equality, which Go programs use on IDs, is equality of the strings. */
  lemma EqualStringsEqualIds(cs: Charset, t: IdTerm, u: IdTerm)
    ensures EvalId(cs, t).id == EvalId(cs, u).id <==> EvalId(cs, t) == EvalId(cs, u)
  {
    EveryIdRoundTrips(cs, t, ZERO_ID);
    EveryIdRoundTrips(cs, u, ZERO_ID);
  }

  /** A trust domain can be recovered from its name, from its own ID and from any member. */
  lemma DomainFromAnyForm(cs: Charset, d: DomainTerm, m: IdTerm)
    requires EvalDomain(cs, d) != ZERO_DOMAIN
    ensures ParsedDomain(cs, EvalDomain(cs, d).name) == Ok(EvalDomain(cs, d))
    ensures ParsedDomain(cs, DomainId(EvalDomain(cs, d)).id) == Ok(EvalDomain(cs, d))
    ensures DomainOf(EvalId(cs, m)) == EvalDomain(cs, d) ==> ParsedDomain(cs, EvalId(cs, m).id) == Ok(EvalDomain(cs, d))
  {
    var td := EvalDomain(cs, d);
    EveryDomainIsValid(cs, d);
    NameIsSlashFree(cs, td.name);
    MadeIsWellFormed(cs, td, "");
    MemberNamesDomain(cs, OfDomain(d));
    MemberNamesDomain(cs, m);
  }

  lemma MemberNamesDomain(cs: Charset, m: IdTerm)
    ensures EvalId(cs, m) != ZERO_ID ==> ParsedDomain(cs, EvalId(cs, m).id) == Ok(DomainOf(EvalId(cs, m)))
  {
    var id := EvalId(cs, m);
    EveryIdRoundTrips(cs, m, ZERO_ID);
    if id != ZERO_ID {
      assert id.id[6] == SCHEME_PREFIX[6] == ':' && id.id[7] == SCHEME_PREFIX[7] == '/';
    }
  }

  function Then(r: Result<ID, Error>, f: ID -> Result<ID, Error>): Result<ID, Error> {
    match r case Ok(id) => f(id) case Err(e) => Err(e)
  }

  /** Appending segment lists is an action of concatenation, errors included. */
  lemma AppendSegmentsIsAction(cs: Charset, id: ID, a: seq<string>, b: seq<string>)
    ensures Then(AppendSegments(cs, id, a), x => AppendSegments(cs, x, b)) == AppendSegments(cs, id, a + b)
    ensures id != ZERO_ID ==> AppendSegments(cs, id, []) == Ok(id)
  {
    JoinResultAppends(cs, a, b);
    FirstBadIs(cs, [], 0);
    assert id.id + "" == id.id;
    if id != ZERO_ID && JoinResult(cs, a).Ok? && JoinResult(cs, b).Ok? {
      var p, q := JoinResult(cs, a).value, JoinResult(cs, b).value;
      assert id.id + (p + q) == id.id + p + q;
    }
  }

  /** Appending two paths is appending their concatenation, with the error of the second. */
  lemma AppendPathIsAction(cs: Charset, id: ID, p: string, q: string)
    requires ValidPath(cs, p) && Rooted(q)
    ensures Then(AppendPath(cs, id, p), x => AppendPath(cs, x, q)) == AppendPath(cs, id, p + q)
  {
    ValidPathsConcatenate(cs, p, q);
    assert id.id + (p + q) == id.id + p + q;
  }

  /** The exact condition, valid or not: what two appends give in two steps, the concatenation gives in one. */
  lemma AppendPathLawIff(cs: Charset, id: ID, p: string, q: string)
    requires id != ZERO_ID
    ensures Then(AppendPath(cs, id, p), x => AppendPath(cs, x, q)) == AppendPath(cs, id, p + q) <==>
            if ValidPath(cs, p) then p == "" || Rooted(q)
            else !OnlyLastBad(cs, p) || StillReported(cs, LastSegment(p), q)
  {
    if !ValidPath(cs, p) {
      ErrorSurvivesIff(cs, p, q);
    } else if Rooted(q) {
      AppendPathIsAction(cs, id, p, q);
    } else if p == "" {
      assert p + q == q && Extend(id, p) == id;
    }
  }

  /** A valid path may be spoilt by a continuation that is not rooted: "/a" with "b" is one path, not two. */
  lemma AppendPathNeedsRootedPieces(cs: Charset, id: ID)
    requires id != ZERO_ID
    ensures Then(AppendPath(cs, id, "/a"), x => AppendPath(cs, x, "b")) == Err(NoLeadingSlash)
    ensures AppendPath(cs, id, "/a" + "b").Ok?
  {
    JoinedIsValid(cs, ["a"]);
    JoinedIsValid(cs, ["ab"]);
    assert Join(["a"]) == "/a" && Join(["ab"]) == "/ab" == "/a" + "b";
  }

  /** A path that is not valid may be mended by its continuation: "/" with "a". */
  lemma AppendPathNeedsValidStart(cs: Charset, id: ID)
    requires id != ZERO_ID
    ensures Then(AppendPath(cs, id, "/"), x => AppendPath(cs, x, "a")) == Err(TrailingSlash)
    ensures AppendPath(cs, id, "/" + "a").Ok?
  {
    FirstSegment("/", 0, 1);
    FirstBadIs(cs, [""], 0);
    JoinedIsValid(cs, ["a"]);
    assert Join(["a"]) == "/a" == "/" + "a";
  }

  /** Appending keeps the trust domain and extends the path; replacing forgets every append. */
  lemma AppendAndReplace(cs: Charset, t: IdTerm, p: string, q: string)
    requires var id := EvalId(cs, t); id != ZERO_ID && AppendPath(cs, id, p).Ok?
    ensures var id := EvalId(cs, t); var longer := AppendPath(cs, id, p).value;
            && DomainOf(longer) == DomainOf(id) && PathOf(longer) == PathOf(id) + p
            && ReplacePath(cs, longer, q) == ReplacePath(cs, id, q)
            && (ValidPath(cs, q) ==>
                 ReplacePath(cs, id, q).Ok? && DomainOf(ReplacePath(cs, id, q).value) == DomainOf(id)
                 && PathOf(ReplacePath(cs, id, q).value) == q)
  {
    EveryIdIsWellFormed(cs, t);
    ExtendedIsWellFormed(cs, EvalId(cs, t), p);
    if ValidPath(cs, q) {
      MadeIsWellFormed(cs, DomainOf(EvalId(cs, t)), q);
    }
  }

  /** Appending segments adds exactly them to the path and keeps the domain. */
  lemma AppendSegmentsMeaning(cs: Charset, t: IdTerm, segments: seq<string>)
    requires EvalId(cs, t) != ZERO_ID && ValidSegments(cs, segments)
    ensures var id, r := EvalId(cs, t), AppendSegments(cs, EvalId(cs, t), segments);
            && r.Ok? && DomainOf(r.value) == DomainOf(id) && PathOf(r.value) == PathOf(id) + Join(segments)
            && Rooted(PathOf(id)) && Rooted(PathOf(r.value)) && Segments(PathOf(r.value)) == Segments(PathOf(id)) + segments
  {
    var id := EvalId(cs, t);
    EveryIdIsWellFormed(cs, t);
    JoinedIsValid(cs, segments);
    ExtendedIsWellFormed(cs, id, Join(segments));
    JoinOfSegments(PathOf(id));
    JoinAppends(Segments(PathOf(id)), segments);
    ValidPathIffJoined(cs, PathOf(id));
    SegmentsOfJoin(Segments(PathOf(id)) + segments);
  }

  /** Replacing the segments keeps the domain and nothing of the path. */
  lemma ReplaceSegmentsMeaning(cs: Charset, t: IdTerm, segments: seq<string>)
    requires EvalId(cs, t) != ZERO_ID && ValidSegments(cs, segments)
    ensures var id, r := EvalId(cs, t), ReplaceSegments(cs, EvalId(cs, t), segments);
            && r.Ok? && DomainOf(r.value) == DomainOf(id) && PathOf(r.value) == Join(segments)
            && Rooted(PathOf(r.value)) && Segments(PathOf(r.value)) == segments
  {
    EveryIdIsWellFormed(cs, t);
    JoinedIsValid(cs, segments);
    MadeIsWellFormed(cs, DomainOf(EvalId(cs, t)), Join(segments));
  }

  /** The first segment with a fault names the error of all three operations on segments. */
  lemma BadSegmentIsRefused(cs: Charset, id: ID, td: TrustDomain, a: seq<string>, s: string, b: seq<string>)
    requires ValidSegments(cs, a)
    requires s in {"", ".", ".."} || exists i :: 0 <= i < |s| && !IsPathSegmentChar(cs, s[i])
    ensures var e := Err(if s == "" then EmptySegment else if s in {".", ".."} then DotSegment else BadPathSegmentChar);
            && FromSegments(cs, td, a + [s] + b) == e
            && (id != ZERO_ID ==> AppendSegments(cs, id, a + [s] + b) == e && ReplaceSegments(cs, id, a + [s] + b) == e)
  {
    JoinFailsAt(cs, a, s, b);
  }

  /** Nothing can be appended to the zero ID or replaced in it. */
  lemma ZeroIdIsRefused(cs: Charset, path: string, segments: seq<string>)
    ensures AppendPath(cs, ZERO_ID, path) == Err(ZeroId) == ReplacePath(cs, ZERO_ID, path)
    ensures AppendSegments(cs, ZERO_ID, segments) == Err(ZeroId) == ReplaceSegments(cs, ZERO_ID, segments)
  {}

  /** An ID is made of a domain and a path; the fault of the path is reported before that of the domain. */
  lemma FromPathMeaning(cs: Charset, td: TrustDomain, path: string)
    requires ValidName(cs, td.name)
    ensures match PathError(cs, path)
            case Some(e) => FromPath(cs, td, path) == Err(e)
            case None =>
              if td.name == "" then FromPath(cs, td, path) == Err(EmptyTrustDomain)
              else var r := FromPath(cs, td, path); r.Ok? && DomainOf(r.value) == td && PathOf(r.value) == path
  {
    if ValidPath(cs, path) && td.name != "" {
      MadeIsWellFormed(cs, td, path);
    }
  }

  /** Every string in the grammar's own terms: where it splits, and which of its parts is at fault first. */
  lemma ParsedIdMeaning(cs: Charset, s: string) returns (name: string, path: string)
    ensures !("spiffe://" <= s) ==> ParsedId(cs, s) == Err(if s == "" then Empty else WrongScheme)
    ensures "spiffe://" <= s ==>
              && s == "spiffe://" + name + path && '/' !in name && (path == "" || path[0] == '/')
              && ParsedId(cs, s) ==
                   if exists i :: 0 <= i < |name| && !IsTrustDomainChar(cs, name[i]) then Err(BadTrustDomainChar)
                   else if name == "" then Err(MissingTrustDomain)
                   else match PathError(cs, path) case Some(e) => Err(e) case None => Ok(IdFields(s, 9 + |name|))
  {
    name, path := "", "";
    if SCHEME_PREFIX <= s {
      var k := NextSlash(s, |SCHEME_PREFIX|);
      name, path := s[|SCHEME_PREFIX|..k], s[k..];
      assert s == SCHEME_PREFIX + name + path;
    }
  }

  /** A trust domain is accepted as a name or as any valid ID in that domain, and as nothing else. */
  lemma DomainAcceptedIff(cs: Charset, s: string, td: TrustDomain)
    ensures ParsedDomain(cs, s) == Ok(td) <==>
              && td.name != "" && (forall i | 0 <= i < |td.name| :: IsTrustDomainChar(cs, td.name[i]))
              && (s == td.name || exists path :: ValidPath(cs, path) && s == "spiffe://" + td.name + path)
    ensures ParsedDomain(cs, s).Err? ==>
              if exists i :: 0 <= i < |s| - 1 && s[i] == ':' && s[i + 1] == '/' then ParsedId(cs, s) == Err(ParsedDomain(cs, s).error)
              else ParsedDomain(cs, s).error == if s == "" then MissingTrustDomain else BadTrustDomainChar
  {
    if ParsedDomain(cs, s) == Ok(td) {
      ParsedIsWellFormed(cs, s);
      if HasSchemeSeparator(s) {
        assert s == "spiffe://" + td.name + PathOf(ParsedId(cs, s).value);
      }
    }
    if ValidName(cs, td.name) && td.name != "" {
      NameIsSlashFree(cs, td.name);
      forall path | ValidPath(cs, path) && s == "spiffe://" + td.name + path ensures ParsedDomain(cs, s) == Ok(td) {
        IdNamesDomain(cs, td, path);
      }
    }
  }

  lemma IdNamesDomain(cs: Charset, td: TrustDomain, path: string)
    requires ValidName(cs, td.name) && td.name != "" && ValidPath(cs, path)
    ensures ParsedDomain(cs, "spiffe://" + td.name + path) == Ok(td)
  {
    MadeIsWellFormed(cs, td, path);
    var id := MakeId(td, path).value;
    WellFormedRoundTrips(cs, id);
    assert id.id[6] == SCHEME_PREFIX[6] == ':' && id.id[7] == SCHEME_PREFIX[7] == '/';
  }

  /** What the receivers hold after unmarshalling: zero for no text, what the text says if it parses, else what they held. */
  lemma UnmarshalMeaning(cs: Charset, id: ID, td: TrustDomain, text: string)
    ensures text == "" ==> Unmarshaled(cs, id, text) == (ZERO_ID, None) && UnmarshaledDomain(cs, td, text) == (ZERO_DOMAIN, None)
    ensures text != "" ==>
              var (after, err) := Unmarshaled(cs, id, text);
              (err == None ==> after.id == text && ParsedId(cs, text) == Ok(after))
              && (err.Some? ==> after == id && ParsedId(cs, text) == Err(err.value))
    ensures text != "" ==>
              var (after, err) := UnmarshaledDomain(cs, td, text);
              (err == None ==> ParsedDomain(cs, text) == Ok(after)) && (err.Some? ==> after == td && ParsedDomain(cs, text) == Err(err.value))
  {
    ParsedIsWellFormed(cs, text);
  }

  /** Segments and paths are two spellings of the same construction. */
  lemma SegmentsArePaths(cs: Charset, td: TrustDomain, segments: seq<string>)
    ensures ValidSegments(cs, segments) ==>
              FromSegments(cs, td, segments) == FromPath(cs, td, Join(segments))
    ensures FromSegments(cs, td, segments).Ok? <==> ValidSegments(cs, segments) && td != ZERO_DOMAIN
  {
    if ValidSegments(cs, segments) {
      JoinedIsValid(cs, segments);
    }
  }
}
