/** The errors of the spiffeid package (spiffeid/errors.go and the ones id.go creates in place). */
module IdErrors {
  datatype Error =
    | BadTrustDomainChar
    | BadPathSegmentChar
    | DotSegment
    | NoLeadingSlash
    | Empty
    | EmptySegment
    | MissingTrustDomain
    | TrailingSlash
    | WrongScheme
    | EmptyTrustDomain  // makeID on the zero trust domain
    | ZeroId            // appending to or replacing in the zero ID
}

/**
 The path grammar of a SPIFFE ID: section 2.2 of the SPIFFE-ID standard, as spiffeid/path.go
 enforces it. A char stands for one byte of a Go string.
 */
module PathSyntax {
  import opened Wrappers
  import opened IdErrors

  /** The two builds of the package: without and with the character set compatibility tag. */
  datatype Charset = Strict | Backcompat

  predicate IsSubDelim(c: char) {
    c in "!$&'()*+,;="
  }

  predicate IsPathSegmentChar(cs: Charset, c: char) {
    || 'a' <= c <= 'z' || 'A' <= c <= 'Z' || '0' <= c <= '9' || c in "-._"
    || (cs.Backcompat? && (IsSubDelim(c) || c in "~:[]@"))
  }

  predicate IsTrustDomainChar(cs: Charset, c: char) {
    || 'a' <= c <= 'z' || '0' <= c <= '9' || c in "-._"
    || (cs.Backcompat? && (IsSubDelim(c) || c == '~'))
  }

  // ---------- Specification: split at the slashes, then look at one segment at a time ----------

  function SegmentError(cs: Charset, segment: string): Option<Error> {
    if segment == "" then Some(EmptySegment)
    else if segment == "." || segment == ".." then Some(DotSegment)
    else if forall i | 0 <= i < |segment| :: IsPathSegmentChar(cs, segment[i]) then None
    else Some(BadPathSegmentChar)
  }

  predicate Rooted(p: string) {
    p == "" || p[0] == '/'
  }

  predicate SlashFree(s: string) {
    '/' !in s
  }

  function NextSlash(p: string, i: nat): (k: nat)
    requires i <= |p|
    ensures i <= k <= |p|
    ensures SlashFree(p[i..k])
    ensures k < |p| ==> p[k] == '/'
    decreases |p| - i
  {
    if i == |p| || p[i] == '/' then i else NextSlash(p, i + 1)
  }

  /** The pieces between the slashes of a rooted path; the empty path has none. */
  function Segments(p: string): (segs: seq<string>)
    requires Rooted(p)
    ensures segs == [] <==> p == ""
    ensures forall s | s in segs :: SlashFree(s)
    decreases |p|
  {
    if p == "" then [] else
      var k := NextSlash(p, 1);
      [p[1..k]] + Segments(p[k..])
  }

  function Join(segs: seq<string>): (p: string)
    ensures Rooted(p)
  {
    if segs == [] then "" else "/" + segs[0] + Join(segs[1..])
  }

  predicate ValidSegments(cs: Charset, segs: seq<string>) {
    forall i | 0 <= i < |segs| :: SegmentError(cs, segs[i]) == None
  }

  /** What is wrong with segment i of a path: an empty last segment is a trailing slash. */
  function ErrorAt(cs: Charset, segs: seq<string>, i: nat): Option<Error>
    requires i < |segs|
  {
    if segs[i] == "" && i == |segs| - 1 then Some(TrailingSlash) else SegmentError(cs, segs[i])
  }

  /** The first segment from i on that is not valid, or the length of the list. */
  function FirstBad(cs: Charset, segs: seq<string>, i: nat): (k: nat)
    requires i <= |segs|
    ensures i <= k <= |segs|
    ensures forall j | i <= j < k :: SegmentError(cs, segs[j]) == None
    ensures k < |segs| ==> SegmentError(cs, segs[k]).Some?
    decreases |segs| - i
  {
    if i == |segs| || SegmentError(cs, segs[i]).Some? then i else FirstBad(cs, segs, i + 1)
  }

  function ListError(cs: Charset, segs: seq<string>): Option<Error> {
    var k := FirstBad(cs, segs, 0);
    if k == |segs| then None else ErrorAt(cs, segs, k)
  }

  /** The split specification of path validation: the error of the first bad segment. */
  function PathError(cs: Charset, p: string): Option<Error> {
    if !Rooted(p) then Some(NoLeadingSlash) else ListError(cs, Segments(p))
  }

  predicate ValidPath(cs: Charset, p: string) {
    PathError(cs, p) == None
  }

  /** The joined path, or the error of the first bad segment. */
  function JoinResult(cs: Charset, segs: seq<string>): Result<string, Error> {
    var k := FirstBad(cs, segs, 0);
    if k == |segs| then Ok(Join(segs)) else Err(SegmentError(cs, segs[k]).value)
  }

  // ---------- The algorithms of path.go ----------

  method ValidatePathSegment(cs: Charset, segment: string) returns (err: Option<Error>)
    ensures err == SegmentError(cs, segment)
    ensures err == None <==>
              segment !in {"", ".", ".."} && forall i | 0 <= i < |segment| :: IsPathSegmentChar(cs, segment[i])
    ensures err.Some? ==>
              err.value == (if segment == "" then EmptySegment else if segment in {".", ".."} then DotSegment else BadPathSegmentChar)
  {
    if segment == "" {
      return Some(EmptySegment);
    }
    if segment == "." || segment == ".." {
      return Some(DotSegment);
    }
    for i := 0 to |segment|
      invariant forall j | 0 <= j < i :: IsPathSegmentChar(cs, segment[j])
    {
      if !IsPathSegmentChar(cs, segment[i]) {
        return Some(BadPathSegmentChar);
      }
    }
    return None;
  }

  method JoinPathSegments(cs: Charset, segments: seq<string>) returns (r: Result<string, Error>)
    ensures r == JoinResult(cs, segments)
  {
    var builder := "";
    for i := 0 to |segments|
      invariant forall j | 0 <= j < i :: SegmentError(cs, segments[j]) == None
      invariant builder == Join(segments[..i])
    {
      var err := ValidatePathSegment(cs, segments[i]);
      if err.Some? {
        FirstBadIs(cs, segments, i);
        return Err(err.value);
      }
      JoinAppends(segments[..i], [segments[i]]);
      assert segments[..i + 1] == segments[..i] + [segments[i]];
      builder := builder + "/" + segments[i];
    }
    FirstBadIs(cs, segments, |segments|);
    assert segments[..|segments|] == segments;
    return Ok(builder);
  }

  /** The single pass of path.go: it never builds a segment list, it only moves two indices. */
  method ValidatePath(cs: Charset, path: string) returns (err: Option<Error>)
    ensures err == PathError(cs, path)
  {
    if path == "" {
      return None;
    }
    if path[0] != '/' {
      return Some(NoLeadingSlash);
    }
    var segmentStart, segmentEnd := 0, 0;
    while segmentEnd < |path|
      invariant 0 <= segmentStart <= segmentEnd <= |path|
      invariant segmentStart < |path| && path[segmentStart] == '/'
      invariant segmentStart == segmentEnd ==> segmentEnd == 0
      invariant CleanAfter(cs, path, segmentStart, segmentEnd)
      invariant PathError(cs, path) == PathError(cs, path[segmentStart..])
    {
      var c := path[segmentEnd];
      if c == '/' {
        if segmentStart < segmentEnd {
          LeadingSegment(cs, path, segmentStart, segmentEnd);
        }
        var piece := path[segmentStart..segmentEnd];
        if piece == "/" {
          return Some(EmptySegment);
        }
        if piece == "/." || piece == "/.." {
          return Some(DotSegment);
        }
        segmentStart := segmentEnd;
      } else if !IsPathSegmentChar(cs, c) {
        BadSegment(cs, path, segmentStart, segmentEnd);
        return Some(BadPathSegmentChar);
      }
      segmentEnd := segmentEnd + 1;
    }
    LeadingSegment(cs, path, segmentStart, segmentEnd);
    var piece := path[segmentStart..segmentEnd];
    if piece == "/" {
      return Some(TrailingSlash);
    }
    if piece == "/." || piece == "/.." {
      return Some(DotSegment);
    }
    return None;
  }

  // ---------- Why the single pass is right ----------

  ghost predicate CleanAfter(cs: Charset, path: string, start: nat, end: nat)
    requires start <= end <= |path|
  {
    forall j | start < j < end :: path[j] != '/' && IsPathSegmentChar(cs, path[j])
  }

  lemma NextSlashIs(p: string, i: nat, k: nat)
    requires i <= k <= |p| && (forall j | i <= j < k :: p[j] != '/') && (k < |p| ==> p[k] == '/')
    ensures NextSlash(p, i) == k
  {}

  lemma FirstBadIs(cs: Charset, segs: seq<string>, k: nat)
    requires k <= |segs|
    requires forall j | 0 <= j < k :: SegmentError(cs, segs[j]) == None
    requires k < |segs| ==> SegmentError(cs, segs[k]).Some?
    ensures FirstBad(cs, segs, 0) == k
  {}

  /** Only the first segment decides when it is bad; otherwise it can be dropped. */
  lemma HeadDecides(cs: Charset, head: string, segs: seq<string>)
    ensures ListError(cs, [head] + segs) ==
            if SegmentError(cs, head).Some? then ErrorAt(cs, [head] + segs, 0) else ListError(cs, segs)
  {
    if SegmentError(cs, head).Some? {
      FirstBadIs(cs, [head] + segs, 0);
    } else {
      FirstBadIs(cs, [head] + segs, 1 + FirstBad(cs, segs, 0));
    }
  }

  /** Reading a path from a slash at start on: its first segment ends at the next slash k. */
  lemma FirstSegment(path: string, start: nat, k: nat)
    requires start < k <= |path| && path[start] == '/'
    requires forall j | start < j < k :: path[j] != '/'
    requires k < |path| ==> path[k] == '/'
    ensures Segments(path[start..]) == [path[start + 1..k]] + Segments(path[k..])
  {
    var p := path[start..];
    NextSlashIs(p, 1, k - start);
    assert p[1..k - start] == path[start + 1..k];
    assert p[k - start..] == path[k..];
  }

  /** When the scanner has reached the end k of a clean segment, the piece it compares decides. */
  lemma LeadingSegment(cs: Charset, path: string, start: nat, k: nat)
    requires start < k <= |path| && path[start] == '/'
    requires CleanAfter(cs, path, start, k)
    requires k < |path| ==> path[k] == '/'
    ensures PathError(cs, path[start..]) ==
            if path[start..k] == "/" then Some(if k == |path| then TrailingSlash else EmptySegment)
            else if path[start..k] == "/." || path[start..k] == "/.." then Some(DotSegment)
            else PathError(cs, path[k..])
  {
    var seg := path[start + 1..k];
    FirstSegment(path, start, k);
    HeadDecides(cs, seg, Segments(path[k..]));
    assert path[start..k] == "/" + seg;
    PieceIsSegment(seg);
    CleanSegment(cs, seg) by {
      assert forall j | 0 <= j < |seg| :: seg[j] == path[start + 1 + j];
    }
  }

  lemma CleanSegment(cs: Charset, seg: string)
    requires forall j | 0 <= j < |seg| :: IsPathSegmentChar(cs, seg[j])
    ensures SegmentError(cs, seg) ==
            if seg == "" then Some(EmptySegment) else if seg == "." || seg == ".." then Some(DotSegment) else None
  {}

  /** The scanner compares pieces that still carry their slash. */
  lemma PieceIsSegment(seg: string)
    ensures "/" + seg == "/" <==> seg == ""
    ensures "/" + seg == "/." <==> seg == "."
    ensures "/" + seg == "/.." <==> seg == ".."
  {
    assert seg == ("/" + seg)[1..];
    assert "/." == "/" + "." && "/.." == "/" + "..";
  }

  /** A character outside the set spoils its segment, whatever follows it. */
  lemma BadSegment(cs: Charset, path: string, start: nat, at: nat)
    requires start < at < |path| && path[start] == '/'
    requires path[at] != '/' && !IsPathSegmentChar(cs, path[at])
    requires CleanAfter(cs, path, start, at)
    ensures PathError(cs, path[start..]) == Some(BadPathSegmentChar)
  {
    var k := NextSlash(path, at);
    var seg := path[start + 1..k];
    assert forall j | at <= j < k :: path[j] == path[at..k][j - at];
    FirstSegment(path, start, k);
    HeadDecides(cs, seg, Segments(path[k..]));
    assert seg[at - start - 1] == path[at];
  }

  // ---------- Main results about paths ----------

  lemma {:induction false} JoinOfSegments(p: string)
    requires Rooted(p)
    ensures Join(Segments(p)) == p
    decreases |p|
  {
    if p != "" {
      var k := NextSlash(p, 1);
      JoinOfSegments(p[k..]);
      assert p == "/" + p[1..k] + p[k..];
    }
  }

  lemma SegmentsOfPiece(x: string, rest: string)
    requires SlashFree(x) && Rooted(rest)
    ensures Segments("/" + x + rest) == [x] + Segments(rest)
  {
    var p, k := "/" + x + rest, 1 + |x|;
    assert p[1..k] == x && p[k..] == rest && p[0..] == p;
    assert forall j | 1 <= j < k :: p[j] == x[j - 1];
    FirstSegment(p, 0, k);
  }

  lemma {:induction false} SegmentsOfJoin(segs: seq<string>)
    requires forall s | s in segs :: SlashFree(s)
    ensures Segments(Join(segs)) == segs
  {
    if segs != [] {
      SegmentsOfJoin(segs[1..]);
      SegmentsOfPiece(segs[0], Join(segs[1..]));
    }
  }

  /** JoinPathSegments of valid segments is valid, and splitting gives the segments back. */
  lemma JoinedIsValid(cs: Charset, segs: seq<string>)
    requires ValidSegments(cs, segs)
    ensures JoinResult(cs, segs) == Ok(Join(segs))
    ensures ValidPath(cs, Join(segs)) && Segments(Join(segs)) == segs
  {
    SegmentsOfJoin(segs);
    FirstBadIs(cs, segs, |segs|);
  }

  /** A path is accepted exactly when it joins a list of valid segments, and that list is its own. */
  lemma ValidPathIffJoined(cs: Charset, p: string)
    ensures ValidPath(cs, p) <==> exists segs :: JoinResult(cs, segs) == Ok(p)
    ensures forall segs | JoinResult(cs, segs) == Ok(p) :: Rooted(p) && segs == Segments(p)
  {
    if ValidPath(cs, p) {
      JoinOfSegments(p);
      assert JoinResult(cs, Segments(p)) == Ok(p);
    }
    forall segs | JoinResult(cs, segs) == Ok(p)
      ensures ValidPath(cs, p) && segs == Segments(p)
    {
      JoinedIsValid(cs, segs);
    }
  }

  lemma {:induction false} JoinAppends(a: seq<string>, b: seq<string>)
    ensures Join(a + b) == Join(a) + Join(b)
  {
    if a == [] {
      assert a + b == b;
    } else {
      assert (a + b)[1..] == a[1..] + b;
      JoinAppends(a[1..], b);
    }
  }

  /** After valid segments, the rest of the list decides. */
  lemma ValidPrefix(cs: Charset, a: seq<string>, b: seq<string>)
    requires ValidSegments(cs, a)
    ensures FirstBad(cs, a + b, 0) == |a| + FirstBad(cs, b, 0)
    ensures ListError(cs, a + b) == ListError(cs, b)
  {
    FirstBadIs(cs, a + b, |a| + FirstBad(cs, b, 0));
  }

  /** After a valid path, validation depends on what is appended only, down to the error reported. */
  lemma ValidPathsConcatenate(cs: Charset, p: string, q: string)
    requires ValidPath(cs, p) && Rooted(q)
    ensures PathError(cs, p + q) == PathError(cs, q)
  {
    JoinOfSegments(p);
    JoinOfSegments(q);
    JoinAppends(Segments(p), Segments(q));
    SegmentsOfJoin(Segments(p) + Segments(q));
    ValidPrefix(cs, Segments(p), Segments(q));
  }

  /** The characters of a segment, one by one: the unreserved ones, and in the compatible build the reserved ones but the slash. */
  lemma PathSegmentChars(c: char)
    ensures IsPathSegmentChar(Strict, c) <==>
              'a' <= c <= 'z' || 'A' <= c <= 'Z' || '0' <= c <= '9' || c == '-' || c == '.' || c == '_'
    ensures IsPathSegmentChar(Backcompat, c) <==>
              IsPathSegmentChar(Strict, c) || c == '~'
              || c in {'!', '$', '&', '\'', '(', ')', '*', '+', ',', ';', '='} || c in {':', '[', ']', '@'}
    ensures IsTrustDomainChar(Strict, c) <==> 'a' <= c <= 'z' || '0' <= c <= '9' || c == '-' || c == '.' || c == '_'
    ensures IsTrustDomainChar(Backcompat, c) <==>
              IsTrustDomainChar(Strict, c) || c == '~' || c in {'!', '$', '&', '\'', '(', ')', '*', '+', ',', ';', '='}
  {}

  /** After a valid path the next segment decides, and only a segment without fault hands on to what follows it. */
  lemma NextSegmentDecides(cs: Charset, p: string, s: string, rest: string)
    requires ValidPath(cs, p) && SlashFree(s) && Rooted(rest)
    ensures PathError(cs, p + ("/" + s + rest)) ==
            if s == "" then Some(if rest == "" then TrailingSlash else EmptySegment)
            else if s == "." || s == ".." then Some(DotSegment)
            else if exists i :: 0 <= i < |s| && !IsPathSegmentChar(cs, s[i]) then Some(BadPathSegmentChar)
            else PathError(cs, rest)
  {
    ValidPathsConcatenate(cs, p, "/" + s + rest);
    SegmentsOfPiece(s, rest);
    HeadDecides(cs, s, Segments(rest));
  }

  /** A path that does not begin with a slash is refused for that, unless it is empty, which is valid. */
  lemma LeadingSlash(cs: Charset, p: string)
    ensures PathError(cs, p) == Some(NoLeadingSlash) <==> p != "" && p[0] != '/'
    ensures PathError(cs, "") == None
  {}

  /** Joining stops at the first segment with a fault, whatever follows. */
  lemma JoinFailsAt(cs: Charset, a: seq<string>, s: string, b: seq<string>)
    requires ValidSegments(cs, a)
    requires s in {"", ".", ".."} || exists i :: 0 <= i < |s| && !IsPathSegmentChar(cs, s[i])
    ensures JoinResult(cs, a + [s] + b) ==
            Err(if s == "" then EmptySegment else if s in {".", ".."} then DotSegment else BadPathSegmentChar)
  {
    FirstBadIs(cs, a + [s] + b, |a|);
  }

  // ---------- What is appended to a path that is not valid ----------

  /** The part of q that lengthens the last segment of the path before it, and what follows that segment. */
  function Lengthening(q: string): (h: string)
    ensures SlashFree(h)
  {
    q[..NextSlash(q, 0)]
  }

  function Following(q: string): (r: string)
    ensures Rooted(r)
  {
    q[NextSlash(q, 0)..]
  }

  function LastSegment(p: string): string
    requires Rooted(p) && p != ""
  {
    Segments(p)[|Segments(p)| - 1]
  }

  function AllButLast(p: string): seq<string>
    requires Rooted(p) && p != ""
  {
    Segments(p)[..|Segments(p)| - 1]
  }

  /** The last segment is empty or a dot segment, and nothing before it is wrong. */
  predicate OnlyLastBad(cs: Charset, p: string) {
    Rooted(p) && p != "" && ValidSegments(cs, AllButLast(p)) && LastSegment(p) in {"", ".", ".."}
  }

  /** A bad last segment s is reported in the same way after q has been appended. */
  predicate StillReported(cs: Charset, s: string, q: string) {
    var h := Lengthening(q);
    if h == "" then s != "" || q == ""
    else (s == "." && h == ".")
         || (SegmentError(cs, s + h) == None && PathError(cs, Following(q)) == Some(if s == "" then TrailingSlash else DotSegment))
  }

  lemma JoinInMiddle(front: seq<string>, x: string, rest: string)
    requires Rooted(rest)
    ensures Join(front + ([x] + Segments(rest))) == Join(front) + ("/" + x + rest)
  {
    var tail := [x] + Segments(rest);
    JoinAppends(front, tail);
    JoinOfSegments(rest);
    assert tail[1..] == Segments(rest);
  }

  lemma LastSegmentSplits(p: string)
    requires Rooted(p) && p != ""
    ensures Segments(p) == AllButLast(p) + [LastSegment(p)] && SlashFree(LastSegment(p))
    ensures p == Join(AllButLast(p)) + ("/" + LastSegment(p))
  {
    var front, s := AllButLast(p), LastSegment(p);
    assert Segments(p) == front + [s];
    JoinOfSegments(p);
    JoinLast(front, s);
  }

  lemma JoinLast(front: seq<string>, s: string)
    ensures Join(front + [s]) == Join(front) + ("/" + s)
  {
    JoinAppends(front, [s]);
    assert Join([s]) == "/" + s + Join([]);
  }

  lemma Regrouped(f: string, s: string, h: string, r: string)
    ensures f + ("/" + s) + (h + r) == f + ("/" + (s + h) + r)
  {}

  /** Appending lengthens the last segment and adds the segments of the rest. */
  lemma SegmentsAppend(p: string, q: string)
    requires Rooted(p) && p != ""
    ensures Segments(p + q) == AllButLast(p) + ([LastSegment(p) + Lengthening(q)] + Segments(Following(q)))
  {
    var front, s, h, rest := AllButLast(p), LastSegment(p), Lengthening(q), Following(q);
    LastSegmentSplits(p);
    JoinInMiddle(front, s + h, rest);
    Regrouped(Join(front), s, h, rest);
    assert q == h + rest;
    SegmentsOfJoin(front + ([s + h] + Segments(rest)));
  }

  /** The error of a path that is not valid survives an append on exactly these continuations. */
  lemma ErrorSurvivesIff(cs: Charset, p: string, q: string)
    requires !ValidPath(cs, p)
    ensures PathError(cs, p + q) == PathError(cs, p) <==> !OnlyLastBad(cs, p) || StillReported(cs, LastSegment(p), q)
  {
    if Rooted(p) {
      var front, s := AllButLast(p), LastSegment(p);
      SegmentsAppend(p, q);
      assert Segments(p) == front + [s];
      ListErrorAfter(cs, front, [s]);
      ListErrorAfter(cs, front, [s + Lengthening(q)] + Segments(Following(q)));
      if ValidSegments(cs, front) {
        LastDecides(cs, s, q);
      }
    }
  }

  /** A bad segment before the last list decides; otherwise the last list does. */
  lemma ListErrorAfter(cs: Charset, front: seq<string>, tail: seq<string>)
    requires tail != []
    ensures ListError(cs, front + tail) ==
            if ValidSegments(cs, front) then ListError(cs, tail) else SegmentError(cs, front[FirstBad(cs, front, 0)])
  {
    var k := FirstBad(cs, front, 0);
    if k < |front| {
      FirstBadIs(cs, front + tail, k);
    } else {
      ValidPrefix(cs, front, tail);
    }
  }

  lemma LastDecides(cs: Charset, s: string, q: string)
    requires SegmentError(cs, s).Some?
    ensures var tail := [s + Lengthening(q)] + Segments(Following(q));
            ListError(cs, tail) == ListError(cs, [s]) <==> s !in {"", ".", ".."} || StillReported(cs, s, q)
  {
    var h := Lengthening(q);
    HeadDecides(cs, s + h, Segments(Following(q)));
    FirstBadIs(cs, [s], 0);
    LengthenedError(cs, s, h);
  }

  /** What lengthening does to a bad segment. */
  lemma LengthenedError(cs: Charset, s: string, h: string)
    requires SegmentError(cs, s).Some?
    ensures s !in {"", ".", ".."} ==> SegmentError(cs, s + h) == SegmentError(cs, s)
    ensures s in {".", ".."} ==> (SegmentError(cs, s + h) == Some(DotSegment) <==> h == "" || (s == "." && h == "."))
    ensures SegmentError(cs, s + h) == Some(EmptySegment) <==> s == "" && h == ""
  {
    if s !in {"", ".", ".."} {
      var i :| 0 <= i < |s| && !IsPathSegmentChar(cs, s[i]);
      assert (s + h)[i] == s[i] != '.';
    } else {
      assert s + "" == s && "." + "." == "..";
      assert (s + h)[|s|..] == h;
    }
  }

  /** Joining a concatenation is joining the two halves, with the same first error. */
  lemma JoinResultAppends(cs: Charset, a: seq<string>, b: seq<string>)
    ensures JoinResult(cs, a + b) ==
            match JoinResult(cs, a)
            case Err(e) => Err(e)
            case Ok(p) => match JoinResult(cs, b) case Err(e) => Err(e) case Ok(q) => Ok(p + q)
  {
    var k := FirstBad(cs, a, 0);
    if k < |a| {
      FirstBadIs(cs, a + b, k);
    } else {
      ValidPrefix(cs, a, b);
      JoinAppends(a, b);
    }
  }
}
