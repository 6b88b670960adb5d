/**
 Choosing SVIDs by hint, and the source that serves the default one: the parse loops of
 workloadapi/client.go, workloadapi/x509context.go and workloadapi/x509source.go. Parsing the
 contents of an entry is a library matter and is a parameter.
 */
module SvidSelection {
  import opened Wrappers

  type Raw = seq<bv8>

  datatype Material = Material(raw: Raw)

  datatype Fault = Fault(text: string)

  type Parser = Raw -> Result<Material, Fault>

  datatype Entry = Entry(hint: string, payload: Raw)

  datatype Svid = Svid(material: Material, hint: string)

  datatype SelectError = NoSvids | BadSvid(error: Fault)

  type Selection = Result<seq<Svid>, SelectError>

  /** An entry counts when it has no hint or is the first to use its hint. */
  predicate Counts(es: seq<Entry>, i: nat)
    requires i < |es|
  {
    es[i].hint == "" || forall j | 0 <= j < i :: es[j].hint != es[i].hint
  }

  /** The entries that count among the first n, in order. */
  function Kept(es: seq<Entry>, n: nat): seq<Entry>
    requires n <= |es|
  {
    if n == 0 then []
    else if Counts(es, n - 1) then Kept(es, n - 1) + [es[n - 1]]
    else Kept(es, n - 1)
  }

  function FirstFailing(es: seq<Entry>, parse: Parser, i: nat): (k: nat)
    requires i <= |es|
    ensures i <= k <= |es|
    ensures forall j | i <= j < k :: parse(es[j].payload).Ok?
    ensures k < |es| ==> parse(es[k].payload).Err?
    decreases |es| - i
  {
    if i == |es| || parse(es[i].payload).Err? then i else FirstFailing(es, parse, i + 1)
  }

  function Svids(es: seq<Entry>, parse: Parser): (svids: seq<Svid>)
    requires forall i | 0 <= i < |es| :: parse(es[i].payload).Ok?
    ensures |svids| == |es|
  {
    seq(|es|, i requires 0 <= i < |es| => Svid(parse(es[i].payload).value, es[i].hint))
  }

  /** Every entry parsed, or the error of the first that does not parse. */
  function AllParsed(es: seq<Entry>, parse: Parser): Selection {
    var k := FirstFailing(es, parse, 0);
    if k < |es| then Err(BadSvid(parse(es[k].payload).error)) else Ok(Svids(es, parse))
  }

  function Considered(resp: seq<Entry>, firstOnly: bool): seq<Entry> {
    if firstOnly && resp != [] then resp[..1] else resp
  }

  /** The specification: the entries that count, parsed in order. */
  function Selected(resp: seq<Entry>, firstOnly: bool, parse: Parser): Selection {
    if resp == [] then Err(NoSvids) else
      var es := Considered(resp, firstOnly);
      AllParsed(Kept(es, |es|), parse)
  }

  /** The loop shared by the X.509, JWT and WIT parsers; asked records the entries handed to parse. */
  method ParseSVIDs(resp: seq<Entry>, firstOnly: bool, parse: Parser) returns (r: Selection, ghost asked: seq<Entry>)
    ensures r == Selected(resp, firstOnly, parse)
    ensures var es := Considered(resp, firstOnly); asked <= Kept(es, |es|)
  {
    asked := [];
    if |resp| == 0 {
      return Err(NoSvids), asked;
    }
    var es := Considered(resp, firstOnly);
    var hints: set<string> := {};
    var svids: seq<Svid> := [];
    for i := 0 to |es|
      invariant hints == set j | 0 <= j < i :: es[j].hint
      invariant asked == Kept(es, i)
      invariant forall j | 0 <= j < |asked| :: parse(asked[j].payload).Ok?
      invariant svids == Svids(asked, parse)
    {
      if es[i].hint in hints && es[i].hint != "" {
        continue;
      }
      hints := hints + {es[i].hint};
      asked := asked + [es[i]];
      var s := parse(es[i].payload);
      if s.Err? {
        CountingIsKept(es, |es|, i);
        KeptGrows(es, i + 1, |es|);
        FirstFailingIs(Kept(es, |es|), parse, |asked| - 1);
        return Err(BadSvid(s.error)), asked;
      }
      svids := svids + [Svid(s.value, es[i].hint)];
    }
    FirstFailingIs(asked, parse, |asked|);
    return Ok(svids), asked;
  }

  lemma FirstFailingIs(es: seq<Entry>, parse: Parser, k: nat)
    requires k <= |es| && (forall j | 0 <= j < k :: parse(es[j].payload).Ok?)
    requires k < |es| ==> parse(es[k].payload).Err?
    ensures FirstFailing(es, parse, 0) == k
  {}

  lemma {:induction false} KeptGrows(es: seq<Entry>, m: nat, n: nat)
    requires m <= n <= |es|
    ensures Kept(es, m) <= Kept(es, n)
    decreases n - m
  {
    if m < n {
      KeptGrows(es, m, n - 1);
    }
  }

  // ---------- Main results ----------

  /** An entry that counts is kept, after exactly those before it that count. */
  lemma {:induction false} CountingIsKept(es: seq<Entry>, n: nat, i: nat)
    requires i < n <= |es| && Counts(es, i)
    ensures |Kept(es, i)| < |Kept(es, n)| && Kept(es, n)[|Kept(es, i)|] == es[i]
  {
    if i < n - 1 {
      CountingIsKept(es, n - 1, i);
    }
  }

  /** Nothing else is kept: what is kept at position k is the entry with k counting entries before it. */
  lemma {:induction false} KeptCounts(es: seq<Entry>, n: nat, k: nat) returns (i: nat)
    requires n <= |es| && k < |Kept(es, n)|
    ensures i < n && Counts(es, i) && Kept(es, n)[k] == es[i] && |Kept(es, i)| == k
  {
    if k < |Kept(es, n - 1)| {
      i := KeptCounts(es, n - 1, k);
    } else {
      i := n - 1;
    }
  }

  /** No two kept entries share a hint. */
  lemma KeptHintsDiffer(es: seq<Entry>, k: nat, l: nat)
    requires k < l < |Kept(es, |es|)|
    ensures Kept(es, |es|)[l].hint == "" || Kept(es, |es|)[k].hint != Kept(es, |es|)[l].hint
  {
    var i := KeptCounts(es, |es|, k);
    var j := KeptCounts(es, |es|, l);
    if j <= i {
      KeptGrows(es, j, i);
    }
  }

  /** Every hint of the response is served by the first entry that uses it, every unhinted entry by itself. */
  lemma {:induction false} EveryHintKept(es: seq<Entry>, i: nat) returns (first: nat)
    requires i < |es|
    ensures first <= i && es[first].hint == es[i].hint && es[first] in Kept(es, |es|)
    ensures es[i].hint == "" ==> first == i
    ensures es[i].hint != "" ==> forall j | 0 <= j < first :: es[j].hint != es[i].hint
  {
    if Counts(es, i) {
      first := i;
      CountingIsKept(es, |es|, i);
    } else {
      var j :| 0 <= j < i && es[j].hint == es[i].hint;
      first := EveryHintKept(es, j);
    }
  }

  lemma FirstIsKept(es: seq<Entry>)
    requires es != []
    ensures Kept(es, |es|) != [] && Kept(es, |es|)[0] == es[0]
  {
    CountingIsKept(es, |es|, 0);
    assert Kept(es, 0) == [];
  }

  /** Parsing fails exactly on an empty response or a bad entry that counts, and success is never empty. */
  lemma SelectedIff(resp: seq<Entry>, parse: Parser)
    ensures Selected(resp, false, parse).Ok? <==>
              resp != [] && forall i | 0 <= i < |resp| && Counts(resp, i) :: parse(resp[i].payload).Ok?
    ensures Selected(resp, false, parse).Ok? ==> Selected(resp, false, parse).value != []
  {
    if resp != [] {
      var kept := Kept(resp, |resp|);
      var f := FirstFailing(kept, parse, 0);
      FirstIsKept(resp);
      if f < |kept| {
        var i := KeptCounts(resp, |resp|, f);
      } else {
        forall i | 0 <= i < |resp| && Counts(resp, i) ensures parse(resp[i].payload).Ok? {
          CountingIsKept(resp, |resp|, i);
        }
      }
    }
  }

  /** Each SVID of a successful result is its own entry parsed, with its own hint. */
  lemma SelectedAt(resp: seq<Entry>, parse: Parser, k: nat)
    requires Selected(resp, false, parse).Ok?
    ensures |Selected(resp, false, parse).value| == |Kept(resp, |resp|)|
    ensures k < |Kept(resp, |resp|)| ==>
              var e, svid := Kept(resp, |resp|)[k], Selected(resp, false, parse).value[k];
              parse(e.payload) == Ok(svid.material) && svid.hint == e.hint
  {}

  /** A failure is NoSvids for an empty response, and otherwise the fault of the first bad entry that counts. */
  lemma FirstFaultIsReported(resp: seq<Entry>, parse: Parser, i: nat)
    requires i < |resp| && Counts(resp, i) && parse(resp[i].payload).Err?
    requires forall j | 0 <= j < i && Counts(resp, j) :: parse(resp[j].payload).Ok?
    ensures Selected(resp, false, parse) == Err(BadSvid(parse(resp[i].payload).error))
    ensures Selected([], false, parse) == Err(NoSvids) == Selected([], true, parse)
  {
    var kept, at := Kept(resp, |resp|), |Kept(resp, i)|;
    CountingIsKept(resp, |resp|, i);
    forall k | 0 <= k < at ensures parse(kept[k].payload).Ok? {
      KeptGrows(resp, i, |resp|);
      var j := KeptCounts(resp, i, k);
    }
    FirstFailingIs(kept, parse, at);
  }

  /** The first-only call looks at the first entry alone, whatever the others are. */
  lemma FirstOnlyIsFirst(resp: seq<Entry>, parse: Parser)
    requires resp != []
    ensures match parse(resp[0].payload)
            case Ok(material) => Selected(resp, true, parse) == Ok([Svid(material, resp[0].hint)])
            case Err(fault) => Selected(resp, true, parse) == Err(BadSvid(fault))
  {
    var one := resp[..1];
    assert Kept(one, 0) == [];
    assert Kept(one, 1) == [resp[0]];
    match parse(resp[0].payload)
    case Ok(material) =>
      FirstFailingIs([resp[0]], parse, 1);
      assert Svids([resp[0]], parse) == [Svid(material, resp[0].hint)];
    case Err(_) => FirstFailingIs([resp[0]], parse, 0);
  }

  /** The first-only call gives the head of the full result whenever the full call succeeds. */
  lemma FirstOnlyIsHead(resp: seq<Entry>, parse: Parser)
    requires Selected(resp, false, parse).Ok?
    ensures var full := Selected(resp, false, parse).value; full != [] && Selected(resp, true, parse) == Ok([full[0]])
  {
    var one := resp[..1];
    FirstIsKept(resp);
    assert Kept(one, 0) == [];
    assert Kept(one, 1) == [resp[0]];
    FirstFailingIs([resp[0]], parse, 1);
    assert Svids([resp[0]], parse) == [Selected(resp, false, parse).value[0]];
  }

  /** What parse would do on a skipped duplicate cannot show: it is never asked. */
  lemma DuplicatesNeverMatter(resp: seq<Entry>, parse: Parser, other: Parser)
    requires forall i | 0 <= i < |resp| && Counts(resp, i) :: parse(resp[i].payload) == other(resp[i].payload)
    ensures Selected(resp, false, parse) == Selected(resp, false, other)
  {
    if resp != [] {
      var kept := Kept(resp, |resp|);
      forall k | 0 <= k < |kept| ensures parse(kept[k].payload) == other(kept[k].payload) {
        var i := KeptCounts(resp, |resp|, k);
      }
      FirstFailingIs(kept, other, FirstFailing(kept, parse, 0));
      if FirstFailing(kept, parse, 0) == |kept| {
        assert Svids(kept, parse) == Svids(kept, other);
      }
    }
  }

  // ---------- The X.509 source ----------

  datatype SourceError = Closed | MissingSvid

  type Picker = seq<Svid> -> Option<Svid>

  function Chosen(picker: Option<Picker>, svids: seq<Svid>): Option<Svid>
    requires picker.None? ==> svids != []
  {
    match picker case None => Some(svids[0]) case Some(f) => f(svids)
  }

  class X509Source {
    const picker: Option<Picker>
    var svid: Option<Svid>
    var closed: bool

    constructor (picker: Option<Picker>)
      ensures this.picker == picker && svid == None && !closed
    {
      this.picker := picker;
      svid, closed := None, false;
    }

    method SetX509Context(svids: seq<Svid>)
      requires picker.None? ==> svids != []
      modifies this`svid
      ensures svid == Chosen(picker, svids)
    {
      if picker.None? {
        svid := Some(svids[0]);
      } else {
        svid := picker.value(svids);
      }
    }

    method Close()
      modifies this`closed
      ensures closed
    {
      closed := true;
    }

    method GetX509SVID() returns (r: Result<Svid, SourceError>)
      ensures r == Served(svid, closed)
    {
      if closed {
        return Err(Closed);
      }
      if svid.None? {
        return Err(MissingSvid);
      }
      return Ok(svid.value);
    }
  }

  function Served(svid: Option<Svid>, closed: bool): Result<Svid, SourceError> {
    if closed then Err(Closed)
    else match svid case None => Err(MissingSvid) case Some(s) => Ok(s)
  }

  /** One more than the index of the last response that parsed, or zero. */
  function LastGood(responses: seq<seq<Entry>>, parse: Parser, n: nat): (k: nat)
    requires n <= |responses|
    ensures k <= n && forall i | k <= i < n :: Selected(responses[i], false, parse).Err?
    ensures k > 0 ==> Selected(responses[k - 1], false, parse).Ok?
  {
    if n == 0 || Selected(responses[n - 1], false, parse).Ok? then n else LastGood(responses, parse, n - 1)
  }

  /**
   A source over a list of responses, of which only those that parse become updates, and then asked.
   Without a picker the "missing" branch is reached only when no response has parsed at all; otherwise an
   open source serves the first entry of the last response that did.
   */
  method ServedAfter(picker: Option<Picker>, responses: seq<seq<Entry>>, parse: Parser, closed: bool)
      returns (r: Result<Svid, SourceError>)
    ensures r == Err(Closed) <==> closed
    ensures picker.None? ==>
              (r == Err(MissingSvid) <==> !closed && forall i | 0 <= i < |responses| :: Selected(responses[i], false, parse).Err?)
    ensures var k := LastGood(responses, parse, |responses|);
            k > 0 && !closed ==>
              var last := responses[k - 1];
              match picker
              case None => last != [] && parse(last[0].payload).Ok? && r == Ok(Svid(parse(last[0].payload).value, last[0].hint))
              case Some(pick) => r == (match pick(Selected(last, false, parse).value) case Some(s) => Ok(s) case None => Err(MissingSvid))
  {
    var source := new X509Source(picker);
    ApplyResponses(source, responses, parse);
    if closed {
      source.Close();
    }
    var k := LastGood(responses, parse, |responses|);
    if k > 0 {
      FirstIsSelected(responses[k - 1], parse);
    }
    r := source.GetX509SVID();
  }

  /** What a source holds after these responses. */
  function HeldAfter(picker: Option<Picker>, responses: seq<seq<Entry>>, parse: Parser, n: nat): Option<Svid>
    requires n <= |responses|
  {
    var k := LastGood(responses, parse, n);
    if k == 0 then None else
      FirstIsSelected(responses[k - 1], parse);
      Chosen(picker, Selected(responses[k - 1], false, parse).value)
  }

  method ApplyResponses(source: X509Source, responses: seq<seq<Entry>>, parse: Parser)
    requires source.svid == None
    modifies source`svid
    ensures source.svid == HeldAfter(source.picker, responses, parse, |responses|)
  {
    for n := 0 to |responses|
      invariant source.svid == HeldAfter(source.picker, responses, parse, n)
    {
      var update, _ := ParseSVIDs(responses[n], false, parse);
      if update.Ok? {
        FirstIsSelected(responses[n], parse);
        source.SetX509Context(update.value);
      }
    }
  }

  lemma FirstIsSelected(resp: seq<Entry>, parse: Parser)
    requires Selected(resp, false, parse).Ok?
    ensures resp != [] && parse(resp[0].payload).Ok?
    ensures Selected(resp, false, parse).value != []
    ensures Selected(resp, false, parse).value[0] == Svid(parse(resp[0].payload).value, resp[0].hint)
  {
    FirstIsKept(resp);
  }
}
