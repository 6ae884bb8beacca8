/** Candidates, their order, and the selection of the ones to probe. */
module Candidates {
  import opened Basics

  datatype Kind = Lan4 | Host6 | Observed6 | Reflexive6 | Mapped4 | Observed4 | Predicted4

  datatype Family = Udp4 | Udp6

  datatype Candidate = Candidate(kind: Kind, family: Family, endpoint: string, priority: int, verified: bool)

  const MAX_PROBE_CANDIDATES := 5

  function Name(k: Kind): string {
    match k
    case Lan4 => "lan4"
    case Host6 => "host6"
    case Observed6 => "observed6"
    case Reflexive6 => "reflexive6"
    case Mapped4 => "mapped4"
    case Observed4 => "observed4"
    case Predicted4 => "predicted4"
  }

  function DefaultPriority(k: Kind): int {
    match k
    case Lan4 => 1000
    case Host6 => 900
    case Observed6 => 850
    case Reflexive6 => 825
    case Mapped4 => 800
    case Observed4 => 700
    case Predicted4 => 500
  }

  /** `type|endpoint` of every candidate, joined with semicolons. */
  function Signature(cs: seq<Candidate>): string {
    if cs == [] then ""
    else if |cs| == 1 then Name(cs[0].kind) + "|" + cs[0].endpoint
    else Name(cs[0].kind) + "|" + cs[0].endpoint + ";" + Signature(cs[1..])
  }

  predicate EndpointListed(cs: seq<Candidate>, endpoint: string) {
    exists i :: 0 <= i < |cs| && cs[i].endpoint == endpoint
  }

  // ---------------------------------------------------------------- order

  /** Lexicographic order of texts. */
  predicate TextLe(a: string, b: string) {
    a == [] || (b != [] && (a[0] < b[0] || (a[0] == b[0] && TextLe(a[1..], b[1..]))))
  }

  /** Not after: by falling priority, then by endpoint. */
  predicate Le(a: Candidate, b: Candidate) {
    b.priority < a.priority || (a.priority == b.priority && TextLe(a.endpoint, b.endpoint))
  }

  predicate Ties(a: Candidate, b: Candidate) {
    a.priority == b.priority && a.endpoint == b.endpoint
  }

  predicate Sorted(cs: seq<Candidate>) {
    forall i, j :: 0 <= i < j < |cs| ==> Le(cs[i], cs[j])
  }

  /** Every entry is strictly before every later one. */
  predicate StrictlySorted(cs: seq<Candidate>) {
    forall i, j :: 0 <= i < j < |cs| ==> Le(cs[i], cs[j]) && !Le(cs[j], cs[i])
  }

  function Insert(c: Candidate, cs: seq<Candidate>): seq<Candidate> {
    if cs == [] || Le(c, cs[0]) then [c] + cs else [cs[0]] + Insert(c, cs[1..])
  }

  /** The stable sort by (falling priority, endpoint). */
  function Sort(cs: seq<Candidate>): seq<Candidate> {
    if cs == [] then [] else Insert(cs[0], Sort(cs[1..]))
  }

  // ---------------------------------------------------------------- selection

  /** The first candidate of every endpoint that is not in `seen`. */
  function Dedupe(cs: seq<Candidate>, seen: set<string>): seq<Candidate> {
    if cs == [] then []
    else if cs[0].endpoint == "" || cs[0].endpoint in seen then Dedupe(cs[1..], seen)
    else [cs[0]] + Dedupe(cs[1..], seen + {cs[0].endpoint})
  }

  function FirstObserved(cs: seq<Candidate>): Option<Candidate> {
    if cs == [] then None
    else if cs[0].kind == Observed4 then Some(cs[0])
    else FirstObserved(cs[1..])
  }

  /** The deduplicated, sorted list. */
  function Ranked(cs: seq<Candidate>): seq<Candidate> {
    Dedupe(Sort(cs), {})
  }

  /** Cut to five, but protect one observed4. */
  function Cut(ranked: seq<Candidate>): seq<Candidate> {
    if |ranked| <= MAX_PROBE_CANDIDATES then ranked
    else
      var selected := ranked[..MAX_PROBE_CANDIDATES];
      var observed := FirstObserved(ranked);
      if observed.Some? && !EndpointListed(selected, observed.value.endpoint)
      then Sort(selected[MAX_PROBE_CANDIDATES - 1 := observed.value])
      else selected
  }

  /** The tail of `select_probe_candidates`. */
  function Choose(cs: seq<Candidate>): seq<Candidate> {
    Cut(Ranked(cs))
  }

  /** A parsed endpoint: its canonical text and what the address library says about the address. */
  datatype Address = Address(text: string, v6: bool, isPrivate: bool, usableGlobal6: bool)

  /** An advertised entry: the type if it is known, the endpoint if it parses, 0 for no priority. */
  datatype Advertised = Advertised(kind: Option<Kind>, address: Option<Address>, priority: int, verified: bool)

  predicate IsIpv6Kind(k: Kind) {
    k == Host6 || k == Observed6 || k == Reflexive6
  }

  function Normalize(v: Advertised): Option<Candidate> {
    if v.kind.None? || v.address.None? then None
    else
      var k, a := v.kind.value, v.address.value;
      if k == Lan4 && (a.v6 || !a.isPrivate) then None
      else if IsIpv6Kind(k) && !a.usableGlobal6 then None
      else if (k == Mapped4 || k == Observed4 || k == Predicted4) && a.v6 then None
      else Some(Candidate(k, if a.v6 then Udp6 else Udp4, a.text,
                          if v.priority != 0 then v.priority else DefaultPriority(k), v.verified))
  }

  predicate Admissible(c: Option<Candidate>, allowLan: bool, allowIpv6: bool) {
    c.Some? && (c.value.kind == Lan4 ==> allowLan) && (IsIpv6Kind(c.value.kind) ==> allowIpv6)
  }

  function Admit(v: Advertised, allowLan: bool, allowIpv6: bool): seq<Candidate> {
    var c := Normalize(v);
    if Admissible(c, allowLan, allowIpv6) then [c.value] else []
  }

  function Gather(vs: seq<Advertised>, allowLan: bool, allowIpv6: bool): seq<Candidate> {
    if vs == [] then [] else Admit(vs[0], allowLan, allowIpv6) + Gather(vs[1..], allowLan, allowIpv6)
  }

  /** The candidate made of the offer's own endpoint. */
  function Legacy(a: Option<Address>, allowLan: bool, allowIpv6: bool): seq<Candidate> {
    if a.None? then []
    else
      var family := if a.value.v6 then Udp6 else Udp4;
      if allowLan && !a.value.v6 && a.value.isPrivate then [Candidate(Lan4, family, a.value.text, 1000, false)]
      else if a.value.v6 && a.value.usableGlobal6 && allowIpv6 then [Candidate(Host6, family, a.value.text, 900, false)]
      else if !a.value.v6 then [Candidate(Observed4, family, a.value.text, 700, true)]
      else []
  }

  /** `select_probe_candidates`. */
  function SelectFrom(vs: seq<Advertised>, legacy: Option<Address>, allowLan: bool, allowIpv6: bool): seq<Candidate> {
    Choose(Gather(vs, allowLan, allowIpv6) + Legacy(legacy, allowLan, allowIpv6))
  }

  // ---------------------------------------------------------------- the loops

  method DedupeAndSort(candidates: seq<Candidate>) returns (result: seq<Candidate>)
    ensures result == Ranked(candidates)
  {
    result := [];
    var seen: set<string> := {};
    var sorted := Sort(candidates);
    for i := 0 to |sorted|
      invariant result + Dedupe(sorted[i..], seen) == Dedupe(sorted, {})
    {
      var candidate := sorted[i];
      assert sorted[i..][1..] == sorted[i + 1..];
      if candidate.endpoint != "" && candidate.endpoint !in seen {
        seen := seen + {candidate.endpoint};
        result := result + [candidate];
      }
    }
  }

  lemma GatherHead(vs: seq<Advertised>, done: seq<Candidate>, allowLan: bool, allowIpv6: bool)
    requires vs != []
    ensures var c := Normalize(vs[0]);
            done + Gather(vs, allowLan, allowIpv6)
            == (if Admissible(c, allowLan, allowIpv6) then done + [c.value] else done) + Gather(vs[1..], allowLan, allowIpv6)
  {
    var rest := Gather(vs[1..], allowLan, allowIpv6);
    assert done + (Admit(vs[0], allowLan, allowIpv6) + rest) == (done + Admit(vs[0], allowLan, allowIpv6)) + rest;
    assert done + [] == done;
  }

  method GatherAdvertised(values: seq<Advertised>, allowLan: bool, allowIpv6: bool) returns (candidates: seq<Candidate>)
    ensures candidates == Gather(values, allowLan, allowIpv6)
  {
    candidates := [];
    for i := 0 to |values|
      invariant candidates + Gather(values[i..], allowLan, allowIpv6) == Gather(values, allowLan, allowIpv6)
    {
      assert values[i..][0] == values[i] && values[i..][1..] == values[i + 1..];
      GatherHead(values[i..], candidates, allowLan, allowIpv6);
      var candidate := Normalize(values[i]);
      if Admissible(candidate, allowLan, allowIpv6) {
        candidates := candidates + [candidate.value];
      }
    }
    assert values[|values|..] == [] && candidates + [] == candidates;
  }

  method SelectProbeCandidates(values: seq<Advertised>, legacy: Option<Address>, allowLan: bool, allowIpv6: bool)
    returns (selected: seq<Candidate>)
    ensures selected == SelectFrom(values, legacy, allowLan, allowIpv6)
  {
    var candidates := GatherAdvertised(values, allowLan, allowIpv6);
    candidates := candidates + Legacy(legacy, allowLan, allowIpv6);
    var ranked := DedupeAndSort(candidates);
    if |ranked| <= MAX_PROBE_CANDIDATES {
      return ranked;
    }
    selected := ranked[..MAX_PROBE_CANDIDATES];
    var observed := FirstObserved(ranked);
    if observed.Some? && !EndpointListed(selected, observed.value.endpoint) {
      selected := selected[|selected| - 1 := observed.value];
      selected := Sort(selected);
    }
  }
}
