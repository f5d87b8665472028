/** Retrieved chunks assembled into evidence: only chunks of eligible versions, in provider order, cut to a
    token budget in which a character counts as a token. */
module EvidenceAssembly {
  import opened Tables

  datatype Chunk = Chunk(id: string, dataset: string, document: string, content: string, score: real)

  datatype Version = Version(id: nat, dataset: string, document: string, title: string)

  datatype Evidence = Evidence(version: Version, chunk: Chunk, content: string, rank: nat, estimate: nat,
                               truncated: bool)

  datatype Response = Response(evidence: seq<Evidence>, totalCandidates: nat, truncated: bool)

  // ---- mapping to eligible versions ---------------------------------------------------------------------

  /** The last eligible version bound to this provider document. */
  function Bound(versions: seq<Version>, dataset: string, document: string): Option<Version> {
    if versions == [] then None
    else
      var v := versions[|versions| - 1];
      if v.dataset == dataset && v.document == document then Some(v)
      else Bound(versions[..|versions| - 1], dataset, document)
  }

  datatype Mapped = Mapped(chunk: Chunk, version: Version)

  function MappedOf(chunks: seq<Chunk>, versions: seq<Version>): seq<Mapped> {
    if chunks == [] then []
    else
      var c := chunks[|chunks| - 1];
      var v := Bound(versions, c.dataset, c.document);
      MappedOf(chunks[..|chunks| - 1], versions) + if c.document != "" && v.Some? then [Mapped(c, v.value)] else []
  }

  method ByBinding(versions: seq<Version>) returns (m: map<(string, string), Version>)
    ensures forall k :: k in m <==> Bound(versions, k.0, k.1).Some?
    ensures forall k :: k in m ==> Some(m[k]) == Bound(versions, k.0, k.1)
  {
    m := map[];
    for n := 0 to |versions|
      invariant forall k :: k in m <==> Bound(versions[..n], k.0, k.1).Some?
      invariant forall k :: k in m ==> Some(m[k]) == Bound(versions[..n], k.0, k.1)
    {
      var version := versions[n];
      assert versions[..n + 1][..n] == versions[..n];
      m := m[(version.dataset, version.document) := version];
    }
    assert versions[..|versions|] == versions;
  }

  method MapChunks(chunks: seq<Chunk>, versions: seq<Version>) returns (mapped: seq<Mapped>)
    ensures mapped == MappedOf(chunks, versions)
  {
    var byBinding := ByBinding(versions);
    mapped := [];
    for n := 0 to |chunks|
      invariant mapped == MappedOf(chunks[..n], versions)
    {
      var chunk := chunks[n];
      assert chunks[..n + 1][..n] == chunks[..n];
      if chunk.document == "" {
        continue;
      }
      if (chunk.dataset, chunk.document) in byBinding {
        mapped := mapped + [Mapped(chunk, byBinding[(chunk.dataset, chunk.document)])];
      }
    }
    assert chunks[..|chunks|] == chunks;
  }

  lemma {:induction false} BoundIsEligible(versions: seq<Version>, dataset: string, document: string)
    requires Bound(versions, dataset, document).Some?
    ensures var v := Bound(versions, dataset, document).value;
      v in versions && v.dataset == dataset && v.document == document
  {
    var v := versions[|versions| - 1];
    if !(v.dataset == dataset && v.document == document) {
      BoundIsEligible(versions[..|versions| - 1], dataset, document);
    }
  }

  /** Nothing outside the eligible versions is ever mapped. */
  lemma {:induction false} MappedAreEligible(chunks: seq<Chunk>, versions: seq<Version>)
    ensures forall i :: 0 <= i < |MappedOf(chunks, versions)| ==>
      var m := MappedOf(chunks, versions)[i];
      && m.chunk in chunks && m.version in versions
      && m.version.dataset == m.chunk.dataset && m.version.document == m.chunk.document
  {
    if chunks != [] {
      MappedAreEligible(chunks[..|chunks| - 1], versions);
      var c := chunks[|chunks| - 1];
      if Bound(versions, c.dataset, c.document).Some? {
        BoundIsEligible(versions, c.dataset, c.document);
      }
    }
  }

  // ---- cutting to the budget ----------------------------------------------------------------------------

  predicate Space(c: char) {
    var n := c as int;
    || 0x09 <= n <= 0x0D || 0x1C <= n <= 0x20 || n == 0x85 || n == 0xA0 || n == 0x1680
    || 0x2000 <= n <= 0x200A || n == 0x2028 || n == 0x2029 || n == 0x202F || n == 0x205F || n == 0x3000
  }

  function RightStrip(s: string): (r: string)
    ensures r <= s
  {
    if s != "" && Space(s[|s| - 1]) then RightStrip(s[..|s| - 1]) else s
  }

  /** The first `budget` characters without trailing space, unless that leaves nothing. */
  function Cut(content: string, budget: nat): (r: string)
    requires 0 < budget < |content|
    ensures r != "" && r <= content && |r| <= budget
  {
    var head := content[..budget];
    if RightStrip(head) != "" then RightStrip(head) else head
  }

  function EvidenceFor(m: Mapped, budget: nat, rank: nat): (e: Evidence)
    requires budget > 0 && m.chunk.content != ""
    ensures e.content != "" && e.content <= m.chunk.content && e.estimate == |e.content| <= budget
    ensures e.truncated <==> e.content != m.chunk.content
  {
    var truncated := |m.chunk.content| > budget;
    var content := if truncated then Cut(m.chunk.content, budget) else m.chunk.content;
    Evidence(m.version, m.chunk, content, rank, |content|, truncated)
  }

  function Assembled(mapped: seq<Mapped>, topK: int, budget: int, rank: nat): seq<Evidence> {
    if mapped == [] || rank > topK || budget <= 0 then []
    else if mapped[0].chunk.content == "" then Assembled(mapped[1..], topK, budget, rank)
    else
      var e := EvidenceFor(mapped[0], budget, rank);
      [e] + Assembled(mapped[1..], topK, budget - e.estimate, rank + 1)
  }

  function Spent(evidence: seq<Evidence>): nat {
    if evidence == [] then 0 else evidence[0].estimate + Spent(evidence[1..])
  }

  lemma {:induction false} SpentAppend(a: seq<Evidence>, e: Evidence)
    ensures Spent(a + [e]) == Spent(a) + e.estimate
  {
    if a != [] {
      SpentAppend(a[1..], e);
      assert (a + [e])[1..] == a[1..] + [e];
    }
  }

  predicate AnyCut(evidence: seq<Evidence>) {
    exists i :: 0 <= i < |evidence| && evidence[i].truncated
  }

  method CutItem(m: Mapped, remaining: nat, rank: nat) returns (e: Evidence)
    requires remaining > 0 && m.chunk.content != ""
    ensures e == EvidenceFor(m, remaining, rank)
  {
    var content := m.chunk.content;
    var truncated := |content| > remaining;
    if truncated {
      var head := content[..remaining];
      content := RightStrip(head);
      if content == "" {
        content := head;
      }
    }
    e := Evidence(m.version, m.chunk, content, rank, |content|, truncated);
  }

  /** The first n mapped chunks are dealt with: the evidence so far, and what the rest will add. */
  predicate PartWay(mapped: seq<Mapped>, topK: int, budget: int, n: nat, evidence: seq<Evidence>, remaining: int) {
    && n <= |mapped|
    && evidence + Assembled(mapped[n..], topK, remaining, |evidence| + 1) == Assembled(mapped, topK, budget, 1)
    && remaining + Spent(evidence) == budget && (budget >= 0 ==> remaining >= 0)
  }

  lemma OneMore(mapped: seq<Mapped>, topK: int, budget: int, n: nat, evidence: seq<Evidence>, remaining: nat)
    requires PartWay(mapped, topK, budget, n, evidence, remaining) && n < |mapped| && |evidence| < topK && remaining > 0
    requires mapped[n].chunk.content != ""
    ensures var e := EvidenceFor(mapped[n], remaining, |evidence| + 1);
      && PartWay(mapped, topK, budget, n + 1, evidence + [e], remaining - e.estimate)
      && (AnyCut(evidence + [e]) <==> AnyCut(evidence) || e.truncated)
  {
    var e := EvidenceFor(mapped[n], remaining, |evidence| + 1);
    var now, rest := evidence + [e], Assembled(mapped[n + 1..], topK, remaining - e.estimate, |evidence| + 2);
    assert mapped[n..][0] == mapped[n] && mapped[n..][1..] == mapped[n + 1..];
    assert now + rest == evidence + ([e] + rest);
    SpentAppend(evidence, e);
    assert now[|evidence|] == e && forall i :: 0 <= i < |evidence| ==> now[i] == evidence[i];
  }

  lemma OneEmpty(mapped: seq<Mapped>, topK: int, budget: int, n: nat, evidence: seq<Evidence>, remaining: int)
    requires PartWay(mapped, topK, budget, n, evidence, remaining) && n < |mapped| && |evidence| < topK && remaining > 0
    requires mapped[n].chunk.content == ""
    ensures PartWay(mapped, topK, budget, n + 1, evidence, remaining)
  {
  }

  lemma NoneLeft(mapped: seq<Mapped>, topK: int, budget: int, n: nat, evidence: seq<Evidence>, remaining: int)
    requires PartWay(mapped, topK, budget, n, evidence, remaining)
    requires n == |mapped| || |evidence| >= topK || remaining <= 0
    ensures evidence == Assembled(mapped, topK, budget, 1)
  {
  }

  /** The budget is conserved: what is left and what the evidence costs add up to it. */
  method Assemble(mapped: seq<Mapped>, topK: int, budget: int)
    returns (evidence: seq<Evidence>, remaining: int, cut: bool)
    ensures evidence == Assembled(mapped, topK, budget, 1)
    ensures remaining + Spent(evidence) == budget && (budget >= 0 ==> remaining >= 0)
    ensures cut <==> AnyCut(evidence)
  {
    evidence, remaining, cut := [], budget, false;
    var n := 0;
    while n < |mapped|
      invariant PartWay(mapped, topK, budget, n, evidence, remaining)
      invariant cut <==> AnyCut(evidence)
    {
      if |evidence| >= topK || remaining <= 0 {
        break;
      }
      if mapped[n].chunk.content == "" {
        OneEmpty(mapped, topK, budget, n, evidence, remaining);
        n := n + 1;
        continue;
      }
      OneMore(mapped, topK, budget, n, evidence, remaining);
      var e := CutItem(mapped[n], remaining, |evidence| + 1);
      cut := cut || e.truncated;
      remaining := remaining - e.estimate;
      evidence := evidence + [e];
      n := n + 1;
    }
    NoneLeft(mapped, topK, budget, n, evidence, remaining);
  }

  // ---- what the assembly promises -------------------------------------------------------------------------

  /** The budget is conserved: what the evidence costs never exceeds it. */
  lemma {:induction false} WithinBudget(mapped: seq<Mapped>, topK: int, budget: int, rank: nat)
    ensures Spent(Assembled(mapped, topK, budget, rank)) <= if budget > 0 then budget else 0
  {
    if !(mapped == [] || rank > topK || budget <= 0) {
      if mapped[0].chunk.content == "" {
        WithinBudget(mapped[1..], topK, budget, rank);
      } else {
        var e := EvidenceFor(mapped[0], budget, rank);
        WithinBudget(mapped[1..], topK, budget - e.estimate, rank + 1);
      }
    }
  }

  /** Ranks count up from the first, at most `topK` of them. */
  lemma {:induction false} RanksCount(mapped: seq<Mapped>, topK: int, budget: int, rank: nat)
    ensures var ev := Assembled(mapped, topK, budget, rank);
      && (forall i :: 0 <= i < |ev| ==> ev[i].rank == rank + i)
      && (ev != [] ==> rank + |ev| - 1 <= topK)
  {
    if !(mapped == [] || rank > topK || budget <= 0) {
      if mapped[0].chunk.content == "" {
        RanksCount(mapped[1..], topK, budget, rank);
      } else {
        var e := EvidenceFor(mapped[0], budget, rank);
        RanksCount(mapped[1..], topK, budget - e.estimate, rank + 1);
      }
    }
  }

  /** A piece of evidence is a non-empty prefix of its chunk, marked truncated when it is not all of it. */
  predicate Shows(e: Evidence, m: Mapped) {
    && e.chunk == m.chunk && e.version == m.version
    && e.content != "" && e.content <= m.chunk.content && e.estimate == |e.content|
    && (e.truncated <==> e.content != m.chunk.content)
  }

  /** The evidence shows mapped chunks in provider order, passing over none but empty ones before its last. */
  predicate InProviderOrder(evidence: seq<Evidence>, mapped: seq<Mapped>)
    decreases |mapped|
  {
    || evidence == []
    || (mapped != [] && mapped[0].chunk.content != "" && Shows(evidence[0], mapped[0])
        && InProviderOrder(evidence[1..], mapped[1..]))
    || (mapped != [] && mapped[0].chunk.content == "" && InProviderOrder(evidence, mapped[1..]))
  }

  lemma {:induction false} AssembledInOrder(mapped: seq<Mapped>, topK: int, budget: int, rank: nat)
    ensures InProviderOrder(Assembled(mapped, topK, budget, rank), mapped)
  {
    if !(mapped == [] || rank > topK || budget <= 0) {
      if mapped[0].chunk.content == "" {
        AssembledInOrder(mapped[1..], topK, budget, rank);
      } else {
        var e := EvidenceFor(mapped[0], budget, rank);
        AssembledInOrder(mapped[1..], topK, budget - e.estimate, rank + 1);
      }
    }
  }

  function NonEmpty(mapped: seq<Mapped>): nat {
    if mapped == [] then 0 else (if mapped[0].chunk.content != "" then 1 else 0) + NonEmpty(mapped[1..])
  }

  /** The assembly stops early only for want of room: with ranks and budget left, every non-empty mapped
      chunk is shown. */
  lemma {:induction false} StopsOnlyWhenFull(mapped: seq<Mapped>, topK: int, budget: int, rank: nat)
    ensures var ev := Assembled(mapped, topK, budget, rank);
      rank + |ev| <= topK && Spent(ev) < budget ==> |ev| == NonEmpty(mapped)
  {
    if !(mapped == [] || rank > topK || budget <= 0) {
      if mapped[0].chunk.content == "" {
        StopsOnlyWhenFull(mapped[1..], topK, budget, rank);
      } else {
        var e := EvidenceFor(mapped[0], budget, rank);
        StopsOnlyWhenFull(mapped[1..], topK, budget - e.estimate, rank + 1);
      }
    }
  }

  /** Every mapped chunk is shown whole. */
  predicate AllWhole(evidence: seq<Evidence>, mapped: seq<Mapped>) {
    |evidence| == |mapped| && forall i :: 0 <= i < |mapped| ==>
      evidence[i].chunk == mapped[i].chunk && evidence[i].content == mapped[i].chunk.content
  }

  lemma {:induction false} ShorterUnlessWhole(evidence: seq<Evidence>, mapped: seq<Mapped>)
    requires InProviderOrder(evidence, mapped)
    ensures |evidence| <= |mapped|
    ensures |evidence| == |mapped| && !AnyCut(evidence) <==> AllWhole(evidence, mapped)
    decreases |mapped|
  {
    if evidence != [] {
      if mapped[0].chunk.content == "" {
        ShorterUnlessWhole(evidence, mapped[1..]);
      } else {
        var rest := evidence[1..];
        ShorterUnlessWhole(rest, mapped[1..]);
        assert evidence == [evidence[0]] + rest;
        assert AnyCut(evidence) <==> evidence[0].truncated || AnyCut(rest) by {
          assert forall i :: 0 <= i < |rest| ==> rest[i] == evidence[i + 1];
          if AnyCut(evidence) && !evidence[0].truncated {
            var i :| 0 <= i < |evidence| && evidence[i].truncated;
            assert rest[i - 1].truncated;
          }
        }
      }
    }
  }

  // ---- the response ---------------------------------------------------------------------------------------

  /** A response that does not call itself truncated shows every mapped chunk whole, and the provider held
      nothing back; and only then. */
  method AssembleResponse(chunks: seq<Chunk>, total: nat, versions: seq<Version>, topK: int, budget: int)
    returns (r: Response)
    ensures r.evidence == Assembled(MappedOf(chunks, versions), topK, budget, 1)
    ensures r.totalCandidates == |MappedOf(chunks, versions)|
    ensures !r.truncated <==> AllWhole(r.evidence, MappedOf(chunks, versions)) && total <= |chunks|
    ensures Spent(r.evidence) <= if budget > 0 then budget else 0
  {
    var mapped := MapChunks(chunks, versions);
    var evidence, remaining, cut := Assemble(mapped, topK, budget);
    AssembledInOrder(mapped, topK, budget, 1);
    ShorterUnlessWhole(evidence, mapped);
    WithinBudget(mapped, topK, budget, 1);
    r := Response(evidence, |mapped|, cut || |evidence| < |mapped| || total > |chunks|);
  }
}
