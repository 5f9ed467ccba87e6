/** The identity of a submission: the canonical document whose digest the idempotency ledger
    stores.  Serialisation and SHA-256 are taken to be injective, so the document stands for
    its digest. */
module Fingerprint {
  import opened Options
  import opened Delivery

  /** Opaque names; numbers stand for strings in their lexical order. */
  type Name = nat
  type Mid = nat

  datatype Stream = Normal | Otp | Receipt | Security

  datatype Business = Business(reference: Option<Name>, tags: seq<Name>)

  /** A request as received.  `wellFormed` stands for the syntax of addresses, digests,
      references, tags, instants and identifiers. */
  datatype Request = Request(
    wellFormed: bool, from: Name, recipients: seq<Name>, sha256: Name, size: int,
    business: Business, stream: Option<Stream>, expiresAt: Option<Time>, scheduleAt: Option<Time>, predecessor: Option<Mid>)

  datatype Document = Document(
    version: nat, from: Name, recipients: seq<Name>, sha256: Name, size: int,
    business: Option<Business>, stream: Option<Stream>, expiresAt: Option<Time>, scheduleAt: Option<Time>, predecessor: Option<Mid>)

  // ---- Tags ----

  predicate Increasing(ts: seq<Name>) { forall i, j | 0 <= i < j < |ts| :: ts[i] < ts[j] }

  predicate Sorted(ts: seq<Name>) { forall i, j | 0 <= i < j < |ts| :: ts[i] <= ts[j] }

  predicate Distinct(ts: seq<Name>) { forall i, j | 0 <= i < j < |ts| :: ts[i] != ts[j] }

  function InsertTag(ts: seq<Name>, t: Name): (r: seq<Name>)
    ensures multiset(r) == multiset(ts) + multiset{t}
  {
    if ts == [] then [t]
    else if t < ts[|ts| - 1] then
      assert ts == ts[..|ts| - 1] + [ts[|ts| - 1]];
      InsertTag(ts[..|ts| - 1], t) + [ts[|ts| - 1]]
    else ts + [t]
  }

  function SortTags(ts: seq<Name>): (r: seq<Name>)
    ensures multiset(r) == multiset(ts)
  {
    if ts == [] then []
    else
      assert ts == ts[..|ts| - 1] + [ts[|ts| - 1]];
      InsertTag(SortTags(ts[..|ts| - 1]), ts[|ts| - 1])
  }

  lemma {:induction false} InsertTagBelow(ts: seq<Name>, t: Name, top: Name)
    requires t <= top && forall i | 0 <= i < |ts| :: ts[i] <= top
    ensures forall i | 0 <= i < |InsertTag(ts, t)| :: InsertTag(ts, t)[i] <= top
  {
    if ts != [] && t < ts[|ts| - 1] { InsertTagBelow(ts[..|ts| - 1], t, top); }
  }

  lemma {:induction false} InsertTagSorted(ts: seq<Name>, t: Name)
    requires Sorted(ts)
    ensures Sorted(InsertTag(ts, t))
  {
    if ts != [] && t < ts[|ts| - 1] {
      var init, last := ts[..|ts| - 1], ts[|ts| - 1];
      assert forall i | 0 <= i < |init| :: init[i] == ts[i];
      InsertTagSorted(init, t);
      InsertTagBelow(init, t, last);
    }
  }

  lemma {:induction false} SortTagsSorted(ts: seq<Name>)
    ensures Sorted(SortTags(ts))
  {
    if ts != [] {
      SortTagsSorted(ts[..|ts| - 1]);
      InsertTagSorted(SortTags(ts[..|ts| - 1]), ts[|ts| - 1]);
    }
  }

  lemma EmptyTogether(a: seq<Name>, b: seq<Name>)
    requires forall x :: x in a <==> x in b
    ensures a == [] <==> b == []
  {
    if |a| > 0 { assert a[0] in a; }
    if |b| > 0 { assert b[0] in b; }
  }

  lemma MembersOfInit(a: seq<Name>, x: Name)
    requires Increasing(a) && a != []
    ensures x in a[..|a| - 1] <==> x in a && x != a[|a| - 1]
  {
    if x in a[..|a| - 1] {
      var i :| 0 <= i < |a| - 1 && a[i] == x;
      assert a[i] < a[|a| - 1];
    }
  }

  lemma LastsAgree(a: seq<Name>, b: seq<Name>)
    requires Increasing(a) && Increasing(b) && a != [] && b != [] && forall x :: x in a <==> x in b
    ensures a[|a| - 1] == b[|b| - 1]
  {
    assert a[|a| - 1] in a && b[|b| - 1] in b;
    var i :| 0 <= i < |b| && b[i] == a[|a| - 1];
    var j :| 0 <= j < |a| && a[j] == b[|b| - 1];
  }

  /** An increasing sequence is determined by the set of its elements. */
  lemma {:induction false} IncreasingUnique(a: seq<Name>, b: seq<Name>)
    requires Increasing(a) && Increasing(b) && forall x :: x in a <==> x in b
    ensures a == b
  {
    EmptyTogether(a, b);
    if a != [] {
      var m, n := |a| - 1, |b| - 1;
      LastsAgree(a, b);
      forall x ensures x in a[..m] <==> x in b[..n] {
        MembersOfInit(a, x);
        MembersOfInit(b, x);
      }
      IncreasingUnique(a[..m], b[..n]);
      assert a == a[..m] + [a[m]] && b == b[..n] + [b[n]];
    }
  }

  lemma MultisetMembers(a: seq<Name>, b: seq<Name>)
    requires multiset(a) == multiset(b)
    ensures forall x :: x in a <==> x in b
  {
    forall x ensures x in a <==> x in b {
      assert x in a <==> x in multiset(a);
      assert x in b <==> x in multiset(b);
    }
  }

  lemma SortedDistinct(ts: seq<Name>)
    ensures Distinct(ts) <==> Increasing(SortTags(ts))
  {
    SortTagsSorted(ts);
    var s := SortTags(ts);
    assert Distinct(ts) <==> Distinct(s) by {
      DistinctCounts(ts);
      DistinctCounts(s);
    }
    if Distinct(s) { SortedIncreasing(s); }
  }

  lemma SortedIncreasing(s: seq<Name>)
    requires Sorted(s) && Distinct(s)
    ensures Increasing(s)
  {
    forall i, j | 0 <= i < j < |s| ensures s[i] < s[j] { assert s[i] <= s[j]; }
  }

  lemma {:induction false} DistinctCounts(ts: seq<Name>)
    ensures Distinct(ts) <==> forall x :: multiset(ts)[x] <= 1
  {
    if ts != [] {
      var n := |ts| - 1;
      var init, last := ts[..n], ts[n];
      assert ts == init + [last];
      DistinctCounts(init);
      assert multiset(ts) == multiset(init) + multiset{last};
      if Distinct(ts) {
        assert Distinct(init) by { forall i, j | 0 <= i < j < n ensures init[i] != init[j] { assert ts[i] != ts[j]; } }
        assert last !in init;
      }
      if forall x :: multiset(ts)[x] <= 1 {
        forall x ensures multiset(init)[x] <= 1 { assert multiset(ts)[x] <= 1; }
        assert multiset(ts)[last] <= 1;
        assert last !in init;
      }
    }
  }

  // ---- The canonical document ----

  method CanonicalTags(tags: seq<Name>) returns (r: Option<seq<Name>>)
    ensures r == if |tags| <= 8 && Distinct(tags) then Some(SortTags(tags)) else None
  {
    SortedDistinct(tags);
    if |tags| > 8 { return None; }
    var sorted := SortTags(tags);
    SortTagsSorted(tags);
    var i := 0;
    while i < |sorted|
      invariant 0 <= i <= |sorted|
      invariant forall j, k | 0 <= j < k < i :: sorted[j] < sorted[k]
    {
      if i > 0 && sorted[i] == sorted[i - 1] { return None; }
      i := i + 1;
    }
    r := Some(sorted);
  }

  function Present(b: Business): bool { b.reference.Some? || b.tags != [] }

  function Version(r: Request): nat {
    if r.predecessor.Some? then 6
    else if r.scheduleAt.Some? then 5
    else if r.expiresAt.Some? then 4
    else if r.stream.Some? && r.stream.value != Normal then 3
    else if Present(r.business) then 2
    else 1
  }

  predicate Acceptable(r: Request) {
    && r.wellFormed && r.size >= 1 && 1 <= |r.recipients| <= 1000
    && |r.business.tags| <= 8 && Distinct(r.business.tags)
    && (r.scheduleAt.Some? && r.expiresAt.Some? ==> r.expiresAt.value > r.scheduleAt.value)
  }

  function Canonical(r: Request): Document {
    Document(
      Version(r), r.from, r.recipients, r.sha256, r.size,
      if Present(r.business) then Some(Business(r.business.reference, SortTags(r.business.tags))) else None,
      if r.stream == Some(Normal) then None else r.stream,
      r.expiresAt, r.scheduleAt, r.predecessor)
  }

  /** Compute the document as the source does: later features raise the version. */
  method RequestFingerprint(r: Request) returns (d: Option<Document>)
    ensures d == if Acceptable(r) then Some(Canonical(r)) else None
  {
    if !r.wellFormed || r.size < 1 || |r.recipients| == 0 || |r.recipients| > 1000 { return None; }
    var tags := CanonicalTags(r.business.tags);
    if tags.None? { return None; }
    var version := 1;
    var association: Option<Business> := None;
    assert |SortTags(r.business.tags)| == |multiset(r.business.tags)| == |r.business.tags|;
    if r.business.reference.Some? || tags.value != [] {
      version := 2;
      association := Some(Business(r.business.reference, tags.value));
    }
    var stream := r.stream;
    if stream == Some(Normal) { stream := None; }
    if stream.Some? { version := 3; }
    if r.expiresAt.Some? { version := 4; }
    if r.scheduleAt.Some? {
      version := 5;
      if r.expiresAt.Some? && r.expiresAt.value <= r.scheduleAt.value { return None; }
    }
    if r.predecessor.Some? { version := 6; }
    d := Some(Document(version, r.from, r.recipients, r.sha256, r.size, association, stream, r.expiresAt, r.scheduleAt, r.predecessor));
  }

  // ---- What the document identifies ----

  function StreamOf(r: Request): Stream { if r.stream.Some? then r.stream.value else Normal }

  /** Two requests ask for the same thing: same envelope in order, same content, same
      reference, the same tags in any order, the same stream with `normal` as the default,
      the same instants and the same replaced message. */
  ghost predicate SameRequest(a: Request, b: Request) {
    && a.from == b.from && a.recipients == b.recipients && a.sha256 == b.sha256 && a.size == b.size
    && a.business.reference == b.business.reference
    && (forall x :: x in a.business.tags <==> x in b.business.tags)
    && StreamOf(a) == StreamOf(b)
    && a.expiresAt == b.expiresAt && a.scheduleAt == b.scheduleAt && a.predecessor == b.predecessor
  }

  lemma SameTags(a: seq<Name>, b: seq<Name>)
    requires Distinct(a) && Distinct(b)
    ensures SortTags(a) == SortTags(b) <==> forall x :: x in a <==> x in b
  {
    SortedDistinct(a);
    SortedDistinct(b);
    MultisetMembers(a, SortTags(a));
    MultisetMembers(b, SortTags(b));
    if forall x :: x in a <==> x in b { IncreasingUnique(SortTags(a), SortTags(b)); }
  }

  lemma SortedEmpty(ts: seq<Name>)
    ensures SortTags(ts) == [] <==> ts == []
  {
    assert |SortTags(ts)| == |multiset(ts)| == |ts|;
  }

  /** The fingerprint is exactly request identity. */
  lemma FingerprintIsIdentity(a: Request, b: Request)
    requires Acceptable(a) && Acceptable(b)
    ensures Canonical(a) == Canonical(b) <==> SameRequest(a, b)
  {
    SameTags(a.business.tags, b.business.tags);
    SortedEmpty(a.business.tags);
    SortedEmpty(b.business.tags);
    if SameRequest(a, b) {
      assert SortTags(a.business.tags) == SortTags(b.business.tags);
      assert Present(a.business) == Present(b.business);
    }
  }

  /** Requests that use no later feature keep the original document, field for field. */
  lemma PlainRequestsKeepVersionOne(r: Request)
    ensures Canonical(r).version == 1 <==>
      !Present(r.business) && StreamOf(r) == Normal && r.expiresAt.None? && r.scheduleAt.None? && r.predecessor.None?
    ensures Canonical(r).version == 1 ==>
      Canonical(r) == Document(1, r.from, r.recipients, r.sha256, r.size, None, None, None, None, None)
  {
  }
}
