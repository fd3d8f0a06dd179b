/** The identity of a polled pull-request snapshot: a digest over a canonical form. */
module PollSnapshot {
  import opened Model
  import opened Text
  import opened Order

  datatype Subject = Subject(number: Option<nat>, title: string, body: string, labels: seq<string>, url: string)

  datatype Payload = Observation(eventType: string, subject: Subject) | ReviewRequest(requestId: string)

  datatype Discovered = Discovered(source: string, repo: string, payload: Payload, candidate: Candidate)

  /** The JSON object that is hashed. */
  datatype Snapshot = Snapshot(projectId: string, source: string, repo: string, eventType: string, subject: Subject,
      candidate: Candidate)

  datatype Envelope = Envelope(dedupeKey: string, source: string, projectId: string, repo: string,
                               eventType: string, subject: Subject, receivedAt: nat)

  // ---------------------------------------------------------------- canonical label lists

  /** The order of `String`: by code point, a prefix first. */
  predicate Less(a: string, b: string) {
    if b == "" then false
    else if a == "" then true
    else a[0] < b[0] || (a[0] == b[0] && Less(a[1..], b[1..]))
  }

  lemma {:induction false} LessIrreflexive(a: string)
    ensures !Less(a, a)
  {
    if a != "" { LessIrreflexive(a[1..]); }
  }

  lemma {:induction false} LessTransitive(a: string, b: string, c: string)
    requires Less(a, b) && Less(b, c)
    ensures Less(a, c)
  {
    if a != "" && a[0] == b[0] && b[0] == c[0] { LessTransitive(a[1..], b[1..], c[1..]); }
  }

  lemma {:induction false} LessTotal(a: string, b: string)
    ensures a == b || Less(a, b) || Less(b, a)
  {
    if a != "" && b != "" && a[0] == b[0] {
      LessTotal(a[1..], b[1..]);
      assert a == [a[0]] + a[1..] && b == [b[0]] + b[1..];
    }
  }

  lemma LessIsOrder()
    ensures StrictTotalOrder(Less)
  {
    forall a ensures !Less(a, a) { LessIrreflexive(a); }
    forall a, b, c | Less(a, b) && Less(b, c) ensures Less(a, c) { LessTransitive(a, b, c); }
    forall a, b ensures a == b || Less(a, b) || Less(b, a) { LessTotal(a, b); }
  }

  /** `Vec::dedup`: of equal neighbours only the first stays. */
  function Dedup(s: seq<string>): seq<string> {
    if |s| <= 1 then s
    else if s[|s| - 1] == s[|s| - 2] then Dedup(s[..|s| - 1])
    else Dedup(s[..|s| - 1]) + [s[|s| - 1]]
  }

  function CanonicalLabels(labels: seq<string>): seq<string> {
    Dedup(Sort(labels, Less))
  }

  predicate WeaklyAscending(s: seq<string>) {
    forall i, j :: 0 <= i < j < |s| ==> s[i] == s[j] || Less(s[i], s[j])
  }

  lemma InsertMembers(x: string, s: seq<string>, y: string)
    requires y in Insert(x, s, Less)
    ensures y == x || y in s
  {
    assert y in multiset(Insert(x, s, Less));
  }

  lemma WeakCons(x: string, s: seq<string>)
    requires WeaklyAscending(s) && forall y :: y in s ==> x == y || Less(x, y)
    ensures WeaklyAscending([x] + s)
  {
  }

  lemma FirstIsLeast(s: seq<string>, x: string)
    requires WeaklyAscending(s) && s != [] && !Less(s[0], x)
    ensures forall y :: y in s ==> x == y || Less(x, y)
  {
    LessTotal(s[0], x);
    forall y | y in s ensures x == y || Less(x, y) {
      if s[0] != y && x != s[0] { LessTransitive(x, s[0], y); }
    }
  }

  lemma {:induction false} InsertWeak(x: string, s: seq<string>)
    requires WeaklyAscending(s)
    ensures WeaklyAscending(Insert(x, s, Less))
  {
    if s == [] {
      assert [x] + s == [x];
    } else if Less(s[0], x) {
      InsertWeak(x, s[1..]);
      var rest := Insert(x, s[1..], Less);
      forall y | y in rest ensures s[0] == y || Less(s[0], y) {
        InsertMembers(x, s[1..], y);
      }
      WeakCons(s[0], rest);
    } else {
      FirstIsLeast(s, x);
      WeakCons(x, s);
    }
  }

  lemma {:induction false} SortWeak(s: seq<string>)
    ensures WeaklyAscending(Sort(s, Less))
  {
    if s != [] {
      SortWeak(s[1..]);
      InsertWeak(s[0], Sort(s[1..], Less));
    }
  }

  lemma AscendingSnoc(kept: seq<string>, last: string)
    requires Ascending(kept, Less) && kept != [] && Less(kept[|kept| - 1], last)
    ensures Ascending(kept + [last], Less)
  {
    forall i | 0 <= i < |kept| ensures Less(kept[i], last) {
      if i < |kept| - 1 { LessTransitive(kept[i], kept[|kept| - 1], last); }
    }
  }

  lemma {:induction false} DedupMembers(s: seq<string>)
    ensures forall x :: x in Dedup(s) <==> x in s
    ensures s != [] ==> Dedup(s) != [] && Dedup(s)[|Dedup(s)| - 1] == s[|s| - 1]
  {
    if |s| > 1 {
      assert s == s[..|s| - 1] + [s[|s| - 1]];
      DedupMembers(s[..|s| - 1]);
    }
  }

  lemma {:induction false} DedupAscending(s: seq<string>)
    requires WeaklyAscending(s)
    ensures Ascending(Dedup(s), Less)
  {
    if |s| > 1 {
      var front, last := s[..|s| - 1], s[|s| - 1];
      DedupAscending(front);
      DedupMembers(front);
      if last != front[|front| - 1] { AscendingSnoc(Dedup(front), last); }
    }
  }

  /** The canonical list is the one ascending list of the labels that occur. */
  lemma CanonicalIsSet(a: seq<string>, b: seq<string>)
    ensures Ascending(CanonicalLabels(a), Less)
    ensures forall x :: x in CanonicalLabels(a) <==> x in a
    ensures CanonicalLabels(a) == CanonicalLabels(b) <==> SameElements(a, b)
  {
    LessIsOrder();
    SortWeak(a);
    SortWeak(b);
    DedupAscending(Sort(a, Less));
    DedupAscending(Sort(b, Less));
    DedupMembers(Sort(a, Less));
    DedupMembers(Sort(b, Less));
    PermutationMembers(Sort(a, Less), a);
    PermutationMembers(Sort(b, Less), b);
    if SameElements(a, b) {
      AscendingUnique(CanonicalLabels(a), CanonicalLabels(b), Less);
    }
  }

  // ---------------------------------------------------------------- normalization

  function SnapshotOf(projectId: string, d: Discovered): Snapshot
    requires d.payload.Observation?
  {
    var subject := d.payload.subject.(labels := CanonicalLabels(d.payload.subject.labels));
    Snapshot(projectId, d.source, d.repo, d.payload.eventType, subject, d.candidate)
  }

  /** `digest` stands for the hexadecimal SHA-256 of the serialized snapshot. A blank project id and a
      payload that is no observation are refused. */
  function Normalize(projectId: string, d: Discovered, receivedAt: nat, digest: Snapshot -> string): Option<Envelope> {
    if !d.payload.Observation? || Blank(projectId, RustSpace) then None
    else
      var snapshot := SnapshotOf(projectId, d);
      Some(Envelope("poll:sha256:" + digest(snapshot), d.source, projectId, d.repo, d.payload.eventType,
          snapshot.subject, receivedAt))
  }

  /** A poll is refused exactly when it is no observation or names no project. Otherwise the event is
      received as polled, with its labels in canonical order, and its key is the digest of everything
      but the time. */
  lemma NormalizeExact(projectId: string, d: Discovered, receivedAt: nat, digest: Snapshot -> string)
    ensures Normalize(projectId, d, receivedAt, digest).Some? <==>
              d.payload.Observation? && Trim(projectId, RustSpace) != ""
    ensures Normalize(projectId, d, receivedAt, digest).Some? ==>
              var e, polled := Normalize(projectId, d, receivedAt, digest).value, d.payload.subject;
              && e.projectId == projectId && e.source == d.source && e.repo == d.repo
              && e.eventType == d.payload.eventType && e.receivedAt == receivedAt
              && e.subject.number == polled.number && e.subject.title == polled.title
              && e.subject.body == polled.body && e.subject.url == polled.url
              && Ascending(e.subject.labels, Less) && SameElements(e.subject.labels, polled.labels)
              && e.dedupeKey == "poll:sha256:" + digest(Snapshot(projectId, d.source, d.repo, d.payload.eventType,
                                                                 e.subject, d.candidate))
  {
    BlankIff(projectId, RustSpace);
    if d.payload.Observation? { CanonicalIsSet(d.payload.subject.labels, d.payload.subject.labels); }
  }

  ghost predicate Injective(digest: Snapshot -> string) {
    forall x, y :: digest(x) == digest(y) ==> x == y
  }

  /** Two polls are one event exactly when everything agrees except the time of receipt and the order
      and repetition of labels; and then the stored events differ in nothing but the time. */
  lemma SameKeyIff(p: string, d: Discovered, t: nat, p': string, d': Discovered, t': nat, digest: Snapshot -> string)
    requires Injective(digest)
    requires Normalize(p, d, t, digest).Some? && Normalize(p', d', t', digest).Some?
    ensures var e, e' := Normalize(p, d, t, digest).value, Normalize(p', d', t', digest).value;
            && (e.dedupeKey == e'.dedupeKey <==>
                  && p == p'
                  && d.(payload := d.payload.(subject := d.payload.subject.(labels := [])))
                     == d'.(payload := d'.payload.(subject := d'.payload.subject.(labels := [])))
                  && SameElements(d.payload.subject.labels, d'.payload.subject.labels))
            && (e.dedupeKey == e'.dedupeKey ==> e.(receivedAt := 0) == e'.(receivedAt := 0))
  {
    var s, s' := SnapshotOf(p, d), SnapshotOf(p', d');
    CanonicalIsSet(d.payload.subject.labels, d'.payload.subject.labels);
    assert ("poll:sha256:" + digest(s))[12..] == digest(s);
    assert ("poll:sha256:" + digest(s'))[12..] == digest(s');
    assert digest(s) == digest(s') <==> s == s';
  }
}
