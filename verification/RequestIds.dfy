/** The remote console: one request id per operation until it is accepted or the selection changes,
    and the merge of polled session lists by thread. */
module RequestIds {
  import opened Text
  import opened Order

  // ---------------------------------------------------------------- the operation key

  datatype Operation = Operation(projectId: string, pr: nat, extraArgs: string)

  const LF := '\n'

  /** The key two calls must share to share an id: the three parts joined by line feeds. */
  function Key(op: Operation): string {
    op.projectId + [LF] + (Digits(op.pr) + [LF] + op.extraArgs)
  }

  /** The key tells operations apart when project ids hold no line feed; the arguments may. */
  lemma KeyUnique(a: Operation, b: Operation)
    requires LF !in a.projectId && LF !in b.projectId
    ensures Key(a) == Key(b) <==> a == b
  {
    if Key(a) == Key(b) {
      FirstSeparator(a.projectId, Digits(a.pr) + [LF] + a.extraArgs, b.projectId, Digits(b.pr) + [LF] + b.extraArgs,
          LF);
      FirstSeparator(Digits(a.pr), a.extraArgs, Digits(b.pr), b.extraArgs, LF);
      DigitsInjective(a.pr, b.pr);
    }
  }

  /** One project id is the other one extended by a line feed and a number, and then nothing or a line feed. */
  ghost predicate Extends(p: string, q: string) {
    exists n: nat, rest: string :: ExtendsBy(p, q, n, rest)
  }

  predicate ExtendsBy(p: string, q: string, n: nat, rest: string) {
    p == q + [LF] + Digits(n) + rest && (rest == "" || rest[0] == LF)
  }

  /** Exactly which pairs of projects the key can confuse. */
  lemma KeyConfusesIff(p: string, q: string)
    requires |q| < |p|
    ensures (exists a: Operation, b: Operation :: a.projectId == p && b.projectId == q && Key(a) == Key(b))
            <==> Extends(p, q)
  {
    if a: Operation, b: Operation :| a.projectId == p && b.projectId == q && Key(a) == Key(b) {
      ConfusedExtends(a, b);
    }
    if Extends(p, q) {
      var n: nat, rest: string :| ExtendsBy(p, q, n, rest);
      var b := Confusing(p, q, n, rest);
      assert b.projectId == q && Operation(p, 0, "").projectId == p;
    }
  }

  lemma Regroup(p: string, l: string, d: string, x: string)
    ensures p + l + (d + l + x) == p + (l + (d + l + x))
    ensures p + l + d + x == p + l + (d + x)
    ensures d + l + x == d + (l + x)
  {
  }

  lemma Confusing(p: string, q: string, n: nat, rest: string) returns (b: Operation)
    requires ExtendsBy(p, q, n, rest)
    ensures b.projectId == q && Key(Operation(p, 0, "")) == Key(b)
  {
    var d, zero := Digits(n), Digits(0);
    var end := [LF] + (zero + [LF] + "");
    var after := rest + end;
    assert after[0] == LF && after == [LF] + after[1..];
    b := Operation(q, n, after[1..]);
    Regroup(p, [LF], zero, "");
    assert Key(Operation(p, 0, "")) == p + end;
    Regroup(q, [LF], d, rest);
    Regroup(q, [LF], d, after[1..]);
    assert p + end == q + [LF] + (d + after);
  }

  lemma ConfusedExtends(a: Operation, b: Operation)
    requires |b.projectId| < |a.projectId| && Key(a) == Key(b)
    ensures Extends(a.projectId, b.projectId)
  {
    var p, q, d := a.projectId, b.projectId, Digits(b.pr);
    var head := q + [LF] + d;
    var k := Key(a);
    assert k == head + ([LF] + b.extraArgs);
    assert k[|p|] == LF && p == k[..|p|];
    assert forall i :: |q| < i < |head| ==> k[i] == d[i - |q| - 1] && k[i] in d;
    assert |p| >= |head|;
    assert p[..|head|] == head;
    var rest := p[|head|..];
    assert k[|head|] == LF;
    assert rest != "" ==> rest[0] == k[|head|];
    assert ExtendsBy(p, q, b.pr, rest);
  }

  /** Two such operations, for any project whose id another one extends by a line feed and a number. */
  lemma ConfusedProjects(q: string, n: nat)
    ensures var a, b := Operation(q + [LF] + Digits(n), 0, ""), Operation(q, n, Digits(0) + [LF] + "");
            a.projectId != b.projectId && Key(a) == Key(b)
  {
    var p, d, zero := q + [LF] + Digits(n), Digits(n), Digits(0);
    assert |p| > |q|;
    assert p + [LF] + (zero + [LF] + "") == q + [LF] + (d + [LF] + (zero + [LF] + ""));
  }

  // ---------------------------------------------------------------- the id lifecycle

  /** `Reset` is `accepted()` and `selectionChanged()`. */
  datatype Call = For(op: Operation) | Reset

  /** The operation the current id is for. */
  function Bound(calls: seq<Call>): Option<string> {
    if calls == [] || calls[|calls| - 1].Reset? then None else Some(Key(calls[|calls| - 1].op))
  }

  /** How many ids a run has created; the id in force is the last of them. */
  function Created(calls: seq<Call>): nat {
    if calls == [] then 0
    else
      var before, last := calls[..|calls| - 1], calls[|calls| - 1];
      Created(before) + (if last.For? && Bound(before) != Some(Key(last.op)) then 1 else 0)
  }

  class RequestIdLifecycle {
    const create: nat -> string
    var operation: Option<string>
    var requestId: Option<string>
    ghost var calls: seq<Call>

    ghost predicate Valid()
      reads this
    {
      operation == Bound(calls)
      && requestId == if operation.None? then None else Some(create(Created(calls)))
    }

    constructor (create: nat -> string)
      ensures Valid() && calls == [] && this.create == create
    {
      this.create, operation, requestId, calls := create, None, None, [];
    }

    /** `created` is the number of ids created so far, the state of the id generator. */
    method ForOperation(op: Operation, created: nat) returns (id: string, now: nat)
      requires Valid() && created == Created(calls)
      modifies this
      ensures Valid() && calls == old(calls) + [For(op)] && now == Created(calls) && id == create(now)
    {
      calls := calls + [For(op)];
      assert calls[..|calls| - 1] == old(calls);
      now := created;
      if operation != Some(Key(op)) || requestId == None {
        now := created + 1;
        operation := Some(Key(op));
        requestId := Some(create(now));
      }
      id := requestId.value;
    }

    method Accepted()
      requires Valid()
      modifies this
      ensures Valid() && calls == old(calls) + [Reset]
    {
      calls := calls + [Reset];
      operation, requestId := None, None;
    }
  }

  ghost predicate Unbroken(calls: seq<Call>, i: nat, j: nat)
    requires i <= j < |calls| && calls[i].For?
  {
    forall k :: i <= k <= j ==> calls[k].For? && Key(calls[k].op) == Key(calls[i].op)
  }

  lemma CreatedStep(calls: seq<Call>, j: nat)
    requires j < |calls|
    ensures Created(calls[..j + 1]) == Created(calls[..j])
            + (if calls[j].For? && Bound(calls[..j]) != Some(Key(calls[j].op)) then 1 else 0)
  {
    assert calls[..j + 1][..j] == calls[..j];
  }

  lemma {:induction false} CreatedGrows(calls: seq<Call>, i: nat, j: nat)
    requires i <= j <= |calls|
    ensures Created(calls[..i]) <= Created(calls[..j])
  {
    if i < j {
      CreatedGrows(calls, i, j - 1);
      CreatedStep(calls, j - 1);
    }
  }

  /** Over any run of calls: two requests carry the same id exactly when every call from the first to
      the second was a request for the same operation. In particular a retry after a lost response
      reuses the id, and nothing after an acceptance or another operation does. */
  lemma {:induction false} SameIdIff(calls: seq<Call>, i: nat, j: nat)
    requires i <= j < |calls| && calls[i].For? && calls[j].For?
    ensures Created(calls[..i + 1]) == Created(calls[..j + 1]) <==> Unbroken(calls, i, j)
  {
    if i < j {
      CreatedStep(calls, j);
      CreatedGrows(calls, i + 1, j);
      BoundBy(calls, j);
      UnbrokenStep(calls, i, j);
      if calls[j - 1].For? { SameIdIff(calls, i, j - 1); }
    }
  }

  lemma BoundBy(calls: seq<Call>, j: nat)
    requires 0 < j <= |calls|
    ensures Bound(calls[..j]) == if calls[j - 1].Reset? then None else Some(Key(calls[j - 1].op))
  {
    assert calls[..j][j - 1] == calls[j - 1];
  }

  lemma UnbrokenStep(calls: seq<Call>, i: nat, j: nat)
    requires i < j < |calls| && calls[i].For? && calls[j].For?
    ensures Unbroken(calls, i, j) <==> Unbroken(calls, i, j - 1) && Key(calls[j].op) == Key(calls[i].op)
    ensures Unbroken(calls, i, j - 1) ==> calls[j - 1].For? && Key(calls[j - 1].op) == Key(calls[i].op)
  {
  }

  // ---------------------------------------------------------------- merging session lists

  datatype Session = Session(threadId: string, body: string)

  /** `Map.set` */
  function Put(m: JsMap<Session>, s: Session): JsMap<Session> {
    JsMap(if s.threadId in m.entries then m.order else m.order + [s.threadId], m.entries[s.threadId := s])
  }

  function PutAll(m: JsMap<Session>, rows: seq<Session>): JsMap<Session> {
    if rows == [] then m else Put(PutAll(m, rows[..|rows| - 1]), rows[|rows| - 1])
  }

  ghost predicate MapOk(m: JsMap<Session>) {
    && Distinct(m.order)
    && (forall k :: k in m.order <==> k in m.entries)
    && (forall k :: k in m.entries ==> m.entries[k].threadId == k)
  }

  const EMPTY: JsMap<Session> := JsMap([], map[])

  /** `Array.from(map.values())` */
  function Values(m: JsMap<Session>): (r: seq<Session>)
    requires forall k :: k in m.order ==> k in m.entries
    ensures |r| == |m.order| && forall i :: 0 <= i < |r| ==> r[i] == m.entries[m.order[i]]
  {
    seq(|m.order|, i requires 0 <= i < |m.order| => m.entries[m.order[i]])
  }

  method MergeSessionsByThread(current: seq<Session>, incoming: seq<Session>) returns (r: seq<Session>)
    ensures MapOk(PutAll(PutAll(EMPTY, current), incoming))
    ensures r == Values(PutAll(PutAll(EMPTY, current), incoming))
  {
    PutAllOk(EMPTY, current);
    var byThread := EMPTY;
    for i := 0 to |current|
      invariant byThread == PutAll(EMPTY, current[..i])
    {
      assert current[..i + 1][..i] == current[..i];
      byThread := Put(byThread, current[i]);
    }
    assert current[..|current|] == current;
    for i := 0 to |incoming|
      invariant byThread == PutAll(PutAll(EMPTY, current), incoming[..i])
    {
      assert incoming[..i + 1][..i] == incoming[..i];
      byThread := Put(byThread, incoming[i]);
    }
    assert incoming[..|incoming|] == incoming;
    PutAllOk(PutAll(EMPTY, current), incoming);
    r := Values(byThread);
  }

  predicate HasThread(rows: seq<Session>, k: string) {
    exists i :: 0 <= i < |rows| && rows[i].threadId == k
  }

  lemma {:induction false} PutAllOk(m: JsMap<Session>, rows: seq<Session>)
    requires MapOk(m)
    ensures MapOk(PutAll(m, rows)) && m.order <= PutAll(m, rows).order
    ensures forall k :: k in PutAll(m, rows).entries <==> k in m.entries || HasThread(rows, k)
  {
    if rows != [] {
      var front := rows[..|rows| - 1];
      PutAllOk(m, front);
      forall k ensures k in PutAll(m, rows).entries <==> k in m.entries || HasThread(rows, k) {
        ThreadOccurs(rows, k);
      }
    }
  }

  lemma ThreadOccurs(rows: seq<Session>, k: string)
    requires rows != []
    ensures HasThread(rows, k) <==> HasThread(rows[..|rows| - 1], k) || rows[|rows| - 1].threadId == k
  {
    var front := rows[..|rows| - 1];
    if i :| 0 <= i < |front| && front[i].threadId == k { assert rows[i].threadId == k; }
    if i :| 0 <= i < |rows| && rows[i].threadId == k { assert i < |front| ==> front[i].threadId == k; }
  }

  /** Row `i` is the last one of its thread. */
  predicate LastOfThread(rows: seq<Session>, i: int) {
    0 <= i < |rows| && forall j :: i < j < |rows| ==> rows[j].threadId != rows[i].threadId
  }

  /** The incoming row wins, the last one if several; threads without an incoming row keep theirs. */
  lemma {:induction false} LastWins(m: JsMap<Session>, rows: seq<Session>, k: string)
    requires k in PutAll(m, rows).entries
    ensures (k in m.entries && PutAll(m, rows).entries[k] == m.entries[k] && forall i :: 0 <= i < |rows| ==>
            rows[i].threadId != k)
            || exists i :: LastOfThread(rows, i) && rows[i].threadId == k && PutAll(m, rows).entries[k] == rows[i]
  {
    if rows != [] {
      var front, last := rows[..|rows| - 1], rows[|rows| - 1];
      if last.threadId == k {
        assert LastOfThread(rows, |rows| - 1);
      } else {
        LastWins(m, front, k);
        if i :| LastOfThread(front, i) && front[i].threadId == k && PutAll(m, front).entries[k] == front[i] {
          assert LastOfThread(rows, i) && rows[i] == front[i];
        } else {
          assert forall i :: 0 <= i < |front| ==> rows[i] == front[i];
        }
      }
    }
  }

  /** The map after its first `n` entries. */
  ghost predicate Prefix(part: JsMap<Session>, m: JsMap<Session>, n: nat) {
    && n <= |m.order| && part.order == m.order[..n]
    && (forall k :: k in part.entries ==> k in part.order && k in m.entries && part.entries[k] == m.entries[k])
    && (forall i :: 0 <= i < n ==> m.order[i] in part.entries)
  }

  lemma PrefixStep(part: JsMap<Session>, m: JsMap<Session>, n: nat)
    requires Distinct(m.order) && n < |m.order| && Prefix(part, m, n)
    requires m.order[n] in m.entries && m.entries[m.order[n]].threadId == m.order[n]
    ensures Prefix(Put(part, m.entries[m.order[n]]), m, n + 1)
  {
    var k := m.order[n];
    assert m.order[..n + 1] == m.order[..n] + [k];
    assert k !in part.entries;
  }

  lemma {:induction false} ReadBack(m: JsMap<Session>, rows: seq<Session>, n: nat)
    requires MapOk(m) && rows == Values(m) && n <= |m.order|
    ensures Prefix(PutAll(EMPTY, rows[..n]), m, n)
  {
    if n > 0 {
      ReadBack(m, rows, n - 1);
      assert rows[..n][..n - 1] == rows[..n - 1];
      assert m.order[n - 1] in m.entries;
      PrefixStep(PutAll(EMPTY, rows[..n - 1]), m, n - 1);
    }
  }

  /** Reading a map out and back in gives the same map. */
  lemma ReadBackAll(m: JsMap<Session>)
    requires MapOk(m)
    ensures PutAll(EMPTY, Values(m)) == m
  {
    var n, rows := |m.order|, Values(m);
    ReadBack(m, rows, n);
    assert rows[..n] == rows && m.order[..n] == m.order;
    WholePrefix(PutAll(EMPTY, rows), m);
  }

  lemma WholePrefix(part: JsMap<Session>, m: JsMap<Session>)
    requires Prefix(part, m, |m.order|) && forall k :: k in m.entries ==> k in m.order
    ensures part == m
  {
    assert part.order == m.order;
    assert part.entries == m.entries;
  }

  lemma {:induction false} PutAgain(m: JsMap<Session>, rows: seq<Session>, n: nat)
    requires n <= |rows| && forall i :: 0 <= i < n ==> rows[i].threadId in m.entries
    ensures PutAll(m, rows[..n]).order == m.order
    ensures PutAll(m, rows[..n]).entries.Keys == m.entries.Keys
  {
    if n > 0 {
      PutAgain(m, rows, n - 1);
      assert rows[..n][..n - 1] == rows[..n - 1];
    }
  }

  /** Two maps that both took in the same rows agree on every thread of these rows. */
  lemma SameWinner(m: JsMap<Session>, n: JsMap<Session>, rows: seq<Session>, k: string)
    requires k in PutAll(m, rows).entries && k in PutAll(n, rows).entries
    requires HasThread(rows, k)
    ensures PutAll(m, rows).entries[k] == PutAll(n, rows).entries[k]
  {
    LastWins(m, rows, k);
    LastWins(n, rows, k);
  }

  /** Merging the same response once more changes nothing, whatever was there and whatever it holds. */
  lemma MergeTwice(current: seq<Session>, incoming: seq<Session>)
    ensures MapOk(PutAll(EMPTY, current)) && MapOk(PutAll(PutAll(EMPTY, current), incoming))
    ensures var once := PutAll(PutAll(EMPTY, current), incoming);
            PutAll(PutAll(EMPTY, Values(once)), incoming) == once
  {
    PutAllOk(EMPTY, current);
    var start := PutAll(EMPTY, current);
    PutAllOk(start, incoming);
    var once := PutAll(start, incoming);
    ReadBackAll(once);
    PutTwice(start, incoming);
  }

  lemma PutTwice(start: JsMap<Session>, rows: seq<Session>)
    requires MapOk(start)
    ensures PutAll(PutAll(start, rows), rows) == PutAll(start, rows)
  {
    var once := PutAll(start, rows);
    PutAllOk(start, rows);
    PutAgain(once, rows, |rows|);
    assert rows[..|rows|] == rows;
    var twice := PutAll(once, rows);
    forall k | k in once.entries ensures twice.entries[k] == once.entries[k] {
      if HasThread(rows, k) {
        SameWinner(start, once, rows, k);
      } else {
        LastWins(once, rows, k);
      }
    }
    assert twice.entries == once.entries;
  }
}
