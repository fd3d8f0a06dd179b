/** What the v15 and v18 rebuilds keep, when they succeed, and what a legacy review row becomes. */
module OutboxCarry {
  import opened Text
  import opened PayloadMigration
  import opened SkillIdentity
  import opened OutboxRebuild
  import K = ProducerKeys

  // ---------------------------------------------------------------- v15

  /** A bare text candidate must itself be JSON. */
  predicate Reparsable(row: Row, sql: Sqlite) {
    Untagged(row) && row.payload.json.fields["candidate"].JStr? ==>
        sql.reparse(row.payload.json.fields["candidate"].s).Some?
  }

  predicate Convertible(row: Row, sql: Sqlite) {
    row.kind in KINDS_V15 && (row.payload.Malformed? || row.status in STATUSES) && Reparsable(row, sql)
  }

  /** Two rows that are not finished, in one project and under one dedupe key. */
  predicate Clash(a: Row, b: Row) {
    && a.status in ["pending", "blocked"] && b.status in ["pending", "blocked"]
    && a.dedupe.Some? && a.dedupe == b.dedupe && a.project == b.project
  }

  lemma ClashIff(a: Row, b: Row)
    ensures Clash(a, b) <==> SameLiveKey(a, b)
  {
    assert forall s: string :: s in ["pending", "blocked"] <==> s == "pending" || s == "blocked";
  }

  ghost predicate LiveUnique(rows: seq<Row>) {
    forall i, j :: 0 <= i < j < |rows| ==> !Clash(rows[i], rows[j])
  }

  ghost predicate ProducersUnique(rows: seq<Row>) {
    forall i, j :: 0 <= i < j < |rows| ==> rows[i].producer != rows[j].producer
  }

  /** What the two unique indexes say. */
  lemma IndexedIff(rows: seq<Row>)
    ensures Indexed(rows) <==> LiveUnique(rows) && ProducersUnique(rows)
  {
    forall i, j | 0 <= i < j < |rows| ensures Clash(rows[i], rows[j]) <==> SameLiveKey(rows[i], rows[j]) {
      ClashIff(rows[i], rows[j]);
    }
    if Indexed(rows) {
      forall i, j | 0 <= i < j < |rows| ensures !Clash(rows[i], rows[j]) && rows[i].producer != rows[j].producer {
        assert !SameLiveKey(rows[i], rows[j]);
      }
    }
    if LiveUnique(rows) && ProducersUnique(rows) {
      forall i, j | 0 <= i < j < |rows| ensures !SameLiveKey(rows[i], rows[j]) && rows[i].producer != rows[j].producer {
        assert !Clash(rows[i], rows[j]);
      }
    }
  }

  function StatusAfter(row: Row): string {
    if row.payload.Malformed? || Undeliverable(row) then "dead" else row.status
  }

  lemma RowAfterTagging(row: Row, sql: Sqlite)
    ensures Tagged(Quarantined(row), sql).Some? <==> Reparsable(row, sql)
    ensures Reparsable(row, sql) ==>
              var copy := Copied(Tagged(Quarantined(row), sql).value);
              && copy.id == row.id && copy.project == row.project && copy.kind == row.kind
              && copy.summary == row.summary
              && copy.dedupe == row.dedupe && copy.producer == K.LegacyText(row.id) && copy.thread == None
              && copy.status == StatusAfter(row) && copy.payload.Valid?
  {
    if row.kind == "notification" { assert !Untagged(row); }
  }

  lemma LegacyTextNonEmpty(id: nat)
    ensures K.LegacyText(id) != ""
  {
    assert |K.LegacyText(id)| >= 7;
  }

  lemma StatusNames()
    ensures "dead" in STATUSES && "pending" in STATUSES && "dead" != "pending" && "dead" != "blocked"
  {
    assert STATUSES[3] == "dead" && STATUSES[0] == "pending";
    assert |"dead"| == 4 && |"pending"| == 7;
  }

  /** A row passes v15 exactly when it is convertible. */
  lemma RowPasses(row: Row, sql: Sqlite)
    requires Reparsable(row, sql)
    ensures Checked15(Copied(Tagged(Quarantined(row), sql).value)) <==> Convertible(row, sql)
  {
    RowAfterTagging(row, sql);
    LegacyTextNonEmpty(row.id);
    StatusNames();
  }

  lemma LegacyTextInjective(i: nat, j: nat)
    requires K.LegacyText(i) == K.LegacyText(j)
    ensures i == j
  {
    K.KeyTextInjective(K.LegacyProducer(i), K.LegacyProducer(j));
  }

  /** The copy violates neither unique index: no row becomes live, and producers follow the ids. */
  lemma CopyIndexed(rows: seq<Row>, sql: Sqlite)
    requires UniqueIds(rows) && LiveUnique(rows) && Taggable(QuarantinedAll(rows), sql)
    ensures Indexed(CopiedAll(TaggedAll(QuarantinedAll(rows), sql)))
  {
    var copy := CopiedAll(TaggedAll(QuarantinedAll(rows), sql));
    forall i, j | 0 <= i < j < |copy| ensures !SameLiveKey(copy[i], copy[j]) && copy[i].producer != copy[j].producer {
      RowAt(rows, sql, i);
      RowAt(rows, sql, j);
      StatusNames();
      ClashIff(rows[i], rows[j]);
      if copy[i].producer == copy[j].producer { LegacyTextInjective(rows[i].id, rows[j].id); }
    }
  }

  lemma RowAt(rows: seq<Row>, sql: Sqlite, i: nat)
    requires Taggable(QuarantinedAll(rows), sql) && i < |rows|
    ensures Reparsable(rows[i], sql)
    ensures CopiedAll(TaggedAll(QuarantinedAll(rows), sql))[i] == Copied(Tagged(Quarantined(rows[i]), sql).value)
    ensures var copy := CopiedAll(TaggedAll(QuarantinedAll(rows), sql))[i];
            && copy.id == rows[i].id && copy.project == rows[i].project && copy.kind == rows[i].kind
            && copy.summary == rows[i].summary && copy.dedupe == rows[i].dedupe
            && copy.producer == K.LegacyText(rows[i].id) && copy.status == StatusAfter(rows[i])
  {
    assert Tagged(QuarantinedAll(rows)[i], sql).Some?;
    RowAfterTagging(rows[i], sql);
  }

  /** With unique ids and the old unique index, v15 succeeds exactly when every row is convertible. */
  lemma V15SucceedsIff(rows: seq<Row>, sql: Sqlite)
    requires UniqueIds(rows) && LiveUnique(rows)
    ensures V15(rows, sql).Some? <==> forall i :: 0 <= i < |rows| ==> Convertible(rows[i], sql)
  {
    var clean := QuarantinedAll(rows);
    forall i | 0 <= i < |rows| ensures Tagged(clean[i], sql).Some? <==> Reparsable(rows[i], sql) {
      RowAfterTagging(rows[i], sql);
    }
    if Taggable(clean, sql) {
      CopyIndexed(rows, sql);
      var copy := CopiedAll(TaggedAll(clean, sql));
      forall i | 0 <= i < |rows| ensures Checked15(copy[i]) <==> Convertible(rows[i], sql) {
        RowAt(rows, sql, i);
        RowPasses(rows[i], sql);
      }
    } else {
      var i :| 0 <= i < |clean| && Tagged(clean[i], sql).None?;
      assert !Convertible(rows[i], sql);
    }
  }

  /** The columns no migration may touch. */
  predicate SameIdentity(before: Row, after: Row) {
    && after.id == before.id && after.project == before.project
    && after.summary == before.summary && after.dedupe == before.dedupe
  }

  /** A row with the status, error and payload it had. */
  predicate SameContent(before: Row, after: Row) {
    after.status == before.status && after.lastError == before.lastError && after.payload == before.payload
  }

  predicate Dead(row: Row, reason: string) {
    row.status == "dead" && row.lastError == Some(reason)
  }

  /** A candidate taken out of the JSON by SQLite and put back. */
  predicate Extracted(v: Json, c: Json, sql: Sqlite) {
    && (v.JStr? ==> sql.reparse(v.s) == Some(c))
    && (v.JBool? ==> c == JInt(if v.b then 1 else 0))
    && (v.JInt? || v.JFloat? ==> c == sql.renumber(v))
    && (v.JNull? || v.JArr? || v.JObj? ==> c == v)
  }

  /** A review or check whose payload is an object with a candidate and without a kind. */
  predicate Bare(row: Row) {
    && row.kind in ["review", "check"] && row.payload.Valid? && row.payload.json.JObj?
    && "candidate" in row.payload.json.fields && "kind" !in row.payload.json.fields
  }

  /** A pending notification whose payload is no object with a notification. */
  predicate Lost(row: Row) {
    && row.kind == "notification" && row.status == "pending" && row.payload.Valid?
    && (row.payload.json.JObj? ==> "notification" !in row.payload.json.fields)
  }

  /** What v15 makes of one row: unreadable payloads and lost notifications are dead-lettered, bare
      reviews are tagged automatic, and nothing else changes but the producer. */
  predicate After15(before: Row, after: Row, sql: Sqlite) {
    && SameIdentity(before, after) && after.kind == before.kind
    && after.producer == K.LegacyText(before.id) && after.thread == None
    && (before.payload.Malformed? ==> Dead(after, INVALID_PAYLOAD) && after.payload == Valid(JObj(map[])))
    && (Lost(before) ==> Dead(after, REMOVED_PAYLOAD) && after.payload == before.payload)
    && (Bare(before) ==>
          && after.status == before.status && after.lastError == before.lastError
          && after.payload.Valid? && after.payload.json.JObj? && "candidate" in after.payload.json.fields
          && after.payload.json == JObj(AutomaticFields(after.payload.json.fields["candidate"]))
          && Extracted(before.payload.json.fields["candidate"], after.payload.json.fields["candidate"], sql))
    && (before.payload.Valid? && !Lost(before) && !Bare(before) ==> SameContent(before, after))
  }

  lemma BareIsUntagged(row: Row)
    ensures Bare(row) <==> Untagged(row)
    ensures Bare(row) ==> row.kind != "notification"
  {
    assert |"notification"| == 12 && |"review"| == 6 && |"check"| == 5;
  }

  lemma LostIsUndeliverable(row: Row)
    requires row.payload.Valid?
    ensures Lost(row) <==> Undeliverable(row)
  {
  }

  lemma TaggedFields(c: Json)
    ensures "candidate" in AutomaticFields(c) && AutomaticFields(c)["candidate"] == c
  {
    AutomaticNames();
  }

  lemma BareAfter15(row: Row, sql: Sqlite)
    requires Reparsable(row, sql) && Bare(row)
    ensures After15(row, Copied(Tagged(Quarantined(row), sql).value), sql)
  {
    BareIsUntagged(row);
    var v := row.payload.json.fields["candidate"];
    var c := Reextracted(v, sql).value;
    TaggedFields(c);
    assert Tagged(Quarantined(row), sql).value == row.(payload := Valid(JObj(AutomaticFields(c))));
    assert Extracted(v, c, sql);
  }

  lemma RowAfter15(row: Row, sql: Sqlite)
    requires Reparsable(row, sql)
    ensures After15(row, Copied(Tagged(Quarantined(row), sql).value), sql)
  {
    if Bare(row) {
      BareAfter15(row, sql);
    } else if row.payload.Malformed? {
      StatusNames();
    } else {
      BareIsUntagged(row);
      LostIsUndeliverable(row);
    }
  }

  /** v15 treats every row, at its place, as `After15` says. */
  lemma V15Keeps(rows: seq<Row>, sql: Sqlite, i: nat)
    requires V15(rows, sql).Some? && i < |rows|
    ensures |V15(rows, sql).value| == |rows|
    ensures After15(rows[i], V15(rows, sql).value[i], sql)
  {
    RowAt(rows, sql, i);
    RowAfter15(rows[i], sql);
  }

  // ---------------------------------------------------------------- v18

  lemma KindNames()
    ensures "runSkill" in KINDS_V18
    ensures forall k :: k in KINDS_V15 && k != "review" && k != "check" ==> k in KINDS_V18
    ensures forall k :: k in KINDS_V15 && k != "review" && k != "check" ==> k != "runSkill"
  {
    assert KINDS_V18[1] == "runSkill" && KINDS_V18[0] == KINDS_V15[0] && KINDS_V18[2] == KINDS_V15[3];
    assert KINDS_V18[3] == KINDS_V15[4] && KINDS_V18[4] == KINDS_V15[5];
    forall k | k in KINDS_V15
      ensures k in {KINDS_V15[0], "review", "check", KINDS_V15[3], KINDS_V15[4], KINDS_V15[5]} && k != "runSkill"
    {
      var n :| 0 <= n < |KINDS_V15| && KINDS_V15[n] == k;
      assert |"runSkill"| == 8 && |"notification"| == 12 && |"stopReview"| == 10 && |"messagingReply"| == 14
             && |"messagingSend"| == 13;
      assert |"review"| == 6 && |"check"| == 5;
    }
  }

  lemma RowPasses18(row: Row)
    requires Checked15(row)
    ensures Checked18(Row18(row))
  {
    KindNames();
  }

  /** A row the rebuilt table accepts: today's kinds or the two legacy ones, a known status, a readable
      payload, a producer, and a thread on a review alone. */
  predicate Acceptable(row: Row) {
    && (row.kind in KINDS_V18 || row.kind in ["review", "check"]) && row.status in STATUSES
    && row.payload.Valid? && row.producer != ""
    && (row.thread.Some? ==> row.kind in ["runSkill", "review", "check"])
  }

  lemma RowAccepted(row: Row)
    ensures Checked18(Row18(row)) <==> Acceptable(row)
  {
    KindNames();
    if row.kind in ["review", "check"] { assert row.kind == "review" || row.kind == "check"; }
    assert |"review"| == 6 && |"check"| == 5 && |"runSkill"| == 8;
  }

  /** The rebuild changes no column of the two unique indexes. */
  lemma IndexStays(rows: seq<Row>)
    ensures Indexed(Rows18(rows)) <==> Indexed(rows)
  {
    var after := Rows18(rows);
    forall i, j | 0 <= i < j < |rows|
      ensures SameLiveKey(after[i], after[j]) <==> SameLiveKey(rows[i], rows[j])
      ensures after[i].producer == rows[i].producer && after[j].producer == rows[j].producer
    {
    }
    if Indexed(after) {
      forall i, j | 0 <= i < j < |rows| ensures !SameLiveKey(rows[i], rows[j]) && rows[i].producer != rows[j].producer {
        assert !SameLiveKey(after[i], after[j]);
      }
    }
    if Indexed(rows) {
      forall i, j | 0 <= i < j < |rows|
        ensures !SameLiveKey(after[i], after[j]) && after[i].producer != after[j].producer
      {
        assert !SameLiveKey(rows[i], rows[j]);
      }
    }
  }

  /** v18 succeeds exactly when every row is acceptable and the rows satisfy both unique indexes. */
  lemma V18SucceedsIff(rows: seq<Row>)
    ensures V18(rows).Some? <==> (forall i :: 0 <= i < |rows| ==> Acceptable(rows[i]))
                                     && LiveUnique(rows) && ProducersUnique(rows)
  {
    IndexedIff(rows);
    var after := Rows18(rows);
    forall i | 0 <= i < |rows| ensures Checked18(after[i]) <==> Acceptable(rows[i]) {
      RowAccepted(rows[i]);
    }
    IndexStays(rows);
    if AllChecked18(after) {
      forall i | 0 <= i < |rows| ensures Acceptable(rows[i]) { assert Checked18(after[i]); }
    }
  }

  /** What v18 makes of one row: every column but kind and payload stays, a review or check is a skill
      run from now on, and the payload is rewritten by the kind the row had. */
  predicate After18(before: Row, after: Row) {
    && SameIdentity(before, after) && after.status == before.status && after.lastError == before.lastError
    && after.producer == before.producer && after.thread == before.thread
    && after.kind == (if before.kind in ["review", "check"] then "runSkill" else before.kind)
    && (before.payload.Valid? ==>
          && after.payload.Valid?
          && (before.kind in ["review", "check"] ==>
                after.payload.json == ReviewPayload(before.kind, before.payload.json))
          && (before.kind == "runSkill" ==> after.payload.json == ReviewPayload("review", before.payload.json))
          && (before.kind == "stopReview" ==> after.payload.json == StopPayload(before.payload.json))
          && (before.kind !in ["review", "check", "runSkill", "stopReview"] ==> after.payload == before.payload))
    && (before.payload.Malformed? ==> after.payload == before.payload)
  }

  lemma RowAfter18(row: Row)
    ensures After18(row, Row18(row))
  {
    assert row.kind in ["review", "check"] <==> row.kind == "review" || row.kind == "check";
    assert |"review"| == 6 && |"check"| == 5 && |"runSkill"| == 8 && |"stopReview"| == 10;
  }

  /** v18 treats every row, at its place, as `After18` says. */
  lemma V18Row(rows: seq<Row>, i: nat)
    requires V18(rows).Some? && i < |rows|
    ensures |V18(rows).value| == |rows|
    ensures After18(rows[i], V18(rows).value[i])
  {
    RowAfter18(rows[i]);
  }

  /** v18 succeeds on every table that satisfies the constraints of v15. */
  lemma V18Keeps(rows: seq<Row>)
    requires AllChecked15(rows) && Indexed(rows)
    ensures V18(rows).Some? && |V18(rows).value| == |rows|
    ensures forall i :: 0 <= i < |rows| ==> After18(rows[i], V18(rows).value[i])
  {
    var after := Rows18(rows);
    forall i | 0 <= i < |rows| ensures Checked18(after[i]) && After18(rows[i], after[i]) {
      RowPasses18(rows[i]);
      RowAfter18(rows[i]);
    }
    IndexStays(rows);
  }

  /** Both rebuilds in a row succeed on every convertible table, with neither index violated. */
  lemma BothSucceed(rows: seq<Row>, sql: Sqlite)
    requires UniqueIds(rows) && LiveUnique(rows) && forall i :: 0 <= i < |rows| ==> Convertible(rows[i], sql)
    ensures V15(rows, sql).Some? && V18(V15(rows, sql).value).Some?
    ensures UniqueIds(V15(rows, sql).value) && Indexed(V18(V15(rows, sql).value).value)
  {
    V15SucceedsIff(rows, sql);
    var mid := V15(rows, sql).value;
    V18Keeps(mid);
    forall i, j | 0 <= i < j < |mid| ensures mid[i].id != mid[j].id {
      V15Keeps(rows, sql, i);
      V15Keeps(rows, sql, j);
    }
  }

  // ---------------------------------------------------------------- what a legacy review becomes

  /** A v14 review or check row: an untagged payload whose candidate is well formed. */
  predicate LegacyReview(row: Row) {
    Untagged(row) && LegacyCandidate(row.payload.json.fields["candidate"])
  }

  lemma LegacyReviewRow(row: Row, sql: Sqlite)
    requires LegacyReview(row)
    ensures var candidate := row.payload.json.fields["candidate"];
            Reparsable(row, sql)
            && Copied(Tagged(Quarantined(row), sql).value).payload
               == Valid(JObj(AutomaticFields(candidate)))
  {
    assert row.kind != "notification";
  }

  /** Carried through both rebuilds a legacy review is a skill run with an automatic payload: the same
      candidate with every field but the key, the key its legacy word stands for, and an invocation
      built from that key for that PR; id and dedupe key are the row's, and so is the status. */
  lemma LegacyReviewCarried(rows: seq<Row>, sql: Sqlite, i: nat)
    requires V15(rows, sql).Some? && V18(V15(rows, sql).value).Some? && i < |rows| && LegacyReview(rows[i])
    ensures i < |V18(V15(rows, sql).value).value|
    ensures var candidate := rows[i].payload.json.fields["candidate"];
            var key := CandidateKey(candidate, rows[i].kind);
            var row := V18(V15(rows, sql).value).value[i];
            && row.kind == "runSkill" && row.id == rows[i].id && row.dedupe == rows[i].dedupe
            && row.status == rows[i].status
            && row.payload.Valid?
            && ParseAutomatic(row.payload.json)
               == Some((LegacyRead(candidate, key), InvocationFor(key, NumberField(candidate.fields, "number").value)))
  {
    var candidate := rows[i].payload.json.fields["candidate"];
    RowAt(rows, sql, i);
    LegacyReviewRow(rows[i], sql);
    var mid := V15(rows, sql).value[i];
    assert mid.payload == Valid(JObj(AutomaticFields(candidate)));
    TaggedBecomesAutomatic(rows[i].kind, candidate);
    assert V18(V15(rows, sql).value).value[i] == Row18(mid);
    NotNotification(rows[i]);
  }

  // ---------------------------------------------------------------- the other kinds

  /** A row whose payload v15 leaves alone. */
  lemma PayloadStays15(rows: seq<Row>, sql: Sqlite, i: nat)
    requires V15(rows, sql).Some? && i < |rows| && rows[i].payload.Valid? && !Bare(rows[i])
    ensures i < |V15(rows, sql).value|
    ensures V15(rows, sql).value[i].payload == rows[i].payload && V15(rows, sql).value[i].kind == rows[i].kind
    ensures SameIdentity(rows[i], V15(rows, sql).value[i])
    ensures !Lost(rows[i]) ==> V15(rows, sql).value[i].status == rows[i].status
  {
    V15Keeps(rows, sql, i);
  }

  /** A legacy stop. */
  predicate LegacyStop(row: Row, pr: nat, word: string) {
    && row.kind == "stopReview" && row.payload.Valid? && row.payload.json.JObj?
    && NumberField(row.payload.json.fields, "prNumber") == Some(pr)
    && "kind" in row.payload.json.fields && row.payload.json.fields["kind"] == JStr(word)
  }

  lemma StopNames(row: Row)
    requires row.kind == "stopReview"
    ensures !Bare(row) && !Lost(row) && row.kind != "runSkill"
  {
    assert |"stopReview"| == 10 && |"review"| == 6 && |"check"| == 5 && |"notification"| == 12 && |"runSkill"| == 8;
  }

  /** Carried through both rebuilds a legacy stop is a stop of the same PR, for the session its legacy
      word stands for; its id, status and dedupe key are the row's. */
  lemma LegacyStopCarried(rows: seq<Row>, sql: Sqlite, i: nat, pr: nat, word: string)
    requires V15(rows, sql).Some? && V18(V15(rows, sql).value).Some? && i < |rows|
    requires LegacyStop(rows[i], pr, word)
    ensures i < |V18(V15(rows, sql).value).value|
    ensures var row := V18(V15(rows, sql).value).value[i];
            && row.kind == "stopReview" && row.status == rows[i].status && SameIdentity(rows[i], row)
            && row.payload.Valid? && ParseStop(row.payload.json) == Some((pr, MigrateSkillKey(word)))
  {
    StopNames(rows[i]);
    PayloadStays15(rows, sql, i);
    StopNames(V15(rows, sql).value[i]);
    V18Row(V15(rows, sql).value, i);
    StopCarried(rows[i].payload.json.fields, word);
  }

  /** A tagged explicit request on a review or check row, before it had an invocation. */
  predicate LegacyExplicit(row: Row, pr: nat, requestId: string, origin: string) {
    && row.kind in ["review", "check"] && row.payload.Valid? && row.payload.json.JObj?
    && row.payload.json.fields.Keys == {"kind", "prNumber", "requestId", "origin"}
    && ExplicitFields(row.payload.json.fields, pr, requestId, origin)
  }

  lemma ExplicitNotLost(row: Row)
    requires row.kind in ["review", "check"]
    ensures !Lost(row)
  {
    assert |"review"| == 6 && |"check"| == 5 && |"notification"| == 12;
  }

  /** Carried through both rebuilds an explicit request is a skill run of the same request, with the
      invocation of the skill the row's kind stands for. */
  lemma LegacyExplicitCarried(rows: seq<Row>, sql: Sqlite, i: nat, pr: nat, requestId: string, origin: string)
    requires V15(rows, sql).Some? && V18(V15(rows, sql).value).Some? && i < |rows|
    requires LegacyExplicit(rows[i], pr, requestId, origin)
    ensures i < |V18(V15(rows, sql).value).value|
    ensures var row := V18(V15(rows, sql).value).value[i];
            && row.kind == "runSkill" && row.status == rows[i].status && SameIdentity(rows[i], row)
            && row.payload.Valid?
            && ParsesExplicit(row.payload.json, ExplicitRequest(pr, requestId, origin,
                                                                InvocationFor(MigrateSkillKey(rows[i].kind), pr)))
  {
    assert "kind" in rows[i].payload.json.fields;
    ExplicitNotLost(rows[i]);
    PayloadStays15(rows, sql, i);
    V18Row(V15(rows, sql).value, i);
    ExplicitCarried(rows[i].kind, rows[i].payload.json.fields, pr, requestId, origin);
  }

  /** A readable payload of any other kind is the same JSON after both rebuilds. */
  lemma OtherPayloadStays(rows: seq<Row>, sql: Sqlite, i: nat)
    requires V15(rows, sql).Some? && V18(V15(rows, sql).value).Some? && i < |rows|
    requires rows[i].payload.Valid? && rows[i].kind !in ["review", "check", "runSkill", "stopReview"]
    ensures i < |V18(V15(rows, sql).value).value|
    ensures var row := V18(V15(rows, sql).value).value[i];
            row.payload == rows[i].payload && row.kind == rows[i].kind && SameIdentity(rows[i], row)
  {
    assert !Bare(rows[i]);
    PayloadStays15(rows, sql, i);
    V18Row(V15(rows, sql).value, i);
  }

  lemma NotNotification(row: Row)
    requires Untagged(row)
    ensures !Undeliverable(row)
  {
    assert |"notification"| == 12 && |"review"| == 6 && |"check"| == 5;
  }

  /** When the candidate says `review` or `check`, or says nothing, its key and the invocation's are
      the one canonical key that word migrates to. */
  lemma LegacyReviewKeysAgree(row: Row, pr: nat)
    requires LegacyReview(row)
    requires var f := row.payload.json.fields["candidate"].fields;
             if "kind" in f then f["kind"] == JStr("review") || f["kind"] == JStr("check") else "skillKey" !in f
    ensures var f := row.payload.json.fields["candidate"].fields;
            var word := if "kind" in f then f["kind"].s else row.kind;
            var key := CandidateKey(row.payload.json.fields["candidate"], row.kind);
            key == MigrateSkillKey(word) && InvocationFor(key, pr).skillKey == key
  {
    var key := CandidateKey(row.payload.json.fields["candidate"], row.kind);
    LegacyWordsCanonical(MigrateSkillKey("review"), MigrateSkillKey("check"));
    InvocationKeyIff(key, pr);
  }
}
