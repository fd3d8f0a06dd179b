/** The two rebuilds of the outbox table: v15 gives every row a permanent identity and a closed status,
    v18 turns review and check rows into skill runs. */
module OutboxRebuild {
  import opened Text
  import opened PayloadMigration
  import opened SkillIdentity
  import K = ProducerKeys

  datatype Stored = Valid(json: Json) | Malformed(text: string)

  /** Attempt counts and times are copied unchanged and left out. Rows of v14 have no producer yet. */
  datatype Row = Row(id: nat, project: string, kind: string, summary: string, payload: Stored, status: string,
                     dedupe: Option<string>, producer: string, thread: Option<string>, lastError: Option<string>)

  /** What SQLite makes of values that leave JSON and come back: text is parsed again (none is an
      error), numbers are printed again. */
  datatype Sqlite = Sqlite(reparse: string -> Option<Json>, renumber: Json -> Json)

  const KINDS_V15 := ["notification", "review", "check", "stopReview", "messagingReply", "messagingSend"]
  const KINDS_V18 := ["notification", "runSkill", "stopReview", "messagingReply", "messagingSend"]
  const STATUSES := ["pending", "blocked", "done", "dead"]

  const INVALID_PAYLOAD := "legacy payload invalid during schema v15 migration"
  const REMOVED_PAYLOAD := "legacy notification payload removed by schema v15"

  // ---------------------------------------------------------------- v15, row by row

  function Quarantined(row: Row): Row {
    if row.payload.Malformed?
        then row.(payload := Valid(JObj(map[])), status := "dead", lastError := Some(INVALID_PAYLOAD))
    else row
  }

  predicate Untagged(row: Row) {
    (row.kind == "review" || row.kind == "check") && row.payload.Valid? && row.payload.json.JObj?
    && "kind" !in row.payload.json.fields && "candidate" in row.payload.json.fields
  }

  /** `json(json_extract(payload, '$.candidate'))` */
  function Reextracted(v: Json, sql: Sqlite): Option<Json> {
    match v
    case JStr(s) => sql.reparse(s)
    case JBool(b) => Some(JInt(if b then 1 else 0))
    case JInt(_) => Some(sql.renumber(v))
    case JFloat(_) => Some(sql.renumber(v))
    case _ => Some(v)
  }

  function Tagged(row: Row, sql: Sqlite): Option<Row> {
    if !Untagged(row) then Some(row)
    else
      match Reextracted(row.payload.json.fields["candidate"], sql)
      case None => None
      case Some(c) => Some(row.(payload := Valid(JObj(map["kind" := JStr("automatic"), "candidate" := c]))))
  }

  predicate Undeliverable(row: Row) {
    row.kind == "notification" && row.status == "pending"
    && !(row.payload.Valid? && row.payload.json.JObj? && "notification" in row.payload.json.fields)
  }

  function Copied(row: Row): Row {
    var copy := row.(producer := K.LegacyText(row.id), thread := None);
    if Undeliverable(row) then copy.(status := "dead", lastError := Some(REMOVED_PAYLOAD)) else copy
  }

  /** The CHECK constraints of the rebuilt table. */
  predicate Checked(row: Row, kinds: seq<string>, reviewKinds: seq<string>) {
    row.kind in kinds && row.status in STATUSES && row.payload.Valid? && row.producer != ""
    && (row.thread.Some? ==> row.kind in reviewKinds)
  }

  predicate Checked15(row: Row) {
    Checked(row, KINDS_V15, ["review", "check"])
  }

  predicate Checked18(row: Row) {
    Checked(row, KINDS_V18, ["runSkill"])
  }

  predicate Live(row: Row) {
    row.status == "pending" || row.status == "blocked"
  }

  predicate SameLiveKey(a: Row, b: Row) {
    Live(a) && Live(b) && a.dedupe.Some? && a.project == b.project && a.dedupe == b.dedupe
  }

  /** The unique indexes on live dedupe keys and on producers. */
  predicate Indexed(rows: seq<Row>) {
    forall i, j :: 0 <= i < j < |rows| ==> !SameLiveKey(rows[i], rows[j]) && rows[i].producer != rows[j].producer
  }

  function QuarantinedAll(rows: seq<Row>): (r: seq<Row>)
    ensures |r| == |rows| && forall i :: 0 <= i < |rows| ==> r[i] == Quarantined(rows[i])
  {
    seq(|rows|, i requires 0 <= i < |rows| => Quarantined(rows[i]))
  }

  predicate Taggable(rows: seq<Row>, sql: Sqlite) {
    forall i :: 0 <= i < |rows| ==> Tagged(rows[i], sql).Some?
  }

  function TaggedAll(rows: seq<Row>, sql: Sqlite): (r: seq<Row>)
    requires Taggable(rows, sql)
    ensures |r| == |rows| && forall i :: 0 <= i < |rows| ==> Some(r[i]) == Tagged(rows[i], sql)
  {
    seq(|rows|, i requires 0 <= i < |rows| => Tagged(rows[i], sql).value)
  }

  function CopiedAll(rows: seq<Row>): (r: seq<Row>)
    ensures |r| == |rows| && forall i :: 0 <= i < |rows| ==> r[i] == Copied(rows[i])
  {
    seq(|rows|, i requires 0 <= i < |rows| => Copied(rows[i]))
  }

  predicate AllChecked15(rows: seq<Row>) {
    forall i :: 0 <= i < |rows| ==> Checked15(rows[i])
  }

  /** The table after v15; none when the migration fails and is rolled back. */
  function V15(rows: seq<Row>, sql: Sqlite): Option<seq<Row>> {
    var clean := QuarantinedAll(rows);
    if !Taggable(clean, sql) then None
    else
      var copy := CopiedAll(TaggedAll(clean, sql));
      if AllChecked15(copy) && Indexed(copy) then Some(copy) else None
  }

  // ---------------------------------------------------------------- v18, row by row

  function Payload18(row: Row): Stored {
    if row.payload.Malformed? then row.payload
    else if row.kind == "review" || row.kind == "check" then Valid(ReviewPayload(row.kind, row.payload.json))
    else if row.kind == "runSkill" then Valid(ReviewPayload("review", row.payload.json))
    else if row.kind == "stopReview" then Valid(StopPayload(row.payload.json))
    else row.payload
  }

  function Row18(row: Row): Row {
    row.(payload := Payload18(row), kind := if row.kind == "review" || row.kind == "check" then "runSkill"
        else row.kind)
  }

  function Rows18(rows: seq<Row>): (r: seq<Row>)
    ensures |r| == |rows| && forall i :: 0 <= i < |rows| ==> r[i] == Row18(rows[i])
  {
    seq(|rows|, i requires 0 <= i < |rows| => Row18(rows[i]))
  }

  predicate AllChecked18(rows: seq<Row>) {
    forall i :: 0 <= i < |rows| ==> Checked18(rows[i])
  }

  /** The table after v18; none when the rebuild fails. */
  function V18(rows: seq<Row>): Option<seq<Row>> {
    if AllChecked18(Rows18(rows)) && Indexed(Rows18(rows)) then Some(Rows18(rows)) else None
  }

  predicate UniqueIds(rows: seq<Row>) {
    forall i, j :: 0 <= i < j < |rows| ==> rows[i].id != rows[j].id
  }

  // ---------------------------------------------------------------- the migrations, in place

  class Table {
    var rows: seq<Row>

    constructor (rows: seq<Row>)
      ensures this.rows == rows
    {
      this.rows := rows;
    }

    method QuarantineAll()
      modifies this
      ensures rows == QuarantinedAll(old(rows))
    {
      ghost var before := rows;
      for i := 0 to |rows|
        invariant |rows| == |before|
        invariant forall j :: 0 <= j < i ==> rows[j] == Quarantined(before[j])
        invariant forall j :: i <= j < |rows| ==> rows[j] == before[j]
      {
        if rows[i].payload.Malformed? {
          var dead := rows[i].(payload := Valid(JObj(map[])), status := "dead");
          rows := rows[i := dead.(lastError := Some(INVALID_PAYLOAD))];
        }
      }
    }

    method TagAll(sql: Sqlite) returns (ok: bool)
      modifies this
      ensures ok <==> Taggable(old(rows), sql)
      ensures ok ==> rows == TaggedAll(old(rows), sql)
    {
      ghost var before := rows;
      for i := 0 to |rows|
        invariant |rows| == |before|
        invariant forall j :: 0 <= j < i ==> Some(rows[j]) == Tagged(before[j], sql)
        invariant forall j :: i <= j < |rows| ==> rows[j] == before[j]
      {
        if Untagged(rows[i]) {
          var c := Reextracted(rows[i].payload.json.fields["candidate"], sql);
          if c.None? {
            assert Tagged(before[i], sql).None?;
            return false;
          }
          rows := rows[i := rows[i].(payload := Valid(JObj(map["kind" := JStr("automatic"), "candidate" := c.value])))];
        }
      }
      ok := true;
    }

    /** CREATE, INSERT ... SELECT, DROP, RENAME, CREATE UNIQUE INDEX. */
    method Rebuild15() returns (ok: bool)
      modifies this
      ensures ok <==> AllChecked15(CopiedAll(old(rows))) && Indexed(CopiedAll(old(rows)))
      ensures ok ==> rows == CopiedAll(old(rows))
    {
      ghost var all := CopiedAll(rows);
      var copy: seq<Row> := [];
      for i := 0 to |rows|
        invariant rows == old(rows) && |copy| == i
        invariant forall j :: 0 <= j < i ==> copy[j] == all[j] && Checked15(copy[j])
      {
        var row := Copied(rows[i]);
        assert all[i] == row;
        if !Checked15(row) { return false; }
        copy := copy + [row];
      }
      assert copy == all;
      ok := Indexed(copy);
      rows := copy;
    }

    /** `apply_v15` on the outbox: everything or, after the rollback, nothing. */
    method ApplyV15(sql: Sqlite) returns (ok: bool)
      modifies this
      ensures ok <==> V15(old(rows), sql).Some?
      ensures rows == if ok then V15(old(rows), sql).value else old(rows)
    {
      var saved := rows;
      QuarantineAll();
      ok := TagAll(sql);
      if ok { ok := Rebuild15(); }
      if !ok { rows := saved; }
    }

    /** UPDATE ... SET payload WHERE id */
    method SetPayload(id: nat, payload: Stored)
      modifies this
      ensures |rows| == |old(rows)|
      ensures forall i :: 0 <= i < |rows| ==>
                rows[i] == (if old(rows)[i].id == id then old(rows)[i].(payload := payload) else old(rows)[i])
    {
      var before := rows;
      rows := seq(|before|, i requires 0 <= i < |before| => if before[i].id == id then before[i].(payload := payload)
          else before[i]);
    }

    method PayloadOf(row: Row) returns (payload: Stored)
      ensures payload == Payload18(row)
    {
      payload := row.payload;
      if row.payload.Malformed? { return; }
      var json := row.payload.json;
      if row.kind == "review" || row.kind == "check" {
        json := MigrateReviewPayload(row.kind, json);
      } else if row.kind == "runSkill" {
        json := MigrateReviewPayload("review", json);
      } else if row.kind == "stopReview" {
        json := MigrateStopPayload(json);
      }
      payload := Valid(json);
    }

    /** `migrate_v18_action_outbox_payloads_only`: the loop over a snapshot of the table. */
    method MigratePayloads()
      requires UniqueIds(rows)
      modifies this
      ensures |rows| == |old(rows)|
      ensures forall i :: 0 <= i < |rows| ==> rows[i] == old(rows)[i].(payload := Payload18(old(rows)[i]))
    {
      var snapshot := rows;
      for i := 0 to |snapshot|
        invariant |rows| == |snapshot|
        invariant forall j :: 0 <= j < i ==> rows[j] == snapshot[j].(payload := Payload18(snapshot[j]))
        invariant forall j :: i <= j < |rows| ==> rows[j] == snapshot[j]
      {
        assert forall j :: 0 <= j < |snapshot| && j != i ==> snapshot[j].id != snapshot[i].id;
        var payload := PayloadOf(snapshot[i]);
        if payload != snapshot[i].payload { SetPayload(snapshot[i].id, payload); }
      }
    }

    /** The outbox part of `apply_v18`. */
    method ApplyV18() returns (ok: bool)
      requires UniqueIds(rows)
      modifies this
      ensures ok <==> V18(old(rows)).Some?
      ensures ok ==> rows == V18(old(rows)).value
    {
      ghost var all := Rows18(rows);
      MigratePayloads();
      var copy: seq<Row> := [];
      for i := 0 to |rows|
        invariant |rows| == |all| && |copy| == i
        invariant forall j :: 0 <= j < |rows| ==> rows[j] == old(rows)[j].(payload := Payload18(old(rows)[j]))
        invariant forall j :: 0 <= j < i ==> copy[j] == all[j] && Checked18(copy[j])
      {
        var row := rows[i].(kind := if rows[i].kind == "review" || rows[i].kind == "check" then "runSkill"
            else rows[i].kind);
        assert row == all[i];
        if !Checked18(row) { return false; }
        copy := copy + [row];
      }
      assert copy == all;
      ok := Indexed(copy);
      rows := copy;
    }
  }
}
