/** The versioned configuration table and the object that maintains it (shared/config/Config.cpp). */
module ConfigStore {
  import opened Bytes
  import opened ConfigDocs

  datatype RowState = Active | Superseded

  datatype Row = Row(version: nat, doc: Json, state: RowState)

  /** The two tables. */
  datatype Tables = Tables(startup: Option<Json>, rows: seq<Row>)

  const NoTables := Tables(None, [])

  // ---- The statements ----

  /** `UPDATE ... SET state = 'superseded' WHERE state = 'active'`. */
  function Superseding(rows: seq<Row>): (r: seq<Row>)
    ensures |r| == |rows|
  {
    seq(|rows|, i requires 0 <= i < |rows| =>
      if rows[i].state == Active then rows[i].(state := Superseded) else rows[i])
  }

  function MaxVersion(rows: seq<Row>): nat {
    if rows == [] then 0
    else if rows[0].version > MaxVersion(rows[1..]) then rows[0].version else MaxVersion(rows[1..])
  }

  /** `INSERT` of the next version as the active row. */
  function Inserting(rows: seq<Row>, doc: Json): seq<Row> {
    rows + [Row(MaxVersion(rows) + 1, doc, Active)]
  }

  /** The seed's `INSERT ... WHERE NOT EXISTS`. */
  function SeedingEmpty(rows: seq<Row>, doc: Json): seq<Row> {
    if rows == [] then [Row(1, doc, Active)] else rows
  }

  /** The back-fill's `UPDATE ... WHERE state = 'active'`. */
  function Filling(rows: seq<Row>, additions: map<string, Json>): (r: seq<Row>)
    ensures |r| == |rows|
  {
    seq(|rows|, i requires 0 <= i < |rows| =>
      if rows[i].state == Active then rows[i].(doc := Merged(rows[i].doc, additions)) else rows[i])
  }

  /** `SELECT ... WHERE state = 'active' ORDER BY version DESC LIMIT 1`. */
  function TopActive(rows: seq<Row>): Option<Row> {
    if rows == [] then None
    else
      var rest := TopActive(rows[1..]);
      if rows[0].state == Active && (rest.None? || rows[0].version > rest.value.version) then Some(rows[0]) else rest
  }

  /** `latestRunningConfig`: a document that is no object counts as absent. */
  function Latest(rows: seq<Row>): Option<Row> {
    var top := TopActive(rows);
    if top.Some? && top.value.doc.Obj? then top else None
  }

  // ---- The operations ----

  /**
   * How a statement goes: it is done, it fails and changes nothing, or it is done and its acknowledgement is lost,
   * which the program cannot tell from a failure.
   */
  datatype Answer = Done | Failed | Lost

  predicate Takes(a: Answer) { a != Failed }

  datatype SeedFaults = SeedFaults(connected: bool, upsert: Answer, insert: Answer, fill: Answer)

  /** Before its COMMIT a transaction that is not acknowledged to the last statement is rolled back, lost or failed. */
  datatype CommitFaults = CommitFaults(connected: bool, begin: bool, supersede: bool, insert: bool, commit: Answer)

  datatype Op = Seed(file: Json, seedFaults: SeedFaults) | Commit(root: Json, commitFaults: CommitFaults)

  /** The startup file, an unreadable one or one that is no object counting as empty. */
  function Startup(file: Json): (root: Json)
    ensures root.Obj?
  {
    if file.Obj? then file else Empty
  }

  function Fallback(rows: seq<Row>, file: Json): Json {
    if Latest(rows).Some? then Latest(rows).value.doc else Startup(file)
  }

  function Seeded(t: Tables, file: Json, f: SeedFaults): Tables {
    var startup := Startup(file);
    if !f.connected || startup == Empty then t
    else
      var persist := Redact(startup);
      var t1 := if Takes(f.upsert) then t.(startup := Some(persist)) else t;
      var t2 := if Takes(f.insert) then t1.(rows := SeedingEmpty(t1.rows, persist)) else t1;
      if f.insert != Done then t2
      else
        var active := Fallback(t2.rows, file);
        var additions := if active.Obj? && persist.Obj? then Additions(active.fields, persist.fields) else map[];
        if additions != map[] && Takes(f.fill) then t2.(rows := Filling(t2.rows, additions)) else t2
  }

  /** The database commits. */
  predicate TakesEffect(root: Json, f: CommitFaults) {
    root.Obj? && f.connected && f.begin && f.supersede && f.insert && Takes(f.commit)
  }

  /** The program learns that it did. */
  predicate Commits(root: Json, f: CommitFaults) {
    TakesEffect(root, f) && f.commit == Done
  }

  function Committed(t: Tables, root: Json, f: CommitFaults): Tables {
    if TakesEffect(root, f) then t.(rows := Inserting(Superseding(t.rows), Redact(root))) else t
  }

  function Step(t: Tables, op: Op): Tables {
    match op
    case Seed(file, f) => Seeded(t, file, f)
    case Commit(root, f) => Committed(t, root, f)
  }

  function Run(t: Tables, ops: seq<Op>): Tables
    decreases |ops|
  {
    if ops == [] then t else Run(Step(t, ops[0]), ops[1..])
  }

  // ---- One active row, the newest, and no secret anywhere ----

  ghost predicate RowOk(rows: seq<Row>, i: nat)
    requires i < |rows|
  {
    && rows[i].version == i + 1
    && rows[i].state == (if i == |rows| - 1 then Active else Superseded)
    && rows[i].doc.Obj? && NoSecrets(rows[i].doc)
  }

  ghost predicate Inv(t: Tables) {
    && (forall i :: 0 <= i < |t.rows| ==> RowOk(t.rows, i))
    && (t.startup.Some? ==> NoSecrets(t.startup.value))
  }

  lemma {:induction false} MaxIsCount(rows: seq<Row>, from: nat)
    requires forall i :: 0 <= i < |rows| ==> rows[i].version == from + i + 1
    ensures MaxVersion(rows) == if rows == [] then 0 else from + |rows|
    decreases |rows|
  {
    if rows != [] {
      MaxIsCount(rows[1..], from + 1);
    }
  }

  lemma {:induction false} TopIsLast(rows: seq<Row>)
    requires forall i :: 0 <= i < |rows| ==> rows[i].state == if i == |rows| - 1 then Active else Superseded
    ensures TopActive(rows) == if rows == [] then None else Some(rows[|rows| - 1])
    decreases |rows|
  {
    if rows != [] {
      TopIsLast(rows[1..]);
    }
  }

  lemma LatestIsLast(t: Tables)
    requires Inv(t)
    ensures Latest(t.rows) == if t.rows == [] then None else Some(t.rows[|t.rows| - 1])
  {
    forall i | 0 <= i < |t.rows| ensures t.rows[i].state == if i == |t.rows| - 1 then Active else Superseded {
      assert RowOk(t.rows, i);
    }
    TopIsLast(t.rows);
    if t.rows != [] {
      assert RowOk(t.rows, |t.rows| - 1);
    }
  }

  lemma RedactKeepsObjects(root: Json)
    requires root.Obj?
    ensures Redact(root).Obj? && NoSecrets(Redact(root))
  {
    RedactExactly(root, []);
  }

  lemma CommitKeepsInv(t: Tables, root: Json, f: CommitFaults)
    requires Inv(t)
    ensures Inv(Committed(t, root, f))
  {
    if TakesEffect(root, f) {
      var was := Superseding(t.rows);
      var rows := Inserting(was, Redact(root));
      forall i | 0 <= i < |t.rows| ensures was[i].version == 0 + i + 1 { assert RowOk(t.rows, i); }
      MaxIsCount(was, 0);
      RedactKeepsObjects(root);
      forall i | 0 <= i < |rows| ensures RowOk(rows, i) {
        if i < |t.rows| { assert RowOk(t.rows, i); }
      }
    }
  }

  /** The back-fill changes the document of the last row only. */
  lemma FillingIsLast(t: Tables, additions: map<string, Json>)
    requires Inv(t) && t.rows != []
    ensures var n := |t.rows| - 1;
      Filling(t.rows, additions) == t.rows[n := t.rows[n].(doc := Merged(t.rows[n].doc, additions))]
  {
    forall i | 0 <= i < |t.rows| ensures t.rows[i].state == if i == |t.rows| - 1 then Active else Superseded {
      assert RowOk(t.rows, i);
    }
  }

  lemma FillingKeepsInv(t: Tables, persist: Json)
    requires Inv(t) && t.rows != [] && persist.Obj? && NoSecrets(persist)
    ensures var doc := t.rows[|t.rows| - 1].doc;
      && doc.Obj? && Latest(t.rows) == Some(t.rows[|t.rows| - 1])
      && Inv(t.(rows := Filling(t.rows, Additions(doc.fields, persist.fields))))
  {
    LatestIsLast(t);
    var n := |t.rows| - 1;
    assert RowOk(t.rows, n);
    var doc := t.rows[n].doc;
    var additions := Additions(doc.fields, persist.fields);
    FillingIsLast(t, additions);
    BackFillKeepsSecretsOut(doc, persist);
    BackFillScope(doc, persist, "pretzel");
    var rows := Filling(t.rows, additions);
    forall i | 0 <= i < |rows| ensures RowOk(rows, i) {
      assert RowOk(t.rows, i);
    }
  }

  /** The tables once the seed's first two statements have run. */
  function Stocked(t: Tables, doc: Json, upsert: bool): Tables {
    Tables(if upsert then Some(doc) else t.startup, SeedingEmpty(t.rows, doc))
  }

  lemma StockedKeepsInv(t: Tables, doc: Json, upsert: bool)
    requires Inv(t) && doc.Obj? && NoSecrets(doc)
    ensures var t1 := Stocked(t, doc, upsert);
      Inv(t1) && t1.rows != [] && t1.rows[|t1.rows| - 1].doc.Obj? && Latest(t1.rows) == Some(t1.rows[|t1.rows| - 1])
  {
    var t1 := Stocked(t, doc, upsert);
    forall i | 0 <= i < |t1.rows| ensures RowOk(t1.rows, i) {
      assert t.rows != [] ==> RowOk(t.rows, i);
    }
    LatestIsLast(t1);
    assert RowOk(t1.rows, |t1.rows| - 1);
  }

  /** What a seed that gets to its back-fill leaves: the stocked tables with the last document back-filled, or not. */
  lemma SeedIs(t: Tables, file: Json, f: SeedFaults)
    requires Inv(t) && file.Obj? && file != Empty && f.connected && f.insert == Done
    ensures var persist := Redact(file);
      var t1 := Stocked(t, persist, Takes(f.upsert));
      && persist.Obj? && NoSecrets(persist) && Inv(t1) && t1.rows != []
      && var last := t1.rows[|t1.rows| - 1];
      && last.doc.Obj?
      && var additions := Additions(last.doc.fields, persist.fields);
      Seeded(t, file, f) == if additions != map[] && Takes(f.fill) then t1.(rows := Filling(t1.rows, additions)) else t1
  {
    RedactKeepsObjects(file);
    StockedKeepsInv(t, Redact(file), Takes(f.upsert));
  }

  lemma SeedKeepsInv(t: Tables, file: Json, f: SeedFaults)
    requires Inv(t)
    ensures Inv(Seeded(t, file, f))
  {
    if f.connected && Startup(file) != Empty {
      RedactKeepsObjects(file);
      var persist := Redact(file);
      StockedKeepsInv(t, persist, Takes(f.upsert));
      if f.insert == Done {
        SeedIs(t, file, f);
        FillingKeepsInv(Stocked(t, persist, Takes(f.upsert)), persist);
      }
    }
  }

  /** Over any run of seeds and commits, failing or not, from empty tables. */
  lemma {:induction false} RunKeepsInv(t: Tables, ops: seq<Op>)
    requires Inv(t)
    ensures Inv(Run(t, ops))
    decreases |ops|
  {
    if ops != [] {
      match ops[0] {
        case Seed(file, f) => SeedKeepsInv(t, file, f);
        case Commit(root, f) => CommitKeepsInv(t, root, f);
      }
      RunKeepsInv(Step(t, ops[0]), ops[1..]);
    }
  }

  /** The table is empty or exactly one row is active, it holds the greatest version, and it is the one that is read. */
  lemma OneActiveRow(ops: seq<Op>)
    ensures var rows := Run(NoTables, ops).rows;
      rows == [] ||
        exists n :: 0 <= n < |rows| && rows[n].version == MaxVersion(rows) && Latest(rows) == Some(rows[n])
          && forall i :: 0 <= i < |rows| ==> (rows[i].state == Active <==> i == n)
  {
    RunKeepsInv(NoTables, ops);
    var t := Run(NoTables, ops);
    if t.rows != [] {
      forall i | 0 <= i < |t.rows| ensures t.rows[i].version == 0 + i + 1
                                           && (t.rows[i].state == Active <==> i == |t.rows| - 1) {
        assert RowOk(t.rows, i);
      }
      MaxIsCount(t.rows, 0);
      LatestIsLast(t);
    }
  }

  /** No stored document holds the database password or the console's administrator. */
  lemma NoStoredSecrets(ops: seq<Op>)
    ensures var t := Run(NoTables, ops);
      && (forall row | row in t.rows :: NoSecrets(row.doc))
      && (t.startup.Some? ==> NoSecrets(t.startup.value))
  {
    RunKeepsInv(NoTables, ops);
    var t := Run(NoTables, ops);
    forall row | row in t.rows ensures NoSecrets(row.doc) {
      var i :| 0 <= i < |t.rows| && t.rows[i] == row;
      assert RowOk(t.rows, i);
    }
  }

  // ---- What a step leaves alone ----

  /** A version once superseded is never changed, and no version disappears. */
  lemma HistoryIsKept(t: Tables, op: Op, i: nat)
    requires Inv(t) && i < |t.rows|
    ensures var after := Step(t, op).rows;
      && i < |after| && after[i].version == t.rows[i].version
      && (i < |t.rows| - 1 || (op.Commit? && TakesEffect(op.root, op.commitFaults)) ==> after[i].doc == t.rows[i].doc)
      && (i < |t.rows| - 1 ==> after[i] == t.rows[i])
  {
    assert RowOk(t.rows, i);
    if op.Seed? && op.seedFaults.connected && Startup(op.file) != Empty && op.seedFaults.insert == Done {
      var f, persist := op.seedFaults, Redact(op.file);
      SeedIs(t, op.file, f);
      var t1 := Stocked(t, persist, Takes(f.upsert));
      assert t1.rows == t.rows;
      FillingIsLast(t1, Additions(t1.rows[|t1.rows| - 1].doc.fields, persist.fields));
    }
  }

  /** What was committed is what is read, one version up; a commit without effect leaves the tables as they were. */
  lemma CommittedIsRead(t: Tables, root: Json, f: CommitFaults)
    requires Inv(t)
    ensures var after := Committed(t, root, f);
      if TakesEffect(root, f) then Latest(after.rows) == Some(Row(|t.rows| + 1, Redact(root), Active)) else after == t
  {
    CommitKeepsInv(t, root, f);
    LatestIsLast(Committed(t, root, f));
    if TakesEffect(root, f) {
      var was := Superseding(t.rows);
      forall i | 0 <= i < |t.rows| ensures was[i].version == 0 + i + 1 { assert RowOk(t.rows, i); }
      MaxIsCount(was, 0);
    }
  }

  /** A seed on a table with rows neither adds a version nor changes a domain of the active document. */
  lemma SeedKeepsDomains(t: Tables, file: Json, f: SeedFaults, k: string, d: string)
    requires Inv(t) && t.rows != [] && Lookup(t.rows[|t.rows| - 1].doc, [k, d]).Some?
    ensures var after := Seeded(t, file, f).rows;
      && |after| == |t.rows|
      && Lookup(after[|after| - 1].doc, [k, d]) == Lookup(t.rows[|t.rows| - 1].doc, [k, d])
  {
    if f.connected && Startup(file) != Empty && f.insert == Done {
      SeedIs(t, file, f);
      var persist := Redact(file);
      var t1 := Stocked(t, persist, Takes(f.upsert));
      var doc := t1.rows[|t1.rows| - 1].doc;
      FillingIsLast(t1, Additions(doc.fields, persist.fields));
      BackFillKeepsDomains(doc, persist, k, d);
    }
  }

  /** Restarting any number of times, with whatever startup files, never touches what the operator committed. */
  lemma {:induction false} RestartsKeepDomains(t: Tables, ops: seq<Op>, k: string, d: string)
    requires Inv(t) && t.rows != [] && Lookup(t.rows[|t.rows| - 1].doc, [k, d]).Some?
    requires forall op | op in ops :: op.Seed?
    ensures var after := Run(t, ops).rows;
      && |after| == |t.rows|
      && Lookup(after[|after| - 1].doc, [k, d]) == Lookup(t.rows[|t.rows| - 1].doc, [k, d])
    decreases |ops|
  {
    if ops != [] {
      var op := ops[0];
      assert op in ops;
      SeedKeepsInv(t, op.file, op.seedFaults);
      SeedKeepsDomains(t, op.file, op.seedFaults, k, d);
      RestartsKeepDomains(Step(t, op), ops[1..], k, d);
    }
  }

  /**
   * What a restart with a new startup document brings in: every scope and every domain that the active document does
   * not have and whose key does not begin with two slashes, and nothing else; what was there stays.
   */
  lemma SeedFillsIn(t: Tables, file: Json, f: SeedFaults, k: string, d: string)
    requires Inv(t) && t.rows != [] && file.Obj? && file != Empty
    requires f.connected && f.insert == Done && f.fill != Failed
    ensures var n, wanted := |t.rows| - 1, Redact(file);
      var after := Seeded(t, file, f).rows;
      && |after| == n + 1 && after[..n] == t.rows[..n] && after[n].version == t.rows[n].version
      && (f.upsert != Failed ==> Seeded(t, file, f).startup == Some(wanted))
      && t.rows[n].doc.Obj? && after[n].doc.Obj? && wanted.Obj?
      && FilledAt(t.rows[n].doc.fields, wanted.fields, after[n].doc.fields, k, d)
  {
    var n, wanted := |t.rows| - 1, Redact(file);
    SeedIs(t, file, f);
    var t1 := Stocked(t, wanted, Takes(f.upsert));
    var doc := t.rows[n].doc;
    var additions := Additions(doc.fields, wanted.fields);
    FillingIsLast(t1, additions);
    NothingToMerge(doc);
    assert Seeded(t, file, f).rows[n].doc == BackFilled(doc, wanted);
    FilledBy(doc, wanted, k, d);
  }

  /** Key `k`, and within it key `d`, after `wanted` was filled in to `have`. */
  ghost predicate FilledAt(have: map<string, Json>, wanted: map<string, Json>, after: map<string, Json>, k: string,
                           d: string) {
    && (k in after <==> k in have || (k in wanted && !("//" <= k)))
    && (k in have && k in wanted && !("//" <= k) && have[k].Obj? && wanted[k].Obj? ==>
          && after[k].Obj?
          && (d in after[k].fields <==> d in have[k].fields || (d in wanted[k].fields && !("//" <= d)))
          && (d in have[k].fields ==> after[k].fields[d] == have[k].fields[d])
          && (d in after[k].fields && d !in have[k].fields ==> after[k].fields[d] == wanted[k].fields[d]))
    && (k in have && !(k in wanted && !("//" <= k) && have[k].Obj? && wanted[k].Obj?) ==> after[k] == have[k])
    && (k in after && k !in have && wanted[k].Obj? ==> after[k] == wanted[k])
  }

  lemma FilledBy(doc: Json, wanted: Json, k: string, d: string)
    requires doc.Obj? && wanted.Obj?
    ensures BackFilled(doc, wanted).Obj?
    ensures FilledAt(doc.fields, wanted.fields, BackFilled(doc, wanted).fields, k, d)
  {
    BackFillScope(doc, wanted, k);
    if k in doc.fields && k in wanted.fields && !("//" <= k) && doc.fields[k].Obj? && wanted.fields[k].Obj? {
      BackFillDomain(doc, wanted, k, d);
    }
  }

  /** The first seed of an empty table makes the redacted startup document version 1, as it is. */
  lemma FirstSeed(file: Json, f: SeedFaults)
    requires file.Obj? && file != Empty && f.connected && Takes(f.insert)
    ensures Seeded(NoTables, file, f).rows == [Row(1, Redact(file), Active)]
  {
    if f.insert == Done {
      SeedIs(NoTables, file, f);
    }
    var persist := Redact(file);
    RedactKeepsObjects(file);
    forall k ensures !Lacks(persist.fields, persist.fields, k) {
      if k in persist.fields && persist.fields[k].Obj? {
        assert Missing(persist.fields[k].fields, persist.fields[k].fields) == map[];
      }
    }
  }

  /** All of a seed's statements took effect, and it learned that the second did. */
  predicate WentThrough(f: SeedFaults) {
    f.connected && Takes(f.upsert) && f.insert == Done && Takes(f.fill)
  }

  /** Seeding again from the same file changes nothing once a seed has gone through. */
  lemma SeedIsIdempotent(t: Tables, file: Json, f: SeedFaults, g: SeedFaults)
    requires Inv(t) && WentThrough(f)
    ensures var once := Seeded(t, file, f); Seeded(once, file, g) == once
  {
    if Startup(file) != Empty && g.connected {
      SeedKeepsInv(t, file, f);
      SeededIsFilled(t, file, f, Seeded(t, file, f));
      NothingToSeed(Seeded(t, file, f), file, g, Seeded(Seeded(t, file, f), file, g));
    }
  }

  lemma NothingToSeed(t: Tables, file: Json, g: SeedFaults, again: Tables)
    requires Inv(t) && t.rows != [] && file.Obj? && file != Empty && g.connected && again == Seeded(t, file, g)
    requires t.startup == Some(Redact(file)) && Redact(file).Obj?
    requires var doc := t.rows[|t.rows| - 1].doc; doc.Obj? && Additions(doc.fields, Redact(file).fields) == map[]
    ensures again == t
  {
    if g.insert == Done {
      SeedIs(t, file, g);
    }
    assert t.(startup := Some(Redact(file))) == t;
  }

  /** After a seed that went through, the startup document is stored and the active one has nothing missing. */
  lemma SeededIsFilled(t: Tables, file: Json, f: SeedFaults, once: Tables)
    requires Inv(t) && WentThrough(f) && file.Obj? && file != Empty && once == Seeded(t, file, f)
    ensures once.startup == Some(Redact(file)) && Redact(file).Obj? && once.rows != []
    ensures var doc := once.rows[|once.rows| - 1].doc; doc.Obj? && Additions(doc.fields, Redact(file).fields) == map[]
  {
    var persist := Redact(file);
    SeedIs(t, file, f);
    var t1 := Stocked(t, persist, true);
    var doc := t1.rows[|t1.rows| - 1].doc;
    var additions := Additions(doc.fields, persist.fields);
    FillingIsLast(t1, additions);
    BackFillIsIdempotent(doc, persist);
    NothingToMerge(doc);
  }

  // ---- The object ----

  /** The store as its process sees it: the database's tables and the cached running configuration. */
  class Config {
    var startup: Option<Json>
    var rows: seq<Row>
    var loaded: bool
    var root: Json
    var version: nat

    ghost function Stored(): Tables
      reads this
    {
      Tables(startup, rows)
    }

    constructor ()
      ensures Stored() == NoTables && !loaded && root == Empty && version == 0
    {
      startup, rows := None, [];
      loaded, root, version := false, Empty, 0;
    }

    /** `exec` of a statement on the running configuration that leaves `result` if it takes effect. */
    method Execute(answer: Answer, result: seq<Row>) returns (ok: bool)
      modifies this`rows
      ensures rows == if Takes(answer) then result else old(rows)
      ensures ok <==> answer == Done
    {
      if Takes(answer) {
        rows := result;
      }
      ok := answer == Done;
    }

    /** `loadRunningConfigRoot` of the seeding process. */
    method LoadRunningConfigRoot(connected: bool, file: Json) returns (doc: Json)
      modifies this`version
      ensures doc == if connected then Fallback(rows, file) else Startup(file)
      ensures version == if connected && Latest(rows).Some? then Latest(rows).value.version else 0
    {
      version := 0;
      if !connected {
        return Startup(file);
      }
      var latest := Latest(rows);
      if latest.Some? {
        version := latest.value.version;
        return latest.value.doc;
      }
      return Startup(file);
    }

    /** `cachedRunningConfig`. */
    method CachedRunningConfig(connected: bool, file: Json) returns (doc: Json)
      modifies this`version, this`root, this`loaded
      ensures loaded && doc == root
      ensures old(loaded) ==> root == old(root) && version == old(version)
      ensures !old(loaded) && connected && Latest(rows).Some? ==>
        root == Latest(rows).value.doc && version == Latest(rows).value.version
      ensures !old(loaded) && (!connected || Latest(rows).None?) ==> root == Startup(file) && version == 0
    {
      if !loaded {
        root := LoadRunningConfigRoot(connected, file);
        loaded := true;
      }
      doc := root;
    }

    /** The domains of one scope that the running configuration lacks. */
    method MissingDomains(have: map<string, Json>, wanted: map<string, Json>) returns (missing: map<string, Json>)
      ensures missing == Missing(have, wanted)
    {
      missing := map[];
      var left := wanted.Keys;
      while left != {}
        invariant left <= wanted.Keys
        invariant missing == map d | d in wanted && d !in left && !Comment(d) && d !in have :: wanted[d]
        decreases left
      {
        var d :| d in left;
        left := left - {d};
        if Comment(d) {
          continue;
        }
        if d !in have {
          missing := missing[d := wanted[d]];
        }
      }
    }

    /** The loop over the scopes of the startup document. */
    method CollectAdditions(active: map<string, Json>, wanted: map<string, Json>) returns (additions: map<string, Json>)
      ensures additions == Additions(active, wanted)
    {
      additions := map[];
      var left := wanted.Keys;
      while left != {}
        invariant left <= wanted.Keys
        invariant additions == map k | k in wanted && k !in left && Lacks(active, wanted, k) ::
          Addition(active, wanted, k)
        decreases left
      {
        var k :| k in left;
        left := left - {k};
        if Comment(k) {
          continue;
        }
        if k !in active {
          additions := additions[k := wanted[k]];
          continue;
        }
        if !active[k].Obj? || !wanted[k].Obj? {
          continue;
        }
        var missing := MissingDomains(active[k].fields, wanted[k].fields);
        if missing != map[] {
          additions := additions[k := Obj(missing)];
        }
      }
    }

    /** `seedStore`. */
    method SeedStore(file: Json, f: SeedFaults) returns (ok: bool)
      modifies this`startup, this`rows, this`version
      ensures Stored() == Step(old(Stored()), Seed(file, f))
      ensures ok <==> f.connected && Startup(file) != Empty && f.insert == Done
    {
      if !f.connected {
        return false;
      }
      var startupRoot := Startup(file);
      if startupRoot == Empty {
        return false;
      }
      var persist := Redact(startupRoot);
      if Takes(f.upsert) {
        startup := Some(persist);
      }
      ok := Execute(f.insert, SeedingEmpty(rows, persist));
      if !ok {
        return false;
      }
      var active := LoadRunningConfigRoot(true, file);
      var additions: map<string, Json> := map[];
      if active.Obj? && persist.Obj? {
        additions := CollectAdditions(active.fields, persist.fields);
      }
      if additions != map[] {
        var filled := Execute(f.fill, Filling(rows, additions));
      }
      return true;
    }

    /** `commitConfig`: one transaction. The cache is stale afterwards if the program learns that it took effect. */
    method CommitConfig(fullRoot: Json, f: CommitFaults) returns (ok: bool)
      modifies this`rows, this`loaded
      ensures Stored() == Step(old(Stored()), Commit(fullRoot, f))
      ensures ok <==> Commits(fullRoot, f)
      ensures loaded == (old(loaded) && !ok)
    {
      if !fullRoot.Obj? || !f.connected || !f.begin {
        return false;
      }
      var pending := rows;
      ok := f.supersede;
      if ok {
        pending := Superseding(pending);
        ok := f.insert;
      }
      if ok {
        pending := Inserting(pending, Redact(fullRoot));
        ok := Execute(f.commit, pending);
      }
      if ok {
        loaded := false;
      }
    }

    /**
     * A read after a commit gives the committed document, without its secrets, and its version, if the commit was
     * acknowledged. A cache that was current before it is stale exactly if it took effect without that.
     */
    method CommitThenRead(fullRoot: Json, f: CommitFaults, file: Json) returns (ok: bool, doc: Json)
      requires Inv(Stored())
      modifies this
      ensures Inv(Stored()) && (ok <==> Commits(fullRoot, f))
      ensures ok ==> doc == Redact(fullRoot) && version == |old(rows)| + 1
      ensures old(loaded) && old(rows) != [] && old(version) == |old(rows)| ==>
        Latest(rows).Some? && (version != Latest(rows).value.version <==> TakesEffect(fullRoot, f) && !ok)
    {
      CommittedIsRead(Stored(), fullRoot, f);
      LatestIsLast(Stored());
      CommitKeepsInv(Stored(), fullRoot, f);
      assert rows != [] ==> RowOk(rows, |rows| - 1);
      ok := CommitConfig(fullRoot, f);
      doc := CachedRunningConfig(true, file);
    }
  }
}
