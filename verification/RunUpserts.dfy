/**
 The guarded upserts of workflow runs and jobs. Events arrive at least once and in any order;
 one conditional SQL statement per event (or per batch) decides whether the stored row moves.
 */
module RunUpserts {
  import opened Common
  import opened Sorting

  // ---------------------------------------------------------------------------------------
  // SQL's three-valued logic
  // ---------------------------------------------------------------------------------------

  datatype Tri = Yes | No | Unknown

  function Of(b: bool): Tri { if b then Yes else No }

  function Or3(x: Tri, y: Tri): Tri {
    if x == Yes || y == Yes then Yes else if x == No && y == No then No else Unknown
  }

  function And3(x: Tri, y: Tri): Tri {
    if x == No || y == No then No else if x == Yes && y == Yes then Yes else Unknown
  }

  function Less3(x: Option<int>, y: Option<int>): Tri {
    if x.None? || y.None? then Unknown else Of(x.value < y.value)
  }

  function Equal3(x: Option<int>, y: Option<int>): Tri {
    if x.None? || y.None? then Unknown else Of(x == y)
  }

  function Rank3(x: Tri): nat {
    match x
    case No => 0
    case Unknown => 1
    case Yes => 2
  }

  /** AND is the worse of its sides and OR the better, NULL between false and true; a comparison with NULL is NULL. */
  lemma ThreeValued(x: Tri, y: Tri, a: Option<int>, b: Option<int>)
    ensures Rank3(And3(x, y)) == if Rank3(x) <= Rank3(y) then Rank3(x) else Rank3(y)
    ensures Rank3(Or3(x, y)) == if Rank3(x) >= Rank3(y) then Rank3(x) else Rank3(y)
    ensures a.None? || b.None? <==> Less3(a, b) == Unknown
    ensures a.None? || b.None? <==> Equal3(a, b) == Unknown
    ensures a.Some? && b.Some? ==> (Less3(a, b) == Yes <==> a.value < b.value) && (Equal3(a, b) == Yes <==> a == b)
  {
  }

  // ---------------------------------------------------------------------------------------
  // Runs
  // ---------------------------------------------------------------------------------------

  type RunId = int

  /** The columns every ingest path writes. `rest` stands for those no guard looks at. */
  datatype RunColumns = RunColumns(status: Option<string>, conclusion: Option<string>, updatedAt: Option<int>,
                                   completedAt: Option<int>, rest: string)

  /** `raw_payload` is written by webhooks and left out by the reconcile poller. */
  datatype PayloadColumn = Omitted | Given(payload: string)

  datatype RunEvent = RunEvent(id: RunId, columns: RunColumns, payload: PayloadColumn)
  datatype RunRow = RunRow(columns: RunColumns, payload: Option<string>)

  /** A run object as GitHub sends it. */
  datatype RunObject = RunObject(id: RunId, status: Option<string>, conclusion: Option<string>,
                                 updatedAt: Option<int>, rest: string, json: string)

  /** The columns of a run object: a concluded run completed when it was last updated. */
  function NormalizeRun(run: RunObject): RunEvent {
    var concluded := run.conclusion.Some? && run.conclusion.value != "";
    RunEvent(run.id,
             RunColumns(run.status, run.conclusion, run.updatedAt, if concluded then run.updatedAt else None, run.rest),
             Given(run.json))
  }

  /** The WHERE clause of the upsert. */
  function Guard(stored: RunColumns, incoming: RunColumns): Tri {
    Or3(Or3(Of(stored.updatedAt.None?), Less3(stored.updatedAt, incoming.updatedAt)),
        And3(Equal3(stored.updatedAt, incoming.updatedAt),
             Or3(Of(stored.status != incoming.status), Of(stored.conclusion != incoming.conclusion))))
  }

  predicate Writes(stored: Option<RunRow>, e: RunEvent) {
    stored.None? || Guard(stored.value.columns, e.columns) == Yes
  }

  function PayloadAfter(stored: Option<RunRow>, e: RunEvent): Option<string> {
    match e.payload
    case Given(p) => Some(p)
    case Omitted => if stored.Some? then stored.value.payload else None
  }

  /** The row after one upsert: all the event's columns, or the row as it was. */
  function RowAfter(stored: Option<RunRow>, e: RunEvent): RunRow {
    if Writes(stored, e) then RunRow(e.columns, PayloadAfter(stored, e)) else stored.value
  }

  /** The row of one run after a sequence of arrivals. */
  function RowOf(arrivals: seq<RunEvent>): Option<RunRow> {
    if arrivals == [] then None
    else Some(RowAfter(RowOf(arrivals[..|arrivals| - 1]), arrivals[|arrivals| - 1]))
  }

  function ColumnsOf(arrivals: seq<RunEvent>): RunColumns
    requires arrivals != []
  {
    RowOf(arrivals).value.columns
  }

  /** The order on stamps: NULL below every time. */
  predicate StampLe(x: Option<int>, y: Option<int>) {
    x.None? || (y.Some? && x.value <= y.value)
  }

  ghost predicate IsLatestStamp(arrivals: seq<RunEvent>, m: Option<int>) {
    && (exists i :: 0 <= i < |arrivals| && arrivals[i].columns.updatedAt == m)
    && forall i :: 0 <= i < |arrivals| ==> StampLe(arrivals[i].columns.updatedAt, m)
  }

  ghost predicate IsLastWith(arrivals: seq<RunEvent>, m: Option<int>, i: int) {
    && 0 <= i < |arrivals| && arrivals[i].columns.updatedAt == m
    && forall j :: i < j < |arrivals| ==> arrivals[j].columns.updatedAt != m
  }

  predicate SameOutcome(x: RunColumns, y: RunColumns) {
    x.status == y.status && x.conclusion == y.conclusion
  }

  /**
   What the row is after any arrivals: its columns all come from one arrival of the latest
   stamp, and it shows the outcome of the last arrival of that stamp. If no arrival has a
   stamp, it is the last arrival.
   */
  ghost predicate IsConverged(arrivals: seq<RunEvent>, columns: RunColumns) {
    && IsLatestStamp(arrivals, columns.updatedAt)
    && (exists i :: 0 <= i < |arrivals| && arrivals[i].columns == columns)
    && (exists i :: IsLastWith(arrivals, columns.updatedAt, i) && SameOutcome(arrivals[i].columns, columns))
    && (columns.updatedAt.None? ==> arrivals[|arrivals| - 1].columns == columns)
  }

  /** The row has no stamp, or an earlier one, or the same with another outcome. */
  predicate GivesWay(stored: RunColumns, incoming: RunColumns) {
    || stored.updatedAt == None
    || (incoming.updatedAt.Some? && stored.updatedAt.value < incoming.updatedAt.value)
    || (incoming.updatedAt == stored.updatedAt
        && (stored.status != incoming.status || stored.conclusion != incoming.conclusion))
  }

  lemma WritesIff(stored: Option<RunRow>, e: RunEvent)
    ensures Writes(stored, e) <==> stored.None? || GivesWay(stored.value.columns, e.columns)
  {
    if stored.Some? {
      GuardOnStamps(stored.value.columns, e.columns);
    }
  }

  /** NULL stamps, three-valued: a NULL in the row gives way to anything, a NULL in the event to nothing. */
  lemma GuardOnStamps(stored: RunColumns, incoming: RunColumns)
    ensures Guard(stored, incoming) == Yes <==>
      || stored.updatedAt.None?
      || (incoming.updatedAt.Some? && stored.updatedAt.value < incoming.updatedAt.value)
      || (incoming.updatedAt == stored.updatedAt && !SameOutcome(stored, incoming))
    ensures stored.updatedAt.Some? && incoming.updatedAt.None? ==> Guard(stored, incoming) != Yes
  {
  }

  /** The stored row has converged after any arrivals, in any order and with any repetitions. */
  lemma {:induction false} RunConverges(arrivals: seq<RunEvent>)
    requires arrivals != []
    ensures IsConverged(arrivals, ColumnsOf(arrivals))
  {
    hide IsConverged, ColumnsOf, Guard;
    var n := |arrivals| - 1;
    var before, e := arrivals[..n], arrivals[n];
    assert arrivals == before + [e];
    ColumnsUnfold(before, e);
    if n > 0 {
      RunConverges(before);
      ConvergedStep(before, ColumnsOf(before), e, ColumnsOf(arrivals));
    } else {
      OneArrivalConverges(e);
      assert before + [e] == [e];
    }
  }

  lemma ColumnsUnfold(before: seq<RunEvent>, e: RunEvent)
    ensures ColumnsOf(before + [e]) ==
      if before != [] && Guard(ColumnsOf(before), e.columns) != Yes then ColumnsOf(before) else e.columns
  {
    hide Guard;
    var after := before + [e];
    assert after[..|before|] == before && after[|before|] == e;
    assert before == [] ==> RowOf(before) == None;
    assert RowOf(after) == Some(RowAfter(RowOf(before), e));
  }

  lemma OneArrivalConverges(e: RunEvent)
    ensures IsConverged([e], e.columns)
  {
  }

  lemma ConvergedStep(before: seq<RunEvent>, columns: RunColumns, e: RunEvent, columns': RunColumns)
    requires before != [] && IsConverged(before, columns)
    requires columns' == if Guard(columns, e.columns) == Yes then e.columns else columns
    ensures IsConverged(before + [e], columns')
  {
    var after, n := before + [e], |before|;
    GuardOnStamps(columns, e.columns);
    assert forall i :: 0 <= i < n ==> after[i] == before[i];
    assert after[n] == e;
    var latest :| 0 <= latest < n && before[latest].columns.updatedAt == columns.updatedAt;
    var last :| IsLastWith(before, columns.updatedAt, last) && SameOutcome(before[last].columns, columns);
    var source :| 0 <= source < n && before[source].columns == columns;
    assert after[latest].columns.updatedAt == columns.updatedAt && after[source].columns == columns;
    if e.columns.updatedAt == columns'.updatedAt {
      assert IsLastWith(after, columns'.updatedAt, n);
    } else {
      assert IsLastWith(after, columns'.updatedAt, last);
    }
  }

  /** A redelivery of what is stored, or anything older, writes nothing. */
  lemma StaleWritesNothing(arrivals: seq<RunEvent>, e: RunEvent)
    requires arrivals != []
    requires ColumnsOf(arrivals).updatedAt.Some?
    requires e in arrivals
    requires e.columns.updatedAt == ColumnsOf(arrivals).updatedAt ==>
      SameOutcome(e.columns, ColumnsOf(arrivals))
    ensures !Writes(RowOf(arrivals), e)
    ensures RowOf(arrivals + [e]) == RowOf(arrivals)
  {
    RunConverges(arrivals);
    GuardOnStamps(ColumnsOf(arrivals), e.columns);
    assert (arrivals + [e])[..|arrivals|] == arrivals;
  }

  /** A stamp names one version of the run. */
  ghost predicate StampsDetermine(arrivals: seq<RunEvent>) {
    forall x, y :: x in arrivals && y in arrivals && x.columns.updatedAt == y.columns.updatedAt ==>
      x.columns.updatedAt.Some? ==> x.columns == y.columns
  }

  predicate HasVersion(arrivals: seq<RunEvent>, c: RunColumns) {
    exists i :: 0 <= i < |arrivals| && arrivals[i].columns == c
  }

  ghost predicate SameVersions(a: seq<RunEvent>, b: seq<RunEvent>) {
    forall c :: HasVersion(a, c) <==> HasVersion(b, c)
  }

  /**
   If stamps name versions and some arrival is stamped, reordering and duplicating arrivals
   does not change the row: it is the version of the latest stamp.
   */
  lemma OrderAndDuplicatesDoNotMatter(a: seq<RunEvent>, b: seq<RunEvent>)
    requires a != [] && b != []
    requires SameVersions(a, b) && StampsDetermine(a)
    requires exists x :: x in a && x.columns.updatedAt.Some?
    ensures ColumnsOf(a) == ColumnsOf(b)
  {
    RunConverges(a);
    RunConverges(b);
    var ca, cb := ColumnsOf(a), ColumnsOf(b);
    assert HasVersion(a, ca) && HasVersion(b, cb);
    assert HasVersion(b, ca) && HasVersion(a, cb);
    assert StampLe(ca.updatedAt, cb.updatedAt) && StampLe(cb.updatedAt, ca.updatedAt);
    assert ca.updatedAt.Some?;
  }

  function MoveLast(s: seq<RunEvent>, i: nat): seq<RunEvent>
    requires i < |s|
  {
    s[..i] + s[i + 1..] + [s[i]]
  }

  lemma MoveLastRearranges(s: seq<RunEvent>, i: nat)
    requires i < |s|
    ensures multiset(MoveLast(s, i)) == multiset(s)
  {
    assert s == s[..i] + [s[i]] + s[i + 1..];
  }

  lemma LatestStampIsUnique(a: seq<RunEvent>, m: Option<int>, b: seq<RunEvent>, m': Option<int>)
    requires multiset(a) == multiset(b)
    requires IsLatestStamp(a, m) && IsLatestStamp(b, m')
    ensures m == m'
  {
    SameMembers(a, b);
    var i :| 0 <= i < |a| && a[i].columns.updatedAt == m;
    var j :| 0 <= j < |b| && b[j].columns.updatedAt == m';
    assert a[i] in b && b[j] in a;
    assert StampLe(m, m') && StampLe(m', m);
  }

  /** The outcome an order of arrivals leaves is that of its last arrival with the latest stamp. */
  lemma OutcomeOfOrder(a: seq<RunEvent>, b: seq<RunEvent>, m: Option<int>) returns (i: int)
    requires a != [] && multiset(a) == multiset(b) && IsLatestStamp(a, m)
    ensures b != [] && IsLastWith(b, m, i) && b[i] in a
    ensures SameOutcome(b[i].columns, ColumnsOf(b))
  {
    assert |a| == |multiset(a)| == |multiset(b)| == |b|;
    RunConverges(b);
    LatestStampIsUnique(a, m, b, ColumnsOf(b).updatedAt);
    i :| IsLastWith(b, m, i) && SameOutcome(b[i].columns, ColumnsOf(b));
    SameMembers(a, b);
  }

  /** All arrivals that carry the stamp agree on status and conclusion. */
  ghost predicate AgreeAt(a: seq<RunEvent>, m: Option<int>) {
    forall x, y :: x in a && y in a && x.columns.updatedAt == m && y.columns.updatedAt == m ==>
      SameOutcome(x.columns, y.columns)
  }

  /** Every order of the same arrivals ends with the same status and conclusion. */
  ghost predicate OrderFree(a: seq<RunEvent>)
    requires a != []
  {
    forall b :: multiset(b) == multiset(a) && b != [] ==> SameOutcome(ColumnsOf(b), ColumnsOf(a))
  }

  /**
   The outcome a run ends with is the same for every order of its arrivals exactly when all
   arrivals that carry the latest stamp agree on it.
   */
  lemma OutcomeIsOrderFreeIff(a: seq<RunEvent>, m: Option<int>)
    requires a != [] && IsLatestStamp(a, m)
    ensures AgreeAt(a, m) <==> OrderFree(a)
  {
    hide RowOf;
    if AgreeAt(a, m) {
      var i := OutcomeOfOrder(a, a, m);
      forall b | multiset(b) == multiset(a) && b != []
        ensures SameOutcome(ColumnsOf(b), ColumnsOf(a))
      {
        var j := OutcomeOfOrder(a, b, m);
      }
    }
    if OrderFree(a) {
      forall x | x in a && x.columns.updatedAt == m
        ensures SameOutcome(x.columns, ColumnsOf(a))
      {
        var b := LastArrivalShows(a, x, m);
      }
    }
  }

  /** Any arrival with the latest stamp can be made the one whose outcome shows. */
  lemma LastArrivalShows(a: seq<RunEvent>, x: RunEvent, m: Option<int>) returns (b: seq<RunEvent>)
    requires IsLatestStamp(a, m) && x in a && x.columns.updatedAt == m
    ensures multiset(b) == multiset(a) && b != [] && SameOutcome(ColumnsOf(b), x.columns)
  {
    hide RowOf;
    var i :| 0 <= i < |a| && a[i] == x;
    b := MoveLast(a, i);
    MoveLastRearranges(a, i);
    assert b[|b| - 1] == x;
    var j := OutcomeOfOrder(a, b, m);
    assert j == |b| - 1;
  }

  /**
   Rows are not torn: after any sequence of normalized events the completion time still
   belongs to the stored conclusion and stamp.
   */
  lemma CompletionBelongsToOutcome(objects: seq<RunObject>)
    requires objects != []
    ensures var c := ColumnsOf(seq(|objects|, i requires 0 <= i < |objects| => NormalizeRun(objects[i])));
      c.completedAt == if c.conclusion.Some? && c.conclusion.value != "" then c.updatedAt else None
  {
    RunConverges(seq(|objects|, i requires 0 <= i < |objects| => NormalizeRun(objects[i])));
  }

  // ---------------------------------------------------------------------------------------
  // The table, one event at a time and in batches
  // ---------------------------------------------------------------------------------------

  type Runs = map<RunId, RunRow>

  function Lookup(rows: Runs, id: RunId): Option<RunRow> {
    if id in rows then Some(rows[id]) else None
  }

  function Upserted(rows: Runs, e: RunEvent): Runs {
    rows[e.id := RowAfter(Lookup(rows, e.id), e)]
  }

  function AllUpserted(rows: Runs, events: seq<RunEvent>): Runs {
    if events == [] then rows else Upserted(AllUpserted(rows, events[..|events| - 1]), events[|events| - 1])
  }

  function ArrivalsOf(events: seq<RunEvent>, id: RunId): seq<RunEvent> {
    if events == [] then []
    else ArrivalsOf(events[..|events| - 1], id) + if events[|events| - 1].id == id then [events[|events| - 1]] else []
  }

  /** Runs do not disturb one another: each row is that of the run's own arrivals. */
  lemma {:induction false} TableIsPerRun(events: seq<RunEvent>, id: RunId)
    ensures Lookup(AllUpserted(map[], events), id) == RowOf(ArrivalsOf(events, id))
  {
    if events != [] {
      TableIsPerRun(events[..|events| - 1], id);
      var own := ArrivalsOf(events[..|events| - 1], id);
      var e := events[|events| - 1];
      assert (own + [e])[..|own|] == own;
      assert own + [] == own;
    }
  }

  /** The dictionary {id: row}: first occurrence fixes the place, last occurrence the value. */
  function Put(rows: seq<RunEvent>, e: RunEvent): seq<RunEvent> {
    if rows == [] then [e] else if rows[0].id == e.id then [e] + rows[1..] else [rows[0]] + Put(rows[1..], e)
  }

  function LastPerId(events: seq<RunEvent>): seq<RunEvent> {
    if events == [] then [] else Put(LastPerId(events[..|events| - 1]), events[|events| - 1])
  }

  ghost predicate UniqueIds(rows: seq<RunEvent>) {
    forall i, j :: 0 <= i < j < |rows| ==> rows[i].id != rows[j].id
  }

  function EventFor(rows: seq<RunEvent>, id: RunId): Option<RunEvent> {
    if rows == [] then None else if rows[0].id == id then Some(rows[0]) else EventFor(rows[1..], id)
  }

  lemma {:induction false} PutPuts(rows: seq<RunEvent>, e: RunEvent)
    requires UniqueIds(rows)
    ensures UniqueIds(Put(rows, e))
    ensures forall x :: x in Put(rows, e) <==> x == e || (x in rows && x.id != e.id)
  {
    if rows != [] {
      assert rows == [rows[0]] + rows[1..];
      if rows[0].id == e.id {
        var r := [e] + rows[1..];
        assert forall i :: 0 <= i < |rows[1..]| ==> rows[1..][i] == rows[i + 1];
      } else {
        PutPuts(rows[1..], e);
        var rest := Put(rows[1..], e);
        assert forall x :: x in rest ==> x.id != rows[0].id;
      }
    }
  }

  /** x arrives and no later event is about the same run. */
  ghost predicate IsFinal(events: seq<RunEvent>, x: RunEvent) {
    exists i :: 0 <= i < |events| && events[i] == x && forall j :: i < j < |events| ==> events[j].id != x.id
  }

  lemma FinalStep(before: seq<RunEvent>, e: RunEvent, x: RunEvent)
    ensures IsFinal(before + [e], x) <==> x == e || (x.id != e.id && IsFinal(before, x))
  {
    var after, n := before + [e], |before|;
    assert forall i :: 0 <= i < n ==> after[i] == before[i];
    assert after[n] == e;
    if x.id != e.id && IsFinal(before, x) {
      var i :| 0 <= i < n && before[i] == x && forall j :: i < j < n ==> before[j].id != x.id;
      assert after[i] == x && forall j :: i < j < |after| ==> after[j].id != x.id;
    }
    if IsFinal(after, x) {
      var i :| 0 <= i < |after| && after[i] == x && forall j :: i < j < |after| ==> after[j].id != x.id;
      if i < n {
        assert before[i] == x && forall j :: i < j < n ==> before[j].id == after[j].id;
      }
    }
  }

  /** De-duplication keeps each run's last event, once. */
  lemma {:induction false} LastPerIdIsFinal(events: seq<RunEvent>)
    ensures UniqueIds(LastPerId(events))
    ensures forall x :: x in LastPerId(events) <==> IsFinal(events, x)
  {
    if events != [] {
      var n := |events| - 1;
      LastPerIdIsFinal(events[..n]);
      PutPuts(LastPerId(events[..n]), events[n]);
      assert events == events[..n] + [events[n]];
      forall x
        ensures x in LastPerId(events) <==> IsFinal(events, x)
      {
        FinalStep(events[..n], events[n], x);
      }
    }
  }

  function IdsOf(batch: seq<RunEvent>): set<RunId> {
    set e | e in batch :: e.id
  }

  /** One multi-row statement: every conflict is judged against the table as the statement found it. */
  function Statement(rows: Runs, batch: seq<RunEvent>): Runs {
    rows + map id | id in IdsOf(batch) && EventFor(batch, id).Some? ::
             RowAfter(Lookup(rows, id), EventFor(batch, id).value)
  }

  lemma {:induction false} EventForFinds(batch: seq<RunEvent>, id: RunId)
    ensures EventFor(batch, id).Some? <==> id in IdsOf(batch)
    ensures EventFor(batch, id).Some? ==> EventFor(batch, id).value in batch && EventFor(batch, id).value.id == id
  {
    if batch != [] {
      assert batch == [batch[0]] + batch[1..];
      EventForFinds(batch[1..], id);
      if id in IdsOf(batch) && batch[0].id != id {
        var e :| e in batch && e.id == id;
        assert e in batch[1..];
      }
    }
  }

  lemma {:induction false} EventForAppend(batch: seq<RunEvent>, e: RunEvent, id: RunId)
    requires forall x :: x in batch ==> x.id != e.id
    ensures EventFor(batch + [e], id) == if id == e.id then Some(e) else EventFor(batch, id)
  {
    if batch != [] {
      assert batch[0] in batch;
      assert (batch + [e])[1..] == batch[1..] + [e];
      EventForAppend(batch[1..], e, id);
    }
  }

  /** The batch statement does what one statement per de-duplicated row would do. */
  lemma {:induction false} StatementIsFold(rows: Runs, batch: seq<RunEvent>)
    requires UniqueIds(batch)
    ensures Statement(rows, batch) == AllUpserted(rows, batch)
  {
    if batch != [] {
      var n := |batch| - 1;
      var before, e := batch[..n], batch[n];
      StatementIsFold(rows, before);
      assert batch == before + [e];
      var x, y := Statement(rows, batch), Upserted(Statement(rows, before), e);
      forall id
        ensures Lookup(x, id) == Lookup(y, id)
      {
        EventForAppend(before, e, id);
        EventForFinds(before, id);
        EventForFinds(batch, id);
        EventForFinds(before, e.id);
      }
      SameLookups(x, y);
    }
  }

  lemma SameLookups(x: Runs, y: Runs)
    requires forall id :: Lookup(x, id) == Lookup(y, id)
    ensures x == y
  {
    forall id
      ensures id in x <==> id in y
      ensures id in x ==> x[id] == y[id]
    {
      assert Lookup(x, id) == Lookup(y, id);
    }
  }

  /** How many rows a statement over a batch writes. */
  function RowCount(rows: Runs, batch: seq<RunEvent>): nat {
    |set e | e in batch && Writes(Lookup(rows, e.id), e) :: e.id|
  }

  /** The runs of a batch whose row is new or gives way. */
  ghost predicate AreWritten(ids: set<RunId>, rows: Runs, batch: seq<RunEvent>) {
    forall id :: id in ids <==>
      exists e :: e in batch && e.id == id && (id !in rows || GivesWay(rows[id].columns, e.columns))
  }

  lemma CountedRows(rows: Runs, batch: seq<RunEvent>)
    ensures exists ids :: |ids| == RowCount(rows, batch) && AreWritten(ids, rows, batch)
  {
    hide GivesWay, Writes;
    var ids := set e | e in batch && Writes(Lookup(rows, e.id), e) :: e.id;
    assert |ids| == RowCount(rows, batch);
    forall e | e in batch
      ensures Writes(Lookup(rows, e.id), e) <==> e.id !in rows || GivesWay(rows[e.id].columns, e.columns)
    {
      WritesIff(Lookup(rows, e.id), e);
    }
  }

  class RunTable {
    var rows: Runs

    constructor ()
      ensures rows == map[]
    {
      rows := map[];
    }

    /** INSERT ... ON CONFLICT (id) DO UPDATE ... WHERE the guard. Returns rows written. */
    method UpsertRun(e: RunEvent) returns (written: nat)
      modifies this
      ensures rows == Upserted(old(rows), e)
      ensures written == if Writes(Lookup(old(rows), e.id), e) then 1 else 0
      ensures written == 0 ==> rows == old(rows)
      ensures written == 1 <==> e.id !in old(rows) || GivesWay(old(rows)[e.id].columns, e.columns)
      ensures e.id in rows && (written == 1 ==> rows[e.id].columns == e.columns)
      ensures written == 1 ==>
        rows[e.id].payload == if e.payload.Given? then Some(e.payload.payload)
                                 else if e.id in old(rows) then old(rows)[e.id].payload else None
      ensures forall id :: id != e.id ==>
        (id in rows <==> id in old(rows)) && (id in rows ==> rows[id] == old(rows)[id])
    {
      WritesIff(Lookup(rows, e.id), e);
      if e.id !in rows {
        rows := rows[e.id := RunRow(e.columns, if e.payload.Given? then Some(e.payload.payload) else None)];
        written := 1;
      } else if Guard(rows[e.id].columns, e.columns) == Yes {
        var payload := if e.payload.Given? then Some(e.payload.payload) else rows[e.id].payload;
        rows := rows[e.id := RunRow(e.columns, payload)];
        written := 1;
      } else {
        written := 0;
      }
    }

    /** De-duplicate by id, then one statement: the same table as one guarded upsert per remaining row. */
    method UpsertRuns(events: seq<RunEvent>) returns (written: nat)
      modifies this
      ensures rows == AllUpserted(old(rows), LastPerId(events))
      ensures written == RowCount(old(rows), LastPerId(events))
      ensures exists ids :: |ids| == written && AreWritten(ids, old(rows), LastPerId(events))
    {
      hide AreWritten;
      CountedRows(rows, LastPerId(events));
      if events == [] {
        return 0;
      }
      var batch: seq<RunEvent> := [];
      assert events[..|events|] == events;
      for k := 0 to |events|
        invariant batch == LastPerId(events[..k])
        invariant rows == old(rows)
      {
        assert events[..k + 1][..k] == events[..k];
        batch := Put(batch, events[k]);
      }
      LastPerIdIsFinal(events);
      StatementIsFold(rows, batch);
      written := RowCount(rows, batch);
      rows := Statement(rows, batch);
    }
  }

  // ---------------------------------------------------------------------------------------
  // Jobs
  // ---------------------------------------------------------------------------------------

  /** A job event carries every column; `rest` stands for those no guard looks at. */
  datatype JobRow = JobRow(id: int, status: Option<string>, rest: string)

  /** The rank looked up in Python for the incoming status. */
  function IncomingRank(status: Option<string>): nat {
    match status
    case None => 0
    case Some(x) => if x == "in_progress" then 1 else if x == "completed" then 2 else 0
  }

  /** The rank the CASE expression computes for the stored status. */
  function StoredRank(status: Option<string>): nat {
    if status == Some("completed") then 2 else if status == Some("in_progress") then 1 else 0
  }

  function JobAfter(stored: Option<JobRow>, e: JobRow): JobRow {
    if stored.None? || StoredRank(stored.value.status) <= IncomingRank(e.status) then e else stored.value
  }

  function JobOf(arrivals: seq<JobRow>): Option<JobRow> {
    if arrivals == [] then None
    else Some(JobAfter(JobOf(arrivals[..|arrivals| - 1]), arrivals[|arrivals| - 1]))
  }

  /** The row is one arrival, whole: the last of those whose status ranks highest. */
  ghost predicate IsLastOfTopRank(arrivals: seq<JobRow>, i: int) {
    && 0 <= i < |arrivals|
    && (forall j :: 0 <= j < i ==> IncomingRank(arrivals[j].status) <= IncomingRank(arrivals[i].status))
    && (forall j :: i < j < |arrivals| ==> IncomingRank(arrivals[j].status) < IncomingRank(arrivals[i].status))
  }

  /** The stored job is, whole, the last arrival of the highest rank. */
  lemma {:induction false} JobConverges(arrivals: seq<JobRow>) returns (i: int)
    requires arrivals != []
    ensures IsLastOfTopRank(arrivals, i) && JobOf(arrivals) == Some(arrivals[i])
  {
    var n := |arrivals| - 1;
    i := n;
    if n > 0 {
      var before := arrivals[..n];
      var j := JobConverges(before);
      assert forall k :: 0 <= k < n ==> before[k] == arrivals[k];
      if StoredRank(before[j].status) > IncomingRank(arrivals[n].status) {
        i := j;
      }
    }
  }

  /** More arrivals never lower the stored rank: a completed job stays completed. */
  lemma JobNeverRegresses(arrivals: seq<JobRow>, more: seq<JobRow>)
    requires arrivals != []
    ensures StoredRank(JobOf(arrivals).value.status) <= StoredRank(JobOf(arrivals + more).value.status)
  {
    var i := JobConverges(arrivals);
    var j := JobConverges(arrivals + more);
    assert (arrivals + more)[i] == arrivals[i];
  }

  ghost predicate HasStatus(arrivals: seq<JobRow>, status: string) {
    exists k :: 0 <= k < |arrivals| && arrivals[k].status == Some(status)
  }

  ghost predicate IsLastOfStatus(arrivals: seq<JobRow>, status: string, i: int) {
    && 0 <= i < |arrivals| && arrivals[i].status == Some(status)
    && forall j :: i < j < |arrivals| ==> arrivals[j].status != Some(status)
  }

  /**
   The stored job, by what the statuses say: the last completed arrival; before there is one, the
   last that was in progress; before that, the last of all. Once completed, always completed.
   */
  lemma JobByStatus(arrivals: seq<JobRow>) returns (i: int)
    requires arrivals != []
    ensures 0 <= i < |arrivals| && JobOf(arrivals) == Some(arrivals[i])
    ensures HasStatus(arrivals, "completed") ==> IsLastOfStatus(arrivals, "completed", i)
    ensures !HasStatus(arrivals, "completed") && HasStatus(arrivals, "in_progress") ==>
      IsLastOfStatus(arrivals, "in_progress", i)
    ensures !HasStatus(arrivals, "completed") && !HasStatus(arrivals, "in_progress") ==> i == |arrivals| - 1
  {
    i := JobConverges(arrivals);
    StatusRanks();
    if i < |arrivals| - 1 {
      assert IncomingRank(arrivals[|arrivals| - 1].status) < IncomingRank(arrivals[i].status);
    }
  }

  lemma StatusRanks()
    ensures forall status :: IncomingRank(status) == StoredRank(status)
    ensures forall status :: IncomingRank(status) == 2 <==> status == Some("completed")
    ensures forall status :: IncomingRank(status) == 1 <==> status == Some("in_progress")
    ensures forall status :: IncomingRank(status) <= 2
  {
    assert "completed" != "in_progress" by { assert "completed"[0] != "in_progress"[0]; }
  }

  class JobTable {
    var rows: map<int, JobRow>

    constructor ()
      ensures rows == map[]
    {
      rows := map[];
    }

    /** INSERT ... ON CONFLICT (id) DO UPDATE ... WHERE the stored rank is not above the incoming one. */
    method UpsertJob(e: JobRow)
      modifies this
      ensures rows == old(rows)[e.id := JobAfter(if e.id in old(rows) then Some(old(rows)[e.id]) else None, e)]
      ensures rows[e.id] == e || (e.id in old(rows) && rows[e.id] == old(rows)[e.id])
      ensures e.id !in old(rows) || e.status == Some("completed") ==> rows[e.id] == e
      ensures e.id in old(rows) && old(rows)[e.id].status == Some("completed") && e.status != Some("completed") ==>
        rows[e.id] == old(rows)[e.id]
      ensures e.id in old(rows) && old(rows)[e.id].status == Some("in_progress") ==>
        rows[e.id] == if e.status == Some("in_progress") || e.status == Some("completed") then e else old(rows)[e.id]
      ensures e.id in old(rows) && old(rows)[e.id].status !in {Some("completed"), Some("in_progress")} ==>
        rows[e.id] == e
      ensures forall id :: id != e.id ==>
        (id in rows <==> id in old(rows)) && (id in rows ==> rows[id] == old(rows)[id])
    {
      StatusRanks();
      if e.id !in rows || StoredRank(rows[e.id].status) <= IncomingRank(e.status) {
        rows := rows[e.id := e];
      }
    }
  }
}
