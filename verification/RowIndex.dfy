/** The rows of a demo business, and the index that its lookups keep of them. */
module RowIndex {
  import opened Results

  /** A row object: two rows are equal exactly when they are one object. Id and business never change. */
  datatype Row = Row(tag: nat, kind: string, id: Option<string>, business: Option<string>)

  /** The classes: each kind of row with every model it is an instance of. */
  type Hierarchy = set<(string, string)>

  type Kinds = map<string, seq<Row>>

  type Ids = map<(string, Option<string>), Row>

  datatype State = State(rows: seq<Row>, kinds: Kinds, ids: Ids, indexed: nat, last: Option<Row>)

  datatype Missing = NoSuchRow

  predicate Ours(business: string, row: Row) { row.business == None || row.business == Some(business) }

  predicate IsA(models: Hierarchy, kind: string, model: string) { (kind, model) in models }

  // ---------------------------------------------------------------- the plain scan

  /** The rows of a model, of this business, in order. */
  function Scan(rows: seq<Row>, models: Hierarchy, business: string, model: string): seq<Row> {
    if rows == [] then []
    else
      var row, before := rows[|rows| - 1], Scan(rows[..|rows| - 1], models, business, model);
      if IsA(models, row.kind, model) && Ours(business, row) then before + [row] else before
  }

  function FirstWithId(rows: seq<Row>, id: string): (found: Result<Row, Missing>)
    ensures found.Err? <==> forall row <- rows :: row.id != Some(id)
    ensures found.Ok? ==> exists i :: 0 <= i < |rows| && rows[i] == found.value && found.value.id == Some(id)
                                   && forall j :: 0 <= j < i ==> rows[j].id != Some(id)
  {
    if rows == [] then Err(NoSuchRow)
    else if rows[0].id == Some(id) then Ok(rows[0])
    else
      var rest := FirstWithId(rows[1..], id);
      assert rows == [rows[0]] + rows[1..];
      rest
  }

  // ---------------------------------------------------------------- the index

  function PutKind(kinds: Kinds, row: Row): Kinds {
    kinds[row.kind := (if row.kind in kinds then kinds[row.kind] else []) + [row]]
  }

  function PutId(ids: Ids, row: Row): Ids {
    if (row.kind, row.id) in ids then ids else ids[(row.kind, row.id) := row]
  }

  function AddKinds(kinds: Kinds, rows: seq<Row>, business: string): Kinds {
    if rows == [] then kinds
    else
      var before := AddKinds(kinds, rows[..|rows| - 1], business);
      if Ours(business, rows[|rows| - 1]) then PutKind(before, rows[|rows| - 1]) else before
  }

  function AddIds(ids: Ids, rows: seq<Row>, business: string): Ids {
    if rows == [] then ids
    else
      var before := AddIds(ids, rows[..|rows| - 1], business);
      if Ours(business, rows[|rows| - 1]) then PutId(before, rows[|rows| - 1]) else before
  }

  /** How many rows the index may keep: none when the last one it saw is not where it was. */
  function Kept(s: State): (n: nat)
    ensures n <= |s.rows|
  {
    if s.indexed > |s.rows| || (s.indexed > 0 && Some(s.rows[s.indexed - 1]) != s.last) then 0 else s.indexed
  }

  function LastOf(rows: seq<Row>): Option<Row> { if rows == [] then None else Some(rows[|rows| - 1]) }

  function Reindexed(s: State, business: string): State {
    var n := Kept(s);
    State(
      s.rows,
      AddKinds(if n == 0 then map[] else s.kinds, s.rows[n..], business),
      AddIds(if n == 0 then map[] else s.ids, s.rows[n..], business),
      |s.rows|,
      LastOf(s.rows)
    )
  }

  function Matching(kinds: Kinds, models: Hierarchy, model: string): set<string> {
    set kind <- kinds | IsA(models, kind, model)
  }

  /** The rows of a model among those of one kind. */
  function Instances(rows: seq<Row>, models: Hierarchy, model: string): seq<Row> {
    if rows == [] then []
    else
      var row, before := rows[|rows| - 1], Instances(rows[..|rows| - 1], models, model);
      if IsA(models, row.kind, model) then before + [row] else before
  }

  /** What the indexed state answers for all rows of a model. */
  function AllOf(s: State, models: Hierarchy, business: string, model: string): seq<Row> {
    var matching := Matching(s.kinds, models, model);
    if matching == {} then []
    else if |matching| == 1 then
      (var kind :| kind in matching; OneKind(matching, kind); Instances(s.kinds[kind], models, model))
    else Scan(s.rows, models, business, model)
  }

  lemma OneKind(kinds: set<string>, kind: string)
    requires |kinds| == 1 && kind in kinds
    ensures kinds == {kind}
  {
    assert |kinds - {kind}| == 0;
    assert kinds - {kind} == {};
  }

  /** What the indexed state answers for one row. */
  function GetOf(s: State, models: Hierarchy, business: string, model: string, id: string): Result<Row, Missing> {
    var key := (model, Some(id));
    if Matching(s.kinds, models, model) == {model} && key in s.ids
       && IsA(models, s.ids[key].kind, model) && s.ids[key].id == Some(id) then Ok(s.ids[key])
    else FirstWithId(AllOf(s, models, business, model), id)
  }

  // ---------------------------------------------------------------- an index of the rows answers as a scan

  ghost predicate Indexes(s: State, rows: seq<Row>, business: string) {
    s.kinds == AddKinds(map[], rows, business) && s.ids == AddIds(map[], rows, business)
  }

  /** The rows of one kind and this business. */
  function OfKind(rows: seq<Row>, business: string, kind: string): seq<Row> {
    if rows == [] then []
    else
      var row, before := rows[|rows| - 1], OfKind(rows[..|rows| - 1], business, kind);
      if row.kind == kind && Ours(business, row) then before + [row] else before
  }

  lemma {:induction false} KindsHoldTheirRows(rows: seq<Row>, business: string, kind: string)
    ensures kind in AddKinds(map[], rows, business) <==> OfKind(rows, business, kind) != []
    ensures kind in AddKinds(map[], rows, business) ==>
              AddKinds(map[], rows, business)[kind] == OfKind(rows, business, kind)
  {
    if rows != [] {
      KindsHoldTheirRows(rows[..|rows| - 1], business, kind);
    }
  }

  lemma {:induction false} IdsHoldTheFirst(rows: seq<Row>, business: string, kind: string, id: string)
    ensures FirstWithId(OfKind(rows, business, kind), id)
         == if (kind, Some(id)) in AddIds(map[], rows, business)
            then Ok(AddIds(map[], rows, business)[(kind, Some(id))]) else Err(NoSuchRow)
  {
    if rows != [] {
      var init, row := rows[..|rows| - 1], rows[|rows| - 1];
      IdsHoldTheFirst(init, business, kind, id);
      if row.kind == kind && Ours(business, row) {
        FirstOfOneMore(OfKind(init, business, kind), row, id);
      }
    }
  }

  lemma {:induction false} FirstOfOneMore(rows: seq<Row>, row: Row, id: string)
    ensures FirstWithId(rows + [row], id)
         == if FirstWithId(rows, id).Ok? then FirstWithId(rows, id)
            else if row.id == Some(id) then Ok(row) else Err(NoSuchRow)
  {
    if rows != [] {
      assert (rows + [row])[1..] == rows[1..] + [row];
      FirstOfOneMore(rows[1..], row, id);
    } else {
      assert [row][1..] == [];
    }
  }

  /** When only one kind of the rows is of the model, its rows are the scan. */
  lemma {:induction false} OneKindIsTheScan(rows: seq<Row>, models: Hierarchy, business: string, model: string, kind: string)
    requires IsA(models, kind, model)
    requires forall row <- rows :: Ours(business, row) && IsA(models, row.kind, model) ==> row.kind == kind
    ensures Scan(rows, models, business, model) == OfKind(rows, business, kind)
    ensures Instances(OfKind(rows, business, kind), models, model) == OfKind(rows, business, kind)
  {
    if rows != [] {
      var init, row := rows[..|rows| - 1], rows[|rows| - 1];
      OneKindIsTheScan(init, models, business, model, kind);
      if row.kind == kind && Ours(business, row) {
        assert (OfKind(init, business, kind) + [row])[..|OfKind(init, business, kind)|] == OfKind(init, business, kind);
      }
    }
  }

  lemma {:induction false} NoKindIsNoScan(rows: seq<Row>, models: Hierarchy, business: string, model: string)
    requires forall row <- rows :: !(Ours(business, row) && IsA(models, row.kind, model))
    ensures Scan(rows, models, business, model) == []
  {
    if rows != [] {
      NoKindIsNoScan(rows[..|rows| - 1], models, business, model);
    }
  }

  /** Every row of this business has its kind in the index. */
  lemma {:induction false} RowsHaveKinds(rows: seq<Row>, business: string, i: nat)
    requires i < |rows| && Ours(business, rows[i])
    ensures rows[i].kind in AddKinds(map[], rows, business)
    decreases |rows|
  {
    if i < |rows| - 1 {
      RowsHaveKinds(rows[..|rows| - 1], business, i);
    }
  }

  lemma MatchingKinds(s: State, models: Hierarchy, business: string, model: string)
    requires Indexes(s, s.rows, business)
    ensures forall row <- s.rows :: Ours(business, row) && IsA(models, row.kind, model) ==>
              row.kind in Matching(s.kinds, models, model)
  {
    forall i | 0 <= i < |s.rows| && Ours(business, s.rows[i]) && IsA(models, s.rows[i].kind, model)
      ensures s.rows[i].kind in Matching(s.kinds, models, model)
    {
      RowsHaveKinds(s.rows, business, i);
    }
  }

  lemma AllIsTheScan(s: State, models: Hierarchy, business: string, model: string)
    requires Indexes(s, s.rows, business)
    ensures AllOf(s, models, business, model) == Scan(s.rows, models, business, model)
  {
    hide Indexes;
    var matching := Matching(s.kinds, models, model);
    MatchingKinds(s, models, business, model);
    if matching == {} {
      NoKindIsNoScan(s.rows, models, business, model);
    } else if |matching| == 1 {
      var kind :| kind in matching;
      OneKind(matching, kind);
      OneKindIsTheScan(s.rows, models, business, model, kind);
      KindOfIndex(s, business, kind);
    }
  }

  lemma KindOfIndex(s: State, business: string, kind: string)
    requires Indexes(s, s.rows, business) && kind in s.kinds
    ensures s.kinds[kind] == OfKind(s.rows, business, kind)
  {
    KindsHoldTheirRows(s.rows, business, kind);
  }

  lemma GetIsTheFirst(s: State, models: Hierarchy, business: string, model: string, id: string)
    requires Indexes(s, s.rows, business)
    ensures GetOf(s, models, business, model, id) == FirstWithId(Scan(s.rows, models, business, model), id)
  {
    AllIsTheScan(s, models, business, model);
    if Matching(s.kinds, models, model) == {model} {
      MatchingKinds(s, models, business, model);
      assert model in Matching(s.kinds, models, model);
      OneKindIsTheScan(s.rows, models, business, model, model);
      IdsHoldTheFirst(s.rows, business, model, id);
    }
  }

  // ---------------------------------------------------------------- the index of a changed list

  lemma {:induction false} AddKindsOn(kinds: Kinds, a: seq<Row>, b: seq<Row>, business: string)
    ensures AddKinds(AddKinds(kinds, a, business), b, business) == AddKinds(kinds, a + b, business)
  {
    if b == [] {
      assert a + b == a;
    } else {
      AddKindsOn(kinds, a, b[..|b| - 1], business);
      assert (a + b)[..|a + b| - 1] == a + b[..|b| - 1];
    }
  }

  lemma {:induction false} AddIdsOn(ids: Ids, a: seq<Row>, b: seq<Row>, business: string)
    ensures AddIds(AddIds(ids, a, business), b, business) == AddIds(ids, a + b, business)
  {
    if b == [] {
      assert a + b == a;
    } else {
      AddIdsOn(ids, a, b[..|b| - 1], business);
      assert (a + b)[..|a + b| - 1] == a + b[..|b| - 1];
    }
  }

  /** The index was last brought up to date on these rows, or is to be built anew. */
  ghost predicate TakenOf(s: State, seen: seq<Row>, business: string) {
    s.indexed == 0 || (s.indexed == |seen| && s.last == LastOf(seen) && Indexes(s, seen, business))
  }

  /** Where the last row seen is still in its place, so are all rows seen before it. */
  ghost predicate InPlace(s: State, seen: seq<Row>) {
    Kept(s) > 0 ==> s.rows[..s.indexed] == seen
  }

  lemma ReindexedIndexes(s: State, seen: seq<Row>, business: string)
    requires TakenOf(s, seen, business) && InPlace(s, seen)
    ensures Indexes(Reindexed(s, business), s.rows, business)
    ensures TakenOf(Reindexed(s, business), s.rows, business) && InPlace(Reindexed(s, business), s.rows)
  {
    var n := Kept(s);
    AddKindsOn(map[], s.rows[..n], s.rows[n..], business);
    AddIdsOn(map[], s.rows[..n], s.rows[n..], business);
    assert s.rows[..n] + s.rows[n..] == s.rows;
    assert s.rows[..0] == [];
    assert s.rows[..|s.rows|] == s.rows;
  }

  /** Looking up twice indexes once. */
  lemma ReindexedTwice(s: State, business: string)
    ensures Reindexed(Reindexed(s, business), business) == Reindexed(s, business)
  {
    assert s.rows[|s.rows|..] == [];
  }

  // ---------------------------------------------------------------- runs

  datatype Op =
    | Append(added: seq<Row>)
    | Discard(model: string)
    | Remove(row: Row)
    | Replace(place: nat, row: Row)
    | Lookup

  function Except(rows: seq<Row>, models: Hierarchy, model: string): seq<Row> {
    if rows == [] then []
    else
      var row, before := rows[|rows| - 1], Except(rows[..|rows| - 1], models, model);
      if IsA(models, row.kind, model) then before else before + [row]
  }

  /** Where the row first stands, the length of the list when it does not. */
  function PlaceOf(rows: seq<Row>, row: Row): (p: nat)
    ensures p <= |rows| && (p < |rows| ==> rows[p] == row) && row !in rows[..p]
  {
    if rows == [] || rows[0] == row then 0
    else
      var p := PlaceOf(rows[1..], row);
      assert rows[..p + 1] == [rows[0]] + rows[1..][..p];
      p + 1
  }

  function Without(rows: seq<Row>, row: Row): seq<Row> {
    var p := PlaceOf(rows, row);
    if p < |rows| then rows[..p] + rows[p + 1..] else rows
  }

  function Replaced(s: State, place: nat, row: Row): State
    requires place < |s.rows|
  {
    s.(rows := s.rows[place := row])
  }

  function Step(s: State, op: Op, models: Hierarchy, business: string): State {
    match op
    case Append(added) => s.(rows := s.rows + added)
    case Discard(model) => s.(rows := Except(s.rows, models, model), indexed := 0)
    case Remove(row) => s.(rows := Without(s.rows, row))
    case Replace(place, row) => if place < |s.rows| then Replaced(s, place, row) else s
    case Lookup => Reindexed(s, business)
  }

  const EMPTY := State([], map[], map[], 0, None)

  function Run(ops: seq<Op>, models: Hierarchy, business: string): State {
    if ops == [] then EMPTY else Step(Run(ops[..|ops| - 1], models, business), ops[|ops| - 1], models, business)
  }

  function ItemsOf(rows: seq<Row>): set<Row> { set row <- rows }

  /** Every row ever appended. */
  function EverIn(ops: seq<Op>): set<Row> {
    if ops == [] then {}
    else
      var op, before := ops[|ops| - 1], EverIn(ops[..|ops| - 1]);
      if op.Append? then before + ItemsOf(op.added) else before
  }

  /** The list is only appended to and discarded from. */
  predicate OnlyGrown(ops: seq<Op>) { forall op <- ops :: op.Append? || op.Discard? || op.Lookup? }

  /** Rows may be taken out, and no row that was ever in the list is put in again. */
  predicate OnlyNewRows(ops: seq<Op>) {
    forall i :: 0 <= i < |ops| ==>
      !ops[i].Replace? && (ops[i].Append? ==> ItemsOf(ops[i].added) !! EverIn(ops[..i]))
  }

  /** The rows the index last saw, after a run. */
  function SeenBy(ops: seq<Op>, models: Hierarchy, business: string): seq<Row> {
    if ops == [] then []
    else if ops[|ops| - 1].Lookup? then Run(ops, models, business).rows
    else SeenBy(ops[..|ops| - 1], models, business)
  }

  lemma {:induction false} GrownStaysInPlace(ops: seq<Op>, models: Hierarchy, business: string)
    requires OnlyGrown(ops)
    ensures TakenOf(Run(ops, models, business), SeenBy(ops, models, business), business)
    ensures Run(ops, models, business).indexed <= |Run(ops, models, business).rows|
    ensures Run(ops, models, business).indexed > 0 ==>
              Run(ops, models, business).rows[..Run(ops, models, business).indexed] == SeenBy(ops, models, business)
  {
    if ops != [] {
      var init, op := ops[..|ops| - 1], ops[|ops| - 1];
      GrownStaysInPlace(init, models, business);
      var s, seen := Run(init, models, business), SeenBy(init, models, business);
      if op.Lookup? {
        ReindexedIndexes(s, seen, business);
      } else if op.Append? && s.indexed > 0 {
        assert (s.rows + op.added)[..s.indexed] == s.rows[..s.indexed];
      }
    }
  }

  /** The first k rows survive from those seen, all of them if there are as many; the rest are new. */
  ghost predicate Survivors(rows: seq<Row>, seen: seq<Row>, k: nat) {
    && k <= |rows| && k <= |seen|
    && (k == |seen| ==> rows[..k] == seen)
    && forall i :: k <= i < |rows| ==> rows[i] !in seen
  }

  lemma SurvivorsAfterRemoval(rows: seq<Row>, seen: seq<Row>, k: nat, row: Row) returns (left: nat)
    requires Survivors(rows, seen, k)
    ensures Survivors(Without(rows, row), seen, left)
  {
    var p := PlaceOf(rows, row);
    left := if p < k then k - 1 else k;
    if p < |rows| && k <= p {
      assert Without(rows, row)[..k] == rows[..k];
    }
  }

  /** If the last row seen is in its old place, no row before it is gone. */
  lemma SurvivorsInPlace(s: State, seen: seq<Row>, k: nat, business: string)
    requires TakenOf(s, seen, business) && Survivors(s.rows, seen, k)
    ensures InPlace(s, seen)
  {
    if Kept(s) > 0 {
      assert s.rows[s.indexed - 1] in seen;
    }
  }

  lemma {:induction false} NewRowsSurvive(ops: seq<Op>, models: Hierarchy, business: string) returns (k: nat)
    requires OnlyNewRows(ops)
    ensures TakenOf(Run(ops, models, business), SeenBy(ops, models, business), business)
    ensures Run(ops, models, business).indexed > 0 ==>
              Survivors(Run(ops, models, business).rows, SeenBy(ops, models, business), k)
    ensures ItemsOf(Run(ops, models, business).rows) + ItemsOf(SeenBy(ops, models, business)) <= EverIn(ops)
    decreases |ops|
  {
    k := 0;
    if ops != [] {
      var init, op := ops[..|ops| - 1], ops[|ops| - 1];
      NewRowsInit(ops);
      k := NewRowsSurvive(init, models, business);
      var s, seen := Run(init, models, business), SeenBy(init, models, business);
      match op
      case Append(added) => AppendSurvives(s.rows, added, seen, k);
      case Discard(model) => ExceptItems(s.rows, models, model);
      case Remove(row) =>
        if s.indexed > 0 {
          k := SurvivorsAfterRemoval(s.rows, seen, k, row);
        }
      case Replace(_, _) =>
        assert false;
      case Lookup =>
        if s.indexed > 0 {
          SurvivorsInPlace(s, seen, k, business);
        }
        ReindexedIndexes(s, seen, business);
        k := |s.rows|;
    }
  }

  lemma NewRowsInit(ops: seq<Op>)
    requires ops != [] && OnlyNewRows(ops)
    ensures OnlyNewRows(ops[..|ops| - 1]) && !ops[|ops| - 1].Replace?
    ensures ops[|ops| - 1].Append? ==> ItemsOf(ops[|ops| - 1].added) !! EverIn(ops[..|ops| - 1])
  {
    var init := ops[..|ops| - 1];
    forall i | 0 <= i < |init|
      ensures !init[i].Replace? && (init[i].Append? ==> ItemsOf(init[i].added) !! EverIn(init[..i]))
    {
      assert init[..i] == ops[..i] && init[i] == ops[i];
    }
  }

  lemma AppendSurvives(rows: seq<Row>, added: seq<Row>, seen: seq<Row>, k: nat)
    requires ItemsOf(added) !! ItemsOf(seen)
    ensures Survivors(rows, seen, k) ==> Survivors(rows + added, seen, k)
  {
    if Survivors(rows, seen, k) {
      assert (rows + added)[..k] == rows[..k];
      forall i | k <= i < |rows + added|
        ensures (rows + added)[i] !in seen
      {
        assert i >= |rows| ==> (rows + added)[i] in ItemsOf(added);
      }
    }
  }

  lemma {:induction false} ExceptItems(rows: seq<Row>, models: Hierarchy, model: string)
    ensures ItemsOf(Except(rows, models, model)) <= ItemsOf(rows)
  {
    if rows != [] {
      var init, row := rows[..|rows| - 1], rows[|rows| - 1];
      ExceptItems(init, models, model);
      assert ItemsOf(init) <= ItemsOf(rows) && row in ItemsOf(rows);
      assert ItemsOf(Except(init, models, model) + [row]) == ItemsOf(Except(init, models, model)) + {row};
    }
  }

  lemma OneMore(ops: seq<Op>, op: Op, models: Hierarchy, business: string)
    ensures Run(ops + [op], models, business) == Step(Run(ops, models, business), op, models, business)
  {
    assert (ops + [op])[..|ops|] == ops;
  }

  /** After such a run, the next lookup leaves an index of all rows. */
  lemma IndexedAfterRun(ops: seq<Op>, models: Hierarchy, business: string)
    ensures var s := Run(ops, models, business);
            Run(ops + [Lookup], models, business) == Reindexed(s, business)
            && (OnlyGrown(ops) || OnlyNewRows(ops) ==> Indexes(Reindexed(s, business), s.rows, business))
  {
    var s, seen := Run(ops, models, business), SeenBy(ops, models, business);
    OneMore(ops, Lookup, models, business);
    if OnlyGrown(ops) {
      GrownStaysInPlace(ops, models, business);
      ReindexedIndexes(s, seen, business);
    } else if OnlyNewRows(ops) {
      var k := NewRowsSurvive(ops, models, business);
      if s.indexed > 0 {
        SurvivorsInPlace(s, seen, k, business);
      }
      ReindexedIndexes(s, seen, business);
    }
  }

  /** After such a run, lookups answer as a scan of the rows does. */
  lemma RunAnswersAsScan(ops: seq<Op>, models: Hierarchy, business: string, model: string, id: string)
    requires OnlyGrown(ops) || OnlyNewRows(ops)
    ensures AllOf(Run(ops + [Lookup], models, business), models, business, model)
         == Scan(Run(ops, models, business).rows, models, business, model)
    ensures GetOf(Run(ops + [Lookup], models, business), models, business, model, id)
         == FirstWithId(Scan(Run(ops, models, business).rows, models, business, model), id)
  {
    IndexedAfterRun(ops, models, business);
    var s := Run(ops, models, business);
    AllIsTheScan(Reindexed(s, business), models, business, model);
    GetIsTheFirst(Reindexed(s, business), models, business, model, id);
  }

  // ---------------------------------------------------------------- which rows are picked

  /** What a scan is to find: rows of the model that are of this business, or of none. */
  function InScan(models: Hierarchy, business: string, model: string): Row -> bool {
    (row: Row) => (row.kind, model) in models && row.business in {None, Some(business)}
  }

  function NotOf(models: Hierarchy, model: string): Row -> bool { (row: Row) => (row.kind, model) !in models }

  /** Exactly the rows to keep, as often and in the order they stand. */
  ghost predicate Picks(rows: seq<Row>, keep: Row -> bool, picked: seq<Row>) {
    if rows == [] then picked == []
    else
      var init, last := rows[..|rows| - 1], rows[|rows| - 1];
      if keep(last) then picked != [] && picked[|picked| - 1] == last && Picks(init, keep, picked[..|picked| - 1])
      else Picks(init, keep, picked)
  }

  /** The rows picked are those that stand at the places of all rows to keep, in order. */
  lemma {:induction false} PicksInOrder(rows: seq<Row>, keep: Row -> bool, picked: seq<Row>) returns (places: seq<nat>)
    requires Picks(rows, keep, picked)
    ensures |places| == |picked| && forall i, j :: 0 <= i < j < |places| ==> places[i] < places[j]
    ensures forall p: nat :: p in places <==> p < |rows| && keep(rows[p])
    ensures forall i :: 0 <= i < |places| ==> places[i] < |rows| && picked[i] == rows[places[i]]
    decreases |rows|
  {
    places := [];
    if rows != [] {
      var n := |rows| - 1;
      if keep(rows[n]) {
        places := PicksInOrder(rows[..n], keep, picked[..|picked| - 1]);
        assert forall i :: 0 <= i < |places| ==> places[i] in places;
        places := places + [n];
      } else {
        places := PicksInOrder(rows[..n], keep, picked);
      }
    }
  }

  /** A row to keep is picked as often as it stands in the list, any other never. */
  lemma {:induction false} PicksMultiplicity(rows: seq<Row>, keep: Row -> bool, picked: seq<Row>, row: Row)
    requires Picks(rows, keep, picked)
    ensures multiset(picked)[row] == if keep(row) then multiset(rows)[row] else 0
    decreases |rows|
  {
    if rows != [] {
      var init, last := rows[..|rows| - 1], rows[|rows| - 1];
      assert rows == init + [last];
      if keep(last) {
        var before := picked[..|picked| - 1];
        assert picked == before + [last];
        PicksMultiplicity(init, keep, before, row);
      } else {
        PicksMultiplicity(init, keep, picked, row);
      }
    }
  }

  /** A scan picks the rows of the model that are of this business. */
  lemma {:induction false} ScanPicks(rows: seq<Row>, models: Hierarchy, business: string, model: string)
    ensures Picks(rows, InScan(models, business, model), Scan(rows, models, business, model))
  {
    if rows != [] {
      ScanPicks(rows[..|rows| - 1], models, business, model);
      var before := Scan(rows[..|rows| - 1], models, business, model);
      assert (before + [rows[|rows| - 1]])[..|before|] == before;
    }
  }

  lemma {:induction false} ExceptPicks(rows: seq<Row>, models: Hierarchy, model: string)
    ensures Picks(rows, NotOf(models, model), Except(rows, models, model))
  {
    if rows != [] {
      ExceptPicks(rows[..|rows| - 1], models, model);
      var before := Except(rows[..|rows| - 1], models, model);
      assert (before + [rows[|rows| - 1]])[..|before|] == before;
    }
  }

  lemma DiscardPicks(rows: seq<Row>, models: Hierarchy, model: string)
    ensures Picks(rows, NotOf(models, model), Except(rows, models, model))
    ensures forall row :: multiset(Except(rows, models, model))[row]
                          == if IsA(models, row.kind, model) then 0 else multiset(rows)[row]
  {
    ExceptPicks(rows, models, model);
    forall row
      ensures multiset(Except(rows, models, model))[row] == if IsA(models, row.kind, model) then 0 else multiset(rows)[row]
    {
      PicksMultiplicity(rows, NotOf(models, model), Except(rows, models, model), row);
    }
  }

  /**
   * Once a model's rows are discarded, a lookup finds of any model what a scan found before, without the rows of the
   * discarded one; and none of that one.
   */
  lemma DiscardedAreNotFound(s: State, models: Hierarchy, business: string, gone: string, model: string)
    ensures var found := AllOf(Reindexed(Step(s, Discard(gone), models, business), business), models, business, model);
            Picks(Scan(s.rows, models, business, model), NotOf(models, gone), found)
            && (model == gone ==> found == [])
  {
    var after := Step(s, Discard(gone), models, business);
    var now := Reindexed(after, business);
    ReindexedIndexes(after, [], business);
    AllIsTheScan(now, models, business, model);
    var found := Scan(after.rows, models, business, model);
    ScanAfterDiscard(s.rows, models, business, gone, model);
    NoneOfGone(s.rows, models, business, gone);
  }

  lemma PicksSnoc(rows: seq<Row>, keep: Row -> bool, picked: seq<Row>, row: Row)
    requires Picks(rows, keep, picked)
    ensures Picks(rows + [row], keep, if keep(row) then picked + [row] else picked)
  {
    assert (rows + [row])[..|rows|] == rows && (picked + [row])[..|picked|] == picked;
  }

  lemma ScanSnoc(rows: seq<Row>, models: Hierarchy, business: string, model: string, row: Row)
    ensures Scan(rows + [row], models, business, model)
         == Scan(rows, models, business, model)
            + if IsA(models, row.kind, model) && Ours(business, row) then [row] else []
  {
    assert (rows + [row])[..|rows|] == rows;
  }

  lemma {:induction false} ScanAfterDiscard(rows: seq<Row>, models: Hierarchy, business: string, gone: string, model: string)
    ensures Picks(Scan(rows, models, business, model), NotOf(models, gone),
                  Scan(Except(rows, models, gone), models, business, model))
  {
    if rows != [] {
      var init, last := rows[..|rows| - 1], rows[|rows| - 1];
      ScanAfterDiscard(init, models, business, gone, model);
      var left, found := Except(init, models, gone), Scan(init, models, business, model);
      assert rows == init + [last];
      assert Except(rows, models, gone) == if NotOf(models, gone)(last) then left + [last] else left;
      hide Scan, Except, Picks, Ours;
      ScanSnoc(init, models, business, model, last);
      ScanSnoc(left, models, business, model, last);
      PicksMaybe(found, NotOf(models, gone), Scan(left, models, business, model), last,
                 IsA(models, last.kind, model) && Ours(business, last));
    }
  }

  lemma PicksMaybe(rows: seq<Row>, keep: Row -> bool, picked: seq<Row>, row: Row, there: bool)
    requires Picks(rows, keep, picked)
    ensures Picks(rows + (if there then [row] else []), keep, if there && keep(row) then picked + [row] else picked)
    ensures picked + [] == picked
  {
    PicksSnoc(rows, keep, picked, row);
    assert rows + [] == rows;
  }

  lemma {:induction false} NoneOfGone(rows: seq<Row>, models: Hierarchy, business: string, gone: string)
    ensures Scan(Except(rows, models, gone), models, business, gone) == []
  {
    if rows != [] {
      var init, last := rows[..|rows| - 1], rows[|rows| - 1];
      NoneOfGone(init, models, business, gone);
      var left := Except(init, models, gone);
      assert (left + [last])[..|left|] == left;
    }
  }

  // ---------------------------------------------------------------- rows replaced in place

  /** The index is up to date with some rows. */
  ghost predicate Current(s: State, business: string) {
    s.rows != [] && s.indexed == |s.rows| && s.last == LastOf(s.rows) && Indexes(s, s.rows, business)
  }

  /** The next lookups answer what a scan answers. */
  ghost predicate AnswersAsScan(s: State, models: Hierarchy, business: string, model: string, id: string) {
    && AllOf(Reindexed(s, business), models, business, model) == Scan(s.rows, models, business, model)
    && GetOf(Reindexed(s, business), models, business, model, id)
       == FirstWithId(Scan(s.rows, models, business, model), id)
  }

  lemma {:induction false} OfKindOn(x: seq<Row>, y: seq<Row>, business: string, kind: string)
    ensures OfKind(x + y, business, kind) == OfKind(x, business, kind) + OfKind(y, business, kind)
  {
    if y == [] {
      assert x + y == x;
    } else {
      OfKindOn(x, y[..|y| - 1], business, kind);
      assert (x + y)[..|x + y| - 1] == x + y[..|y| - 1];
    }
  }

  /** With one row of this business for another in its place, the rows of its kind are not what they were. */
  lemma RowsOfItsKindDiffer(x: seq<Row>, a: Row, c: Row, y: seq<Row>, business: string, kind: string)
    requires a != c
    requires (Ours(business, a) && a.kind == kind) || (Ours(business, c) && c.kind == kind)
    ensures OfKind(x + [a] + y, business, kind) != OfKind(x + [c] + y, business, kind)
  {
    forall row: Row
      ensures OfKind(x + [row] + y, business, kind)
           == OfKind(x, business, kind)
              + (if Ours(business, row) && row.kind == kind then [row] else []) + OfKind(y, business, kind)
    {
      OfKindOn(x + [row], y, business, kind);
      assert (x + [row])[..|x|] == x;
    }
    var k := |OfKind(x, business, kind)|;
    if Ours(business, a) && a.kind == kind {
      assert OfKind(x + [a] + y, business, kind)[k] == a;
    } else {
      assert OfKind(x + [c] + y, business, kind)[k] == c;
    }
  }

  /** The rows of this business that an index taken of some rows has seen in place are, kind by kind, those rows. */
  ghost predicate KindsInPlace(s: State, seen: seq<Row>, business: string) {
    s.indexed <= |s.rows|
    && forall kind :: OfKind(s.rows[..s.indexed], business, kind) == OfKind(seen, business, kind)
  }

  /** The rows that the next index holds: those seen last time, if it goes on from them, and all after them. */
  ghost function Held(s: State, seen: seq<Row>): seq<Row> {
    if Kept(s) == 0 then s.rows else seen + s.rows[Kept(s)..]
  }

  lemma ReindexedHolds(s: State, seen: seq<Row>, business: string)
    requires TakenOf(s, seen, business)
    ensures Indexes(Reindexed(s, business), Held(s, seen), business) && Reindexed(s, business).rows == s.rows
    ensures TakenOf(Reindexed(s, business), Held(s, seen), business)
  {
    AddKindsOn(map[], seen, s.rows[Kept(s)..], business);
    AddIdsOn(map[], seen, s.rows[Kept(s)..], business);
    assert s.rows[0..] == s.rows;
  }

  ghost predicate SameKinds(a: seq<Row>, b: seq<Row>, business: string) {
    forall kind :: OfKind(a, business, kind) == OfKind(b, business, kind)
  }

  lemma HeldKinds(s: State, seen: seq<Row>, business: string)
    requires TakenOf(s, seen, business) && Kept(s) > 0
    ensures SameKinds(Held(s, seen), s.rows, business) <==> KindsInPlace(s, seen, business)
  {
    hide OfKind;
    var n := Kept(s);
    assert s.rows == s.rows[..n] + s.rows[n..];
    forall kind
      ensures OfKind(Held(s, seen), business, kind) == OfKind(s.rows, business, kind)
         <==> OfKind(s.rows[..n], business, kind) == OfKind(seen, business, kind)
    {
      OfKindOn(seen, s.rows[n..], business, kind);
      OfKindOn(s.rows[..n], s.rows[n..], business, kind);
      SameEnd(OfKind(seen, business, kind), OfKind(s.rows[..n], business, kind), OfKind(s.rows[n..], business, kind));
    }
  }

  lemma SameEnd(a: seq<Row>, b: seq<Row>, end: seq<Row>)
    ensures a + end == b + end <==> a == b
  {
    if a + end == b + end {
      assert a == (a + end)[..|a|] && b == (b + end)[..|b|];
    }
  }

  /** An index of rows with the same rows of each kind answers the same. */
  lemma SameKindsAnswerAlike(s: State, rows: seq<Row>, models: Hierarchy, business: string, model: string, id: string)
    requires Indexes(s, rows, business) && SameKinds(rows, s.rows, business)
    ensures AllOf(s, models, business, model) == Scan(s.rows, models, business, model)
    ensures GetOf(s, models, business, model, id) == FirstWithId(Scan(s.rows, models, business, model), id)
  {
    var anew := s.(kinds := AddKinds(map[], s.rows, business), ids := AddIds(map[], s.rows, business));
    AllIsTheScan(anew, models, business, model);
    GetIsTheFirst(anew, models, business, model, id);
    forall kind
      ensures kind in s.kinds <==> kind in anew.kinds
      ensures kind in s.kinds ==> s.kinds[kind] == anew.kinds[kind]
    {
      KindsHoldTheirRows(rows, business, kind);
      KindsHoldTheirRows(s.rows, business, kind);
    }
    hide AddKinds, AddIds, OfKind, Scan, FirstWithId;
    assert s.kinds == anew.kinds;
    assert AllOf(s, models, business, model) == AllOf(anew, models, business, model);
    IdsHoldTheFirst(rows, business, model, id);
    IdsHoldTheFirst(s.rows, business, model, id);
  }

  /** For a model that only its own kind is of, an index answers with the rows of that kind it was made of. */
  lemma AnswersOfOneKind(s: State, rows: seq<Row>, business: string, kind: string)
    requires Indexes(s, rows, business)
    ensures AllOf(s, {(kind, kind)}, business, kind) == OfKind(rows, business, kind)
    ensures Scan(s.rows, {(kind, kind)}, business, kind) == OfKind(s.rows, business, kind)
  {
    hide Indexes, Scan, OfKind, Instances;
    var models, before := {(kind, kind)}, s.(rows := rows);
    assert Indexes(before, rows, business) by { IndexesByKinds(s, before, rows, business); }
    OneKindIsTheScan(rows, models, business, kind, kind);
    OneKindIsTheScan(s.rows, models, business, kind, kind);
    AllIsTheScan(before, models, business, kind);
    assert Matching(s.kinds, models, kind) <= {kind};
    if kind in s.kinds {
      assert Matching(s.kinds, models, kind) == {kind};
    } else {
      assert Matching(s.kinds, models, kind) == {};
    }
  }

  lemma IndexesByKinds(s: State, other: State, rows: seq<Row>, business: string)
    requires Indexes(s, rows, business) && other.kinds == s.kinds && other.ids == s.ids
    ensures Indexes(other, rows, business)
  {
  }

  /**
   * Whatever was done to the list since the index was taken of some rows: lookups answer as a scan, for all classes,
   * exactly when it is rebuilt or the rows of this business that it skips are, kind by kind, the ones it has seen.
   */
  lemma AnsweredIff(s: State, seen: seq<Row>, business: string)
    requires TakenOf(s, seen, business)
    ensures (forall models, model, id :: AnswersAsScan(s, models, business, model, id))
       <==> Kept(s) == 0 || KindsInPlace(s, seen, business)
  {
    hide Indexes, AllOf, GetOf, Scan, FirstWithId, Reindexed, OfKind, Held, Kept, TakenOf;
    ReindexedHolds(s, seen, business);
    var now := Reindexed(s, business);
    if Kept(s) == 0 {
      assert SameKinds(Held(s, seen), s.rows, business) by { HeldAll(s, seen, business); }
    } else {
      HeldKinds(s, seen, business);
    }
    if SameKinds(Held(s, seen), s.rows, business) {
      forall models, model, id
        ensures AnswersAsScan(s, models, business, model, id)
      {
        SameKindsAnswerAlike(now, Held(s, seen), models, business, model, id);
      }
    } else {
      var kind :| OfKind(Held(s, seen), business, kind) != OfKind(s.rows, business, kind);
      AnswersOfOneKind(now, Held(s, seen), business, kind);
      assert !AnswersAsScan(s, {(kind, kind)}, business, kind, "");
    }
  }

  /** The rows that the index holds after a run, whatever was done to the list in between. */
  ghost function HeldBy(ops: seq<Op>, models: Hierarchy, business: string): seq<Row> {
    if ops == [] then []
    else
      var init, before := ops[..|ops| - 1], HeldBy(ops[..|ops| - 1], models, business);
      if ops[|ops| - 1].Lookup? then Held(Run(init, models, business), before) else before
  }

  lemma {:induction false} EveryRunHolds(ops: seq<Op>, models: Hierarchy, business: string)
    ensures TakenOf(Run(ops, models, business), HeldBy(ops, models, business), business)
  {
    if ops != [] {
      EveryRunHolds(ops[..|ops| - 1], models, business);
      ReindexedHolds(Run(ops[..|ops| - 1], models, business), HeldBy(ops[..|ops| - 1], models, business), business);
    }
  }

  /** After every run of all operations, replacements and rows put in again included, lookups answer exactly then. */
  lemma RunAnsweredIff(ops: seq<Op>, models: Hierarchy, business: string)
    ensures (forall classes, model, id :: AnswersAsScan(Run(ops, models, business), classes, business, model, id))
       <==> Kept(Run(ops, models, business)) == 0
            || KindsInPlace(Run(ops, models, business), HeldBy(ops, models, business), business)
  {
    EveryRunHolds(ops, models, business);
    AnsweredIff(Run(ops, models, business), HeldBy(ops, models, business), business);
  }

  lemma HeldAll(s: State, seen: seq<Row>, business: string)
    requires Kept(s) == 0
    ensures SameKinds(Held(s, seen), s.rows, business)
  {
  }

  lemma SplitAt(rows: seq<Row>, place: nat, row: Row)
    requires place < |rows|
    ensures rows == rows[..place] + [rows[place]] + rows[place + 1..]
    ensures rows[place := row] == rows[..place] + [row] + rows[place + 1..]
  {
  }

  /** Replacing a row leaves the rows of each kind what they were exactly when neither row is of this business. */
  lemma ReplacedKinds(rows: seq<Row>, business: string, place: nat, row: Row)
    requires place < |rows| && row != rows[place]
    ensures SameKinds(rows[place := row], rows, business) <==> !Ours(business, rows[place]) && !Ours(business, row)
  {
    hide OfKind, Ours;
    var x, a, y := rows[..place], rows[place], rows[place + 1..];
    SplitAt(rows, place, row);
    if Ours(business, a) || Ours(business, row) {
      var kind := if Ours(business, a) then a.kind else row.kind;
      RowsOfItsKindDiffer(x, a, row, y, business, kind);
    } else {
      forall kind
        ensures OfKind(rows[place := row], business, kind) == OfKind(rows, business, kind)
      {
        RowsOfOthersSkipped(x, a, y, business, kind);
        RowsOfOthersSkipped(x, row, y, business, kind);
      }
    }
  }

  lemma RowsOfOthersSkipped(x: seq<Row>, row: Row, y: seq<Row>, business: string, kind: string)
    requires !Ours(business, row)
    ensures OfKind(x + [row] + y, business, kind) == OfKind(x, business, kind) + OfKind(y, business, kind)
  {
    OfKindOn(x + [row], y, business, kind);
    assert (x + [row])[..|x|] == x;
  }

  /**
   * Another row put in the place of one seen is noticed by the index exactly at the last place; lookups still
   * answer as a scan, whatever the classes, exactly there or when neither row is of this business.
   */
  lemma ReplacementAnsweredIff(s: State, business: string, place: nat, row: Row)
    requires Current(s, business) && place < |s.rows| && row != s.rows[place]
    ensures forall models :: Step(s, Replace(place, row), models, business) == s.(rows := s.rows[place := row])
    ensures Kept(Replaced(s, place, row)) == 0 <==> place == |s.rows| - 1
    ensures (forall models, model, id :: AnswersAsScan(Replaced(s, place, row), models, business, model, id))
       <==> place == |s.rows| - 1 || (!Ours(business, s.rows[place]) && !Ours(business, row))
  {
    hide AddKinds, AddIds, AnswersAsScan, OfKind, Ours;
    var now := Replaced(s, place, row);
    AnsweredIff(now, s.rows, business);
    ReplacedKinds(s.rows, business, place, row);
    assert now.rows[..now.indexed] == s.rows[place := row];
  }

  // ---------------------------------------------------------------- the context

  lemma NoRowsAdd(kinds: Kinds, ids: Ids, rows: seq<Row>, business: string)
    requires rows == []
    ensures AddKinds(kinds, rows, business) == kinds && AddIds(ids, rows, business) == ids
  {
  }

  lemma OneMoreAdds(kinds: Kinds, ids: Ids, rows: seq<Row>, seen: nat, n: nat, business: string)
    requires seen <= n < |rows|
    ensures AddKinds(kinds, rows[seen..n + 1], business)
         == if Ours(business, rows[n]) then PutKind(AddKinds(kinds, rows[seen..n], business), rows[n])
            else AddKinds(kinds, rows[seen..n], business)
    ensures AddIds(ids, rows[seen..n + 1], business)
         == if Ours(business, rows[n]) then PutId(AddIds(ids, rows[seen..n], business), rows[n])
            else AddIds(ids, rows[seen..n], business)
  {
    assert rows[seen..n + 1][..n - seen] == rows[seen..n];
  }

  class DemoContext {
    const business: string
    const models: Hierarchy
    var rows: seq<Row>
    var kinds: Kinds
    var ids: Ids
    var indexed: nat
    var last: Option<Row>

    /** What was done to the context so far. */
    ghost var ops: seq<Op>

    constructor (business: string, models: Hierarchy)
      ensures this.business == business && this.models == models
      ensures Valid() && ops == [] && rows == []
    {
      this.business, this.models := business, models;
      rows, kinds, ids, indexed, last := [], map[], map[], 0, None;
      ops := [];
    }

    ghost predicate Valid()
      reads this
    {
      Now() == Run(ops, models, business)
    }

    function Now(): State
      reads this
    {
      State(rows, kinds, ids, indexed, last)
    }

    method Add(added: seq<Row>)
      requires Valid()
      modifies this
      ensures Valid() && ops == old(ops) + [Append(added)]
      ensures rows == old(rows) + added
    {
      OneMore(ops, Append(added), models, business);
      rows := rows + added;
      ops := ops + [Append(added)];
    }

    /** Takes one row out of the list, without a word to the index. */
    method Remove(row: Row)
      requires Valid()
      modifies this
      ensures Valid() && ops == old(ops) + [Op.Remove(row)]
      ensures rows == Without(old(rows), row)
      ensures if row in old(rows) then
                exists p :: 0 <= p < |old(rows)| && old(rows)[p] == row && row !in old(rows)[..p]
                            && rows == old(rows)[..p] + old(rows)[p + 1..]
              else rows == old(rows)
    {
      assert row in rows ==> PlaceOf(rows, row) < |rows| by {
        assert rows[..|rows|] == rows;
      }
      OneMore(ops, Op.Remove(row), models, business);
      rows := Without(rows, row);
      ops := ops + [Op.Remove(row)];
    }

    method DiscardAll(model: string)
      requires Valid()
      modifies this
      ensures Valid() && ops == old(ops) + [Discard(model)]
      ensures rows == Except(old(rows), models, model) && indexed == 0
      ensures Picks(old(rows), NotOf(models, model), rows)
      ensures forall row :: multiset(rows)[row] == if IsA(models, row.kind, model) then 0 else multiset(old(rows))[row]
    {
      OneMore(ops, Discard(model), models, business);
      var left: seq<Row> := [];
      for n := 0 to |rows|
        invariant left == Except(rows[..n], models, model)
        invariant Now() == old(Now()) && ops == old(ops)
      {
        assert rows[..n + 1][..n] == rows[..n];
        if !IsA(models, rows[n].kind, model) {
          left := left + [rows[n]];
        }
      }
      assert rows[..|rows|] == rows;
      DiscardPicks(rows, models, model);
      rows := left;
      indexed := 0;
      ops := ops + [Discard(model)];
    }

    /** The index goes on over the rows from this one on. */
    method IndexFrom(seen: nat)
      requires seen <= |rows|
      modifies `kinds, `ids
      ensures kinds == AddKinds(old(kinds), rows[seen..], business) && ids == AddIds(old(ids), rows[seen..], business)
    {
      hide AddKinds, AddIds;
      NoRowsAdd(kinds, ids, rows[seen..seen], business);
      for n := seen to |rows|
        invariant kinds == AddKinds(old(kinds), rows[seen..n], business)
        invariant ids == AddIds(old(ids), rows[seen..n], business)
      {
        var row := rows[n];
        OneMoreAdds(old(kinds), old(ids), rows, seen, n, business);
        if Ours(business, row) {
          kinds := kinds[row.kind := (if row.kind in kinds then kinds[row.kind] else []) + [row]];
          if (row.kind, row.id) !in ids {
            ids := ids[(row.kind, row.id) := row];
          }
        }
      }
      assert rows[seen..|rows|] == rows[seen..];
    }

    /** Brings the index up to date: on from the rows seen, or afresh when the last of them is not in place. */
    method Index()
      requires Valid()
      modifies this
      ensures Valid() && ops == old(ops) + [Lookup] && rows == old(rows)
      ensures Now() == Reindexed(old(Now()), business)
      ensures OnlyGrown(old(ops)) || OnlyNewRows(old(ops)) ==> Indexes(Now(), rows, business)
    {
      IndexedAfterRun(ops, models, business);
      hide AddKinds, AddIds, Run, Step, OnlyGrown, OnlyNewRows, Indexes;
      var seen := indexed;
      if seen > |rows| || (seen > 0 && Some(rows[seen - 1]) != last) {
        seen := 0;
      }
      if seen == 0 {
        kinds, ids := map[], map[];
      }
      IndexFrom(seen);
      indexed := |rows|;
      last := if rows == [] then None else Some(rows[|rows| - 1]);
      ops := ops + [Lookup];
    }

    /** All rows of a model; after any mix of the allowed operations, those of a plain scan. */
    method All(model: string) returns (found: seq<Row>)
      requires Valid()
      modifies this
      ensures Valid() && ops == old(ops) + [Lookup] && rows == old(rows)
      ensures Now() == Reindexed(old(Now()), business)
      ensures found == AllOf(Now(), models, business, model)
      ensures OnlyGrown(old(ops)) || OnlyNewRows(old(ops)) ==> found == Scan(rows, models, business, model)
    {
      hide Scan, Run, OnlyGrown, OnlyNewRows, Indexes;
      Index();
      if OnlyGrown(old(ops)) || OnlyNewRows(old(ops)) {
        AllIsTheScan(Now(), models, business, model);
      }
      var matching := set kind <- kinds | IsA(models, kind, model);
      if matching == {} {
        found := [];
      } else if |matching| == 1 {
        var kind :| kind in matching;
        OneKind(matching, kind);
        found := Instances(kinds[kind], models, model);
      } else {
        found := Scan(rows, models, business, model);
      }
    }

    /** The first row of a model with the id; after any mix of the allowed operations, that of a plain scan. */
    method Get(model: string, id: string) returns (found: Result<Row, Missing>)
      requires Valid()
      modifies this
      ensures Valid() && ops == old(ops) + [Lookup] && rows == old(rows)
      ensures Now() == Reindexed(old(Now()), business)
      ensures found == GetOf(Now(), models, business, model, id)
      ensures OnlyGrown(old(ops)) || OnlyNewRows(old(ops)) ==>
                found == FirstWithId(Scan(rows, models, business, model), id)
    {
      hide Scan, FirstWithId, Run, OnlyGrown, OnlyNewRows, Indexes;
      Index();
      if OnlyGrown(old(ops)) || OnlyNewRows(old(ops)) {
        GetIsTheFirst(Now(), models, business, model, id);
      }
      var matching := set kind <- kinds | IsA(models, kind, model);
      if matching == {model} && (model, Some(id)) in ids {
        var row := ids[(model, Some(id))];
        if IsA(models, row.kind, model) && row.id == Some(id) {
          return Ok(row);
        }
      }
      ReindexedTwice(old(Now()), business);
      var candidates := All(model);
      ops := old(ops) + [Lookup];
      found := FirstWithId(candidates, id);
    }
  }
}
