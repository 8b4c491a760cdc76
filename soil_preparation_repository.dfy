/**
 * The soil-preparation tables: `soil_preparations` and the ordered product
 * applications in `soil_preparation_actions`, read together with `products`
 * for their unit costs. Creating a preparation with its actions, reading it
 * with its actions in application order, listing and searching by name,
 * partially updating, replacing the actions with a cost recomputation,
 * computing the cost, and deleting a preparation or one action.
 */
module SoilPreparationRepository {

  import opened Wrappers
  import opened Entities
  import opened Sql
  import opened Tables
  import Seqs
  import Sorting
  import Strings

  // ---------------------------------------------------------------- create

  /**
   * An action as the callers pass it: `createAction` draws a fresh id and
   * tags it with the preparation, so neither is part of the input.
   */
  datatype NewAction = NewAction(
    productId: string,
    dosage: real,
    dosageUnit: string,
    applicationMethod: Option<string>,
    engineerReportBlob: Option<string>,
    order: int)

  /** What `create` receives: a preparation without id and timestamps. */
  datatype NewSoilPreparation = NewSoilPreparation(
    name: string,
    description: Option<string>,
    actions: seq<NewAction>,
    totalCost: real,
    estimatedDuration: int)

  /** The row `createAction` inserts: empty optional texts are stored as NULL. */
  function NewActionRow(a: NewAction, prepId: string, id: string): ActionRow
  {
    ActionRow(id, prepId, a.productId, a.dosage, a.dosageUnit, NonEmpty(a.applicationMethod), NonEmpty(a.engineerReportBlob), a.order)
  }

  /** The rows a sequence of `createAction` calls inserts, one per action, in order. */
  function NewActionRows(actions: seq<NewAction>, prepId: string, ids: seq<string>): (r: seq<ActionRow>)
    requires |ids| == |actions|
    ensures |r| == |actions|
    ensures forall k :: 0 <= k < |r| ==> r[k] == NewActionRow(actions[k], prepId, ids[k])
  {
    if |actions| == 0 then []
    else NewActionRows(actions[..|actions| - 1], prepId, ids[..|ids| - 1]) + [NewActionRow(actions[|actions| - 1], prepId, ids[|ids| - 1])]
  }

  /** `createAction`: appends one action row; `id` is the generated id. */
  method CreateAction(db: Database, a: NewAction, prepId: string, id: string) returns (newId: string)
    modifies db`soilPreparationActions
    ensures newId == id
    ensures db.soilPreparationActions == old(db.soilPreparationActions) + [NewActionRow(a, prepId, id)]
  {
    db.soilPreparationActions := db.soilPreparationActions + [NewActionRow(a, prepId, id)];
    newId := id;
  }

  /** The `for (const action of …) createAction(…)` loop of `create` and `updateActions`. */
  method InsertActions(db: Database, actions: seq<NewAction>, prepId: string, ids: seq<string>)
    requires |ids| == |actions|
    modifies db`soilPreparationActions
    ensures db.soilPreparationActions == old(db.soilPreparationActions) + NewActionRows(actions, prepId, ids)
  {
    var i := 0;
    while i < |actions|
      invariant 0 <= i <= |actions|
      invariant db.soilPreparationActions == old(db.soilPreparationActions) + NewActionRows(actions[..i], prepId, ids[..i])
    {
      assert actions[..i + 1][..i] == actions[..i];
      assert ids[..i + 1][..i] == ids[..i];
      var actionId := CreateAction(db, actions[i], prepId, ids[i]);
      i := i + 1;
    }
    assert actions[..i] == actions && ids[..i] == ids;
  }

  /** The row `create` inserts: the caller's total cost as given, an empty description as NULL. */
  function NewPreparationRow(x: NewSoilPreparation, id: string, now: string): SoilPrepRow
  {
    SoilPrepRow(id, x.name, NonEmpty(x.description), x.totalCost, x.estimatedDuration, now, now)
  }

  /**
   * `create`, in one transaction: the preparation row, then one action row
   * per action tagged with the new id. `id`, `actionIds` and `now` are the
   * generated ids and the clock.
   */
  method Create(db: Database, x: NewSoilPreparation, id: string, actionIds: seq<string>, now: string) returns (newId: string)
    requires |actionIds| == |x.actions|
    modifies db`soilPreparations, db`soilPreparationActions
    ensures newId == id
    ensures db.soilPreparations == old(db.soilPreparations) + [NewPreparationRow(x, id, now)]
    ensures db.soilPreparationActions == old(db.soilPreparationActions) + NewActionRows(x.actions, id, actionIds)
  {
    db.soilPreparations := db.soilPreparations + [NewPreparationRow(x, id, now)];
    InsertActions(db, x.actions, id, actionIds);
    newId := id;
  }

  // ---------------------------------------------------------------- read

  function PrepIdIs(id: string): SoilPrepRow -> bool
  {
    (r: SoilPrepRow) => r.id == id
  }

  function ProductIdIs(id: string): ProductRow -> bool
  {
    (p: ProductRow) => p.id == id
  }

  /** Some product row has this id. */
  predicate HasProduct(products: seq<ProductRow>, productId: string)
  {
    exists i :: 0 <= i < |products| && products[i].id == productId
  }

  /** The unit cost of the product with this id, as the join reads it; None when no product has it. */
  function UnitCost(products: seq<ProductRow>, productId: string): (r: Option<real>)
    ensures r.Some? <==> HasProduct(products, productId)
    ensures r.Some? ==> exists i :: 0 <= i < |products| && products[i].id == productId && r.value == products[i].costPerUnit
  {
    match Seqs.Find(products, ProductIdIs(productId))
    case None => None
    case Some(p) => Some(p.costPerUnit)
  }

  function ActionOf(prepId: string): ActionRow -> bool
  {
    (a: ActionRow) => a.soilPreparationId == prepId
  }

  /** The action rows `… INNER JOIN products p ON spa.product_id = p.id WHERE spa.soil_preparation_id = ?` keeps. */
  function JoinsProduct(products: seq<ProductRow>, prepId: string): ActionRow -> bool
  {
    (a: ActionRow) => a.soilPreparationId == prepId && UnitCost(products, a.productId).Some?
  }

  /** An action row as `findById` maps it (the selected product columns are not kept). */
  function ToAction(r: ActionRow): SoilPreparationAction
  {
    SoilPreparationAction(r.id, r.soilPreparationId, r.productId, r.dosage, r.dosageUnit, r.applicationMethod, r.engineerReportBlob, r.order)
  }

  function OrderOf(r: ActionRow): int { r.order }

  /** `ORDER BY spa.action_order`; rows with equal order keep their table order. */
  function SortedByOrder(rows: seq<ActionRow>): (r: seq<ActionRow>)
    ensures |r| == |rows|
    ensures forall i, j :: 0 <= i < j < |r| ==> r[i].order <= r[j].order
    ensures forall i :: 0 <= i < |rows| ==> rows[i] in r
    ensures forall i :: 0 <= i < |r| ==> r[i] in rows
    ensures multiset(r) == multiset(rows)
    ensures forall k :: Seqs.Filter(r, Sorting.KeyIs(OrderOf, k)) == Seqs.Filter(rows, Sorting.KeyIs(OrderOf, k))
  {
    Sorting.SortByKeyAscending(rows, OrderOf);
    Sorting.SortStableByKeyAscending(rows, OrderOf);
    Sorting.SortMembers(rows, Sorting.ByKeyAscending(OrderOf));
    assert var r := Sorting.Sort(rows, Sorting.ByKeyAscending(OrderOf));
      forall i, j :: 0 <= i < j < |r| ==> OrderOf(r[i]) <= OrderOf(r[j]);
    Sorting.Sort(rows, Sorting.ByKeyAscending(OrderOf))
  }

  /** Each row mapped, in the order given. */
  function ToActions(rows: seq<ActionRow>): (r: seq<SoilPreparationAction>)
    ensures |r| == |rows|
    ensures forall i :: 0 <= i < |rows| ==> r[i] == ToAction(rows[i])
  {
    if |rows| == 0 then [] else ToActions(rows[..|rows| - 1]) + [ToAction(rows[|rows| - 1])]
  }

  /** `a` is the mapping of an action row of `prepId` whose product exists. */
  predicate FromJoinedAction(a: SoilPreparationAction, actions: seq<ActionRow>, products: seq<ProductRow>, prepId: string)
  {
    exists j :: 0 <= j < |actions| && JoinsProduct(products, prepId)(actions[j]) && a == ToAction(actions[j])
  }

  /**
   * The actions `findById` reads for a preparation: its action rows whose
   * product exists, in `action_order` order. An action whose product row
   * is missing is dropped by the inner join.
   */
  function PreparationActions(actions: seq<ActionRow>, products: seq<ProductRow>, prepId: string): (r: seq<SoilPreparationAction>)
    ensures |r| == |Seqs.Filter(actions, JoinsProduct(products, prepId))|
    ensures forall i, j :: 0 <= i < j < |r| ==> r[i].order <= r[j].order
    ensures forall k :: 0 <= k < |r| ==> FromJoinedAction(r[k], actions, products, prepId)
    ensures forall j :: 0 <= j < |actions| && JoinsProduct(products, prepId)(actions[j]) ==> ToAction(actions[j]) in r
  {
    var joined := Seqs.Filter(actions, JoinsProduct(products, prepId));
    var sorted := SortedByOrder(joined);
    ActionsOrdered(sorted);
    ActionsFromJoined(actions, products, prepId, sorted);
    ActionsCover(actions, products, prepId, sorted);
    ToActions(sorted)
  }

  lemma ActionsOrdered(sorted: seq<ActionRow>)
    requires forall i, j :: 0 <= i < j < |sorted| ==> sorted[i].order <= sorted[j].order
    ensures var r := ToActions(sorted); forall i, j :: 0 <= i < j < |r| ==> r[i].order <= r[j].order
  {
    var r := ToActions(sorted);
    forall i, j | 0 <= i < j < |r| ensures r[i].order <= r[j].order {
      assert r[i].order == sorted[i].order && r[j].order == sorted[j].order;
    }
  }

  lemma ActionsFromJoined(actions: seq<ActionRow>, products: seq<ProductRow>, prepId: string, sorted: seq<ActionRow>)
    requires forall i :: 0 <= i < |sorted| ==> sorted[i] in Seqs.Filter(actions, JoinsProduct(products, prepId))
    ensures var r := ToActions(sorted); forall k :: 0 <= k < |r| ==> FromJoinedAction(r[k], actions, products, prepId)
  {
    var r := ToActions(sorted);
    forall k | 0 <= k < |r| ensures FromJoinedAction(r[k], actions, products, prepId) {
      JoinedActionIn(actions, JoinsProduct(products, prepId), sorted[k]);
      var j :| 0 <= j < |actions| && actions[j] == sorted[k];
      assert JoinsProduct(products, prepId)(actions[j]) && r[k] == ToAction(actions[j]);
    }
  }

  lemma JoinedActionIn(actions: seq<ActionRow>, keep: ActionRow -> bool, x: ActionRow)
    requires x in Seqs.Filter(actions, keep)
    ensures x in actions && keep(x)
  {
  }

  lemma ActionsCover(actions: seq<ActionRow>, products: seq<ProductRow>, prepId: string, sorted: seq<ActionRow>)
    requires forall i :: 0 <= i < |actions| && JoinsProduct(products, prepId)(actions[i]) ==> actions[i] in sorted
    ensures forall j :: 0 <= j < |actions| && JoinsProduct(products, prepId)(actions[j]) ==> ToAction(actions[j]) in ToActions(sorted)
  {
    var r := ToActions(sorted);
    forall j | 0 <= j < |actions| && JoinsProduct(products, prepId)(actions[j]) ensures ToAction(actions[j]) in r {
      var k :| 0 <= k < |sorted| && sorted[k] == actions[j];
      assert r[k] == ToAction(actions[j]);
    }
  }

  /** A preparation row with its actions, as `findById` reads it. */
  function Assemble(row: SoilPrepRow, actions: seq<ActionRow>, products: seq<ProductRow>): SoilPreparation
  {
    SoilPreparation(row.id, row.name, row.description, PreparationActions(actions, products, row.id),
      row.totalCost, row.estimatedDuration, row.createdAt, row.updatedAt)
  }

  /** `findById`: the first row with the id, with its actions; None when no row has it. */
  function FindById(preps: seq<SoilPrepRow>, actions: seq<ActionRow>, products: seq<ProductRow>, id: string): (r: Option<SoilPreparation>)
    ensures r.None? <==> forall i :: 0 <= i < |preps| ==> preps[i].id != id
    ensures r.Some? ==> exists i :: 0 <= i < |preps| && preps[i].id == id && r.value == Assemble(preps[i], actions, products)
  {
    match Seqs.Find(preps, PrepIdIs(id))
    case None => None
    case Some(row) => Some(Assemble(row, actions, products))
  }

  /** No two preparation rows share an id (the id is the table's key). */
  predicate UniqueIds(preps: seq<SoilPrepRow>)
  {
    forall a, b :: 0 <= a < b < |preps| ==> preps[a].id != preps[b].id
  }

  /** With distinct ids, `findById` of a row's id reads that row. */
  lemma FindByIdOfRow(preps: seq<SoilPrepRow>, actions: seq<ActionRow>, products: seq<ProductRow>, k: nat)
    requires k < |preps| && UniqueIds(preps)
    ensures FindById(preps, actions, products, preps[k].id) == Some(Assemble(preps[k], actions, products))
  {
    Seqs.FindIsFirst(preps, PrepIdIs(preps[k].id), k);
  }

  /**
   * The `for (const row of rows) { const p = await this.findById(row.id);
   * if (p) preparations.push(p) }` loop of `findAll` and `search`.
   */
  function ReadEach(rows: seq<SoilPrepRow>, preps: seq<SoilPrepRow>, actions: seq<ActionRow>, products: seq<ProductRow>): (r: seq<SoilPreparation>)
    ensures |r| <= |rows|
  {
    if |rows| == 0 then []
    else
      var prev := ReadEach(rows[..|rows| - 1], preps, actions, products);
      match FindById(preps, actions, products, rows[|rows| - 1].id)
      case None => prev
      case Some(p) => prev + [p]
  }

  /** When the rows come from a table with distinct ids, each row is read back as itself. */
  lemma {:induction false} ReadEachRows(rows: seq<SoilPrepRow>, preps: seq<SoilPrepRow>, actions: seq<ActionRow>, products: seq<ProductRow>)
    requires UniqueIds(preps)
    requires forall i :: 0 <= i < |rows| ==> rows[i] in preps
    ensures |ReadEach(rows, preps, actions, products)| == |rows|
    ensures forall i :: 0 <= i < |rows| ==> ReadEach(rows, preps, actions, products)[i] == Assemble(rows[i], actions, products)
  {
    if |rows| > 0 {
      var n := |rows|;
      var init := rows[..n - 1];
      var last := rows[n - 1];
      assert forall i :: 0 <= i < |init| ==> init[i] == rows[i];
      ReadEachRows(init, preps, actions, products);
      var k :| 0 <= k < |preps| && preps[k] == last;
      FindByIdOfRow(preps, actions, products, k);
      var prev := ReadEach(init, preps, actions, products);
      var r := ReadEach(rows, preps, actions, products);
      assert r == prev + [Assemble(last, actions, products)];
      forall i | 0 <= i < n ensures r[i] == Assemble(rows[i], actions, products) {
        if i < n - 1 {
          assert r[i] == prev[i] && init[i] == rows[i];
        }
      }
    }
  }

  function NameOf(r: SoilPrepRow): string { r.name }

  /** `ORDER BY name`; rows with equal names keep their table order. */
  function SortedByName(rows: seq<SoilPrepRow>): (r: seq<SoilPrepRow>)
    ensures |r| == |rows|
    ensures forall i, j :: 0 <= i < j < |r| ==> Strings.StrLe(r[i].name, r[j].name)
    ensures forall i :: 0 <= i < |rows| ==> rows[i] in r
    ensures forall i :: 0 <= i < |r| ==> r[i] in rows
    ensures multiset(r) == multiset(rows)
    ensures forall n :: Seqs.Filter(r, Sorting.TextIs(NameOf, n)) == Seqs.Filter(rows, Sorting.TextIs(NameOf, n))
  {
    Sorting.SortedByText(rows, NameOf)
  }

  /** `findAll`: every row in name order, each read again by `findById`. */
  function FindAll(preps: seq<SoilPrepRow>, actions: seq<ActionRow>, products: seq<ProductRow>): seq<SoilPreparation>
  {
    ReadEach(SortedByName(preps), preps, actions, products)
  }

  /** With distinct ids, `findAll` lists every preparation once, as `findById` reads it, by name. */
  lemma FindAllListsEach(preps: seq<SoilPrepRow>, actions: seq<ActionRow>, products: seq<ProductRow>)
    requires UniqueIds(preps)
    ensures var r := FindAll(preps, actions, products);
      && |r| == |preps|
      && (forall i, j :: 0 <= i < j < |r| ==> Strings.StrLe(r[i].name, r[j].name))
      && (forall i :: 0 <= i < |preps| ==> Assemble(preps[i], actions, products) in r)
  {
    var sorted := SortedByName(preps);
    ReadEachRows(sorted, preps, actions, products);
    FindAllCovers(preps, actions, products);
    FindAllOrdered(preps, actions, products);
  }

  lemma FindAllCovers(preps: seq<SoilPrepRow>, actions: seq<ActionRow>, products: seq<ProductRow>)
    requires UniqueIds(preps)
    ensures var r := FindAll(preps, actions, products);
      forall i :: 0 <= i < |preps| ==> Assemble(preps[i], actions, products) in r
  {
    forall i | 0 <= i < |preps| ensures Assemble(preps[i], actions, products) in FindAll(preps, actions, products) {
      FindAllCoversRow(preps, actions, products, i);
    }
  }

  lemma FindAllCoversRow(preps: seq<SoilPrepRow>, actions: seq<ActionRow>, products: seq<ProductRow>, i: nat)
    requires UniqueIds(preps) && i < |preps|
    ensures Assemble(preps[i], actions, products) in FindAll(preps, actions, products)
  {
    var sorted := SortedByName(preps);
    var k :| 0 <= k < |sorted| && sorted[k] == preps[i];
    ReadEachRows(sorted, preps, actions, products);
    assert FindAll(preps, actions, products)[k] == Assemble(preps[i], actions, products);
  }

  lemma FindAllOrdered(preps: seq<SoilPrepRow>, actions: seq<ActionRow>, products: seq<ProductRow>)
    requires UniqueIds(preps)
    ensures var r := FindAll(preps, actions, products);
      forall i, j :: 0 <= i < j < |r| ==> Strings.StrLe(r[i].name, r[j].name)
  {
    var sorted := SortedByName(preps);
    ReadEachRows(sorted, preps, actions, products);
    var r := FindAll(preps, actions, products);
    forall i, j | 0 <= i < j < |r| ensures Strings.StrLe(r[i].name, r[j].name) {
      assert r[i].name == sorted[i].name && r[j].name == sorted[j].name;
    }
  }

  /** `name LIKE '%term%' OR description LIKE '%term%'`, the term bound unescaped; a NULL description matches nothing. */
  function Matches(term: string): SoilPrepRow -> bool
  {
    (r: SoilPrepRow) => Strings.LikeAnywhere(r.name, term)
      || (r.description.Some? && Strings.LikeAnywhere(r.description.value, term))
  }

  /** `search`: the matching rows in name order, each read again by `findById`. */
  function Search(preps: seq<SoilPrepRow>, actions: seq<ActionRow>, products: seq<ProductRow>, term: string): seq<SoilPreparation>
  {
    ReadEach(SortedByName(Seqs.Filter(preps, Matches(term))), preps, actions, products)
  }

  /** `p` is a matching row of `preps`, as `findById` reads it. */
  predicate FromMatchingRow(p: SoilPreparation, preps: seq<SoilPrepRow>, actions: seq<ActionRow>, products: seq<ProductRow>, term: string)
  {
    exists i :: 0 <= i < |preps| && Matches(term)(preps[i]) && p == Assemble(preps[i], actions, products)
  }

  /** With distinct ids, `search` lists exactly the matching preparations, by name. */
  lemma SearchListsMatches(preps: seq<SoilPrepRow>, actions: seq<ActionRow>, products: seq<ProductRow>, term: string)
    requires UniqueIds(preps)
    ensures var r := Search(preps, actions, products, term);
      && |r| == |Seqs.Filter(preps, Matches(term))|
      && (forall i, j :: 0 <= i < j < |r| ==> Strings.StrLe(r[i].name, r[j].name))
      && (forall i :: 0 <= i < |preps| && Matches(term)(preps[i]) ==> Assemble(preps[i], actions, products) in r)
      && (forall k :: 0 <= k < |r| ==> FromMatchingRow(r[k], preps, actions, products, term))
  {
    var matching := Seqs.Filter(preps, Matches(term));
    var sorted := SortedByName(matching);
    forall i | 0 <= i < |sorted| ensures sorted[i] in preps {
      MatchingRowIn(preps, Matches(term), sorted[i]);
    }
    ReadEachRows(sorted, preps, actions, products);
    var r := ReadEach(sorted, preps, actions, products);
    assert r == Search(preps, actions, products, term);
    SearchCovers(preps, actions, products, term, sorted, r);
    SearchSound(preps, actions, products, term, sorted, r);
    forall i, j | 0 <= i < j < |r| ensures Strings.StrLe(r[i].name, r[j].name) {
      assert r[i].name == sorted[i].name && r[j].name == sorted[j].name;
    }
  }

  /** With distinct ids, a preparation whose name contains a wildcard-free term as written is found by `search`. */
  lemma SearchFindsNameContaining(preps: seq<SoilPrepRow>, actions: seq<ActionRow>, products: seq<ProductRow>, term: string, i: int)
    requires UniqueIds(preps) && Strings.NoWildcards(term)
    requires 0 <= i < |preps| && Strings.ContainsSubstring(preps[i].name, term)
    ensures Assemble(preps[i], actions, products) in Search(preps, actions, products, term)
  {
    Strings.SubstringIsLike(preps[i].name, term);
    SearchListsMatches(preps, actions, products, term);
  }

  lemma SearchCovers(preps: seq<SoilPrepRow>, actions: seq<ActionRow>, products: seq<ProductRow>, term: string,
                     sorted: seq<SoilPrepRow>, r: seq<SoilPreparation>)
    requires |r| == |sorted|
    requires forall k :: 0 <= k < |sorted| ==> r[k] == Assemble(sorted[k], actions, products)
    requires forall i :: 0 <= i < |preps| && Matches(term)(preps[i]) ==> preps[i] in sorted
    ensures forall i :: 0 <= i < |preps| && Matches(term)(preps[i]) ==> Assemble(preps[i], actions, products) in r
  {
    forall i | 0 <= i < |preps| && Matches(term)(preps[i]) ensures Assemble(preps[i], actions, products) in r {
      var k :| 0 <= k < |sorted| && sorted[k] == preps[i];
      assert r[k] == Assemble(preps[i], actions, products);
    }
  }

  lemma SearchSound(preps: seq<SoilPrepRow>, actions: seq<ActionRow>, products: seq<ProductRow>, term: string,
                    sorted: seq<SoilPrepRow>, r: seq<SoilPreparation>)
    requires |r| == |sorted|
    requires forall k :: 0 <= k < |sorted| ==> r[k] == Assemble(sorted[k], actions, products)
    requires forall k :: 0 <= k < |sorted| ==> sorted[k] in Seqs.Filter(preps, Matches(term))
    ensures forall k :: 0 <= k < |r| ==> FromMatchingRow(r[k], preps, actions, products, term)
  {
    forall k | 0 <= k < |r| ensures FromMatchingRow(r[k], preps, actions, products, term) {
      MatchingRowIn(preps, Matches(term), sorted[k]);
      var i :| 0 <= i < |preps| && preps[i] == sorted[k];
      assert Matches(term)(preps[i]) && r[k] == Assemble(preps[i], actions, products);
    }
  }

  lemma MatchingRowIn(preps: seq<SoilPrepRow>, keep: SoilPrepRow -> bool, x: SoilPrepRow)
    requires x in Seqs.Filter(preps, keep)
    ensures x in preps && keep(x)
  {
  }

  /**
   * A freshly created preparation reads back with the caller's total cost,
   * not a recomputed one, and with exactly its new actions whose product exists.
   */
  lemma CreatedPreparationFound(preps: seq<SoilPrepRow>, actions: seq<ActionRow>, products: seq<ProductRow>,
                                x: NewSoilPreparation, id: string, actionIds: seq<string>, now: string)
    requires |actionIds| == |x.actions|
    requires forall i :: 0 <= i < |preps| ==> preps[i].id != id
    requires forall i :: 0 <= i < |actions| ==> actions[i].soilPreparationId != id
    ensures var r := FindById(preps + [NewPreparationRow(x, id, now)], actions + NewActionRows(x.actions, id, actionIds), products, id);
      && r.Some?
      && r.value.id == id && r.value.name == x.name && r.value.description == NonEmpty(x.description)
      && r.value.totalCost == x.totalCost && r.value.estimatedDuration == x.estimatedDuration
      && r.value.actions == PreparationActions(NewActionRows(x.actions, id, actionIds), products, id)
  {
    var all := preps + [NewPreparationRow(x, id, now)];
    Seqs.FindIsFirst(all, PrepIdIs(id), |preps|);
    var fresh_ := NewActionRows(x.actions, id, actionIds);
    Seqs.FilterAppend(actions, fresh_, JoinsProduct(products, id));
    Seqs.FilterNone(actions, JoinsProduct(products, id));
    assert Seqs.Filter(actions + fresh_, JoinsProduct(products, id)) == Seqs.Filter(fresh_, JoinsProduct(products, id));
  }

  // ---------------------------------------------------------------- cost

  /** One joined row's `spa.dosage * p.cost_per_unit`; an action without product adds nothing. */
  function ActionCost(products: seq<ProductRow>, a: ActionRow): real
  {
    match UnitCost(products, a.productId)
    case None => 0.0
    case Some(c) => a.dosage * c
  }

  function CostOf(products: seq<ProductRow>): ActionRow -> real
  {
    (a: ActionRow) => ActionCost(products, a)
  }

  /**
   * `calculateTotalCost`: `SUM(spa.dosage * p.cost_per_unit)` over the
   * preparation's actions joined with their products; `|| 0` turns the
   * NULL sum of no rows into 0.
   */
  function CalculateTotalCost(actions: seq<ActionRow>, products: seq<ProductRow>, prepId: string): real
  {
    Seqs.Sum(Seqs.Filter(actions, JoinsProduct(products, prepId)), CostOf(products))
  }

  /** The cost only depends on the preparation's own action rows. */
  lemma {:induction false} TotalCostOwnActions(actions: seq<ActionRow>, products: seq<ProductRow>, prepId: string)
    ensures CalculateTotalCost(actions, products, prepId) == CalculateTotalCost(Seqs.Filter(actions, ActionOf(prepId)), products, prepId)
  {
    Seqs.FilterFilter(actions, ActionOf(prepId), JoinsProduct(products, prepId));
    Seqs.FilterEquivalent(actions, Seqs.And(ActionOf(prepId), JoinsProduct(products, prepId)), JoinsProduct(products, prepId));
  }

  /** With non-negative dosages and unit costs, the total cost is non-negative. */
  lemma TotalCostNonNegative(actions: seq<ActionRow>, products: seq<ProductRow>, prepId: string)
    requires forall i :: 0 <= i < |actions| ==> actions[i].dosage >= 0.0
    requires forall i :: 0 <= i < |products| ==> products[i].costPerUnit >= 0.0
    ensures CalculateTotalCost(actions, products, prepId) >= 0.0
  {
    var joined := Seqs.Filter(actions, JoinsProduct(products, prepId));
    forall k | 0 <= k < |joined| ensures CostOf(products)(joined[k]) >= 0.0 {
      assert joined[k] in actions;
      var c := UnitCost(products, joined[k].productId);
      if c.Some? {
        assert c.value >= 0.0;
        assert joined[k].dosage * c.value >= 0.0;
      }
    }
    Seqs.SumNonNegative(joined, CostOf(products));
  }

  /** What an action passed to `updateActions` will cost: dosage times unit cost, 0 when its product is missing. */
  function PlannedCost(products: seq<ProductRow>): NewAction -> real
  {
    (a: NewAction) => match UnitCost(products, a.productId) case None => 0.0 case Some(c) => a.dosage * c
  }

  /** The cost of two batches of action rows is the sum of their costs. */
  lemma TotalCostAppend(a: seq<ActionRow>, b: seq<ActionRow>, products: seq<ProductRow>, prepId: string)
    ensures CalculateTotalCost(a + b, products, prepId) == CalculateTotalCost(a, products, prepId) + CalculateTotalCost(b, products, prepId)
  {
    Seqs.FilterAppend(a, b, JoinsProduct(products, prepId));
    Seqs.SumAppend(Seqs.Filter(a, JoinsProduct(products, prepId)), Seqs.Filter(b, JoinsProduct(products, prepId)), CostOf(products));
  }

  /** One inserted row costs what its action was planned to cost. */
  lemma NewRowCost(a: NewAction, prepId: string, id: string, products: seq<ProductRow>)
    ensures CalculateTotalCost([NewActionRow(a, prepId, id)], products, prepId) == PlannedCost(products)(a)
  {
    var row := NewActionRow(a, prepId, id);
    var joined := Seqs.Filter([row], JoinsProduct(products, prepId));
    assert [row][1..] == [];
    if JoinsProduct(products, prepId)(row) {
      assert joined == [row];
      assert Seqs.Sum(joined, CostOf(products)) == Seqs.Sum([], CostOf(products)) + CostOf(products)(row);
    } else {
      assert joined == [];
    }
  }

  /** The inserted rows cost what their actions were planned to cost. */
  lemma {:induction false} NewRowsCost(actions: seq<NewAction>, prepId: string, ids: seq<string>, products: seq<ProductRow>)
    requires |ids| == |actions|
    ensures CalculateTotalCost(NewActionRows(actions, prepId, ids), products, prepId) == Seqs.Sum(actions, PlannedCost(products))
  {
    if |actions| > 0 {
      var n := |actions|;
      var init := NewActionRows(actions[..n - 1], prepId, ids[..n - 1]);
      var row := NewActionRow(actions[n - 1], prepId, ids[n - 1]);
      NewRowsCost(actions[..n - 1], prepId, ids[..n - 1], products);
      assert NewActionRows(actions, prepId, ids) == init + [row];
      TotalCostAppend(init, [row], products, prepId);
      NewRowCost(actions[n - 1], prepId, ids[n - 1], products);
    }
  }

  // ---------------------------------------------------------------- updateActions

  function ActionNotOf(prepId: string): ActionRow -> bool
  {
    (a: ActionRow) => a.soilPreparationId != prepId
  }

  /** The action table after `updateActions`: the preparation's old rows deleted, the new ones appended. */
  function ReplaceActionRows(actions: seq<ActionRow>, prepId: string, newActions: seq<NewAction>, ids: seq<string>): seq<ActionRow>
    requires |ids| == |newActions|
  {
    Seqs.Filter(actions, ActionNotOf(prepId)) + NewActionRows(newActions, prepId, ids)
  }

  /** `UPDATE soil_preparations SET total_cost = ?, updated_at = CURRENT_TIMESTAMP WHERE id = ?`, row by row. */
  function Recost(prepId: string, total: real, now: string): SoilPrepRow -> SoilPrepRow
  {
    (r: SoilPrepRow) => if r.id == prepId then r.(totalCost := total, updatedAt := now) else r
  }

  /**
   * `updateActions`, in one transaction: delete the preparation's actions,
   * insert the new ones tagged with it, recompute its total cost from the
   * joined products and store it with the update time.
   */
  method UpdateActions(db: Database, prepId: string, newActions: seq<NewAction>, actionIds: seq<string>, now: string)
    requires |actionIds| == |newActions|
    modifies db`soilPreparationActions, db`soilPreparations
    ensures db.soilPreparationActions == ReplaceActionRows(old(db.soilPreparationActions), prepId, newActions, actionIds)
    ensures db.soilPreparations
      == Seqs.Map(old(db.soilPreparations), Recost(prepId, CalculateTotalCost(db.soilPreparationActions, db.products, prepId), now))
  {
    db.soilPreparationActions := Seqs.Filter(db.soilPreparationActions, ActionNotOf(prepId));
    InsertActions(db, newActions, prepId, actionIds);
    var totalCost := CalculateTotalCost(db.soilPreparationActions, db.products, prepId);
    db.soilPreparations := Seqs.Map(db.soilPreparations, Recost(prepId, totalCost, now));
  }

  /**
   * After `updateActions` the preparation has exactly the new actions, tagged
   * with it, and every other preparation keeps its action rows.
   */
  lemma UpdateActionsReplaces(actions: seq<ActionRow>, prepId: string, newActions: seq<NewAction>, ids: seq<string>, other: string)
    requires |ids| == |newActions|
    requires other != prepId
    ensures Seqs.Filter(ReplaceActionRows(actions, prepId, newActions, ids), ActionOf(prepId)) == NewActionRows(newActions, prepId, ids)
    ensures Seqs.Filter(ReplaceActionRows(actions, prepId, newActions, ids), ActionOf(other)) == Seqs.Filter(actions, ActionOf(other))
  {
    var kept := Seqs.Filter(actions, ActionNotOf(prepId));
    var fresh_ := NewActionRows(newActions, prepId, ids);
    Seqs.FilterAppend(kept, fresh_, ActionOf(prepId));
    Seqs.FilterNone(kept, ActionOf(prepId));
    Seqs.FilterAll(fresh_, ActionOf(prepId));
    Seqs.FilterAppend(kept, fresh_, ActionOf(other));
    Seqs.FilterNone(fresh_, ActionOf(other));
    Seqs.FilterFilter(actions, ActionNotOf(prepId), ActionOf(other));
    Seqs.FilterEquivalent(actions, Seqs.And(ActionNotOf(prepId), ActionOf(other)), ActionOf(other));
  }

  /**
   * The cost `updateActions` stores is the sum of dosage times unit cost
   * over the new actions whose product exists; the old actions do not count.
   */
  lemma UpdateActionsCost(actions: seq<ActionRow>, products: seq<ProductRow>, prepId: string, newActions: seq<NewAction>, ids: seq<string>)
    requires |ids| == |newActions|
    ensures CalculateTotalCost(ReplaceActionRows(actions, prepId, newActions, ids), products, prepId) == Seqs.Sum(newActions, PlannedCost(products))
  {
    var after := ReplaceActionRows(actions, prepId, newActions, ids);
    UpdateActionsReplaces(actions, prepId, newActions, ids, prepId + "'");
    TotalCostOwnActions(after, products, prepId);
    TotalCostOwnActions(NewActionRows(newActions, prepId, ids), products, prepId);
    Seqs.FilterAll(NewActionRows(newActions, prepId, ids), ActionOf(prepId));
    NewRowsCost(newActions, prepId, ids, products);
  }

  /** With no action whose product exists, `updateActions` stores a total cost of 0. */
  lemma UpdateActionsUnpricedCostsNothing(actions: seq<ActionRow>, products: seq<ProductRow>, prepId: string, newActions: seq<NewAction>, ids: seq<string>)
    requires |ids| == |newActions|
    requires forall k :: 0 <= k < |newActions| ==> !HasProduct(products, newActions[k].productId)
    ensures CalculateTotalCost(ReplaceActionRows(actions, prepId, newActions, ids), products, prepId) == 0.0
  {
    UpdateActionsCost(actions, products, prepId, newActions, ids);
    forall k | 0 <= k < |newActions| ensures PlannedCost(products)(newActions[k]) == 0.0 {
      assert UnitCost(products, newActions[k].productId).None?;
    }
    Seqs.SumBounds(newActions, PlannedCost(products), 0.0, 0.0);
  }

  /** Every preparation row stores the cost its actions add up to. */
  predicate CostsConsistent(preps: seq<SoilPrepRow>, actions: seq<ActionRow>, products: seq<ProductRow>)
  {
    forall i :: 0 <= i < |preps| ==> preps[i].totalCost == CalculateTotalCost(actions, products, preps[i].id)
  }

  /** Another preparation's cost does not change when its action rows do not. */
  lemma SameOwnActionsSameCost(a: seq<ActionRow>, b: seq<ActionRow>, products: seq<ProductRow>, prepId: string)
    requires Seqs.Filter(a, ActionOf(prepId)) == Seqs.Filter(b, ActionOf(prepId))
    ensures CalculateTotalCost(a, products, prepId) == CalculateTotalCost(b, products, prepId)
  {
    TotalCostOwnActions(a, products, prepId);
    TotalCostOwnActions(b, products, prepId);
  }

  /** `updateActions` keeps every stored cost equal to what the actions add up to. */
  lemma UpdateActionsKeepsCostsConsistent(preps: seq<SoilPrepRow>, actions: seq<ActionRow>, products: seq<ProductRow>,
                                          prepId: string, newActions: seq<NewAction>, ids: seq<string>, now: string)
    requires |ids| == |newActions|
    requires CostsConsistent(preps, actions, products)
    ensures var after := ReplaceActionRows(actions, prepId, newActions, ids);
      CostsConsistent(Seqs.Map(preps, Recost(prepId, CalculateTotalCost(after, products, prepId), now)), after, products)
  {
    var after := ReplaceActionRows(actions, prepId, newActions, ids);
    var rows := Seqs.Map(preps, Recost(prepId, CalculateTotalCost(after, products, prepId), now));
    forall i | 0 <= i < |rows| ensures rows[i].totalCost == CalculateTotalCost(after, products, rows[i].id) {
      if preps[i].id != prepId {
        UpdateActionsReplaces(actions, prepId, newActions, ids, preps[i].id);
        SameOwnActionsSameCost(after, actions, products, preps[i].id);
      }
    }
  }

  // ---------------------------------------------------------------- update

  /** The fields a preparation update may carry; None is `undefined`. */
  datatype PreparationPatch = PreparationPatch(
    name: Option<string>,
    description: Option<string>,
    totalCost: Option<real>,
    estimatedDuration: Option<int>)

  /** The columns `update` may push, in the order it tests them, with the values it binds. */
  function PreparationFields(p: PreparationPatch): seq<Field>
  {
    [ TextField("name", p.name),
      TextField("description", p.description),
      RealField("total_cost", p.totalCost),
      IntField("estimated_duration", p.estimatedDuration) ]
  }

  /** The SET list of `update`: the supplied fields, then `updated_at = CURRENT_TIMESTAMP`. */
  function PreparationAssignments(p: PreparationPatch): seq<Assignment>
  {
    Supplied(PreparationFields(p)) + [SetNow("updated_at")]
  }

  /** A row as SQLite sees it: the value held in each column; None for a column the table lacks. */
  function PreparationColumn(r: SoilPrepRow, column: string): Option<SqlValue>
  {
    if column == "id" then Some(SqlText(r.id))
    else if column == "name" then Some(SqlText(r.name))
    else if column == "description" then Some(TextOrNull(r.description))
    else if column == "total_cost" then Some(SqlReal(r.totalCost))
    else if column == "estimated_duration" then Some(SqlInt(r.estimatedDuration))
    else if column == "created_at" then Some(SqlText(r.createdAt))
    else if column == "updated_at" then Some(SqlText(r.updatedAt))
    else None
  }

  /** A row after `update` at time `now`: each supplied field replaced and the update time set. */
  function ApplyPreparationPatch(r: SoilPrepRow, p: PreparationPatch, now: string): SoilPrepRow
  {
    r.(name := p.name.GetOr(r.name),
       description := if p.description.Some? then p.description else r.description,
       totalCost := p.totalCost.GetOr(r.totalCost),
       estimatedDuration := p.estimatedDuration.GetOr(r.estimatedDuration),
       updatedAt := now)
  }

  /** The table after `UPDATE soil_preparations SET … WHERE id = ?` at time `now`. */
  function UpdatePreparationRows(rows: seq<SoilPrepRow>, id: string, p: PreparationPatch, now: string): seq<SoilPrepRow>
  {
    Seqs.Map(rows, (r: SoilPrepRow) => if r.id == id then ApplyPreparationPatch(r, p, now) else r)
  }

  /**
   * `update`: nothing at all when no field is supplied (not even the update
   * time); otherwise one UPDATE of the supplied columns and `updated_at`.
   */
  method Update(db: Database, id: string, p: PreparationPatch, now: string) returns (st: Option<UpdateStatement>)
    modifies db`soilPreparations
    ensures st.None? <==> NoneSupplied(PreparationFields(p))
    ensures st.Some? ==> st.value == UpdateStatement("soil_preparations", PreparationAssignments(p), id)
    ensures st.None? ==> db.soilPreparations == old(db.soilPreparations)
    ensures st.Some? ==> db.soilPreparations == UpdatePreparationRows(old(db.soilPreparations), id, p, now)
  {
    var assignments := BuildAssignments(PreparationFields(p));
    if |assignments| == 0 {
      st := None;
    } else {
      st := Some(UpdateStatement("soil_preparations", assignments + [SetNow("updated_at")], id));
      db.soilPreparations := UpdatePreparationRows(db.soilPreparations, id, p, now);
    }
  }

  /**
   * The statement of `update` binds one value per supplied field plus the id,
   * one per placeholder, and sets `updated_at` last without binding a value.
   */
  lemma PreparationStatementShape(id: string, p: PreparationPatch)
    ensures var st := UpdateStatement("soil_preparations", PreparationAssignments(p), id);
      && |BoundValues(st)| == SuppliedCount(PreparationFields(p)) + 1
      && Placeholders(Render(st)) == |BoundValues(st)|
      && st.assignments[|st.assignments| - 1] == SetNow("updated_at")
  {
    BoundValuesCount("soil_preparations", PreparationFields(p), [SetNow("updated_at")], id);
  }

  /** Column `column` holds the value the statement leaves in it, or is unchanged when the statement does not assign it. */
  predicate PreparationAgreesAt(r: SoilPrepRow, p: PreparationPatch, now: string, column: string)
  {
    match ValueAfter(PreparationAssignments(p), column, now)
    case Some(v) => PreparationColumn(ApplyPreparationPatch(r, p, now), column) == Some(v)
    case None => PreparationColumn(ApplyPreparationPatch(r, p, now), column) == PreparationColumn(r, column)
  }

  /**
   * The statement and the row update agree: a column the statement assigns
   * holds the statement's value afterwards, and every other column is unchanged.
   */
  lemma PreparationUpdateAgrees(r: SoilPrepRow, p: PreparationPatch, now: string, column: string)
    ensures PreparationAgreesAt(r, p, now, column)
  {
    if column == "name" || column == "description" {
      PreparationUpdateAgreesGroup1(r, p, now, column);
    } else if column == "total_cost" || column == "estimated_duration" {
      PreparationUpdateAgreesGroup2(r, p, now, column);
    } else {
      PreparationUpdateAgreesOther(r, p, now, column);
    }
  }

  lemma PreparationUpdateAgreesGroup1(r: SoilPrepRow, p: PreparationPatch, now: string, column: string)
    requires column == "name" || column == "description"
    ensures PreparationAgreesAt(r, p, now, column)
  {
    var fields := PreparationFields(p);
    ValueAfterAppend(Supplied(fields), [SetNow("updated_at")], column, now);
    ValueAfterSupplied(fields, column, now);
    PreparationFieldsColumns(p);
    var after := ApplyPreparationPatch(r, p, now);
    if column == "name" {
      LastValueAt(fields, 0);
      assert PreparationColumn(after, column) == Some(SqlText(after.name));
      assert PreparationColumn(r, column) == Some(SqlText(r.name));
    } else {
      LastValueAt(fields, 1);
      assert PreparationColumn(after, column) == Some(TextOrNull(after.description));
      assert PreparationColumn(r, column) == Some(TextOrNull(r.description));
    }
  }

  lemma PreparationUpdateAgreesGroup2(r: SoilPrepRow, p: PreparationPatch, now: string, column: string)
    requires column == "total_cost" || column == "estimated_duration"
    ensures PreparationAgreesAt(r, p, now, column)
  {
    var fields := PreparationFields(p);
    ValueAfterAppend(Supplied(fields), [SetNow("updated_at")], column, now);
    ValueAfterSupplied(fields, column, now);
    PreparationFieldsColumns(p);
    var after := ApplyPreparationPatch(r, p, now);
    if column == "total_cost" {
      LastValueAt(fields, 2);
      assert PreparationColumn(after, column) == Some(SqlReal(after.totalCost));
      assert PreparationColumn(r, column) == Some(SqlReal(r.totalCost));
    } else {
      LastValueAt(fields, 3);
      assert PreparationColumn(after, column) == Some(SqlInt(after.estimatedDuration));
      assert PreparationColumn(r, column) == Some(SqlInt(r.estimatedDuration));
    }
  }

  /** The statement assigns no column outside the updatable ones, except the update time. */
  lemma PreparationStatementOther(p: PreparationPatch, now: string, column: string)
    requires column !in PREPARATION_UPDATE_COLUMNS
    ensures ValueAfter(PreparationAssignments(p), column, now) == (if column == "updated_at" then Some(SqlText(now)) else None)
  {
    var fields := PreparationFields(p);
    ValueAfterAppend(Supplied(fields), [SetNow("updated_at")], column, now);
    ValueAfterSupplied(fields, column, now);
    PreparationFieldsColumns(p);
    forall i | 0 <= i < |fields| ensures fields[i].column != column {
      assert fields[i].column == PREPARATION_UPDATE_COLUMNS[i];
    }
    LastValueAbsent(fields, column);
  }

  lemma PreparationUpdateAgreesOther(r: SoilPrepRow, p: PreparationPatch, now: string, column: string)
    requires column !in PREPARATION_UPDATE_COLUMNS
    ensures PreparationAgreesAt(r, p, now, column)
  {
    PreparationStatementOther(p, now, column);
    var after := ApplyPreparationPatch(r, p, now);
    assert after.id == r.id && after.createdAt == r.createdAt;
    if column != "updated_at" {
      PreparationColumnOther(after, r, column);
    }
  }

  /** Outside the columns an update sets, a row's columns are unchanged when these fields are. */
  lemma PreparationColumnOther(a: SoilPrepRow, b: SoilPrepRow, column: string)
    requires column !in PREPARATION_UPDATE_COLUMNS && column != "updated_at"
    requires a.id == b.id && a.createdAt == b.createdAt
    ensures PreparationColumn(a, column) == PreparationColumn(b, column)
  {
  }

  /** The columns the update may set from supplied fields, each once. */
  const PREPARATION_UPDATE_COLUMNS: seq<string> :=
    ["name", "description", "total_cost", "estimated_duration"]

  lemma PreparationFieldsColumns(p: PreparationPatch)
    ensures FieldColumns(PreparationFields(p)) == PREPARATION_UPDATE_COLUMNS
    ensures Seqs.NoDuplicates(PREPARATION_UPDATE_COLUMNS)
  {
  }

  // ---------------------------------------------------------------- delete

  function PrepIdIsNot(id: string): SoilPrepRow -> bool
  {
    (r: SoilPrepRow) => r.id != id
  }

  function PrepLinkNotTo(id: string): CategoryPrepRow -> bool
  {
    (l: CategoryPrepRow) => l.soilPreparationId != id
  }

  /**
   * `delete`, in one transaction: the preparation's actions, the
   * preparation row, and every category's link to it.
   */
  method Delete(db: Database, id: string)
    modifies db`soilPreparationActions, db`soilPreparations, db`categorySoilPreparations
    ensures db.soilPreparationActions == Seqs.Filter(old(db.soilPreparationActions), ActionNotOf(id))
    ensures db.soilPreparations == Seqs.Filter(old(db.soilPreparations), PrepIdIsNot(id))
    ensures db.categorySoilPreparations == Seqs.Filter(old(db.categorySoilPreparations), PrepLinkNotTo(id))
  {
    db.soilPreparationActions := Seqs.Filter(db.soilPreparationActions, ActionNotOf(id));
    db.soilPreparations := Seqs.Filter(db.soilPreparations, PrepIdIsNot(id));
    db.categorySoilPreparations := Seqs.Filter(db.categorySoilPreparations, PrepLinkNotTo(id));
  }

  /**
   * After `delete` the preparation is not found, none of its actions and no
   * category link to it remain, and every other preparation keeps its actions.
   */
  lemma DeletedPreparationGone(preps: seq<SoilPrepRow>, actions: seq<ActionRow>, prepLinks: seq<CategoryPrepRow>,
                               products: seq<ProductRow>, id: string, other: string)
    requires other != id
    ensures FindById(Seqs.Filter(preps, PrepIdIsNot(id)), Seqs.Filter(actions, ActionNotOf(id)), products, id).None?
    ensures Seqs.Filter(Seqs.Filter(actions, ActionNotOf(id)), ActionOf(id)) == []
    ensures forall i :: 0 <= i < |prepLinks| && prepLinks[i].soilPreparationId != id ==> prepLinks[i] in Seqs.Filter(prepLinks, PrepLinkNotTo(id))
    ensures forall l :: l in Seqs.Filter(prepLinks, PrepLinkNotTo(id)) ==> l.soilPreparationId != id
    ensures Seqs.Filter(Seqs.Filter(actions, ActionNotOf(id)), ActionOf(other)) == Seqs.Filter(actions, ActionOf(other))
  {
    var kept := Seqs.Filter(preps, PrepIdIsNot(id));
    assert forall i :: 0 <= i < |kept| ==> PrepIdIsNot(id)(kept[i]);
    var keptActions := Seqs.Filter(actions, ActionNotOf(id));
    assert forall i :: 0 <= i < |keptActions| ==> ActionNotOf(id)(keptActions[i]);
    Seqs.FilterNone(keptActions, ActionOf(id));
    var keptLinks := Seqs.Filter(prepLinks, PrepLinkNotTo(id));
    forall l | l in keptLinks ensures l.soilPreparationId != id {
      var k :| 0 <= k < |keptLinks| && keptLinks[k] == l;
    }
    Seqs.FilterFilter(actions, ActionNotOf(id), ActionOf(other));
    Seqs.FilterEquivalent(actions, Seqs.And(ActionNotOf(id), ActionOf(other)), ActionOf(other));
  }

  /** `delete` keeps the remaining preparations' stored costs consistent. */
  lemma DeleteKeepsCostsConsistent(preps: seq<SoilPrepRow>, actions: seq<ActionRow>, products: seq<ProductRow>, id: string)
    requires CostsConsistent(preps, actions, products)
    ensures CostsConsistent(Seqs.Filter(preps, PrepIdIsNot(id)), Seqs.Filter(actions, ActionNotOf(id)), products)
  {
    var kept := Seqs.Filter(preps, PrepIdIsNot(id));
    var keptActions := Seqs.Filter(actions, ActionNotOf(id));
    forall k | 0 <= k < |kept| ensures kept[k].totalCost == CalculateTotalCost(keptActions, products, kept[k].id) {
      MatchingRowIn(preps, PrepIdIsNot(id), kept[k]);
      var other := kept[k].id;
      Seqs.FilterFilter(actions, ActionNotOf(id), ActionOf(other));
      Seqs.FilterEquivalent(actions, Seqs.And(ActionNotOf(id), ActionOf(other)), ActionOf(other));
      SameOwnActionsSameCost(keptActions, actions, products, other);
    }
  }

  // ---------------------------------------------------------------- deleteAction

  function ActionIdIsNot(actionId: string): ActionRow -> bool
  {
    (a: ActionRow) => a.id != actionId
  }

  /** `deleteAction`: removes the action row and nothing else; the stored total cost is left as it was. */
  method DeleteAction(db: Database, actionId: string)
    modifies db`soilPreparationActions
    ensures db.soilPreparationActions == Seqs.Filter(old(db.soilPreparationActions), ActionIdIsNot(actionId))
  {
    db.soilPreparationActions := Seqs.Filter(db.soilPreparationActions, ActionIdIsNot(actionId));
  }

  /** A product row with the given id and unit cost and every optional column empty. */
  function PricedProduct(id: string, cost: real): ProductRow
  {
    ProductRow(id, "Calcario", "Marca", "corrective", "chemical", None, None, None, None, None, None, None, None, None, None,
      "kg", cost, None, None, None, None, None, None, None, None, None, None, None, None, None, None, None, None, None, 1, "t0", "t0")
  }

  /**
   * `deleteAction` as written breaks the stored costs: a preparation whose
   * only action (3 kg at 2 per kg) is deleted still stores 6, while its
   * actions now add up to 0.
   */
  lemma DeleteActionLeavesCostStale()
    ensures var preps := [SoilPrepRow("sp", "Trato", None, 6.0, 10, "t0", "t0")];
      var actions := [ActionRow("a1", "sp", "prod", 3.0, "kg", None, None, 1)];
      var products := [PricedProduct("prod", 2.0)];
      && CostsConsistent(preps, actions, products)
      && !CostsConsistent(preps, Seqs.Filter(actions, ActionIdIsNot("a1")), products)
  {
    var preps := [SoilPrepRow("sp", "Trato", None, 6.0, 10, "t0", "t0")];
    var a := ActionRow("a1", "sp", "prod", 3.0, "kg", None, None, 1);
    var products := [PricedProduct("prod", 2.0)];
    Seqs.FindIsFirst(products, ProductIdIs("prod"), 0);
    assert UnitCost(products, "prod") == Some(2.0);
    assert Seqs.Filter([a], JoinsProduct(products, "sp")) == [a];
    assert Seqs.Sum([a], CostOf(products)) == Seqs.Sum([], CostOf(products)) + CostOf(products)(a);
    assert CalculateTotalCost([a], products, "sp") == 6.0;
    assert [a][1..] == [];
    assert Seqs.Filter([a], ActionIdIsNot("a1")) == [];
    assert CalculateTotalCost([], products, "sp") == 0.0;
    assert preps[0].totalCost != CalculateTotalCost(Seqs.Filter([a], ActionIdIsNot("a1")), products, preps[0].id);
  }

  /** The preparation owns an action row with this id. */
  predicate OwnsAction(actions: seq<ActionRow>, actionId: string, prepId: string)
  {
    exists i :: 0 <= i < |actions| && actions[i].id == actionId && actions[i].soilPreparationId == prepId
  }

  /** Recomputes the cost of every preparation that owned a deleted action row, as `updateActions` does. */
  function RecostOwners(actions: seq<ActionRow>, products: seq<ProductRow>, actionId: string, now: string): SoilPrepRow -> SoilPrepRow
  {
    (r: SoilPrepRow) =>
      if OwnsAction(actions, actionId, r.id)
      then r.(totalCost := CalculateTotalCost(Seqs.Filter(actions, ActionIdIsNot(actionId)), products, r.id), updatedAt := now)
      else r
  }

  /** `deleteAction` followed by the cost recomputation the other action-set changes perform. */
  method DeleteActionRecosting(db: Database, actionId: string, now: string)
    modifies db`soilPreparationActions, db`soilPreparations
    ensures db.soilPreparationActions == Seqs.Filter(old(db.soilPreparationActions), ActionIdIsNot(actionId))
    ensures db.soilPreparations == Seqs.Map(old(db.soilPreparations), RecostOwners(old(db.soilPreparationActions), db.products, actionId, now))
  {
    db.soilPreparations := Seqs.Map(db.soilPreparations, RecostOwners(db.soilPreparationActions, db.products, actionId, now));
    db.soilPreparationActions := Seqs.Filter(db.soilPreparationActions, ActionIdIsNot(actionId));
  }

  /** Deleting an action with the recomputation keeps every stored cost consistent. */
  lemma DeleteActionRecostingKeepsCostsConsistent(preps: seq<SoilPrepRow>, actions: seq<ActionRow>, products: seq<ProductRow>,
                                                 actionId: string, now: string)
    requires CostsConsistent(preps, actions, products)
    ensures CostsConsistent(Seqs.Map(preps, RecostOwners(actions, products, actionId, now)),
                            Seqs.Filter(actions, ActionIdIsNot(actionId)), products)
  {
    var after := Seqs.Filter(actions, ActionIdIsNot(actionId));
    var rows := Seqs.Map(preps, RecostOwners(actions, products, actionId, now));
    forall i | 0 <= i < |rows| ensures rows[i].totalCost == CalculateTotalCost(after, products, rows[i].id) {
      var q := preps[i].id;
      if !OwnsAction(actions, actionId, q) {
        forall j | 0 <= j < |actions| ensures Seqs.And(ActionIdIsNot(actionId), ActionOf(q))(actions[j]) == ActionOf(q)(actions[j]) {
        }
        Seqs.FilterFilter(actions, ActionIdIsNot(actionId), ActionOf(q));
        Seqs.FilterEquivalent(actions, Seqs.And(ActionIdIsNot(actionId), ActionOf(q)), ActionOf(q));
        SameOwnActionsSameCost(after, actions, products, q);
      }
    }
  }
}
