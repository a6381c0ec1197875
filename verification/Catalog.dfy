/** The model and pricing tables of the catalog under source precedence. An offer replaces a row
    unless its source ranks below that of the row; a pricing row needs its model, and a bulk update
    is one transaction. The functions say what each statement does to the tables, and the lemmas
    what a run of them leads to for one row. */
module Catalog {
  import opened Options
  import opened Flattening

  /** Provider and model id, the primary key of both tables. */
  type Id = (string, string)

  datatype Pricing = Pricing(
    input: real, output: real, cacheRead: real, cacheWrite: real, thinking: real, source: string)

  datatype Model = Model(
    displayName: string, tier: int, contextWindow: int, maxOutput: int,
    images: bool, tools: bool, reasoning: bool, source: string)

  datatype Update = Update(id: Id, pricing: Pricing)

  /** The two tables; a pricing row needs a model row. */
  datatype Tables = Tables(models: map<Id, Model>, pricing: map<Id, Pricing>)

  datatype Error = InvalidSource(source: string) | NoModel(id: Id)

  const SEED := "seed"
  const DISCOVERY := "discovery"
  const OPENROUTER := "openrouter"
  const USER := "user"

  predicate IsValidSource(source: string) {
    source == SEED || source == DISCOVERY || source == OPENROUTER || source == USER
  }

  // ----- Precedence -----

  /** The WHERE clause of the pricing upsert. */
  predicate PricingMayReplace(row: string, excluded: string) {
    && !(row == USER && excluded != USER)
    && !(row != SEED && excluded == SEED)
    && !(row == OPENROUTER && excluded == DISCOVERY)
  }

  /** The WHERE clause of the model upsert. */
  predicate ModelMayReplace(row: string, excluded: string) {
    && !(row == USER && excluded != USER)
    && !(row != SEED && excluded == SEED)
  }

  /** Where a source of pricing stands. */
  function PricingRank(source: string): nat {
    if source == USER then 3 else if source == OPENROUTER then 2 else if source == DISCOVERY then 1 else 0
  }

  /** Where a source of models stands: the two kinds of discovery are equals. */
  function ModelRank(source: string): nat {
    if source == USER then 2 else if source == SEED then 0 else 1
  }

  /** The clauses order the sources. */
  lemma PricingReplacesByRank(row: string, excluded: string)
    requires IsValidSource(row) && IsValidSource(excluded)
    ensures PricingMayReplace(row, excluded) <==> PricingRank(row) <= PricingRank(excluded)
  {
  }

  lemma ModelReplacesByRank(row: string, excluded: string)
    requires IsValidSource(row) && IsValidSource(excluded)
    ensures ModelMayReplace(row, excluded) <==> ModelRank(row) <= ModelRank(excluded)
  {
  }

  // ----- Specification -----

  function AfterPricing(t: Tables, id: Id, p: Pricing): Tables {
    if id in t.pricing && !PricingMayReplace(t.pricing[id].source, p.source) then t
    else t.(pricing := t.pricing[id := p])
  }

  function AfterModel(t: Tables, id: Id, m: Model): Tables {
    if id in t.models && !ModelMayReplace(t.models[id].source, m.source) then t
    else t.(models := t.models[id := m])
  }

  function PricingError(t: Tables, id: Id, p: Pricing): Option<Error> {
    if !IsValidSource(p.source) then Some(InvalidSource(p.source))
    else if id !in t.models then Some(NoModel(id))
    else None
  }

  predicate IsKnownSource(source: string) {
    source in {"seed", "discovery", "openrouter", "user"}
  }

  /** A model can be put exactly if its source is known, a price exactly if its source is known and its
      model is there. */
  lemma OfferedExactlyWhen(t: Tables, id: Id, m: Model, p: Pricing)
    ensures ErrorOf(t, PutModel(id, m)).None? <==> IsKnownSource(m.source)
    ensures ErrorOf(t, PutPricing(id, p)).None? <==> IsKnownSource(p.source) && id in t.models
    ensures ErrorOf(t, DropPricing(id)).None?
  {
  }

  /** The updates one by one. */
  function Folded(t: Tables, updates: seq<Update>): Tables {
    if updates == [] then t
    else
      var n := |updates| - 1;
      AfterPricing(Folded(t, updates[..n]), updates[n].id, updates[n].pricing)
  }

  /** The error of the first update that has one. */
  function BulkError(t: Tables, updates: seq<Update>): Option<Error> {
    if updates == [] then None
    else
      var n := |updates| - 1;
      var before := BulkError(t, updates[..n]);
      if before.Some? then before else PricingError(t, updates[n].id, updates[n].pricing)
  }

  datatype Op =
    | PutModel(id: Id, model: Model)
    | PutPricing(id: Id, pricing: Pricing)
    | DropPricing(id: Id)
    | PutAll(updates: seq<Update>)

  function ErrorOf(t: Tables, op: Op): Option<Error> {
    match op
    case PutModel(_, m) => if IsValidSource(m.source) then None else Some(InvalidSource(m.source))
    case PutPricing(id, p) => PricingError(t, id, p)
    case DropPricing(_) => None
    case PutAll(updates) => BulkError(t, updates)
  }

  function After(t: Tables, op: Op): Tables {
    if ErrorOf(t, op).Some? then t
    else
      match op
      case PutModel(id, m) => AfterModel(t, id, m)
      case PutPricing(id, p) => AfterPricing(t, id, p)
      case DropPricing(id) => t.(pricing := t.pricing - {id})
      case PutAll(updates) => Folded(t, updates)
  }

  function Run(ops: seq<Op>): Tables {
    if ops == [] then Tables(map[], map[]) else After(Run(ops[..|ops| - 1]), ops[|ops| - 1])
  }

  // ----- Which update a row is -----

  /** The prices an operation that does not fail offers for a key. */
  function Offered(op: Op, id: Id): seq<Pricing> {
    match op
    case PutPricing(k, p) => OfferedBy(Update(k, p), id)
    case PutAll(updates) => OfferedIn(updates, id)
    case _ => []
  }

  function OfferedIn(updates: seq<Update>, id: Id): seq<Pricing> {
    if updates == [] then []
    else
      var n := |updates| - 1;
      OfferedIn(updates[..n], id) + OfferedBy(updates[n], id)
  }

  /** Every price offered for a key since it was last deleted, by operations that did not fail. */
  function PricesSince(ops: seq<Op>, id: Id): seq<Pricing> {
    if ops == [] then []
    else
      var init, op := ops[..|ops| - 1], ops[|ops| - 1];
      if ErrorOf(Run(init), op).Some? then PricesSince(init, id)
      else if op == DropPricing(id) then []
      else PricesSince(init, id) + Offered(op, id)
  }

  /** `row` is the last of the prices that no other outranks, and absent when there are none. */
  ghost predicate IsLastOfHighest(prices: seq<Pricing>, row: Option<Pricing>) {
    match row
    case None => prices == []
    case Some(p) =>
      exists i :: 0 <= i < |prices| && prices[i] == p
        && (forall j :: 0 <= j < |prices| ==> PricingRank(prices[j].source) <= PricingRank(p.source))
        && (forall j :: i < j < |prices| ==> PricingRank(prices[j].source) < PricingRank(p.source))
  }

  ghost predicate AllValid(prices: seq<Pricing>) {
    forall i :: 0 <= i < |prices| ==> IsValidSource(prices[i].source)
  }

  function RowOf(t: Tables, id: Id): Option<Pricing> {
    if id in t.pricing then Some(t.pricing[id]) else None
  }

  /** The row after one more offer. */
  function Upserted(row: Option<Pricing>, p: Pricing): Option<Pricing> {
    if row.Some? && !PricingMayReplace(row.value.source, p.source) then row else Some(p)
  }

  lemma OfferKeepsHighest(prices: seq<Pricing>, row: Option<Pricing>, p: Pricing)
    requires AllValid(prices) && IsValidSource(p.source) && IsLastOfHighest(prices, row)
    ensures IsLastOfHighest(prices + [p], Upserted(row, p))
  {
    var more := prices + [p];
    assert forall j :: 0 <= j < |prices| ==> more[j] == prices[j];
    assert more[|prices|] == p;
    if row.Some? {
      var i :| 0 <= i < |prices| && prices[i] == row.value
        && (forall j :: 0 <= j < |prices| ==> PricingRank(prices[j].source) <= PricingRank(row.value.source))
        && (forall j :: i < j < |prices| ==> PricingRank(prices[j].source) < PricingRank(row.value.source));
      PricingReplacesByRank(row.value.source, p.source);
      assert more[i] == row.value;
    }
  }

  function OfferedBy(u: Update, id: Id): seq<Pricing> {
    if u.id == id then [u.pricing] else []
  }

  lemma UpdateRow(t: Tables, u: Update, id: Id, prices: seq<Pricing>)
    requires IsValidSource(u.pricing.source)
    requires AllValid(prices) && IsLastOfHighest(prices, RowOf(t, id))
    ensures AllValid(prices + OfferedBy(u, id))
    ensures IsLastOfHighest(prices + OfferedBy(u, id), RowOf(AfterPricing(t, u.id, u.pricing), id))
  {
    if u.id == id {
      OfferKeepsHighest(prices, RowOf(t, id), u.pricing);
    } else {
      assert prices + OfferedBy(u, id) == prices;
    }
  }

  lemma {:induction false} FoldedRow(t: Tables, updates: seq<Update>, id: Id, prices: seq<Pricing>)
    requires BulkError(t, updates).None?
    requires AllValid(prices) && IsLastOfHighest(prices, RowOf(t, id))
    ensures AllValid(prices + OfferedIn(updates, id))
    ensures IsLastOfHighest(prices + OfferedIn(updates, id), RowOf(Folded(t, updates), id))
  {
    if updates == [] {
      assert prices + [] == prices;
    } else {
      var init, last := updates[..|updates| - 1], updates[|updates| - 1];
      var before := OfferedIn(init, id);
      FoldedRow(t, init, id, prices);
      UpdateRow(Folded(t, init), last, id, prices + before);
      Associative(prices, before, OfferedBy(last, id));
    }
  }

  lemma AfterRow(t: Tables, op: Op, id: Id, prices: seq<Pricing>)
    requires ErrorOf(t, op).None? && op != DropPricing(id)
    requires AllValid(prices) && IsLastOfHighest(prices, RowOf(t, id))
    ensures AllValid(prices + Offered(op, id))
    ensures IsLastOfHighest(prices + Offered(op, id), RowOf(After(t, op), id))
  {
    assert prices + [] == prices;
    match op
    case PutModel(_, _) =>
    case DropPricing(_) =>
    case PutPricing(k, p) =>
      UpdateRow(t, Update(k, p), id, prices);
    case PutAll(updates) =>
      FoldedRow(t, updates, id, prices);
  }

  /** After any run, a pricing row is the last offer of the highest rank since the row was last
      deleted; there is no row exactly when there was no such offer. */
  lemma {:induction false} RowIsLastOfHighest(ops: seq<Op>, id: Id)
    ensures AllValid(PricesSince(ops, id))
    ensures IsLastOfHighest(PricesSince(ops, id), RowOf(Run(ops), id))
  {
    if ops != [] {
      var init, op := ops[..|ops| - 1], ops[|ops| - 1];
      RowIsLastOfHighest(init, id);
      var t := Run(init);
      if ErrorOf(t, op).None? && op != DropPricing(id) {
        AfterRow(t, op, id, PricesSince(init, id));
      }
    }
  }

  // ----- Models -----

  function ModelsOffered(ops: seq<Op>, id: Id): seq<Model> {
    if ops == [] then []
    else
      var init, op := ops[..|ops| - 1], ops[|ops| - 1];
      ModelsOffered(init, id)
      + (if op.PutModel? && op.id == id && IsValidSource(op.model.source) then [op.model] else [])
  }

  ghost predicate IsLastModel(models: seq<Model>, row: Option<Model>) {
    match row
    case None => models == []
    case Some(m) =>
      exists i :: 0 <= i < |models| && models[i] == m
        && (forall j :: 0 <= j < |models| ==> ModelRank(models[j].source) <= ModelRank(m.source))
        && (forall j :: i < j < |models| ==> ModelRank(models[j].source) < ModelRank(m.source))
  }

  function ModelRow(t: Tables, id: Id): Option<Model> {
    if id in t.models then Some(t.models[id]) else None
  }

  lemma OfferKeepsLastModel(models: seq<Model>, row: Option<Model>, m: Model)
    requires forall i :: 0 <= i < |models| ==> IsValidSource(models[i].source)
    requires IsValidSource(m.source) && IsLastModel(models, row)
    ensures IsLastModel(models + [m], if row.Some? && !ModelMayReplace(row.value.source, m.source) then row else Some(m))
  {
    var more := models + [m];
    assert forall j :: 0 <= j < |models| ==> more[j] == models[j];
    assert more[|models|] == m;
    if row.Some? {
      var i :| 0 <= i < |models| && models[i] == row.value
        && (forall j :: 0 <= j < |models| ==> ModelRank(models[j].source) <= ModelRank(row.value.source))
        && (forall j :: i < j < |models| ==> ModelRank(models[j].source) < ModelRank(row.value.source));
      ModelReplacesByRank(row.value.source, m.source);
      assert more[i] == row.value;
    }
  }

  lemma {:induction false} FoldedModels(t: Tables, updates: seq<Update>)
    ensures Folded(t, updates).models == t.models
  {
    if updates != [] {
      FoldedModels(t, updates[..|updates| - 1]);
    }
  }

  lemma {:induction false} ModelRowIsLast(ops: seq<Op>, id: Id)
    ensures forall i :: 0 <= i < |ModelsOffered(ops, id)| ==> IsValidSource(ModelsOffered(ops, id)[i].source)
    ensures IsLastModel(ModelsOffered(ops, id), ModelRow(Run(ops), id))
  {
    if ops != [] {
      var init, op := ops[..|ops| - 1], ops[|ops| - 1];
      ModelRowIsLast(init, id);
      var t := Run(init);
      var models := ModelsOffered(init, id);
      assert models + [] == models;
      if op.PutModel? && op.id == id && IsValidSource(op.model.source) {
        OfferKeepsLastModel(models, ModelRow(t, id), op.model);
      } else if op.PutAll? {
        FoldedModels(t, op.updates);
      }
    }
  }

  // ----- Bulk updates -----

  /** A bulk update fails exactly when one of its updates would, and then changes nothing;
      otherwise it does what the updates do one after another. */
  lemma {:induction false} BulkIsAllOrNothing(t: Tables, updates: seq<Update>)
    ensures BulkError(t, updates).Some? <==>
      exists i :: 0 <= i < |updates| && PricingError(t, updates[i].id, updates[i].pricing).Some?
    ensures After(t, PutAll(updates)) == if BulkError(t, updates).Some? then t else OneByOne(t, updates)
  {
    BulkErrorIs(t, updates);
    if BulkError(t, updates).None? {
      FoldedIsOneByOne(t, updates);
    }
  }

  function OneByOne(t: Tables, updates: seq<Update>): Tables {
    if updates == [] then t
    else
      var n := |updates| - 1;
      After(OneByOne(t, updates[..n]), PutPricing(updates[n].id, updates[n].pricing))
  }

  lemma {:induction false} BulkErrorIs(t: Tables, updates: seq<Update>)
    ensures BulkError(t, updates).Some? <==>
      exists i :: 0 <= i < |updates| && PricingError(t, updates[i].id, updates[i].pricing).Some?
  {
    if updates != [] {
      var n := |updates| - 1;
      BulkErrorIs(t, updates[..n]);
      if i :| 0 <= i < |updates| && PricingError(t, updates[i].id, updates[i].pricing).Some? {
        if i < n {
          assert updates[..n][i] == updates[i];
        }
      }
      if BulkError(t, updates[..n]).Some? {
        var i :| 0 <= i < n && PricingError(t, updates[..n][i].id, updates[..n][i].pricing).Some?;
        assert updates[..n][i] == updates[i];
      }
    }
  }

  lemma {:induction false} FoldedIsOneByOne(t: Tables, updates: seq<Update>)
    requires BulkError(t, updates).None?
    ensures Folded(t, updates) == OneByOne(t, updates)
  {
    if updates != [] {
      var n := |updates| - 1;
      FoldedIsOneByOne(t, updates[..n]);
      FoldedModels(t, updates[..n]);
    }
  }

  // ----- The store -----

  class SqliteCatalog {
    var models: map<Id, Model>
    var pricing: map<Id, Pricing>

    function State(): Tables
      reads this
    {
      Tables(models, pricing)
    }

    constructor ()
      ensures State() == Run([])
    {
      models, pricing := map[], map[];
    }

    method UpsertModel(id: Id, m: Model) returns (error: Option<Error>)
      modifies this`models
      ensures error == ErrorOf(old(State()), PutModel(id, m))
      ensures State() == After(old(State()), PutModel(id, m))
    {
      if !IsValidSource(m.source) {
        return Some(InvalidSource(m.source));
      }
      if id !in models || ModelMayReplace(models[id].source, m.source) {
        models := models[id := m];
      }
      error := None;
    }

    /** One execution of the upsert statement. */
    method Execute(id: Id, p: Pricing) returns (error: Option<Error>)
      requires IsValidSource(p.source)
      modifies this`pricing
      ensures error == PricingError(old(State()), id, p)
      ensures State() == if error.Some? then old(State()) else AfterPricing(old(State()), id, p)
    {
      if id !in models {
        return Some(NoModel(id));
      }
      if id !in pricing || PricingMayReplace(pricing[id].source, p.source) {
        pricing := pricing[id := p];
      }
      error := None;
    }

    method UpsertPricing(id: Id, p: Pricing) returns (error: Option<Error>)
      modifies this`pricing
      ensures error == ErrorOf(old(State()), PutPricing(id, p))
      ensures State() == After(old(State()), PutPricing(id, p))
    {
      if !IsValidSource(p.source) {
        return Some(InvalidSource(p.source));
      }
      error := Execute(id, p);
    }

    method DeletePricing(id: Id)
      modifies this`pricing
      ensures State() == After(old(State()), DropPricing(id))
    {
      pricing := pricing - {id};
    }

    /** The loop of the transaction: how far it got, and what stopped it. */
    method Apply(updates: seq<Update>) returns (error: Option<Error>)
      modifies this`pricing
      ensures error == BulkError(old(State()), updates)
      ensures error.None? ==> State() == Folded(old(State()), updates)
    {
      ghost var start := State();
      for i := 0 to |updates|
        invariant models == old(models)
        invariant BulkError(start, updates[..i]).None?
        invariant State() == Folded(start, updates[..i])
      {
        assert updates[..i + 1][..i] == updates[..i];
        var u := updates[i];
        if !IsValidSource(u.pricing.source) {
          BulkErrorStays(start, updates, i + 1);
          return Some(InvalidSource(u.pricing.source));
        }
        error := Execute(u.id, u.pricing);
        assert error == PricingError(start, u.id, u.pricing);
        if error.Some? {
          BulkErrorStays(start, updates, i + 1);
          return;
        }
      }
      assert updates[..|updates|] == updates;
      error := None;
    }

    /** An error rolls the transaction back. */
    method BulkUpsertPricing(updates: seq<Update>) returns (error: Option<Error>)
      modifies this`pricing
      ensures error == ErrorOf(old(State()), PutAll(updates))
      ensures State() == After(old(State()), PutAll(updates))
    {
      if |updates| == 0 {
        return None;
      }
      var committed := pricing;
      error := Apply(updates);
      if error.Some? {
        pricing := committed;
      }
    }
  }

  lemma {:induction false} BulkErrorStays(t: Tables, updates: seq<Update>, n: nat)
    requires n <= |updates| && BulkError(t, updates[..n]).Some?
    ensures BulkError(t, updates) == BulkError(t, updates[..n])
    decreases |updates|
  {
    if n < |updates| {
      var init := updates[..|updates| - 1];
      assert init[..n] == updates[..n];
      BulkErrorStays(t, init, n);
    } else {
      assert updates[..n] == updates;
    }
  }
}
