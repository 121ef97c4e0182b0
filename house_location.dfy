/** The `house.location` model: the six field validators, the two computed
    fields, the garden on-change rule, the delete guard and the sell / cancel
    buttons. The table of properties is the class `PropertyTable`; the rules
    that only read a record are functions on `Property` values. */
module HouseLocation {
  import opened Common
  import opened Records

  // ---------------------------------------------------------------------------
  // Validators (the six `_check_*` constraints)
  // ---------------------------------------------------------------------------

  /** The fields that carry a constraint, one per `_check_*` method. */
  datatype PropertyField = ExpectedPrice | SellingPrice | Bedrooms | LivingArea | Facades | GardenArea

  /** The constraint attached to a field holds for the record. */
  predicate FieldOk(p: Property, f: PropertyField)
  {
    match f
    case ExpectedPrice => p.expectedPrice >= 0
    case SellingPrice => p.sellingPrice >= 0
    case Bedrooms => p.bedrooms >= 1
    case LivingArea => p.livingArea >= 0
    case Facades => p.facades >= 0
    case GardenArea => p.gardenArea >= 0
  }

  /** The constrained fields, in the order the validators are written in
      the source. */
  const AllFields: seq<PropertyField> := [ExpectedPrice, SellingPrice, Bedrooms, LivingArea, Facades, GardenArea]

  /** The first of the given fields, in list order, whose constraint fails,
      if any. Which validator the host runs first is not modelled: any one of
      them raises the same ValidationError kind. */
  function FirstViolation(p: Property, fields: seq<PropertyField>): (v: Option<PropertyField>)
    ensures v.None? <==> forall k :: 0 <= k < |fields| ==> FieldOk(p, fields[k])
    ensures v.Some? ==> v.value in fields && !FieldOk(p, v.value)
    ensures v.Some? ==> exists k :: 0 <= k < |fields| && fields[k] == v.value &&
                          forall j :: 0 <= j < k ==> FieldOk(p, fields[j])
  {
    if fields == [] then None
    else if !FieldOk(p, fields[0]) then Some(fields[0])
    else
      var rest := FirstViolation(p, fields[1..]);
      assert forall k :: 1 <= k < |fields| ==> fields[k] == fields[1..][k - 1];
      rest
  }

  /** Running the validators of the written fields: a ValidationError
      exactly when one of their constraints fails. */
  function Validate(p: Property, fields: seq<PropertyField>): (r: Outcome)
    ensures r == Success <==> forall k :: 0 <= k < |fields| ==> FieldOk(p, fields[k])
    ensures r != Success ==> r == Failure(ValidationError)
  {
    if FirstViolation(p, fields).Some? then Failure(ValidationError) else Success
  }

  /** A record passes every validator iff each of the six numeric bounds holds. */
  lemma ValidateAllIff(p: Property)
    ensures Validate(p, AllFields) == Success <==>
      p.expectedPrice >= 0 && p.sellingPrice >= 0 && p.bedrooms >= 1 &&
      p.livingArea >= 0 && p.facades >= 0 && p.gardenArea >= 0
  {
    if Validate(p, AllFields) == Success {
      assert FieldOk(p, AllFields[0]) && FieldOk(p, AllFields[1]) && FieldOk(p, AllFields[2]);
      assert FieldOk(p, AllFields[3]) && FieldOk(p, AllFields[4]) && FieldOk(p, AllFields[5]);
    }
  }

  // ---------------------------------------------------------------------------
  // Creation defaults
  // ---------------------------------------------------------------------------

  /** The row a create writes: the caller's values, status "new", no selling
      price, no buyer, best offer 0 and the total area computed. */
  function NewProperty(vals: PropertyVals): (p: Property)
    ensures p.state == New && p.sellingPrice == 0 && p.buyer == None && p.bestPrice == 0
    ensures p.totalArea == vals.livingArea + vals.gardenArea
    ensures p.name == vals.name && p.description == vals.description &&
            p.postcode == vals.postcode && p.dateAvailability == vals.dateAvailability
    ensures p.expectedPrice == vals.expectedPrice && p.bedrooms == vals.bedrooms &&
            p.livingArea == vals.livingArea && p.facades == vals.facades &&
            p.garage == vals.garage && p.garden == vals.garden && p.gardenArea == vals.gardenArea &&
            p.gardenOrientation == vals.gardenOrientation
    ensures p.active == vals.active && p.propertyTypeId == vals.propertyTypeId &&
            p.tagIds == vals.tagIds && p.salesperson == vals.salesperson
  {
    Property(vals.name, vals.description, vals.postcode, vals.dateAvailability,
             vals.expectedPrice, 0, vals.bedrooms, vals.livingArea, vals.facades,
             vals.garage, vals.garden, vals.gardenArea, vals.gardenOrientation,
             vals.active, New, vals.livingArea + vals.gardenArea, 0,
             vals.propertyTypeId, vals.tagIds, vals.salesperson, None)
  }

  // ---------------------------------------------------------------------------
  // Computed fields
  // ---------------------------------------------------------------------------

  /** `_compute_total_area` for one record. */
  function WithTotalArea(p: Property): (q: Property)
    ensures q.livingArea == p.livingArea && q.gardenArea == p.gardenArea
    ensures q.totalArea == q.livingArea + q.gardenArea
    ensures q.(totalArea := p.totalArea) == p
  {
    p.(totalArea := p.livingArea + p.gardenArea)
  }

  /** On a record whose areas pass their validators the total area is
      non-negative and bounds each part. */
  lemma TotalAreaBounds(p: Property)
    requires Validate(p, [LivingArea, GardenArea]) == Success
    ensures var q := WithTotalArea(p);
      q.totalArea >= 0 && q.totalArea >= q.livingArea && q.totalArea >= q.gardenArea
  {
    assert FieldOk(p, [LivingArea, GardenArea][0]) && FieldOk(p, [LivingArea, GardenArea][1]);
  }

  /** The best-price update of `_compute_best_offer` folded over a list of
      prices: each price larger than the current best replaces it. The result
      never lowers the starting value and is either that value or one of the
      prices. */
  function FoldBest(best: int, prices: seq<int>): (r: int)
    ensures r >= best
    ensures r == best || r in prices
    decreases |prices|
  {
    if prices == [] then best
    else
      var r := FoldBest(if prices[0] > best then prices[0] else best, prices[1..]);
      assert prices == [prices[0]] + prices[1..];
      r
  }

  /** The fold dominates every price. */
  lemma {:induction false} FoldBestBounds(best: int, prices: seq<int>)
    ensures forall k :: 0 <= k < |prices| ==> FoldBest(best, prices) >= prices[k]
    decreases |prices|
  {
    if prices != [] {
      var next := if prices[0] > best then prices[0] else best;
      FoldBestBounds(next, prices[1..]);
      assert forall k :: 1 <= k < |prices| ==> prices[k] == prices[1..][k - 1];
    }
  }

  /** A starting value at least every price is what the fold returns. */
  lemma {:induction false} FoldBestDominated(best: int, prices: seq<int>)
    requires forall k :: 0 <= k < |prices| ==> prices[k] <= best
    ensures FoldBest(best, prices) == best
  {
    if prices != [] {
      assert forall k :: 0 <= k < |prices[1..]| ==> prices[1..][k] == prices[k + 1];
      FoldBestDominated(best, prices[1..]);
    }
  }

  /** Recomputing the best price a second time changes nothing. */
  lemma FoldBestIdempotent(best: int, prices: seq<int>)
    ensures FoldBest(FoldBest(best, prices), prices) == FoldBest(best, prices)
  {
    FoldBestBounds(best, prices);
    FoldBestDominated(FoldBest(best, prices), prices);
  }

  /** The prices of `record.offer_ids`, in table order: every offer whose
      parent is `pid` contributes its price, and only those do. */
  function OfferPrices(offers: seq<Offer>, pid: RecordId): (ps: seq<int>)
    ensures forall k :: 0 <= k < |offers| && offers[k].propertyId == pid ==> offers[k].price in ps
    ensures forall x :: x in ps ==>
              exists k :: 0 <= k < |offers| && offers[k].propertyId == pid && offers[k].price == x
  {
    if offers == [] then []
    else
      var rest := OfferPrices(offers[1..], pid);
      assert forall k :: 1 <= k < |offers| ==> offers[k] == offers[1..][k - 1];
      (if offers[0].propertyId == pid then [offers[0].price] else []) + rest
  }

  /** The record after its best price is recomputed from its offers. */
  function BestRecomputed(p: Property, offers: seq<Offer>, pid: RecordId): (q: Property)
    ensures q.bestPrice >= p.bestPrice
    ensures q.(bestPrice := p.bestPrice) == p
  {
    p.(bestPrice := FoldBest(p.bestPrice, OfferPrices(offers, pid)))
  }

  /** `_compute_best_offer` on a listing: the result is at least the previous
      best price and every offer price of the listing, is the previous value
      or one of those prices, and is the previous value when there are none. */
  lemma BestOfferSpec(best: int, offers: seq<Offer>, pid: RecordId)
    ensures var b := FoldBest(best, OfferPrices(offers, pid));
      b >= best &&
      (forall k :: 0 <= k < |offers| && offers[k].propertyId == pid ==> b >= offers[k].price) &&
      (b == best || exists k :: 0 <= k < |offers| && offers[k].propertyId == pid && offers[k].price == b) &&
      ((forall k :: 0 <= k < |offers| ==> offers[k].propertyId != pid) ==> b == best)
  {
    var prices := OfferPrices(offers, pid);
    FoldBestBounds(best, prices);
    if forall k :: 0 <= k < |offers| ==> offers[k].propertyId != pid {
      if prices != [] {
        assert prices[0] in prices;
      }
    }
  }

  // ---------------------------------------------------------------------------
  // On-change rule and delete guard
  // ---------------------------------------------------------------------------

  /** `_onchange_garden` on the form's record: switching the garden on gives
      an area of 10 facing north, switching it off gives 0 and no orientation;
      no other field moves. */
  function OnchangeGarden(p: Property): (q: Property)
    ensures p.garden ==> q.gardenArea == 10 && q.gardenOrientation == Some(North)
    ensures !p.garden ==> q.gardenArea == 0 && q.gardenOrientation == None
    ensures q.(gardenArea := p.gardenArea, gardenOrientation := p.gardenOrientation) == p
  {
    if p.garden then p.(gardenArea := 10, gardenOrientation := Some(North))
    else p.(gardenArea := 0, gardenOrientation := None)
  }

  /** The on-change rule always leaves a garden area its validator accepts,
      and applying it twice is applying it once. */
  lemma OnchangeGardenValid(p: Property)
    ensures Validate(OnchangeGarden(p), [GardenArea]) == Success
    ensures OnchangeGarden(OnchangeGarden(p)) == OnchangeGarden(p)
  {
    assert FieldOk(OnchangeGarden(p), [GardenArea][0]);
  }

  /** The guard of `unlink`: only a new or canceled listing may be deleted. */
  function UnlinkGuard(p: Property): (r: Outcome)
    ensures r == Success <==> p.state in {New, Canceled}
    ensures r != Success ==> r == Failure(UserError)
  {
    if p.state != New && p.state != Canceled then Failure(UserError) else Success
  }

  // ---------------------------------------------------------------------------
  // Sell and cancel buttons
  // ---------------------------------------------------------------------------

  /** The end of a batch action: how it ended and the table it left. */
  datatype Batch = Batch(outcome: Outcome, records: seq<Property>)

  /** The loop shared by `sold_property` (forbidden Canceled, target Sold)
      and `cancel_property` (forbidden Sold, target Canceled): records are
      visited in order; a record in the forbidden state raises a UserError,
      leaving the earlier assignments in place; any other record is moved to
      the target state. */
  function Transition(recs: seq<Property>, ids: seq<RecordId>, forbidden: State, target: State): (r: Batch)
    requires ValidIds(ids, |recs|)
    ensures |r.records| == |recs|
    decreases |ids|
  {
    if ids == [] then Batch(Success, recs)
    else if recs[ids[0]].state == forbidden then Batch(Failure(UserError), recs)
    else Transition(recs[ids[0] := recs[ids[0]].(state := target)], ids[1..], forbidden, target)
  }

  /** The position in the batch of the first record that starts in the
      forbidden state, or the batch length when there is none. */
  function FirstBlocked(recs: seq<Property>, ids: seq<RecordId>, forbidden: State): (k: nat)
    requires ValidIds(ids, |recs|)
    ensures k <= |ids|
    ensures k < |ids| ==> recs[ids[k]].state == forbidden
    ensures forall j :: 0 <= j < k ==> recs[ids[j]].state != forbidden
  {
    if ids == [] then 0
    else if recs[ids[0]].state == forbidden then 0
    else
      var k := FirstBlocked(recs, ids[1..], forbidden);
      assert forall j :: 1 <= j < |ids| ==> ids[j] == ids[1..][j - 1];
      1 + k
  }

  /** Tables that agree on which rows are in the forbidden state agree on
      where a batch blocks. */
  lemma {:induction false} FirstBlockedSame(recs: seq<Property>, recs2: seq<Property>, ids: seq<RecordId>, forbidden: State)
    requires |recs| == |recs2| && ValidIds(ids, |recs|)
    requires forall x :: 0 <= x < |recs| ==> (recs[x].state == forbidden <==> recs2[x].state == forbidden)
    ensures FirstBlocked(recs, ids, forbidden) == FirstBlocked(recs2, ids, forbidden)
  {
    if ids != [] {
      FirstBlockedSame(recs, recs2, ids[1..], forbidden);
    }
  }

  /** How a sell or cancel batch ends: it raises exactly when some record of
      the batch starts in the forbidden state. */
  lemma {:induction false} TransitionOutcome(recs: seq<Property>, ids: seq<RecordId>, forbidden: State, target: State)
    requires ValidIds(ids, |recs|) && forbidden != target
    ensures Transition(recs, ids, forbidden, target).outcome ==
            if FirstBlocked(recs, ids, forbidden) < |ids| then Failure(UserError) else Success
    decreases |ids|
  {
    if ids != [] && recs[ids[0]].state != forbidden {
      var recs' := recs[ids[0] := recs[ids[0]].(state := target)];
      TransitionOutcome(recs', ids[1..], forbidden, target);
      FirstBlockedSame(recs, recs', ids[1..], forbidden);
    }
  }

  /** What a sell or cancel batch leaves in row `x`: the records visited
      before the first one in the forbidden state (all of them when there is
      none) are moved to the target state with nothing else changed, and
      every other row is untouched. */
  lemma {:induction false} TransitionAt(recs: seq<Property>, ids: seq<RecordId>, forbidden: State, target: State, x: RecordId)
    requires ValidIds(ids, |recs|) && forbidden != target && x < |recs|
    ensures Transition(recs, ids, forbidden, target).records[x] ==
            if x in ids[..FirstBlocked(recs, ids, forbidden)] then recs[x].(state := target) else recs[x]
    decreases |ids|
  {
    if ids != [] && recs[ids[0]].state != forbidden {
      var recs' := recs[ids[0] := recs[ids[0]].(state := target)];
      TransitionAt(recs', ids[1..], forbidden, target, x);
      FirstBlockedSame(recs, recs', ids[1..], forbidden);
      PrefixCons(ids, FirstBlocked(recs', ids[1..], forbidden), x);
    }
  }

  /** Membership in a batch prefix of length k + 1: the head, or the tail's
      prefix of length k. */
  lemma PrefixCons(ids: seq<RecordId>, k: nat, x: RecordId)
    requires k < |ids|
    ensures x in ids[..k + 1] <==> x == ids[0] || x in ids[1..][..k]
  {
    assert ids[..k + 1] == [ids[0]] + ids[1..][..k];
  }

  /** Both halves together, for every row. */
  lemma TransitionEffect(recs: seq<Property>, ids: seq<RecordId>, forbidden: State, target: State)
    requires ValidIds(ids, |recs|) && forbidden != target
    ensures var r := Transition(recs, ids, forbidden, target);
            var k := FirstBlocked(recs, ids, forbidden);
      r.outcome == (if k < |ids| then Failure(UserError) else Success) &&
      forall x :: 0 <= x < |recs| ==>
        r.records[x] == if x in ids[..k] then recs[x].(state := target) else recs[x]
  {
    TransitionOutcome(recs, ids, forbidden, target);
    forall x | 0 <= x < |recs|
      ensures Transition(recs, ids, forbidden, target).records[x] ==
              if x in ids[..FirstBlocked(recs, ids, forbidden)] then recs[x].(state := target) else recs[x]
    {
      TransitionAt(recs, ids, forbidden, target, x);
    }
  }

  /** A batch raises iff one of its records starts in the forbidden state. */
  lemma TransitionFailsIff(recs: seq<Property>, ids: seq<RecordId>, forbidden: State, target: State)
    requires ValidIds(ids, |recs|) && forbidden != target
    ensures Transition(recs, ids, forbidden, target).outcome != Success <==>
            exists k :: 0 <= k < |ids| && recs[ids[k]].state == forbidden
  {
    TransitionEffect(recs, ids, forbidden, target);
  }

  /** Running a batch that succeeded once more leaves the table as it is:
      selling sold listings (or canceling canceled ones) is idempotent. */
  lemma TransitionIdempotent(recs: seq<Property>, ids: seq<RecordId>, forbidden: State, target: State)
    requires ValidIds(ids, |recs|) && forbidden != target
    requires Transition(recs, ids, forbidden, target).outcome == Success
    ensures var r := Transition(recs, ids, forbidden, target);
      Transition(r.records, ids, forbidden, target) == r
  {
    var r := Transition(recs, ids, forbidden, target);
    TransitionEffect(recs, ids, forbidden, target);
    assert ids[..|ids|] == ids;
    TransitionEffect(r.records, ids, forbidden, target);
    var r2 := Transition(r.records, ids, forbidden, target);
    forall k | 0 <= k < |ids| ensures r.records[ids[k]].state == target {
      assert ids[k] in ids[..|ids|];
    }
    assert FirstBlocked(r.records, ids, forbidden) == |ids|;
    assert r2.records == r.records;
  }

  /** After a successful sale none of the sold listings can be deleted. */
  lemma SoldThenUnlink(recs: seq<Property>, ids: seq<RecordId>, k: nat)
    requires ValidIds(ids, |recs|) && k < |ids|
    requires Transition(recs, ids, Canceled, Sold).outcome == Success
    ensures UnlinkGuard(Transition(recs, ids, Canceled, Sold).records[ids[k]]) == Failure(UserError)
  {
    TransitionOutcome(recs, ids, Canceled, Sold);
    TransitionAt(recs, ids, Canceled, Sold, ids[k]);
    assert ids[..|ids|] == ids;
  }

  /** After a successful cancel all of the canceled listings can be deleted. */
  lemma CanceledThenUnlink(recs: seq<Property>, ids: seq<RecordId>, k: nat)
    requires ValidIds(ids, |recs|) && k < |ids|
    requires Transition(recs, ids, Sold, Canceled).outcome == Success
    ensures UnlinkGuard(Transition(recs, ids, Sold, Canceled).records[ids[k]]) == Success
  {
    TransitionOutcome(recs, ids, Sold, Canceled);
    TransitionAt(recs, ids, Sold, Canceled, ids[k]);
    assert ids[..|ids|] == ids;
  }

  // ---------------------------------------------------------------------------
  // The table
  // ---------------------------------------------------------------------------

  /** The `house.location` table; a record's id is its position. */
  class PropertyTable {
    var records: seq<Property>

    constructor ()
      ensures records == []
    {
      records := [];
    }

    /** Create: the row is inserted, then all validators run; a
        ValidationError leaves the table as it was. */
    method Create(vals: PropertyVals) returns (r: Result<RecordId>)
      modifies this
      ensures var p := NewProperty(vals);
        if Validate(p, AllFields) == Success
        then r == Ok(|old(records)|) && records == old(records) + [p]
        else r == Err(ValidationError) && records == old(records)
    {
      var p := NewProperty(vals);
      if Validate(p, AllFields) != Success {
        return Err(ValidationError);
      }
      r := Ok(|records|);
      records := records + [p];
    }

    /** `sold_property`: sets each record to "sold", raising on a canceled one. */
    method SoldProperty(ids: seq<RecordId>) returns (outcome: Outcome)
      requires ValidIds(ids, |records|)
      modifies this
      ensures Batch(outcome, records) == Transition(old(records), ids, Canceled, Sold)
    {
      outcome := RunTransition(ids, Canceled, Sold);
    }

    /** `cancel_property`: sets each record to "canceled", raising on a sold one. */
    method CancelProperty(ids: seq<RecordId>) returns (outcome: Outcome)
      requires ValidIds(ids, |records|)
      modifies this
      ensures Batch(outcome, records) == Transition(old(records), ids, Sold, Canceled)
    {
      outcome := RunTransition(ids, Sold, Canceled);
    }

    /** The loop both buttons run. */
    method RunTransition(ids: seq<RecordId>, forbidden: State, target: State) returns (outcome: Outcome)
      requires ValidIds(ids, |records|)
      modifies this
      ensures Batch(outcome, records) == Transition(old(records), ids, forbidden, target)
    {
      var i := 0;
      while i < |ids|
        invariant 0 <= i <= |ids| && |records| == |old(records)|
        invariant Transition(old(records), ids, forbidden, target) == Transition(records, ids[i..], forbidden, target)
      {
        var id := ids[i];
        if records[id].state == forbidden {
          return Failure(UserError);
        }
        records := records[id := records[id].(state := target)];
        assert ids[i..][1..] == ids[i + 1..];
        i := i + 1;
      }
      outcome := Success;
    }

    /** `_compute_total_area` over a record set. */
    method ComputeTotalArea(ids: seq<RecordId>)
      requires ValidIds(ids, |records|)
      modifies this
      ensures |records| == |old(records)|
      ensures forall x :: 0 <= x < |records| ==>
        records[x] == if x in ids then WithTotalArea(old(records)[x]) else old(records)[x]
    {
      var i := 0;
      while i < |ids|
        invariant 0 <= i <= |ids| && |records| == |old(records)|
        invariant forall x :: 0 <= x < |records| ==>
          records[x] == if x in ids[..i] then WithTotalArea(old(records)[x]) else old(records)[x]
      {
        var id := ids[i];
        records := records[id := records[id].(totalArea := records[id].livingArea + records[id].gardenArea)];
        assert ids[..i + 1] == ids[..i] + [id];
        i := i + 1;
      }
      assert ids[..i] == ids;
    }

    /** `_compute_best_offer` over a record set, given the offer table: each
        record's best price is folded with the prices of its offers. */
    method ComputeBestOffer(ids: seq<RecordId>, offers: seq<Offer>)
      requires ValidIds(ids, |records|)
      modifies this
      ensures |records| == |old(records)|
      ensures forall x :: 0 <= x < |records| ==>
        records[x] == if x in ids then BestRecomputed(old(records)[x], offers, x) else old(records)[x]
    {
      var i := 0;
      while i < |ids|
        invariant 0 <= i <= |ids| && |records| == |old(records)|
        invariant forall x :: 0 <= x < |records| ==>
          records[x] == if x in ids[..i] then BestRecomputed(old(records)[x], offers, x) else old(records)[x]
      {
        var id := ids[i];
        FoldBestIdempotent(old(records)[id].bestPrice, OfferPrices(offers, id));
        ComputeBestOfferOf(id, offers);
        assert ids[..i + 1] == ids[..i] + [id];
        i := i + 1;
      }
      assert ids[..i] == ids;
    }

    /** The inner loop of `_compute_best_offer` for one record: its best
        price is raised, offer by offer, to every larger offer price. */
    method ComputeBestOfferOf(id: RecordId, offers: seq<Offer>)
      requires id < |records|
      modifies this
      ensures records == old(records)[id := BestRecomputed(old(records)[id], offers, id)]
    {
      var prices := OfferPrices(offers, id);
      var j := 0;
      while j < |prices|
        invariant 0 <= j <= |prices| && |records| == |old(records)|
        invariant records == old(records)[id := old(records)[id].(bestPrice := records[id].bestPrice)]
        invariant FoldBest(old(records)[id].bestPrice, prices) == FoldBest(records[id].bestPrice, prices[j..])
      {
        var price := prices[j];
        assert prices[j..][1..] == prices[j + 1..];
        records := records[id := records[id].(bestPrice := if price > records[id].bestPrice then price else records[id].bestPrice)];
        j := j + 1;
      }
    }
  }
}
