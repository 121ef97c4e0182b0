/** The `house.location.offer` model: the check-then-insert create that keeps
    offer prices unique across the whole table, the post-insert validators,
    the deadline compute and its inverse, and the accept / refuse buttons,
    which change the offer and its parent listing and track a running best
    price local to the call. */
module HouseLocationOffer {
  import opened Common
  import opened Records
  import opened HouseLocation

  // ---------------------------------------------------------------------------
  // Prices column
  // ---------------------------------------------------------------------------

  /** The `price` column of the offer table. */
  function Prices(offers: seq<Offer>): (ps: seq<int>)
    ensures |ps| == |offers|
    ensures forall k :: 0 <= k < |offers| ==> ps[k] == offers[k].price
  {
    seq(|offers|, k requires 0 <= k < |offers| => offers[k].price)
  }

  /** The prices of the offers a batch visits, in batch order. */
  function BatchPrices(offers: seq<Offer>, ids: seq<RecordId>): (ps: seq<int>)
    requires ValidIds(ids, |offers|)
    ensures |ps| == |ids|
    ensures forall k :: 0 <= k < |ids| ==> ps[k] == offers[ids[k]].price
  {
    seq(|ids|, k requires 0 <= k < |ids| => offers[ids[k]].price)
  }

  // ---------------------------------------------------------------------------
  // Deadline compute and inverse
  // ---------------------------------------------------------------------------

  /** `_compute_offer_deadline`: the creation day plus the validity in days. */
  function ComputeDeadline(createDate: int, validity: int): (d: int)
    ensures d >= createDate <==> validity >= 0
    ensures d - createDate == validity
  {
    createDate + validity
  }

  /** `_inverse_offer_deadline`: the number of days from creation to deadline. */
  function InverseDeadline(createDate: int, deadline: int): (v: int)
    ensures v >= 0 <==> deadline >= createDate
    ensures ComputeDeadline(createDate, v) == deadline
  {
    deadline - createDate
  }

  /** The inverse undoes the compute and the compute undoes the inverse. */
  lemma DeadlineRoundTrip(createDate: int, validity: int, deadline: int)
    ensures InverseDeadline(createDate, ComputeDeadline(createDate, validity)) == validity
    ensures ComputeDeadline(createDate, InverseDeadline(createDate, deadline)) == deadline
  {
  }

  // ---------------------------------------------------------------------------
  // Validators
  // ---------------------------------------------------------------------------

  /** `_check_price` for one stored offer: a negative price, or a price that
      more than one row of the table carries, raises. */
  function CheckPrice(offers: seq<Offer>, o: Offer): (r: Outcome)
    ensures r == Success <==> o.price >= 0 && Occurrences(Prices(offers), o.price) <= 1
    ensures r != Success ==> r == Failure(ValidationError)
  {
    var count := Occurrences(Prices(offers), o.price);
    if o.price < 0 then Failure(ValidationError)
    else if count > 1 then Failure(ValidationError)
    else Success
  }

  /** `_check_validity`. */
  function CheckValidity(o: Offer): (r: Outcome)
    ensures r == Success <==> o.validity >= 0
    ensures r != Success ==> r == Failure(ValidationError)
  {
    if o.validity < 0 then Failure(ValidationError) else Success
  }

  /** `_check_date_deadline`. */
  function CheckDeadline(o: Offer): (r: Outcome)
    ensures r == Success <==> o.deadline >= o.createDate
    ensures r != Success ==> r == Failure(ValidationError)
  {
    if o.deadline < o.createDate then Failure(ValidationError) else Success
  }

  /** With the computed deadline, the deadline check passes exactly when the
      validity check does. */
  lemma DeadlineCheckIffValidity(o: Offer)
    requires o.deadline == ComputeDeadline(o.createDate, o.validity)
    ensures CheckDeadline(o) == CheckValidity(o)
  {
  }

  /** The price check passes for every stored offer exactly when no price is
      negative and no two offers anywhere share a price. */
  lemma PriceCheckAllIff(offers: seq<Offer>)
    ensures (forall k :: 0 <= k < |offers| ==> CheckPrice(offers, offers[k]) == Success) <==>
            (forall k :: 0 <= k < |offers| ==> offers[k].price >= 0) && Distinct(Prices(offers))
  {
    var ps := Prices(offers);
    DistinctIffCountedOnce(ps);
    if forall k :: 0 <= k < |offers| ==> CheckPrice(offers, offers[k]) == Success {
      forall k | 0 <= k < |ps| ensures Occurrences(ps, ps[k]) == 1 {
        assert CheckPrice(offers, offers[k]) == Success;
        OccurrencesZero(ps, ps[k]);
      }
    }
  }

  // ---------------------------------------------------------------------------
  // Create
  // ---------------------------------------------------------------------------

  /** The row a create writes: no status yet, created today, with the deadline
      computed from the validity. */
  function NewOffer(vals: OfferVals, today: int): (o: Offer)
    ensures o.price == vals.price && o.partner == vals.partner && o.propertyId == vals.propertyId
    ensures o.status == None && o.createDate == today && o.validity == vals.validity
    ensures InverseDeadline(o.createDate, o.deadline) == o.validity
  {
    Offer(vals.price, None, vals.partner, vals.propertyId, today, vals.validity,
          ComputeDeadline(today, vals.validity))
  }

  /** The validators that run once the new row is in the table (price, then
      validity, then deadline). */
  function PostInsertChecks(offers: seq<Offer>, o: Offer): (r: Outcome)
    ensures r == Success <==>
      o.price >= 0 && Occurrences(Prices(offers), o.price) <= 1 &&
      o.validity >= 0 && o.deadline >= o.createDate
    ensures r != Success ==> r == Failure(ValidationError)
  {
    if CheckPrice(offers, o) != Success then CheckPrice(offers, o)
    else if CheckValidity(o) != Success then CheckValidity(o)
    else CheckDeadline(o)
  }

  /** Once the pre-insert count found no offer with the price, the new row is
      the only one carrying it, so the duplicate branch of the price check
      cannot fire. */
  lemma InsertedPriceCountedOnce(offers: seq<Offer>, o: Offer)
    requires Occurrences(Prices(offers), o.price) == 0
    ensures Occurrences(Prices(offers + [o]), o.price) == 1
  {
    assert Prices(offers + [o]) == Prices(offers) + [o.price];
    OccurrencesAppend(Prices(offers), o.price, o.price);
  }

  /** A create that passed the pre-insert count keeps offer prices pairwise
      distinct. */
  lemma CreateKeepsPricesDistinct(offers: seq<Offer>, o: Offer)
    requires Distinct(Prices(offers)) && Occurrences(Prices(offers), o.price) == 0
    ensures Distinct(Prices(offers + [o]))
  {
    assert Prices(offers + [o]) == Prices(offers) + [o.price];
    InsertKeepsDistinct(Prices(offers), o.price);
  }

  // ---------------------------------------------------------------------------
  // Accept and refuse
  // ---------------------------------------------------------------------------

  /** The end of an accept or refuse batch: how it ended and both tables. */
  datatype OfferBatch = OfferBatch(outcome: Outcome, offers: seq<Offer>, properties: seq<Property>)

  /** The running best price after seeing one more offer price: the larger
      of the two. */
  function NextBest(best: int, price: int): (b: int)
    ensures b >= best && b >= price
    ensures b == best || b == price
  {
    if price > best then price else best
  }

  /** The listing after one of its offers is accepted, given the running
      best price before that offer. */
  function AcceptedProperty(p: Property, o: Offer, best: int): (q: Property)
    ensures q.state == OfferAccepted && q.sellingPrice == o.price && q.buyer == Some(o.partner)
    ensures q.bestPrice == if o.price > best then o.price else p.bestPrice
    ensures q.(state := p.state, sellingPrice := p.sellingPrice, buyer := p.buyer, bestPrice := p.bestPrice) == p
  {
    var q := p.(state := OfferAccepted, sellingPrice := o.price, buyer := Some(o.partner));
    if o.price > best then q.(bestPrice := o.price) else q
  }

  /** The listing after one of its offers is refused, given the running best
      price before that offer: rolled back to "offer received" only when that
      offer was the accepted one. */
  function RefusedProperty(p: Property, o: Offer, best: int): (q: Property)
    ensures o.status == Some(Accepted) ==> q.state == OfferReceived && q.sellingPrice == 0 && q.buyer == None
    ensures o.status != Some(Accepted) ==> q.state == p.state && q.sellingPrice == p.sellingPrice && q.buyer == p.buyer
    ensures q.bestPrice == if o.price > best then o.price else p.bestPrice
    ensures q.(state := p.state, sellingPrice := p.sellingPrice, buyer := p.buyer, bestPrice := p.bestPrice) == p
  {
    var q := if o.status == Some(Accepted) then p.(state := OfferReceived, sellingPrice := 0, buyer := None) else p;
    if o.price > best then q.(bestPrice := o.price) else q
  }

  /** `accept_offer` from the given running best price: offers are visited in
      order; one whose listing already has an accepted offer raises a
      UserError, leaving the earlier changes in place. */
  function Accept(offers: seq<Offer>, props: seq<Property>, ids: seq<RecordId>, best: int): (r: OfferBatch)
    requires Linked(offers, props) && ValidIds(ids, |offers|)
    ensures |r.offers| == |offers| && |r.properties| == |props| && Linked(r.offers, r.properties)
    decreases |ids|
  {
    if ids == [] then OfferBatch(Success, offers, props)
    else
      var o := offers[ids[0]];
      if props[o.propertyId].state == OfferAccepted then OfferBatch(Failure(UserError), offers, props)
      else Accept(offers[ids[0] := o.(status := Some(Accepted))],
                  props[o.propertyId := AcceptedProperty(props[o.propertyId], o, best)],
                  ids[1..], NextBest(best, o.price))
  }

  /** `refuse_offer` from the given running best price; it never raises. */
  function Refuse(offers: seq<Offer>, props: seq<Property>, ids: seq<RecordId>, best: int): (r: OfferBatch)
    requires Linked(offers, props) && ValidIds(ids, |offers|)
    ensures r.outcome == Success
    ensures |r.offers| == |offers| && |r.properties| == |props| && Linked(r.offers, r.properties)
    decreases |ids|
  {
    if ids == [] then OfferBatch(Success, offers, props)
    else
      var o := offers[ids[0]];
      Refuse(offers[ids[0] := o.(status := Some(Refused))],
             props[o.propertyId := RefusedProperty(props[o.propertyId], o, best)],
             ids[1..], NextBest(best, o.price))
  }

  /** The offers of the batch belong to pairwise different listings. */
  predicate DistinctProperties(offers: seq<Offer>, ids: seq<RecordId>)
    requires ValidIds(ids, |offers|)
  {
    forall i, j :: 0 <= i < j < |ids| ==> offers[ids[i]].propertyId != offers[ids[j]].propertyId
  }

  /** No listing of the batch has an accepted offer yet. */
  predicate NoneAccepted(offers: seq<Offer>, props: seq<Property>, ids: seq<RecordId>)
    requires Linked(offers, props) && ValidIds(ids, |offers|)
  {
    forall k :: 0 <= k < |ids| ==> props[offers[ids[k]].propertyId].state != OfferAccepted
  }

  /** A batch reaching an offer whose listing is already in "offer accepted"
      raises. */
  lemma {:induction false} AcceptBlocked(offers: seq<Offer>, props: seq<Property>, ids: seq<RecordId>, best: int, j: nat)
    requires Linked(offers, props) && ValidIds(ids, |offers|) && j < |ids|
    requires props[offers[ids[j]].propertyId].state == OfferAccepted
    ensures Accept(offers, props, ids, best).outcome == Failure(UserError)
    decreases |ids|
  {
    var o := offers[ids[0]];
    if props[o.propertyId].state != OfferAccepted {
      var offers' := offers[ids[0] := o.(status := Some(Accepted))];
      var props' := props[o.propertyId := AcceptedProperty(props[o.propertyId], o, best)];
      assert offers'[ids[j]].propertyId == offers[ids[j]].propertyId;
      assert ids[1..][j - 1] == ids[j];
      AcceptBlocked(offers', props', ids[1..], NextBest(best, o.price), j - 1);
    }
  }

  /** Two offers of one listing in a batch: the second raises once the first
      has been accepted. */
  lemma {:induction false} AcceptSameListing(offers: seq<Offer>, props: seq<Property>, ids: seq<RecordId>, best: int, i: nat, j: nat)
    requires Linked(offers, props) && ValidIds(ids, |offers|) && i < j < |ids|
    requires offers[ids[i]].propertyId == offers[ids[j]].propertyId
    ensures Accept(offers, props, ids, best).outcome == Failure(UserError)
    decreases |ids|
  {
    var o := offers[ids[0]];
    if props[o.propertyId].state != OfferAccepted {
      var offers' := offers[ids[0] := o.(status := Some(Accepted))];
      var props' := props[o.propertyId := AcceptedProperty(props[o.propertyId], o, best)];
      assert offers'[ids[j]].propertyId == offers[ids[j]].propertyId;
      assert offers'[ids[i]].propertyId == offers[ids[i]].propertyId;
      assert ids[1..][j - 1] == ids[j];
      if i == 0 {
        AcceptBlocked(offers', props', ids[1..], NextBest(best, o.price), j - 1);
      } else {
        assert ids[1..][i - 1] == ids[i];
        AcceptSameListing(offers', props', ids[1..], NextBest(best, o.price), i - 1, j - 1);
      }
    }
  }

  /** One accept step keeps the batch's preconditions for the rest of it. */
  lemma AcceptStepKeeps(offers: seq<Offer>, props: seq<Property>, ids: seq<RecordId>, best: int)
    requires Linked(offers, props) && ValidIds(ids, |offers|) && ids != []
    requires DistinctProperties(offers, ids) && NoneAccepted(offers, props, ids)
    ensures var o := offers[ids[0]];
            var offers' := offers[ids[0] := o.(status := Some(Accepted))];
            var props' := props[o.propertyId := AcceptedProperty(props[o.propertyId], o, best)];
      Linked(offers', props') && ValidIds(ids[1..], |offers'|) &&
      DistinctProperties(offers', ids[1..]) && NoneAccepted(offers', props', ids[1..]) &&
      ids[0] !in ids[1..] &&
      (forall k :: 0 <= k < |ids[1..]| ==> offers'[ids[1..][k]] == offers[ids[k + 1]] &&
                                           props'[offers'[ids[1..][k]].propertyId] == props[offers[ids[k + 1]].propertyId])
  {
    var o := offers[ids[0]];
    var offers' := offers[ids[0] := o.(status := Some(Accepted))];
    forall k | 0 <= k < |ids[1..]|
      ensures ids[1..][k] != ids[0] && offers'[ids[1..][k]] == offers[ids[k + 1]]
    {
      assert offers[ids[0]].propertyId != offers[ids[k + 1]].propertyId;
    }
  }

  /** A batch succeeds exactly when its offers belong to different listings,
      none of which has an accepted offer yet. */
  lemma AcceptSucceedsIff(offers: seq<Offer>, props: seq<Property>, ids: seq<RecordId>, best: int)
    requires Linked(offers, props) && ValidIds(ids, |offers|)
    ensures Accept(offers, props, ids, best).outcome == Success <==>
            DistinctProperties(offers, ids) && NoneAccepted(offers, props, ids)
  {
    if DistinctProperties(offers, ids) && NoneAccepted(offers, props, ids) {
      AcceptSucceeds(offers, props, ids, best);
    } else if !NoneAccepted(offers, props, ids) {
      var j :| 0 <= j < |ids| && props[offers[ids[j]].propertyId].state == OfferAccepted;
      AcceptBlocked(offers, props, ids, best, j);
    } else {
      var i, j :| 0 <= i < j < |ids| && offers[ids[i]].propertyId == offers[ids[j]].propertyId;
      AcceptSameListing(offers, props, ids, best, i, j);
    }
  }

  lemma {:induction false} AcceptSucceeds(offers: seq<Offer>, props: seq<Property>, ids: seq<RecordId>, best: int)
    requires Linked(offers, props) && ValidIds(ids, |offers|)
    requires DistinctProperties(offers, ids) && NoneAccepted(offers, props, ids)
    ensures Accept(offers, props, ids, best).outcome == Success
    decreases |ids|
  {
    if ids != [] {
      var o := offers[ids[0]];
      assert props[o.propertyId].state != OfferAccepted;
      AcceptStepKeeps(offers, props, ids, best);
      AcceptSucceeds(offers[ids[0] := o.(status := Some(Accepted))],
                     props[o.propertyId := AcceptedProperty(props[o.propertyId], o, best)],
                     ids[1..], NextBest(best, o.price));
    }
  }

  /** In a successful batch every visited offer is accepted with nothing else
      changed, and every other offer is untouched. */
  lemma {:induction false} AcceptOfferAt(offers: seq<Offer>, props: seq<Property>, ids: seq<RecordId>, best: int, x: RecordId)
    requires Linked(offers, props) && ValidIds(ids, |offers|) && x < |offers|
    requires DistinctProperties(offers, ids) && NoneAccepted(offers, props, ids)
    ensures Accept(offers, props, ids, best).offers[x] ==
            if x in ids then offers[x].(status := Some(Accepted)) else offers[x]
    decreases |ids|
  {
    if ids != [] {
      var o := offers[ids[0]];
      var offers' := offers[ids[0] := o.(status := Some(Accepted))];
      var props' := props[o.propertyId := AcceptedProperty(props[o.propertyId], o, best)];
      AcceptStepKeeps(offers, props, ids, best);
      AcceptOfferAt(offers', props', ids[1..], NextBest(best, o.price), x);
      assert ids == [ids[0]] + ids[1..];
    }
  }

  /** In a successful batch the listing of the k-th offer has that offer's
      price as selling price, its partner as buyer and state "offer accepted";
      its best price is overwritten with the offer price exactly when that
      price exceeds the running maximum of the earlier prices of the batch,
      started from `best`. */
  lemma {:induction false} AcceptPropertyAt(offers: seq<Offer>, props: seq<Property>, ids: seq<RecordId>, best: int, k: nat)
    requires Linked(offers, props) && ValidIds(ids, |offers|) && k < |ids|
    requires DistinctProperties(offers, ids) && NoneAccepted(offers, props, ids)
    ensures var pid := offers[ids[k]].propertyId;
      Accept(offers, props, ids, best).properties[pid] ==
      AcceptedProperty(props[pid], offers[ids[k]], FoldBest(best, BatchPrices(offers, ids[..k])))
    decreases |ids|
  {
    var o := offers[ids[0]];
    var offers' := offers[ids[0] := o.(status := Some(Accepted))];
    var props' := props[o.propertyId := AcceptedProperty(props[o.propertyId], o, best)];
    AcceptStepKeeps(offers, props, ids, best);
    if k == 0 {
      AcceptUntouched(offers', props', ids[1..], NextBest(best, o.price), o.propertyId);
    } else {
      AcceptPropertyAt(offers', props', ids[1..], NextBest(best, o.price), k - 1);
      assert ids[1..][k - 1] == ids[k];
      assert BatchPrices(offers, ids[..k]) == [o.price] + BatchPrices(offers', ids[1..][..k - 1]);
    }
  }

  /** A listing none of whose offers is in the batch is left as it was,
      whether or not the batch raises. */
  lemma {:induction false} AcceptUntouched(offers: seq<Offer>, props: seq<Property>, ids: seq<RecordId>, best: int, q: RecordId)
    requires Linked(offers, props) && ValidIds(ids, |offers|) && q < |props|
    requires forall k :: 0 <= k < |ids| ==> offers[ids[k]].propertyId != q
    ensures Accept(offers, props, ids, best).properties[q] == props[q]
    decreases |ids|
  {
    if ids != [] {
      var o := offers[ids[0]];
      if props[o.propertyId].state != OfferAccepted {
        var offers' := offers[ids[0] := o.(status := Some(Accepted))];
        var props' := props[o.propertyId := AcceptedProperty(props[o.propertyId], o, best)];
        forall k | 0 <= k < |ids[1..]| ensures offers'[ids[1..][k]].propertyId != q {
          assert ids[1..][k] == ids[k + 1];
        }
        AcceptUntouched(offers', props', ids[1..], NextBest(best, o.price), q);
      }
    }
  }

  /** A batch that raises leaves the tables exactly as the successful run of
      the offers before the failing one would: earlier changes are kept. */
  lemma {:induction false} AcceptFailsAfterPrefix(offers: seq<Offer>, props: seq<Property>, ids: seq<RecordId>, best: int)
    requires Linked(offers, props) && ValidIds(ids, |offers|)
    requires Accept(offers, props, ids, best).outcome != Success
    ensures exists k ::
              0 <= k < |ids| &&
              Accept(offers, props, ids[..k], best) == Accept(offers, props, ids, best).(outcome := Success)
    decreases |ids|
  {
    var o := offers[ids[0]];
    if props[o.propertyId].state == OfferAccepted {
      assert ids[..0] == [];
    } else {
      var offers' := offers[ids[0] := o.(status := Some(Accepted))];
      var props' := props[o.propertyId := AcceptedProperty(props[o.propertyId], o, best)];
      var best' := NextBest(best, o.price);
      AcceptFailsAfterPrefix(offers', props', ids[1..], best');
      var k' :| 0 <= k' < |ids[1..]| &&
        Accept(offers', props', ids[1..][..k'], best') == Accept(offers', props', ids[1..], best').(outcome := Success);
      assert ids[..k' + 1][1..] == ids[1..][..k'];
      assert ids[..k' + 1][0] == ids[0];
    }
  }

  /** Every visited offer ends refused with nothing else changed, and every
      other offer is untouched. */
  lemma {:induction false} RefuseOfferAt(offers: seq<Offer>, props: seq<Property>, ids: seq<RecordId>, best: int, x: RecordId)
    requires Linked(offers, props) && ValidIds(ids, |offers|) && x < |offers|
    ensures Refuse(offers, props, ids, best).offers[x] ==
            if x in ids then offers[x].(status := Some(Refused)) else offers[x]
    decreases |ids|
  {
    if ids != [] {
      var o := offers[ids[0]];
      var offers' := offers[ids[0] := o.(status := Some(Refused))];
      var props' := props[o.propertyId := RefusedProperty(props[o.propertyId], o, best)];
      RefuseOfferAt(offers', props', ids[1..], NextBest(best, o.price), x);
      assert ids == [ids[0]] + ids[1..];
    }
  }

  /** A listing none of whose offers is in the batch is left as it was. */
  lemma {:induction false} RefuseUntouched(offers: seq<Offer>, props: seq<Property>, ids: seq<RecordId>, best: int, q: RecordId)
    requires Linked(offers, props) && ValidIds(ids, |offers|) && q < |props|
    requires forall k :: 0 <= k < |ids| ==> offers[ids[k]].propertyId != q
    ensures Refuse(offers, props, ids, best).properties[q] == props[q]
    decreases |ids|
  {
    if ids != [] {
      var o := offers[ids[0]];
      var offers' := offers[ids[0] := o.(status := Some(Refused))];
      var props' := props[o.propertyId := RefusedProperty(props[o.propertyId], o, best)];
      forall k | 0 <= k < |ids[1..]| ensures offers'[ids[1..][k]].propertyId != q {
        assert ids[1..][k] == ids[k + 1];
      }
      RefuseUntouched(offers', props', ids[1..], NextBest(best, o.price), q);
    }
  }

  /** When the batch's offers belong to different listings, the listing of the
      k-th offer is rolled back to "offer received" with no selling price and
      no buyer exactly when that offer was the accepted one, and its best
      price is overwritten exactly when the offer price exceeds the running
      maximum of the earlier prices of the batch. */
  lemma {:induction false} RefusePropertyAt(offers: seq<Offer>, props: seq<Property>, ids: seq<RecordId>, best: int, k: nat)
    requires Linked(offers, props) && ValidIds(ids, |offers|) && k < |ids|
    requires DistinctProperties(offers, ids)
    ensures var pid := offers[ids[k]].propertyId;
      Refuse(offers, props, ids, best).properties[pid] ==
      RefusedProperty(props[pid], offers[ids[k]], FoldBest(best, BatchPrices(offers, ids[..k])))
    decreases |ids|
  {
    var o := offers[ids[0]];
    var offers' := offers[ids[0] := o.(status := Some(Refused))];
    var props' := props[o.propertyId := RefusedProperty(props[o.propertyId], o, best)];
    RefuseUnfold(offers, props, ids, best);
    RefuseStepKeeps(offers, ids);
    if k == 0 {
      RefuseUntouched(offers', props', ids[1..], NextBest(best, o.price), o.propertyId);
    } else {
      RefusePropertyAt(offers', props', ids[1..], NextBest(best, o.price), k - 1);
      assert ids[1..][k - 1] == ids[k];
      assert BatchPrices(offers, ids[..k]) == [o.price] + BatchPrices(offers', ids[1..][..k - 1]);
    }
  }

  /** One refuse step on a batch over different listings: the rest of the
      batch still is over different listings, sees its offers as they were,
      and none of them is on the head offer's listing. */
  lemma RefuseStepKeeps(offers: seq<Offer>, ids: seq<RecordId>)
    requires ValidIds(ids, |offers|) && ids != [] && DistinctProperties(offers, ids)
    ensures var o := offers[ids[0]];
            var offers' := offers[ids[0] := o.(status := Some(Refused))];
      ValidIds(ids[1..], |offers'|) && DistinctProperties(offers', ids[1..]) &&
      forall j :: 0 <= j < |ids[1..]| ==>
        offers'[ids[1..][j]] == offers[ids[j + 1]] && offers'[ids[1..][j]].propertyId != o.propertyId
  {
    var o := offers[ids[0]];
    var offers' := offers[ids[0] := o.(status := Some(Refused))];
    forall j | 0 <= j < |ids[1..]|
      ensures offers'[ids[1..][j]] == offers[ids[j + 1]] && offers'[ids[1..][j]].propertyId != o.propertyId
    {
      assert ids[1..][j] == ids[j + 1];
      assert offers[ids[0]].propertyId != offers[ids[j + 1]].propertyId;
    }
  }

  /** Some offer of the batch on listing `q` is, before the batch runs, the
      accepted one. */
  predicate RefusesAccepted(offers: seq<Offer>, ids: seq<RecordId>, q: RecordId)
    requires ValidIds(ids, |offers|)
  {
    exists k :: 0 <= k < |ids| && offers[ids[k]].propertyId == q && offers[ids[k]].status == Some(Accepted)
  }

  /** Position `k` of a list of prices raises the running maximum started at
      `best`: its price exceeds that value and every earlier price. */
  predicate RaisesAt(best: int, ps: seq<int>, k: nat)
    requires k < |ps|
  {
    ps[k] > FoldBest(best, ps[..k])
  }

  /** The first refuse step: an accepted offer of `q` is met either at the
      head of the batch or later, in the table the head step leaves. */
  lemma RefusesAcceptedStep(offers: seq<Offer>, ids: seq<RecordId>, q: RecordId)
    requires ValidIds(ids, |offers|) && ids != []
    ensures var o := offers[ids[0]];
            var offers' := offers[ids[0] := o.(status := Some(Refused))];
      ValidIds(ids[1..], |offers'|) &&
      (RefusesAccepted(offers, ids, q) <==>
       (o.propertyId == q && o.status == Some(Accepted)) || RefusesAccepted(offers', ids[1..], q))
  {
    var o := offers[ids[0]];
    var offers' := offers[ids[0] := o.(status := Some(Refused))];
    if RefusesAccepted(offers', ids[1..], q) {
      var k :| 0 <= k < |ids[1..]| && offers'[ids[1..][k]].propertyId == q &&
               offers'[ids[1..][k]].status == Some(Accepted);
      assert ids[1..][k] == ids[k + 1] && offers[ids[k + 1]] == offers'[ids[1..][k]];
    }
    if RefusesAccepted(offers, ids, q) && !(o.propertyId == q && o.status == Some(Accepted)) {
      var k :| 0 <= k < |ids| && offers[ids[k]].propertyId == q && offers[ids[k]].status == Some(Accepted);
      assert ids[k] != ids[0];
      assert ids[1..][k - 1] == ids[k] && offers'[ids[1..][k - 1]] == offers[ids[k]];
    }
  }

  /** For any batch, also one holding several offers of the same listing:
      listing `q` is rolled back to "offer received" with no selling price and
      no buyer exactly when one of its offers in the batch was the accepted
      one, and otherwise keeps its state, selling price and buyer. */
  lemma {:induction false} RefuseRollbackAt(offers: seq<Offer>, props: seq<Property>, ids: seq<RecordId>, best: int, q: RecordId)
    requires Linked(offers, props) && ValidIds(ids, |offers|) && q < |props|
    ensures var p := Refuse(offers, props, ids, best).properties[q];
      if RefusesAccepted(offers, ids, q)
      then p.state == OfferReceived && p.sellingPrice == 0 && p.buyer == None
      else p.state == props[q].state && p.sellingPrice == props[q].sellingPrice && p.buyer == props[q].buyer
    decreases |ids|
  {
    if ids != [] {
      var o := offers[ids[0]];
      var offers' := offers[ids[0] := o.(status := Some(Refused))];
      var props' := props[o.propertyId := RefusedProperty(props[o.propertyId], o, best)];
      RefusesAcceptedStep(offers, ids, q);
      RefuseRollbackAt(offers', props', ids[1..], NextBest(best, o.price), q);
    }
  }

  /** The first refuse step for the best price: the prices the rest of the
      batch sees are the tail of the batch's prices, and a later position
      raises the running maximum of the whole batch exactly when it raises
      the one the rest starts from. */
  lemma RaisesAtStep(best: int, ps: seq<int>, k: nat)
    requires 0 < k < |ps|
    ensures RaisesAt(best, ps, k) <==> RaisesAt(NextBest(best, ps[0]), ps[1..], k - 1)
  {
    assert ps[..k] == [ps[0]] + ps[1..][..k - 1];
    assert ps[..k][1..] == ps[1..][..k - 1];
  }

  /** The parent listings of the offers a batch visits, in batch order. */
  function BatchListings(offers: seq<Offer>, ids: seq<RecordId>): (ls: seq<RecordId>)
    requires ValidIds(ids, |offers|)
    ensures |ls| == |ids|
    ensures forall k :: 0 <= k < |ids| ==> ls[k] == offers[ids[k]].propertyId
  {
    seq(|ids|, k requires 0 <= k < |ids| => offers[ids[k]].propertyId)
  }

  /** The best price listing `q` is left with by a batch whose prices are
      `ps` and whose listings are `ls`, starting from best price `b` and
      running maximum `best`. */
  function ListingBest(b: int, best: int, ps: seq<int>, ls: seq<RecordId>, q: RecordId): int
    requires |ps| == |ls|
    decreases |ps|
  {
    if ps == [] then b
    else ListingBest(if ls[0] == q && ps[0] > best then ps[0] else b, NextBest(best, ps[0]), ps[1..], ls[1..], q)
  }

  /** The fold ends on the price of the last position on `q` that raises
      the running maximum, and on its start value when none does. */
  lemma {:induction false} ListingBestLast(b: int, best: int, ps: seq<int>, ls: seq<RecordId>, q: RecordId)
    requires |ps| == |ls|
    ensures (forall k :: 0 <= k < |ps| && ls[k] == q ==> !RaisesAt(best, ps, k)) ==> ListingBest(b, best, ps, ls, q) == b
    ensures (exists k :: 0 <= k < |ps| && ls[k] == q && RaisesAt(best, ps, k)) ==>
            exists k :: 0 <= k < |ps| && ls[k] == q && RaisesAt(best, ps, k) &&
              ListingBest(b, best, ps, ls, q) == ps[k] &&
              forall j :: k < j < |ps| && ls[j] == q ==> !RaisesAt(best, ps, j)
    decreases |ps|
  {
    if ps != [] {
      var b' := if ls[0] == q && ps[0] > best then ps[0] else b;
      var best' := NextBest(best, ps[0]);
      var r := ListingBest(b, best, ps, ls, q);
      ListingBestLast(b', best', ps[1..], ls[1..], q);
      assert ps[..0] == [];
      forall k | 1 <= k < |ps|
        ensures (RaisesAt(best, ps, k) <==> RaisesAt(best', ps[1..], k - 1)) && ls[1..][k - 1] == ls[k]
      {
        RaisesAtStep(best, ps, k);
      }
      if exists k :: 0 <= k < |ps[1..]| && ls[1..][k] == q && RaisesAt(best', ps[1..], k) {
        var k :| 0 <= k < |ps[1..]| && ls[1..][k] == q && RaisesAt(best', ps[1..], k) && r == ps[1..][k] &&
                 forall j :: k < j < |ps[1..]| && ls[1..][j] == q ==> !RaisesAt(best', ps[1..], j);
        assert ls[k + 1] == q && RaisesAt(best, ps, k + 1) && r == ps[k + 1];
        forall j | k + 1 < j < |ps| && ls[j] == q ensures !RaisesAt(best, ps, j) {
          assert ls[1..][j - 1] == q;
        }
      } else if ls[0] == q && ps[0] > best {
        forall j | 0 < j < |ps| && ls[j] == q ensures !RaisesAt(best, ps, j) {
          assert ls[1..][j - 1] == q;
        }
      } else {
        forall j | 0 <= j < |ps| && ls[j] == q ensures !RaisesAt(best, ps, j) {
          if j > 0 {
            assert ls[1..][j - 1] == q;
          }
        }
      }
    }
  }

  /** A refuse batch leaves each listing the best price of that fold. */
  lemma {:induction false} RefuseListingBest(offers: seq<Offer>, props: seq<Property>, ids: seq<RecordId>, best: int, q: RecordId)
    requires Linked(offers, props) && ValidIds(ids, |offers|) && q < |props|
    ensures Refuse(offers, props, ids, best).properties[q].bestPrice ==
            ListingBest(props[q].bestPrice, best, BatchPrices(offers, ids), BatchListings(offers, ids), q)
    decreases |ids|
  {
    if ids != [] {
      var o := offers[ids[0]];
      var offers' := offers[ids[0] := o.(status := Some(Refused))];
      var props' := props[o.propertyId := RefusedProperty(props[o.propertyId], o, best)];
      RefuseListingBest(offers', props', ids[1..], NextBest(best, o.price), q);
      assert BatchPrices(offers', ids[1..]) == BatchPrices(offers, ids)[1..];
      assert BatchListings(offers', ids[1..]) == BatchListings(offers, ids)[1..];
    }
  }

  /** For any batch, also one holding several offers of the same listing:
      listing `q` ends with the price of the last batch position on `q` that
      raises the running maximum, and keeps its best price when no position
      on `q` raises it. */
  lemma RefuseBestPriceAt(offers: seq<Offer>, props: seq<Property>, ids: seq<RecordId>, best: int, q: RecordId)
    requires Linked(offers, props) && ValidIds(ids, |offers|) && q < |props|
    ensures (forall k :: 0 <= k < |ids| && offers[ids[k]].propertyId == q ==>
               !RaisesAt(best, BatchPrices(offers, ids), k)) ==>
            Refuse(offers, props, ids, best).properties[q].bestPrice == props[q].bestPrice
    ensures (exists k :: 0 <= k < |ids| && offers[ids[k]].propertyId == q &&
               RaisesAt(best, BatchPrices(offers, ids), k)) ==>
            exists k :: 0 <= k < |ids| && offers[ids[k]].propertyId == q &&
              RaisesAt(best, BatchPrices(offers, ids), k) &&
              Refuse(offers, props, ids, best).properties[q].bestPrice == offers[ids[k]].price &&
              forall j :: k < j < |ids| && offers[ids[j]].propertyId == q ==>
                !RaisesAt(best, BatchPrices(offers, ids), j)
  {
    RefuseListingBest(offers, props, ids, best, q);
    ListingBestLast(props[q].bestPrice, best, BatchPrices(offers, ids), BatchListings(offers, ids), q);
  }

  /** One refuse step: the batch is its first offer's step followed by the
      rest of the batch. */
  lemma RefuseUnfold(offers: seq<Offer>, props: seq<Property>, ids: seq<RecordId>, best: int)
    requires Linked(offers, props) && ValidIds(ids, |offers|) && ids != []
    ensures var o := offers[ids[0]];
            var offers' := offers[ids[0] := o.(status := Some(Refused))];
            var props' := props[o.propertyId := RefusedProperty(props[o.propertyId], o, best)];
      Linked(offers', props') && ValidIds(ids[1..], |offers'|) &&
      Refuse(offers, props, ids, best) == Refuse(offers', props', ids[1..], NextBest(best, o.price))
  {
  }

  /** Accepting one offer and then refusing it brings its listing back to
      "offer received" with no selling price and no buyer, and leaves the
      offer refused. */
  lemma AcceptThenRefuse(offers: seq<Offer>, props: seq<Property>, id: RecordId)
    requires Linked(offers, props) && id < |offers|
    requires props[offers[id].propertyId].state != OfferAccepted
    ensures var a := Accept(offers, props, [id], 0);
            var f := Refuse(a.offers, a.properties, [id], 0);
            var pid := offers[id].propertyId;
      a.outcome == Success && a.properties[pid].state == OfferAccepted &&
      f.offers[id].status == Some(Refused) &&
      f.properties[pid].state == OfferReceived && f.properties[pid].sellingPrice == 0 &&
      f.properties[pid].buyer == None
  {
    var o := offers[id];
    var pid := o.propertyId;
    assert [id][1..] == [];
    var offers' := offers[id := o.(status := Some(Accepted))];
    var props' := props[pid := AcceptedProperty(props[pid], o, 0)];
    assert Accept(offers, props, [id], 0) == Accept(offers', props', [], NextBest(0, o.price));
    var a := Accept(offers, props, [id], 0);
    assert a.offers == offers' && a.properties == props';
    assert Refuse(offers', props', [id], 0) ==
      Refuse(offers'[id := offers'[id].(status := Some(Refused))],
             props'[pid := RefusedProperty(props'[pid], offers'[id], 0)], [], NextBest(0, o.price));
  }

  /** The batch's best price is not the computed best offer: accepting a
      lower offer overwrites a higher best price, because the running maximum
      starts at 0. */
  lemma AcceptCanLowerBestPrice()
    ensures var p := Property("House", "", "", 0, 200000, 0, 3, 100, 2, false, false, 0, None,
                              true, OfferReceived, 100, 500, None, {}, 1, None);
            var o := Offer(100, None, 7, 0, 0, 10, 10);
      Accept([o], [p], [0], 0).properties[0].bestPrice == 100 &&
      FoldBest(p.bestPrice, OfferPrices([o], 0)) == 500
  {
    var o := Offer(100, None, 7, 0, 0, 10, 10);
    assert OfferPrices([o], 0) == [100] + OfferPrices([], 0);
  }

  // ---------------------------------------------------------------------------
  // The table
  // ---------------------------------------------------------------------------

  /** The `house.location.offer` table; a record's id is its position. */
  class OfferTable {
    var records: seq<Offer>

    constructor ()
      ensures records == []
    {
      records := [];
    }

    /** `create`: refuses a price any stored offer already has; otherwise
        inserts the row and runs the validators, whose ValidationError
        leaves the table as it was. */
    method Create(vals: OfferVals, today: int, props: PropertyTable) returns (r: Result<RecordId>)
      requires Linked(records, props.records) && vals.propertyId < |props.records|
      modifies this
      ensures Linked(records, props.records)
      ensures if Occurrences(Prices(old(records)), vals.price) == 0 && vals.price >= 0 && vals.validity >= 0
              then r == Ok(|old(records)|) && records == old(records) + [NewOffer(vals, today)]
              else r == Err(ValidationError) && records == old(records)
    ensures Distinct(Prices(old(records))) ==> Distinct(Prices(records))
    {
      var count := Occurrences(Prices(records), vals.price);
      if count > 0 {
        return Err(ValidationError);
      }
      var o := NewOffer(vals, today);
      var inserted := records + [o];
      InsertedPriceCountedOnce(records, o);
      if PostInsertChecks(inserted, o) != Success {
        return Err(ValidationError);
      }
      if Distinct(Prices(records)) {
        CreateKeepsPricesDistinct(records, o);
      }
      r := Ok(|records|);
      records := inserted;
    }

    /** `accept_offer` over a record set. */
    method AcceptOffer(ids: seq<RecordId>, props: PropertyTable) returns (outcome: Outcome)
      requires Linked(records, props.records) && ValidIds(ids, |records|)
      modifies this, props
      ensures Accept(old(records), old(props.records), ids, 0) == OfferBatch(outcome, records, props.records)
    {
      var best := 0;
      var i := 0;
      while i < |ids|
        invariant 0 <= i <= |ids| && |records| == |old(records)|
        invariant Linked(records, props.records)
        invariant Accept(old(records), old(props.records), ids, 0) == Accept(records, props.records, ids[i..], best)
      {
        var o := records[ids[i]];
        if props.records[o.propertyId].state == OfferAccepted {
          return Failure(UserError);
        }
        ghost var expected := props.records[o.propertyId := AcceptedProperty(props.records[o.propertyId], o, best)];
        ghost var nextBest := NextBest(best, o.price);
        records := records[ids[i] := o.(status := Some(Accepted))];
        props.records := props.records[o.propertyId := props.records[o.propertyId].(
          state := OfferAccepted, sellingPrice := o.price, buyer := Some(o.partner))];
        if o.price > best {
          best := o.price;
          props.records := props.records[o.propertyId := props.records[o.propertyId].(bestPrice := o.price)];
        }
        assert props.records == expected && best == nextBest;
        assert ids[i..][1..] == ids[i + 1..];
        i := i + 1;
      }
      outcome := Success;
    }

    /** `refuse_offer` over a record set. */
    method RefuseOffer(ids: seq<RecordId>, props: PropertyTable)
      requires Linked(records, props.records) && ValidIds(ids, |records|)
      modifies this, props
      ensures Refuse(old(records), old(props.records), ids, 0) == OfferBatch(Success, records, props.records)
    {
      var best := 0;
      var i := 0;
      while i < |ids|
        invariant 0 <= i <= |ids| && |records| == |old(records)|
        invariant Linked(records, props.records)
        invariant Refuse(old(records), old(props.records), ids, 0) == Refuse(records, props.records, ids[i..], best)
      {
        var o := records[ids[i]];
        ghost var expected := props.records[o.propertyId := RefusedProperty(props.records[o.propertyId], o, best)];
        ghost var nextBest := NextBest(best, o.price);
        RefuseUnfold(records, props.records, ids[i..], best);
        if o.status == Some(Accepted) {
          props.records := props.records[o.propertyId := props.records[o.propertyId].(
            state := OfferReceived, sellingPrice := 0, buyer := None)];
        }
        records := records[ids[i] := o.(status := Some(Refused))];
        if o.price > best {
          best := o.price;
          props.records := props.records[o.propertyId := props.records[o.propertyId].(bestPrice := o.price)];
        }
        assert props.records == expected && best == nextBest;
        assert ids[i..][1..] == ids[i + 1..];
        i := i + 1;
      }
    }
  }
}
