# House listing lifecycle — a Dafny model

This project models the business rules of the `house_location` Odoo addon, a
real-estate listing manager. It covers four models:

- **properties** (`house.location`): six numeric validators, the computed
  `total_area` and `best_price`, the garden on-change rule, the delete guard,
  and the *Sold* / *Cancel* buttons over the five-valued `state` selection
  (`"new"`, `"offer received"`, `"offer accepted"`, `"sold"`, `"canceled"`);
- **offers** (`house.location.offer`): a create that refuses a price any offer
  already has, the post-insert validators, the deadline compute and its
  inverse, and the *Accept* / *Refuse* buttons;
- **tags** and **types**: a check-then-insert create that keeps names unique.

The host framework's tables become Dafny classes holding a `seq` of records.
A record's id is its position in its table. Partners and users are opaque
numbers, and dates are day numbers. Each batch button is a method with a loop.
That method is specified by a recursive function over the old tables
(`Transition`, `Accept`, `Refuse`). The source's promises are lemmas about
those functions.

Modules and files:

- `common.dfy` (`Common`): the error kinds, and the counting query behind
  every uniqueness check.
- `records.dfy` (`Records`): the data model.
- `house_location.dfy` (`HouseLocation`): the property rules and `PropertyTable`.
- `house_location_offer.dfy` (`HouseLocationOffer`): the offer rules and `OfferTable`.
- `house_location_tag.dfy` (`HouseLocationTag`) and `house_location_type.dfy`
  (`HouseLocationType`): the tag and type tables.

Modelling choices:

- A raised exception is an `Outcome`/`Result` value. A batch that raises
  returns the tables as they were at the raise. Rolling back the transaction
  is the host's job.
- `refuse_offer` assigns `None` to `selling_price`, a float field. The model
  stores 0, which is what the field reads back as.
- Validators and recomputes are plain functions that the operations call.
  When the ORM would fire them is not modelled.
- The offer create works in two steps. First it
  counts the offers with the same price (`house_location_offer.py:61-66`).
  Then it inserts the row and runs the price, validity and deadline checks. If
  a check fails, the insert is undone. `InsertedPriceCountedOnce` shows that
  the second duplicate test (`count > 1`) can never fire during a create.
- Three points where the model follows the code rather than a looser reading:
  - `best_price` is not reset to 0 when a listing has no offers. The code
    folds from the record's current best price, so that value is kept
    (`BestOfferSpec`).
  - The `accept_offer` docstring names a ValidationError, but the code raises
    a UserError.
  - Creating an offer does not move its listing to "offer received". Only
    `refuse_offer` sets that state.

## Model

| member | source | states |
|---|---|---|
| `Records.StateNameRoundTrip` | addons/house_location/models/house_location.py:61-72 | the five stored `state` strings and the states are in one-to-one correspondence |
| `HouseLocation.FirstViolation` | addons/house_location/models/house_location.py:106-181 | returns the first of the given fields, in list order, whose bound fails; none is returned iff every given field's bound holds |
| `HouseLocation.Validate` | addons/house_location/models/house_location.py:106-181 | running the validators of the written fields gives a ValidationError exactly when one of their bounds fails |
| `HouseLocation.ValidateAllIff` | addons/house_location/models/house_location.py:106-181 | a record passes all validators iff expected price ≥ 0, selling price ≥ 0, bedrooms ≥ 1, living area ≥ 0, facades ≥ 0 and garden area ≥ 0 |
| `HouseLocation.NewProperty` | addons/house_location/models/house_location.py:61-79 | a new listing has state "new", no selling price, no buyer, best price 0, total area living + garden, and the caller's values |
| `HouseLocation.PropertyTable.Create` | addons/house_location/models/house_location.py:61-79 | a create appends that row when every validator passes, and otherwise raises a ValidationError and leaves the table unchanged |
| `HouseLocation.WithTotalArea` | addons/house_location/models/house_location.py:203-210 | after the recompute, total area = living area + garden area and no other field changes |
| `HouseLocation.TotalAreaBounds` | addons/house_location/models/house_location.py:203-210 | with valid areas the total is non-negative and at least each part |
| `HouseLocation.PropertyTable.ComputeTotalArea` | addons/house_location/models/house_location.py:203-210 | every record of the set gets its total area recomputed and every other row is unchanged |
| `HouseLocation.FoldBestBounds` | addons/house_location/models/house_location.py:217-220 | the fold is at least every price |
| `HouseLocation.FoldBest` | addons/house_location/models/house_location.py:217-220 | the fold of the best-price update over a price list never lowers its start value and ends on that value or on one of the prices |
| `HouseLocation.FoldBestDominated` | addons/house_location/models/house_location.py:217-220 | a start value that bounds every price is returned unchanged |
| `HouseLocation.FoldBestIdempotent` | addons/house_location/models/house_location.py:212-223 | recomputing the best price twice is the same as once |
| `HouseLocation.BestRecomputed` | addons/house_location/models/house_location.py:212-223 | the recompute only raises the best price and changes no other field |
| `HouseLocation.OfferPrices` | addons/house_location/models/house_location.py:95-97 | the prices folded for a listing are exactly those of the offers whose parent is the listing |
| `HouseLocation.BestOfferSpec` | addons/house_location/models/house_location.py:212-223 | the recomputed best price is ≥ the previous value and every offer price of the listing. It equals the previous value or one of those prices, and is unchanged when the listing has no offers |
| `HouseLocation.PropertyTable.ComputeBestOffer` | addons/house_location/models/house_location.py:212-223 | each record of the set gets its best price folded with its offers' prices, and every other row is unchanged |
| `HouseLocation.PropertyTable.ComputeBestOfferOf` | addons/house_location/models/house_location.py:219-220 | the inner loop leaves one record's best price at the fold of its offer prices and touches nothing else |
| `HouseLocation.OnchangeGarden` | addons/house_location/models/house_location.py:226-237 | garden on gives area 10 facing north; garden off gives area 0 and no orientation; no other field changes |
| `HouseLocation.OnchangeGardenValid` | addons/house_location/models/house_location.py:226-237 | the on-change result always passes the garden-area validator, and applying it twice is the same as once |
| `HouseLocation.UnlinkGuard` | addons/house_location/models/house_location.py:195-197 | deleting is allowed iff state is "new" or "canceled"; otherwise a UserError |
| `HouseLocation.Transition` | addons/house_location/models/house_location.py:240-265 | the shared sell/cancel loop keeps the table size |
| `HouseLocation.FirstBlocked` | addons/house_location/models/house_location.py:247-249 | the first batch position whose record starts in the forbidden state; every record before it is not forbidden |
| `HouseLocation.FirstBlockedSame` | addons/house_location/models/house_location.py:247-249 | where a batch blocks depends only on which rows start in the forbidden state |
| `HouseLocation.TransitionOutcome` | addons/house_location/models/house_location.py:240-265 | sell (cancel) raises a UserError exactly when the batch reaches a canceled (sold) record |
| `HouseLocation.TransitionAt` | addons/house_location/models/house_location.py:240-265 | the records visited before the raise (all of them on success) have the target state with nothing else changed; every other row is unchanged |
| `HouseLocation.TransitionEffect` | addons/house_location/models/house_location.py:240-265 | the outcome and the whole new table of a sell or cancel batch |
| `HouseLocation.TransitionFailsIff` | addons/house_location/models/house_location.py:240-265 | a sell (cancel) batch raises iff some record in it starts canceled (sold) |
| `HouseLocation.TransitionIdempotent` | addons/house_location/models/house_location.py:247-252 | selling sold listings (or canceling canceled ones) again changes nothing |
| `HouseLocation.SoldThenUnlink` | addons/house_location/models/house_location.py:195-197 | after a successful sale none of the sold listings can be deleted |
| `HouseLocation.CanceledThenUnlink` | addons/house_location/models/house_location.py:195-197 | after a successful cancel every canceled listing can be deleted |
| `HouseLocation.PropertyTable.SoldProperty` | addons/house_location/models/house_location.py:240-252 | the button's outcome and new table are those of the sell loop (forbidden "canceled", target "sold") |
| `HouseLocation.PropertyTable.CancelProperty` | addons/house_location/models/house_location.py:254-265 | the button's outcome and new table are those of the cancel loop (forbidden "sold", target "canceled") |
| `HouseLocation.PropertyTable.RunTransition` | addons/house_location/models/house_location.py:247-252 | the imperative loop computes exactly `Transition` of the old table |
| `HouseLocationOffer.ComputeDeadline` | addons/house_location/models/house_location_offer.py:119-126 | the deadline is `validity` days after the creation day, so it is not before creation iff the validity is ≥ 0 |
| `HouseLocationOffer.InverseDeadline` | addons/house_location/models/house_location_offer.py:128-135 | the validity written back from a deadline is the one whose computed deadline is that deadline; it is ≥ 0 iff the deadline is not before creation |
| `HouseLocationOffer.DeadlineRoundTrip` | addons/house_location/models/house_location_offer.py:119-135 | the inverse applied to the compute gives back the validity, and the compute applied to the inverse gives back the deadline |
| `HouseLocationOffer.CheckPrice` | addons/house_location/models/house_location_offer.py:72-90 | `_check_price` passes iff the price is ≥ 0 and at most one stored offer carries it; otherwise a ValidationError |
| `HouseLocationOffer.CheckValidity` | addons/house_location/models/house_location_offer.py:92-103 | `_check_validity` passes iff the validity is ≥ 0; otherwise a ValidationError |
| `HouseLocationOffer.CheckDeadline` | addons/house_location/models/house_location_offer.py:105-116 | `_check_date_deadline` passes iff the deadline is not before the creation day; otherwise a ValidationError |
| `HouseLocationOffer.DeadlineCheckIffValidity` | addons/house_location/models/house_location_offer.py:100-126 | with the computed deadline, the deadline check passes iff the validity is ≥ 0 |
| `HouseLocationOffer.PriceCheckAllIff` | addons/house_location/models/house_location_offer.py:80-90 | the price check passes for every stored offer iff no price is negative and no two offers share a price |
| `HouseLocationOffer.NewOffer` | addons/house_location/models/house_location_offer.py:38-42 | a new offer has no status, is created today, and its deadline is consistent with its validity |
| `HouseLocationOffer.PostInsertChecks` | addons/house_location/models/house_location_offer.py:72-116 | the validators run on the inserted offer pass iff its price is ≥ 0 and carried by at most one row, its validity is ≥ 0 and its deadline is not before creation; otherwise a ValidationError |
| `HouseLocationOffer.InsertedPriceCountedOnce` | addons/house_location/models/house_location_offer.py:61-90 | after the pre-insert count is 0, the new row is the only one with its price |
| `HouseLocationOffer.CreateKeepsPricesDistinct` | addons/house_location/models/house_location_offer.py:61-69 | a create keeps offer prices pairwise distinct |
| `HouseLocationOffer.OfferTable.Create` | addons/house_location/models/house_location_offer.py:46-69 | a create succeeds iff no offer anywhere has the price, the price is ≥ 0 and the validity is ≥ 0. On success it adds exactly one row; otherwise it raises a ValidationError and leaves the table unchanged. Offer prices that were pairwise distinct stay so |
| `HouseLocationOffer.NextBest` | addons/house_location/models/house_location_offer.py:162-163 | the running `best_offer` after one more offer is the larger of the previous value and that offer's price |
| `HouseLocationOffer.AcceptedProperty` | addons/house_location/models/house_location_offer.py:155-164 | an accepted offer's listing enters "offer accepted" with the offer's price as selling price and its partner as buyer. Its best price becomes the offer price iff that price exceeds the running maximum |
| `HouseLocationOffer.RefusedProperty` | addons/house_location/models/house_location_offer.py:172-188 | the listing is rolled back to "offer received" with no selling price and no buyer iff the offer was accepted. Its best price follows the running-maximum rule |
| `HouseLocationOffer.Accept` | addons/house_location/models/house_location_offer.py:139-164 | the accept loop keeps both tables' sizes and leaves every offer's parent listing in the table (the new offer rows are given by `AcceptOfferAt`) |
| `HouseLocationOffer.Refuse` | addons/house_location/models/house_location_offer.py:166-188 | the refuse loop never raises, keeps both tables' sizes and leaves every offer's parent listing in the table (the new offer rows are given by `RefuseOfferAt`) |
| `HouseLocationOffer.AcceptBlocked` | addons/house_location/models/house_location_offer.py:149-152 | reaching an offer whose listing is already in "offer accepted" raises a UserError |
| `HouseLocationOffer.AcceptSameListing` | addons/house_location/models/house_location_offer.py:149-164 | a second offer on the same listing in one batch raises once the first is accepted |
| `HouseLocationOffer.AcceptStepKeeps` | addons/house_location/models/house_location_offer.py:154-164 | one accept step changes only the visited offer and its listing |
| `HouseLocationOffer.AcceptSucceedsIff` | addons/house_location/models/house_location_offer.py:149-164 | a batch succeeds iff its offers belong to pairwise different listings, none of them already in "offer accepted" |
| `HouseLocationOffer.AcceptSucceeds` | addons/house_location/models/house_location_offer.py:149-164 | such a batch does not raise |
| `HouseLocationOffer.AcceptOfferAt` | addons/house_location/models/house_location_offer.py:156 | in a successful batch every visited offer is accepted with nothing else changed; other offers are unchanged |
| `HouseLocationOffer.AcceptPropertyAt` | addons/house_location/models/house_location_offer.py:155-164 | in a successful batch each listing gets the accept effect. Its best price is overwritten iff the offer price exceeds the maximum of the earlier batch prices and 0 |
| `HouseLocationOffer.AcceptUntouched` | addons/house_location/models/house_location_offer.py:149-164 | a listing with no offer in the batch is unchanged, whether or not the batch raises |
| `HouseLocationOffer.AcceptFailsAfterPrefix` | addons/house_location/models/house_location_offer.py:149-164 | a failing batch leaves both tables as the successful run of the offers before the failing one does: earlier changes are kept |
| `HouseLocationOffer.RefuseOfferAt` | addons/house_location/models/house_location_offer.py:182-183 | every visited offer ends "refused" with nothing else changed; other offers are unchanged |
| `HouseLocationOffer.RefuseUntouched` | addons/house_location/models/house_location_offer.py:166-188 | a listing with no offer in the batch is unchanged |
| `HouseLocationOffer.RefusePropertyAt` | addons/house_location/models/house_location_offer.py:172-188 | when the batch's offers are on different listings, each listing gets exactly the refuse effect of its one offer, with the running maximum of the earlier batch prices |
| `HouseLocationOffer.RefuseRollbackAt` | addons/house_location/models/house_location_offer.py:172-176 | for any batch, also several offers of one listing: the listing is rolled back to "offer received" with no selling price and no buyer iff one of its offers in the batch was accepted; otherwise it keeps its state, selling price and buyer |
| `HouseLocationOffer.RefuseBestPriceAt` | addons/house_location/models/house_location_offer.py:170-188 | for any batch: a listing ends with the price of its last batch offer whose price exceeds the running maximum of the earlier batch prices and 0, and keeps its best price when none of its offers does |
| `HouseLocationOffer.RefuseStepKeeps` | addons/house_location/models/house_location_offer.py:172-188 | on a batch over different listings, one refuse step leaves the rest of the batch over different listings, with its offers as they were and none on the head offer's listing |
| `HouseLocationOffer.ListingBestLast` | addons/house_location/models/house_location_offer.py:170-188 | the per-listing best-price fold ends on the price of the last position on the listing that raises the running maximum, and on its start value when none does |
| `HouseLocationOffer.RefuseListingBest` | addons/house_location/models/house_location_offer.py:166-188 | a refuse batch leaves each listing the best price of that fold over the batch's prices and listings |
| `HouseLocationOffer.AcceptThenRefuse` | addons/house_location/models/house_location_offer.py:139-188 | accepting then refusing one offer leaves it "refused" and its listing in "offer received" with no selling price and no buyer |
| `HouseLocationOffer.AcceptCanLowerBestPrice` | addons/house_location/models/house_location_offer.py:161-164 | accepting a 100 offer on a listing whose best price is 500 overwrites it with 100, while the computed best offer stays 500 |
| `HouseLocationOffer.OfferTable.AcceptOffer` | addons/house_location/models/house_location_offer.py:139-164 | the button's outcome and both new tables are those of `Accept` from a running maximum of 0 |
| `HouseLocationOffer.OfferTable.RefuseOffer` | addons/house_location/models/house_location_offer.py:166-188 | the two new tables are those of `Refuse` from a running maximum of 0 |
| `Common.OccurrencesZero` | addons/house_location/models/house_location_tag.py:32-35 | the count query returns 0 iff no row has the value |
| `Common.OccurrencesAppend` | addons/house_location/models/house_location_offer.py:61-62 | inserting a row adds one to the count of its own value only |
| `Common.OccurrencesTwice` | addons/house_location/models/house_location_offer.py:88 | a value stored at two positions is counted at least twice |
| `Common.DistinctOnce` | addons/house_location/models/house_location_offer.py:81-90 | in a duplicate-free column every stored value is counted once |
| `Common.DistinctIffCountedOnce` | addons/house_location/models/house_location_offer.py:81-90 | a column is duplicate-free iff every stored value is counted once |
| `Common.InsertKeepsDistinct` | addons/house_location/models/house_location_type.py:32-40 | an insert after a zero count keeps the column duplicate-free |
| `HouseLocationTag.TagTable.Create` | addons/house_location/models/house_location_tag.py:19-38 | raises a ValidationError, leaving the table unchanged, iff a tag already has exactly this name. Otherwise it adds exactly one tag with the name. Tag names stay pairwise distinct |
| `HouseLocationType.TypeTable.Create` | addons/house_location/models/house_location_type.py:19-40 | raises a ValidationError, leaving the table unchanged, iff a type already has exactly this name. Otherwise it adds exactly one type with the name and changes nothing else. Type names stay pairwise distinct |

## Left out

- The host framework itself is not modelled: persistence, record search, and
  when `@api.constrains`, `@api.depends` and `@api.onchange` fire.
  Transactions and rollback are not modelled either.
- Clock and session defaults are parameters:
  - the availability date (today + 90 days) is a field of the create values.
    The source computes that default once, when the module is loaded;
  - the offer's `create_date` is the `today` argument;
  - the salesperson is a field of the create values.
- What `unlink` does after its guard is not modelled. The source calls
  `create()` there instead of deleting. Only the guard's outcome
  (`UnlinkGuard`) is modelled.
- Field defaults for values a caller omits are not modelled (bedrooms 2,
  living area 0, active true). The create values carry every writable field.
- Giving `date_deadline` directly in an offer's create values is not
  modelled. Creates take `validity`; editing the deadline is modelled by
  `InverseDeadline`.
- `HouseLocationOffer.OfferTable.Create`: requires the parent listing to
  exist. The source's `property_id` is optional, so an offer without a
  parent is legal there, and accepting or refusing it only changes its
  status. Offers without a parent listing are left out of the model by
  choice.
- `HouseLocation.UnlinkGuard`: models deleting one listing. On an empty
  record set the source reads `state` as False and raises the UserError; on
  a set of two or more records the host raises its singleton error before
  any state is tested. Neither case is modelled.
- Prices, areas and the running best price are integers. The source's floats
  are only compared and copied, so no arithmetic is lost.
- Error message texts are not modelled. Partners and users are opaque ids.
- `run.py`, `scripts/odoo-config.py` and `res_users.py` (process launching,
  configuration file editing, one relation field) are not part of this model.
