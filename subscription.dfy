/**
 * The subscription screen (app/subscription.tsx): a fixed catalogue of six plans, three per
 * vehicle type, the plan list filtered by the chosen vehicle type, the plan looked up by the
 * selected id, and the screen's state fields with the handlers that change them.
 */
module Subscription {
  import opened Wrappers
  import opened Domain

  datatype Period = Day | Week | Month

  /** An entry of `subscriptionPlans`; a missing `popular` is false. */
  datatype Plan = Plan(
    id: string,
    vehicleType: VehicleType,
    name: string,
    price: nat,
    period: Period,
    distance: nat,
    unlimited: bool,
    features: seq<string>,
    popular: bool)

  const EcoBikeDaily := Plan("1", Bike, "Eco Bike Daily", 49, Day, 10, false,
    ["10km included", "Unlimited rides", "Available in select cities", "No surge pricing"], false)
  const EcoBikeWeekly := Plan("2", Bike, "Eco Bike Weekly", 249, Week, 50, false,
    ["50km included", "Unlimited rides", "Available in all cities", "No surge pricing",
     "Priority booking"], false)
  const EcoBikeMonthly := Plan("3", Bike, "Eco Bike Monthly", 499, Month, 100, true,
    ["100km included", "Unlimited rides", "Available in all cities", "No surge pricing",
     "Priority booking", "Dedicated customer support"], true)
  const EcoCarDaily := Plan("4", Car, "Eco Car Daily", 149, Day, 20, false,
    ["20km included", "Unlimited rides", "Available in select cities", "No surge pricing"], false)
  const EcoCarWeekly := Plan("5", Car, "Eco Car Weekly", 749, Week, 70, false,
    ["70km included", "Unlimited rides", "Available in all cities", "No surge pricing",
     "Priority booking"], false)
  const EcoCarMonthly := Plan("6", Car, "Eco Car Monthly", 1499, Month, 100, true,
    ["100km included", "Unlimited rides", "Available in all cities", "No surge pricing",
     "Priority booking", "Dedicated customer support"], true)

  /** `subscriptionPlans`, in order. */
  const Catalogue: seq<Plan> := [EcoBikeDaily, EcoBikeWeekly, EcoBikeMonthly, EcoCarDaily, EcoCarWeekly, EcoCarMonthly]

  /** The price the subscribe button shows when no plan is selected (or its price is 0). */
  const FallbackPrice: nat := 499

  /** No two plans share an id. */
  predicate UniqueIds(plans: seq<Plan>)
  {
    forall i, j :: 0 <= i < j < |plans| ==> plans[i].id != plans[j].id
  }

  /** `xs` is `ys` with some elements left out and the rest in their original order. */
  predicate SubsequenceOf(xs: seq<Plan>, ys: seq<Plan>)
    decreases |ys|
  {
    if xs == [] then true
    else if ys == [] then false
    else if xs[0] == ys[0] then SubsequenceOf(xs[1..], ys[1..])
    else SubsequenceOf(xs, ys[1..])
  }

  /** `plans.filter(plan => plan.type === vehicleType)`. */
  function PlansOfType(plans: seq<Plan>, vehicleType: VehicleType): (r: seq<Plan>)
    ensures forall i :: 0 <= i < |r| ==> r[i].vehicleType == vehicleType
    ensures SubsequenceOf(r, plans)
  {
    if plans == [] then []
    else if plans[0].vehicleType == vehicleType then [plans[0]] + PlansOfType(plans[1..], vehicleType)
    else PlansOfType(plans[1..], vehicleType)
  }

  /** `plans.find(matches)`: the first plan that matches, if any. */
  function Find(plans: seq<Plan>, matches: Plan -> bool): (r: Option<Plan>)
    ensures r.Some? ==> r.value in plans && matches(r.value)
    ensures r.Some? ==> exists k :: 0 <= k < |plans| && plans[k] == r.value && forall j :: 0 <= j < k ==> !matches(plans[j])
    ensures r.None? <==> forall i :: 0 <= i < |plans| ==> !matches(plans[i])
  {
    if plans == [] then None
    else if matches(plans[0]) then Some(plans[0])
    else
      var r := Find(plans[1..], matches);
      if r.Some? then
        var k :| 0 <= k < |plans[1..]| && plans[1..][k] == r.value && forall j :: 0 <= j < k ==> !matches(plans[1..][j]);
        assert plans[k + 1] == r.value;
        r
      else r
  }

  /** `plans.find(plan => plan.type === vehicleType)`. */
  function FirstOfType(plans: seq<Plan>, vehicleType: VehicleType): (r: Option<Plan>)
    ensures r.Some? ==> r.value in plans && r.value.vehicleType == vehicleType
    ensures r.None? <==> forall i :: 0 <= i < |plans| ==> plans[i].vehicleType != vehicleType
  {
    Find(plans, (p: Plan) => p.vehicleType == vehicleType)
  }

  /** `plans.find(plan => plan.id === id)`. */
  function PlanWithId(plans: seq<Plan>, id: string): (r: Option<Plan>)
    ensures r.Some? ==> r.value in plans && r.value.id == id
    ensures r.None? <==> forall i :: 0 <= i < |plans| ==> plans[i].id != id
  {
    Find(plans, (p: Plan) => p.id == id)
  }

  /** `selectedPlan?.price || 499`: a missing plan and a price of 0 both show the fallback. */
  function DisplayedPrice(selected: Option<Plan>): (price: nat)
    ensures selected.Some? && selected.value.price != 0 ==> price == selected.value.price
    ensures selected.None? ==> price == FallbackPrice
    ensures selected.Some? && selected.value.price == 0 ==> price == FallbackPrice
  {
    if selected.Some? && selected.value.price != 0 then selected.value.price else FallbackPrice
  }

  /** The first plan of a type found by `find` is the head of the list `filter` gives for it. */
  lemma {:induction false} FirstOfTypeIsHeadOfFilter(plans: seq<Plan>, vehicleType: VehicleType)
    ensures FirstOfType(plans, vehicleType)
              == if PlansOfType(plans, vehicleType) == [] then None else Some(PlansOfType(plans, vehicleType)[0])
  {
    if plans != [] && plans[0].vehicleType != vehicleType {
      FirstOfTypeIsHeadOfFilter(plans[1..], vehicleType);
    }
  }

  /** When ids are unique, looking up the id of a plan in the list finds that very plan. */
  lemma PlanWithIdFindsUnique(plans: seq<Plan>, p: Plan)
    requires UniqueIds(plans)
    requires p in plans
    ensures PlanWithId(plans, p.id) == Some(p)
  {
  }

  /** The catalogue's ids are unique. */
  lemma CatalogueIdsUnique()
    ensures UniqueIds(Catalogue)
  {
  }

  /** The filter keeps a plan exactly when it is in the list and of the type. */
  lemma {:induction false} PlansOfTypeMembers(plans: seq<Plan>, vehicleType: VehicleType, p: Plan)
    ensures p in PlansOfType(plans, vehicleType) <==> p in plans && p.vehicleType == vehicleType
  {
    if plans != [] {
      PlansOfTypeMembers(plans[1..], vehicleType, p);
      assert p in plans <==> p == plans[0] || p in plans[1..];
    }
  }

  /** Filtering distributes over concatenation. */
  lemma {:induction false} PlansOfTypeAppend(a: seq<Plan>, b: seq<Plan>, vehicleType: VehicleType)
    ensures PlansOfType(a + b, vehicleType) == PlansOfType(a, vehicleType) + PlansOfType(b, vehicleType)
  {
    if a == [] {
      assert a + b == b;
    } else {
      assert (a + b)[0] == a[0] && (a + b)[1..] == a[1..] + b;
      PlansOfTypeAppend(a[1..], b, vehicleType);
    }
  }

  /** Filtering keeps a list whose plans are all of the type, and empties one with none of it. */
  lemma {:induction false} PlansOfTypeUniform(plans: seq<Plan>, vehicleType: VehicleType, kept: bool)
    requires forall i :: 0 <= i < |plans| ==> (plans[i].vehicleType == vehicleType) == kept
    ensures PlansOfType(plans, vehicleType) == if kept then plans else []
  {
    if plans != [] {
      PlansOfTypeUniform(plans[1..], vehicleType, kept);
      if kept {
        assert plans == [plans[0]] + plans[1..];
      }
    }
  }

  const BikePlans := [EcoBikeDaily, EcoBikeWeekly, EcoBikeMonthly]
  const CarPlans := [EcoCarDaily, EcoCarWeekly, EcoCarMonthly]

  /** Each vehicle type has three plans; bike plans are 1-3 and car plans 4-6, in that order. */
  lemma CataloguePlansOfType()
    ensures Catalogue == BikePlans + CarPlans
    ensures PlansOfType(Catalogue, Bike) == BikePlans
    ensures PlansOfType(Catalogue, Car) == CarPlans
  {
    assert Catalogue == BikePlans + CarPlans;
    PlansOfTypeAppend(BikePlans, CarPlans, Bike);
    PlansOfTypeAppend(BikePlans, CarPlans, Car);
    PlansOfTypeUniform(BikePlans, Bike, true);
    PlansOfTypeUniform(BikePlans, Car, false);
    PlansOfTypeUniform(CarPlans, Bike, false);
    PlansOfTypeUniform(CarPlans, Car, true);
  }

  /** The first plan of each type: '1' for bike, '4' for car. */
  lemma CatalogueFirstOfType()
    ensures FirstOfType(Catalogue, Bike) == Some(EcoBikeDaily) && EcoBikeDaily.id == "1"
    ensures FirstOfType(Catalogue, Car) == Some(EcoCarDaily) && EcoCarDaily.id == "4"
  {
    FirstOfTypeIsHeadOfFilter(Catalogue, Bike);
    FirstOfTypeIsHeadOfFilter(Catalogue, Car);
    CataloguePlansOfType();
  }

  /** The first plan of a type exists, its id finds it again, and the filter for that type lists it. */
  lemma FirstPlanOfTypeSelectable(vehicleType: VehicleType)
    ensures FirstOfType(Catalogue, vehicleType).Some?
    ensures FirstOfType(Catalogue, vehicleType).value.id == if vehicleType == Bike then "1" else "4"
    ensures PlanWithId(Catalogue, FirstOfType(Catalogue, vehicleType).value.id) == FirstOfType(Catalogue, vehicleType)
    ensures FirstOfType(Catalogue, vehicleType).value in PlansOfType(Catalogue, vehicleType)
  {
    CatalogueFirstOfType();
    CatalogueIdsUnique();
    CataloguePlansOfType();
    var first := if vehicleType == Bike then EcoBikeDaily else EcoCarDaily;
    PlanWithIdFindsUnique(Catalogue, first);
  }

  /** Every catalogue plan has a non-zero price, so the fallback shows only when no plan matches. */
  lemma CataloguePricesNonZero()
    ensures forall i :: 0 <= i < |Catalogue| ==> Catalogue[i].price > 0
  {
  }

  /** The other vehicle type: bike becomes car, car becomes bike. */
  function Toggled(vehicleType: VehicleType): (other: VehicleType)
    ensures other != vehicleType
  {
    if vehicleType == Bike then Car else Bike
  }

  /** `SubscriptionScreen`'s state: `selectedPlanId`, `vehicleType` and `autoRenew`. */
  class SubscriptionScreen {
    var selectedPlanId: string
    var vehicleType: VehicleType
    var autoRenew: bool

    /** The selected id always names a catalogue plan. */
    predicate Valid()
      reads this
    {
      PlanWithId(Catalogue, selectedPlanId).Some?
    }

    /** `filteredPlans`: the catalogue plans of the chosen vehicle type, in catalogue order. */
    function FilteredPlans(): (r: seq<Plan>)
      reads this
      ensures forall p :: p in r <==> p in Catalogue && p.vehicleType == vehicleType
      ensures SubsequenceOf(r, Catalogue)
      ensures |r| == 3
    {
      CataloguePlansOfType();
      PlansOfType(Catalogue, vehicleType)
    }

    /** `selectedPlan`: the unique catalogue plan with the selected id, if there is one. */
    function SelectedPlan(): (r: Option<Plan>)
      reads this
      ensures r.Some? ==> r.value in Catalogue && r.value.id == selectedPlanId
      ensures r.Some? ==> forall p :: p in Catalogue && p.id == selectedPlanId ==> p == r.value
      ensures r.None? <==> forall i :: 0 <= i < |Catalogue| ==> Catalogue[i].id != selectedPlanId
    {
      var r := PlanWithId(Catalogue, selectedPlanId);
      CatalogueIdsUnique();
      if r.Some? then
        assert forall p :: p in Catalogue && p.id == selectedPlanId ==> p == r.value by {
          forall p | p in Catalogue && p.id == selectedPlanId ensures p == r.value {
            PlanWithIdFindsUnique(Catalogue, p);
          }
        }
        r
      else r
    }

    /** The price on the subscribe button. */
    function SubscribePrice(): (price: nat)
      reads this
      ensures Valid() ==> price == SelectedPlan().value.price
      ensures !Valid() ==> price == FallbackPrice
    {
      CataloguePricesNonZero();
      DisplayedPrice(SelectedPlan())
    }

    /** The initial state: plan '3' (Eco Bike Monthly) on the bike plans, auto-renew on. */
    constructor ()
      ensures selectedPlanId == "3" && vehicleType == Bike && autoRenew
      ensures Valid() && SelectedPlan() == Some(EcoBikeMonthly)
      ensures SelectedPlan().value in FilteredPlans()
    {
      selectedPlanId := "3";
      vehicleType := Bike;
      autoRenew := true;
      CatalogueIdsUnique();
      PlanWithIdFindsUnique(Catalogue, EcoBikeMonthly);
    }

    /** `toggleVehicleType`: switch to the other type and select its first plan. */
    method ToggleVehicleType()
      modifies this
      ensures vehicleType == Toggled(old(vehicleType))
      ensures selectedPlanId == (if vehicleType == Bike then "1" else "4")
      ensures SelectedPlan() == FirstOfType(Catalogue, vehicleType)
      ensures Valid() && SelectedPlan().value in FilteredPlans()
      ensures autoRenew == old(autoRenew)
    {
      var newType := if vehicleType == Bike then Car else Bike;
      vehicleType := newType;
      var firstPlanOfType := FirstOfType(Catalogue, newType);
      if firstPlanOfType.Some? {
        selectedPlanId := firstPlanOfType.value.id;
      }
      FirstPlanOfTypeSelectable(newType);
    }

    /** The "Bike Plans" button: only the vehicle type changes. */
    method ChooseBikePlans()
      modifies this
      ensures vehicleType == Bike
      ensures selectedPlanId == old(selectedPlanId) && autoRenew == old(autoRenew)
      ensures Valid() == old(Valid())
    {
      vehicleType := Bike;
    }

    /** The "Car Plans" button: only the vehicle type changes. */
    method ChooseCarPlans()
      modifies this
      ensures vehicleType == Car
      ensures selectedPlanId == old(selectedPlanId) && autoRenew == old(autoRenew)
      ensures Valid() == old(Valid())
    {
      vehicleType := Car;
    }

    /** Pressing a plan card: the cards are the filtered plans. */
    method ChoosePlan(plan: Plan)
      requires plan in FilteredPlans()
      modifies this
      ensures selectedPlanId == plan.id && SelectedPlan() == Some(plan)
      ensures Valid() && SelectedPlan().value in FilteredPlans()
      ensures vehicleType == old(vehicleType) && autoRenew == old(autoRenew)
    {
      selectedPlanId := plan.id;
      CatalogueIdsUnique();
      PlanWithIdFindsUnique(Catalogue, plan);
    }

    /** The auto-renew switch. */
    method SetAutoRenew(value: bool)
      modifies this
      ensures autoRenew == value
      ensures selectedPlanId == old(selectedPlanId) && vehicleType == old(vehicleType)
      ensures Valid() == old(Valid())
    {
      autoRenew := value;
    }
  }

  /**
   * The vehicle-type buttons do not reselect: from the initial state, "Car Plans" leaves plan '3',
   * a bike plan, selected while only car plans are listed, and the button still shows its price.
   */
  method CarButtonKeepsBikePlan() returns (screen: SubscriptionScreen)
    ensures screen.vehicleType == Car && screen.SelectedPlan() == Some(EcoBikeMonthly)
    ensures screen.SelectedPlan().value !in screen.FilteredPlans()
    ensures screen.SubscribePrice() == EcoBikeMonthly.price
  {
    screen := new SubscriptionScreen();
    screen.ChooseCarPlans();
  }
}
