/** The statistics the admin dashboard (client/src/pages/Home.jsx) derives
    from the house and rental lists it fetches. */
module Dashboard {
  import opened Common

  /** The field of a house the dashboard reads. */
  datatype House = House(availability: string)

  /** The fields of a rental the dashboard reads. `tenantId` is the
      populated tenant's `_id`, or `None` where the tenant is missing (so
      `r.tenantId?._id` is `undefined`); `amount` is `None` where it is
      missing. */
  datatype RentalRow = RentalRow(tenantId: Option<ObjectId>, amount: Option<int>, rentalStatus: string)

  /** The `stats` state: `rentals` holds the number of active rentals. */
  datatype Stats = Stats(totalHouses: nat, availableHouses: nat, tenants: nat, rentals: nat, income: int)

  /** `houses.filter((h) => h.availability === "available").length`. */
  function AvailableHouses(houses: seq<House>): (n: nat)
    ensures n <= |houses|
    ensures n == 0 <==> forall i :: 0 <= i < |houses| ==> houses[i].availability != "available"
  {
    Count(houses, (h: House) => h.availability == "available")
  }

  /** `rentals.filter((r) => r.rentalStatus === "active").length`. */
  function ActiveRentals(rentals: seq<RentalRow>): (n: nat)
    ensures n <= |rentals|
    ensures n == |rentals| <==> forall i :: 0 <= i < |rentals| ==> rentals[i].rentalStatus == "active"
  {
    Count(rentals, (r: RentalRow) => r.rentalStatus == "active")
  }

  /** `new Set(rentals.map((r) => r.tenantId?._id))`: a missing tenant adds
      the one value `undefined`. */
  function TenantKeys(rentals: seq<RentalRow>): (keys: set<Option<ObjectId>>)
    ensures forall i :: 0 <= i < |rentals| ==> rentals[i].tenantId in keys
    ensures forall k :: k in keys ==> exists i :: 0 <= i < |rentals| && rentals[i].tenantId == k
  {
    set r | r in rentals :: r.tenantId
  }

  /** There are no more distinct tenants than rentals, and at least one
      when there is a rental. */
  lemma {:induction false} DistinctTenantsBound(rentals: seq<RentalRow>)
    ensures |TenantKeys(rentals)| <= |rentals|
    ensures |rentals| > 0 ==> |TenantKeys(rentals)| >= 1
  {
    if rentals != [] {
      var init := rentals[..|rentals| - 1];
      var last := rentals[|rentals| - 1];
      DistinctTenantsBound(init);
      assert rentals == init + [last];
      assert TenantKeys(rentals) == TenantKeys(init) + {last.tenantId};
    }
  }

  /** `r.amount || 0`. */
  function IncomeOf(r: RentalRow): (v: int)
    ensures r.amount.Some? ==> v == r.amount.value
    ensures r.amount.None? ==> v == 0
  {
    match r.amount
    case Some(a) => a
    case None => 0
  }

  /** `rentals.reduce((sum, r) => sum + (r.amount || 0), 0)`, summed from the first. */
  function TotalIncome(rentals: seq<RentalRow>): (n: int)
    ensures (forall i :: 0 <= i < |rentals| ==> IncomeOf(rentals[i]) >= 0) ==> n >= 0
  {
    if rentals == [] then 0
    else TotalIncome(rentals[..|rentals| - 1]) + IncomeOf(rentals[|rentals| - 1])
  }

  /** The total over two lists joined is the sum of their totals. */
  lemma {:induction false} TotalIncomeSplit(a: seq<RentalRow>, b: seq<RentalRow>)
    ensures TotalIncome(a + b) == TotalIncome(a) + TotalIncome(b)
  {
    if b == [] {
      assert a + b == a;
    } else {
      var b' := b[..|b| - 1];
      assert (a + b)[..|a + b| - 1] == a + b';
      TotalIncomeSplit(a, b');
    }
  }

  /** `rentals.slice(-5).reverse()` on a copy: the last five rentals (or all
      of them, when there are fewer), newest first. */
  function RecentRentals(rentals: seq<RentalRow>): (r: seq<RentalRow>)
    ensures |r| == Min(5, |rentals|)
    ensures forall i :: 0 <= i < |r| ==> r[i] == rentals[|rentals| - 1 - i]
  {
    var from := if |rentals| > 5 then |rentals| - 5 else 0;
    Reverse(rentals[from..])
  }

  /** The statistics `fetchData` puts in `stats`. */
  function DashboardStats(houses: seq<House>, rentals: seq<RentalRow>): (s: Stats)
    ensures s.totalHouses == |houses|
    ensures s.availableHouses == |Filter(houses, (h: House) => h.availability == "available")|
    ensures s.availableHouses <= s.totalHouses
    ensures s.tenants == |TenantKeys(rentals)|
    ensures s.tenants <= |rentals| && (|rentals| > 0 ==> s.tenants >= 1)
    ensures s.rentals == |Filter(rentals, (r: RentalRow) => r.rentalStatus == "active")|
    ensures s.rentals <= |rentals|
    ensures s.income == TotalIncome(rentals)
  {
    DistinctTenantsBound(rentals);
    CountFilter(houses, (h: House) => h.availability == "available");
    CountFilter(rentals, (r: RentalRow) => r.rentalStatus == "active");
    Stats(|houses|, AvailableHouses(houses), |TenantKeys(rentals)|, ActiveRentals(rentals), TotalIncome(rentals))
  }
}
