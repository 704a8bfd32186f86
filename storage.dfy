/**
 * The inventory store: five tables of people, vehicles, vehicle expenses,
 * store expenses and vehicle images, each a map from a serial id to its row,
 * with the constraints the database enforces (unique plate, foreign keys,
 * images deleted with their vehicle) and the reads and writes the server
 * performs on them.
 *
 * Rows are listed in ascending id order where the query leaves the order to
 * the database.
 */
module Storage {
  import opened Wrappers
  import opened Time
  import opened Tables
  import opened Schema
  import opened Text
  import opened Stats

  /** An error the database raises instead of writing. */
  datatype StoreError =
    | UniqueViolation(column: string)
    | ForeignKeyViolation(column: string)
    | NoValuesToSet

  /** A nullable reference column: NULL refers to nothing, anything else must name a row. */
  predicate RefOk<T>(ref: Option<int>, m: map<int, T>) {
    ref.None? || ref.value in m
  }

  /** JavaScript truthiness of an optional number: present and not zero. */
  predicate TruthyId(n: Option<int>) {
    n.Some? && n.value != 0
  }

  /** JavaScript truthiness of an optional string: present and not empty. */
  predicate TruthyText(s: Option<string>) {
    s.Some? && s.value != ""
  }

  /** `REPLACE(REPLACE(REPLACE(document, '.', ''), '-', ''), '/', '')`. */
  function StripDocument(d: string): (r: string)
    ensures forall x :: x in r <==> x in d && x != '.' && x != '-' && x != '/'
  {
    RemoveChar(RemoveChar(RemoveChar(d, '.'), '-'), '/')
  }

  /**
   * Stripping works character by character: a concatenation is stripped part
   * by part, and one character is dropped exactly when it is `.`, `-` or `/`.
   */
  lemma StripDocumentConcat(a: string, b: string, x: char)
    ensures StripDocument(a + b) == StripDocument(a) + StripDocument(b)
    ensures StripDocument([x]) == if x == '.' || x == '-' || x == '/' then [] else [x]
  {
    RemoveCharConcat(a, b, '.', x);
    RemoveCharConcat(RemoveChar(a, '.'), RemoveChar(b, '.'), '-', x);
    RemoveCharConcat(RemoveChar(RemoveChar(a, '.'), '-'), RemoveChar(RemoveChar(b, '.'), '-'), '/', x);
  }

  /** A person is found by a document query when the stored document, stripped of `.`, `-` and `/`, equals the query's digits. */
  predicate DocumentMatches(p: Person, query: string) {
    p.document.Some? && StripDocument(p.document.value) == Digits(query)
  }

  /** The optional filters of the vehicle listing, as they arrive from the query string. */
  datatype VehicleFilters = VehicleFilters(status: Option<string>, ownerId: Option<int>, search: Option<string>)

  /** A vehicle matches the listing filters when it satisfies every filter that is set. */
  predicate MatchesFilters(v: Vehicle, f: VehicleFilters) {
    (TruthyText(f.status) ==> StatusLabel(v.status) == f.status.value)
    && (TruthyId(f.ownerId) ==> v.ownerId == f.ownerId)
    && (TruthyText(f.search) ==> MentionsTerm(v, f.search.value))
  }

  /** `ilike '%term%'` on plate, model, brand or colour. */
  predicate MentionsTerm(v: Vehicle, term: string) {
    ContainsIgnoringCase(v.plate, term) || ContainsIgnoringCase(v.model, term)
    || ContainsIgnoringCase(v.brand, term) || ContainsIgnoringCase(v.color, term)
  }

  /** One entry of the `conditions` list the listing builds. */
  datatype Condition = StatusIs(status: string) | OwnerIs(ownerId: int) | Mentions(term: string)

  predicate Holds(c: Condition, v: Vehicle) {
    match c
    case StatusIs(s) => StatusLabel(v.status) == s
    case OwnerIs(o) => v.ownerId == Some(o)
    case Mentions(t) => MentionsTerm(v, t)
  }

  /** `and(...conditions)`, with no condition meaning no `where` at all. */
  predicate AllHold(cs: seq<Condition>, v: Vehicle) {
    forall i :: 0 <= i < |cs| ==> Holds(cs[i], v)
  }

  function ImageCreatedAt(i: VehicleImage): Instant { i.createdAt }
  function ListedEntryDate(x: VehicleWithOwner): Instant { x.vehicle.entryDate }

  class DatabaseStorage {
    var people: map<int, Person>
    var vehicles: map<int, Vehicle>
    var expenses: map<int, Expense>
    var storeExpenses: map<int, StoreExpense>
    var images: map<int, VehicleImage>
    var nextPersonId: int
    var nextVehicleId: int
    var nextExpenseId: int
    var nextStoreExpenseId: int
    var nextImageId: int

    /** Ids are serial and keyed; plates are unique; every reference names a row. */
    ghost predicate Valid()
      reads this
    {
      1 <= nextPersonId && 1 <= nextVehicleId && 1 <= nextExpenseId && 1 <= nextStoreExpenseId && 1 <= nextImageId
      && KeysIn(people, nextPersonId) && KeysIn(vehicles, nextVehicleId) && KeysIn(expenses, nextExpenseId)
      && KeysIn(storeExpenses, nextStoreExpenseId) && KeysIn(images, nextImageId)
      && (forall k :: k in people ==> people[k].id == k)
      && (forall k :: k in vehicles ==> vehicles[k].id == k)
      && (forall k :: k in expenses ==> expenses[k].id == k)
      && (forall k :: k in storeExpenses ==> storeExpenses[k].id == k)
      && (forall k :: k in images ==> images[k].id == k)
      && (forall a, b :: a in vehicles && b in vehicles && vehicles[a].plate == vehicles[b].plate ==> a == b)
      && (forall k :: k in vehicles ==> RefOk(vehicles[k].ownerId, people) && RefOk(vehicles[k].buyerId, people))
      && (forall k :: k in expenses ==> expenses[k].vehicleId in vehicles)
      && (forall k :: k in images ==> images[k].vehicleId in vehicles)
    }

    constructor ()
      ensures Valid()
      ensures people == map[] && vehicles == map[] && expenses == map[] && storeExpenses == map[] && images == map[]
    {
      people, vehicles, expenses, storeExpenses, images := map[], map[], map[], map[], map[];
      nextPersonId, nextVehicleId, nextExpenseId, nextStoreExpenseId, nextImageId := 1, 1, 1, 1, 1;
    }

    // ---- which tables a write touches ----

    twostate predicate OthersThanPeopleUnchanged()
      reads this
    {
      vehicles == old(vehicles) && expenses == old(expenses) && storeExpenses == old(storeExpenses)
      && images == old(images) && nextVehicleId == old(nextVehicleId) && nextExpenseId == old(nextExpenseId)
      && nextStoreExpenseId == old(nextStoreExpenseId) && nextImageId == old(nextImageId)
    }

    twostate predicate OthersThanVehiclesUnchanged()
      reads this
    {
      people == old(people) && expenses == old(expenses) && storeExpenses == old(storeExpenses)
      && images == old(images) && nextPersonId == old(nextPersonId) && nextExpenseId == old(nextExpenseId)
      && nextStoreExpenseId == old(nextStoreExpenseId) && nextImageId == old(nextImageId)
    }

    twostate predicate OthersThanExpensesUnchanged()
      reads this
    {
      people == old(people) && vehicles == old(vehicles) && storeExpenses == old(storeExpenses)
      && images == old(images) && nextPersonId == old(nextPersonId) && nextVehicleId == old(nextVehicleId)
      && nextStoreExpenseId == old(nextStoreExpenseId) && nextImageId == old(nextImageId)
    }

    twostate predicate OthersThanStoreExpensesUnchanged()
      reads this
    {
      people == old(people) && vehicles == old(vehicles) && expenses == old(expenses)
      && images == old(images) && nextPersonId == old(nextPersonId) && nextVehicleId == old(nextVehicleId)
      && nextExpenseId == old(nextExpenseId) && nextImageId == old(nextImageId)
    }

    twostate predicate OthersThanImagesUnchanged()
      reads this
    {
      people == old(people) && vehicles == old(vehicles) && expenses == old(expenses)
      && storeExpenses == old(storeExpenses) && nextPersonId == old(nextPersonId)
      && nextVehicleId == old(nextVehicleId) && nextExpenseId == old(nextExpenseId)
      && nextStoreExpenseId == old(nextStoreExpenseId)
    }

    // ---- listings ----

    function PersonRows(): seq<Person> reads this { Rows(people, 1, nextPersonId) }
    function VehicleRows(): seq<Vehicle> reads this { Rows(vehicles, 1, nextVehicleId) }
    function ExpenseRows(): seq<Expense> reads this { Rows(expenses, 1, nextExpenseId) }
    function StoreExpenseRows(): seq<StoreExpense> reads this { Rows(storeExpenses, 1, nextStoreExpenseId) }
    function ImageRows(): seq<VehicleImage> reads this { Rows(images, 1, nextImageId) }

    /** The owner row the listing's left join attaches. */
    function OwnerOf(v: Vehicle): (r: Option<Person>)
      reads this
      ensures r.Some? <==> v.ownerId.Some? && v.ownerId.value in people
      ensures r.Some? ==> r.value == people[v.ownerId.value]
    {
      if v.ownerId.Some? && v.ownerId.value in people then Some(people[v.ownerId.value]) else None
    }

    // ---- people ----

    /** `getPeople(type)`: every person, or those of the given type when a type is given. */
    function GetPeople(personType: Option<string>): (r: seq<Person>)
      reads this
      requires Valid()
      ensures forall p :: p in r <==> Stored(people, p) && (TruthyText(personType) ==> PersonTypeLabel(p.personType) == personType.value)
      ensures !TruthyText(personType) ==> |r| == |people|
    {
      RowsValues(people, nextPersonId);
      RowsLength(people, 1, nextPersonId);
      var all := PersonRows();
      if TruthyText(personType) then
        Filter(all, (p: Person) => PersonTypeLabel(p.personType) == personType.value)
      else all
    }

    function GetPerson(id: int): (r: Option<Person>)
      reads this
      requires Valid()
      ensures r.Some? <==> id in people
      ensures r.Some? ==> r.value == people[id] && r.value.id == id
    {
      if id in people then Some(people[id]) else None
    }

    /**
     * `getPersonByDocument`: the first person whose stored document, without
     * `.`, `-` and `/`, equals the digits of the query; none if no one's does.
     */
    method GetPersonByDocument(query: string) returns (r: Option<Person>)
      requires Valid()
      ensures r.Some? ==> r.value.id in people && people[r.value.id] == r.value && DocumentMatches(r.value, query)
      ensures r.Some? ==> forall k :: k in people && k < r.value.id ==> !DocumentMatches(people[k], query)
      ensures r.None? <==> forall p :: Stored(people, p) ==> !DocumentMatches(p, query)
    {
      var cleaned := Digits(query);
      var id := 1;
      while id < nextPersonId
        invariant 1 <= id <= nextPersonId
        invariant forall k :: k in people && k < id ==> !DocumentMatches(people[k], query)
      {
        if id in people && people[id].document.Some? && StripDocument(people[id].document.value) == cleaned {
          assert Stored(people, people[id]);
          return Some(people[id]);
        }
        id := id + 1;
      }
      forall p | Stored(people, p) ensures !DocumentMatches(p, query) {
        var k :| k in people && people[k] == p;
      }
      return None;
    }

    method CreatePerson(ins: InsertPerson, now: Instant) returns (p: Person)
      requires Valid()
      modifies this
      ensures Valid() && OthersThanPeopleUnchanged()
      ensures p == NewPerson(old(nextPersonId), ins, now)
      ensures people == old(people)[p.id := p] && nextPersonId == old(nextPersonId) + 1
    {
      p := NewPerson(nextPersonId, ins, now);
      people := people[nextPersonId := p];
      nextPersonId := nextPersonId + 1;
    }

    /**
     * `updatePerson`: an update that sets nothing is refused; an unknown id
     * updates no row and returns none.
     */
    method UpdatePerson(id: int, patch: PersonPatch) returns (r: Result<Option<Person>, StoreError>)
      requires Valid()
      modifies this
      ensures Valid() && OthersThanPeopleUnchanged() && nextPersonId == old(nextPersonId)
      ensures PersonPatchEmpty(patch) ==> r == Err(NoValuesToSet) && people == old(people)
      ensures !PersonPatchEmpty(patch) && id !in old(people) ==> r == Ok(None) && people == old(people)
      ensures !PersonPatchEmpty(patch) && id in old(people) ==>
        r == Ok(Some(ApplyPersonPatch(old(people)[id], patch))) && people == old(people)[id := r.value.value]
    {
      if PersonPatchEmpty(patch) {
        return Err(NoValuesToSet);
      }
      if id !in people {
        return Ok(None);
      }
      var updated := ApplyPersonPatch(people[id], patch);
      people := people[id := updated];
      return Ok(Some(updated));
    }

    /** Some vehicle names the person as its owner. */
    predicate OwnerReferenced(id: int)
      reads this
    {
      exists k :: k in vehicles && vehicles[k].ownerId == Some(id)
    }

    /** Some vehicle names the person as its buyer. */
    predicate BuyerReferenced(id: int)
      reads this
    {
      exists k :: k in vehicles && vehicles[k].buyerId == Some(id)
    }

    /** A person still named as a vehicle's owner or buyer cannot be deleted. */
    predicate PersonReferenced(id: int)
      reads this
    {
      OwnerReferenced(id) || BuyerReferenced(id)
    }

    method DeletePerson(id: int) returns (r: Result<(), StoreError>)
      requires Valid()
      modifies this
      ensures Valid() && OthersThanPeopleUnchanged() && nextPersonId == old(nextPersonId)
      ensures old(PersonReferenced(id)) ==> r.Err? && people == old(people)
      ensures old(OwnerReferenced(id)) ==> r == Err(ForeignKeyViolation("owner_id"))
      ensures old(!OwnerReferenced(id) && BuyerReferenced(id)) ==> r == Err(ForeignKeyViolation("buyer_id"))
      ensures !old(PersonReferenced(id)) ==> r.Ok? && people == old(people) - {id}
    {
      if OwnerReferenced(id) {
        return Err(ForeignKeyViolation("owner_id"));
      }
      if BuyerReferenced(id) {
        return Err(ForeignKeyViolation("buyer_id"));
      }
      people := people - {id};
      return Ok(());
    }

    // ---- vehicles ----

    /** The spec of the listing: the matching vehicles with their owners, among ids below `hi`, in id order. */
    function Matching(f: VehicleFilters, hi: int): (r: seq<VehicleWithOwner>)
      reads this
      ensures forall x :: x in r <==> exists k :: k in vehicles && 1 <= k < hi && MatchesFilters(vehicles[k], f)
                                               && x == VehicleWithOwner(vehicles[k], OwnerOf(vehicles[k]))
      decreases hi
    {
      if hi <= 1 then []
      else
        var k := hi - 1;
        var prev := Matching(f, k);
        if k in vehicles && MatchesFilters(vehicles[k], f) then
          prev + [VehicleWithOwner(vehicles[k], OwnerOf(vehicles[k]))]
        else prev
    }

    /**
     * `getVehicles(filters)`: exactly the vehicles satisfying every filter that
     * is set, each with its owner, newest entry first.
     */
    method GetVehicles(filters: VehicleFilters) returns (r: seq<VehicleWithOwner>)
      requires Valid()
      ensures NewestFirst(r, ListedEntryDate)
      ensures multiset(r) == multiset(Matching(filters, nextVehicleId))
    {
      var conditions := ListingConditions(filters);
      var rows: seq<VehicleWithOwner> := [];
      var id := 1;
      while id < nextVehicleId
        invariant 1 <= id <= nextVehicleId
        invariant rows == Matching(filters, id)
      {
        if id in vehicles && AllHold(conditions, vehicles[id]) {
          rows := rows + [VehicleWithOwner(vehicles[id], OwnerOf(vehicles[id]))];
        }
        id := id + 1;
      }
      r := SortNewestFirst(rows, ListedEntryDate);
    }

    /** `getVehicle(id)`: the vehicle with its owner, its buyer when one is recorded, and its expenses newest first. */
    function GetVehicle(id: int): (r: Option<VehicleWithDetails>)
      reads this
      requires Valid()
      ensures r.Some? <==> id in vehicles
      ensures r.Some? ==> r.value.vehicle == vehicles[id] && r.value.owner == OwnerOf(vehicles[id])
      ensures r.Some? ==> (r.value.buyer.Some? <==> TruthyId(vehicles[id].buyerId) && vehicles[id].buyerId.value in people)
      ensures r.Some? && r.value.buyer.Some? ==> r.value.buyer.value == people[vehicles[id].buyerId.value]
      ensures r.Some? ==> (NewestFirst(r.value.expenses, ExpenseDate)
                           && multiset(r.value.expenses) == multiset(GetExpensesByVehicle(id)))
    {
      if id !in vehicles then None
      else
        var v := vehicles[id];
        var buyer := if TruthyId(v.buyerId) && v.buyerId.value in people then Some(people[v.buyerId.value]) else None;
        Some(VehicleWithDetails(v, OwnerOf(v), buyer, SortNewestFirst(GetExpensesByVehicle(id), ExpenseDate)))
    }

    /** `getVehicleByPlate`: the one vehicle with exactly this plate, if any. */
    method GetVehicleByPlate(plate: string) returns (r: Option<Vehicle>)
      requires Valid()
      ensures r.Some? ==> r.value.id in vehicles && vehicles[r.value.id] == r.value && r.value.plate == plate
      ensures r.None? <==> forall k :: k in vehicles ==> vehicles[k].plate != plate
    {
      var id := 1;
      while id < nextVehicleId
        invariant 1 <= id <= nextVehicleId
        invariant forall k :: k in vehicles && k < id ==> vehicles[k].plate != plate
      {
        if id in vehicles && vehicles[id].plate == plate {
          return Some(vehicles[id]);
        }
        id := id + 1;
      }
      return None;
    }

    predicate PlateTaken(plate: string, except: int)
      reads this
    {
      exists k :: k in vehicles && k != except && vehicles[k].plate == plate
    }

    /**
     * `createVehicle`: the row gets the next serial id, entry date `now`, no
     * sale date, and the default status when none is given. A duplicate plate
     * or a dangling owner or buyer is refused; the id is consumed either way.
     */
    method CreateVehicle(ins: InsertVehicle, now: Instant) returns (r: Result<Vehicle, StoreError>)
      requires Valid()
      modifies this
      ensures Valid() && OthersThanVehiclesUnchanged() && nextVehicleId == old(nextVehicleId) + 1
      ensures r.Ok? <==> !old(PlateTaken(ins.plate, 0)) && old(RefOk(ins.ownerId, people) && RefOk(ins.buyerId, people))
      ensures r.Ok? ==> r.value == NewVehicle(old(nextVehicleId), ins, now) && vehicles == old(vehicles)[r.value.id := r.value]
      ensures r.Err? ==> vehicles == old(vehicles)
    {
      var id := nextVehicleId;
      nextVehicleId := nextVehicleId + 1;
      if PlateTaken(ins.plate, 0) {
        return Err(UniqueViolation("plate"));
      }
      if !RefOk(ins.ownerId, people) {
        return Err(ForeignKeyViolation("owner_id"));
      }
      if !RefOk(ins.buyerId, people) {
        return Err(ForeignKeyViolation("buyer_id"));
      }
      var v := NewVehicle(id, ins, now);
      vehicles := vehicles[id := v];
      return Ok(v);
    }

    /**
     * `updateVehicle`: sets the supplied fields of the row. An update that sets
     * nothing, a plate taken by another vehicle and a dangling reference are
     * refused; an unknown id updates nothing and returns none.
     */
    method UpdateVehicle(id: int, patch: VehiclePatch) returns (r: Result<Option<Vehicle>, StoreError>)
      requires Valid()
      modifies this
      ensures Valid() && OthersThanVehiclesUnchanged() && nextVehicleId == old(nextVehicleId)
      ensures r.Ok? && r.value.Some? ==>
        (id in old(vehicles)
         && r.value.value == ApplyVehiclePatch(old(vehicles)[id], patch)
         && vehicles == old(vehicles)[id := r.value.value])
      ensures !(r.Ok? && r.value.Some?) ==> vehicles == old(vehicles)
      ensures VehiclePatchEmpty(patch) ==> r == Err(NoValuesToSet)
      ensures !VehiclePatchEmpty(patch) && id !in old(vehicles) ==> r == Ok(None)
      ensures !VehiclePatchEmpty(patch) && id in old(vehicles) ==>
        var u := ApplyVehiclePatch(old(vehicles)[id], patch);
        (r.Ok? <==> !old(PlateTaken(u.plate, id)) && old(RefOk(u.ownerId, people) && RefOk(u.buyerId, people)))
    {
      if VehiclePatchEmpty(patch) {
        return Err(NoValuesToSet);
      }
      if id !in vehicles {
        return Ok(None);
      }
      var u := ApplyVehiclePatch(vehicles[id], patch);
      if PlateTaken(u.plate, id) {
        return Err(UniqueViolation("plate"));
      }
      if !RefOk(u.ownerId, people) {
        return Err(ForeignKeyViolation("owner_id"));
      }
      if !RefOk(u.buyerId, people) {
        return Err(ForeignKeyViolation("buyer_id"));
      }
      vehicles := vehicles[id := u];
      return Ok(Some(u));
    }

    predicate HasExpenses(vehicleId: int)
      reads this
    {
      exists k :: k in expenses && expenses[k].vehicleId == vehicleId
    }

    /**
     * `deleteVehicle`: refused while an expense refers to the vehicle;
     * otherwise the vehicle goes and its images go with it.
     */
    method DeleteVehicle(id: int) returns (r: Result<(), StoreError>)
      requires Valid()
      modifies this
      ensures Valid()
      ensures people == old(people) && expenses == old(expenses) && storeExpenses == old(storeExpenses)
      ensures nextPersonId == old(nextPersonId) && nextVehicleId == old(nextVehicleId) && nextExpenseId == old(nextExpenseId)
      ensures nextStoreExpenseId == old(nextStoreExpenseId) && nextImageId == old(nextImageId)
      ensures old(HasExpenses(id)) ==> r.Err? && vehicles == old(vehicles) && images == old(images)
      ensures !old(HasExpenses(id)) ==>
        (r.Ok? && vehicles == old(vehicles) - {id}
         && images == map k | k in old(images) && old(images)[k].vehicleId != id :: old(images)[k])
    {
      if HasExpenses(id) {
        return Err(ForeignKeyViolation("vehicle_id"));
      }
      vehicles := vehicles - {id};
      images := map k | k in images && images[k].vehicleId != id :: images[k];
      return Ok(());
    }

    /** The vehicle as `markVehicleAsSold` leaves it: four fields overwritten, the rest kept. */
    static function SoldVersion(v: Vehicle, salePrice: int, buyerId: Option<int>, saleDate: Instant): (u: Vehicle)
      ensures u.status == Sold && u.salePrice == Some(salePrice) && u.buyerId == buyerId && u.saleDate == Some(saleDate)
      ensures u.(status := v.status, salePrice := v.salePrice, buyerId := v.buyerId, saleDate := v.saleDate) == v
    {
      v.(status := Sold, salePrice := Some(salePrice), buyerId := buyerId, saleDate := Some(saleDate))
    }

    /**
     * `markVehicleAsSold`: status "Vendido", the sale price, the buyer and the
     * sale date (`now` when none is given); nothing else in the row and no
     * other row changes. Neither the price nor the current status is checked.
     */
    method MarkVehicleAsSold(id: int, salePrice: int, buyerId: Option<int>, saleDate: Option<Instant>, now: Instant)
      returns (r: Result<Option<Vehicle>, StoreError>)
      requires Valid()
      modifies this
      ensures Valid() && OthersThanVehiclesUnchanged() && nextVehicleId == old(nextVehicleId)
      ensures id !in old(vehicles) ==> r == Ok(None) && vehicles == old(vehicles)
      ensures id in old(vehicles) && !old(RefOk(buyerId, people)) ==> r.Err? && vehicles == old(vehicles)
      ensures id in old(vehicles) && old(RefOk(buyerId, people)) ==>
        r == Ok(Some(SoldVersion(old(vehicles)[id], salePrice, buyerId, saleDate.GetOr(now))))
        && vehicles == old(vehicles)[id := r.value.value]
    {
      if id !in vehicles {
        return Ok(None);
      }
      if !RefOk(buyerId, people) {
        return Err(ForeignKeyViolation("buyer_id"));
      }
      var u := SoldVersion(vehicles[id], salePrice, buyerId, saleDate.GetOr(now));
      vehicles := vehicles[id := u];
      return Ok(Some(u));
    }

    // ---- vehicle expenses ----

    /** `getExpensesByVehicle`: exactly the expenses of that vehicle. */
    function GetExpensesByVehicle(vehicleId: int): (r: seq<Expense>)
      reads this
      requires Valid()
      ensures forall e :: e in r <==> Stored(expenses, e) && e.vehicleId == vehicleId
    {
      RowsValues(expenses, nextExpenseId);
      Filter(ExpenseRows(), (e: Expense) => e.vehicleId == vehicleId)
    }

    method CreateExpense(ins: InsertExpense, now: Instant) returns (r: Result<Expense, StoreError>)
      requires Valid()
      modifies this
      ensures Valid() && OthersThanExpensesUnchanged() && nextExpenseId == old(nextExpenseId) + 1
      ensures r.Ok? <==> ins.vehicleId in old(vehicles)
      ensures r.Ok? ==>
        (r.value == Expense(old(nextExpenseId), ins.vehicleId, ins.description, ins.amount, now)
         && expenses == old(expenses)[r.value.id := r.value])
      ensures r.Err? ==> expenses == old(expenses)
    {
      var id := nextExpenseId;
      nextExpenseId := nextExpenseId + 1;
      if ins.vehicleId !in vehicles {
        return Err(ForeignKeyViolation("vehicle_id"));
      }
      var e := Expense(id, ins.vehicleId, ins.description, ins.amount, now);
      expenses := expenses[id := e];
      return Ok(e);
    }

    method DeleteExpense(id: int)
      requires Valid()
      modifies this
      ensures Valid() && OthersThanExpensesUnchanged() && nextExpenseId == old(nextExpenseId)
      ensures expenses == old(expenses) - {id}
    {
      expenses := expenses - {id};
    }

    // ---- store expenses ----

    /** `getStoreExpenses`: every store expense, newest first. */
    function GetStoreExpenses(): (r: seq<StoreExpense>)
      reads this
      ensures NewestFirst(r, StoreExpenseDate)
      ensures multiset(r) == multiset(StoreExpenseRows())
    {
      SortNewestFirst(StoreExpenseRows(), StoreExpenseDate)
    }

    method CreateStoreExpense(ins: InsertStoreExpense, now: Instant) returns (e: StoreExpense)
      requires Valid()
      modifies this
      ensures Valid() && OthersThanStoreExpensesUnchanged() && nextStoreExpenseId == old(nextStoreExpenseId) + 1
      ensures e == StoreExpense(old(nextStoreExpenseId), ins.description, ins.category, ins.amount, now)
      ensures storeExpenses == old(storeExpenses)[e.id := e]
    {
      e := StoreExpense(nextStoreExpenseId, ins.description, ins.category, ins.amount, now);
      storeExpenses := storeExpenses[nextStoreExpenseId := e];
      nextStoreExpenseId := nextStoreExpenseId + 1;
    }

    method DeleteStoreExpense(id: int)
      requires Valid()
      modifies this
      ensures Valid() && OthersThanStoreExpensesUnchanged() && nextStoreExpenseId == old(nextStoreExpenseId)
      ensures storeExpenses == old(storeExpenses) - {id}
    {
      storeExpenses := storeExpenses - {id};
    }

    // ---- vehicle images ----

    /** `getVehicleImages`: the images of that vehicle, newest first. */
    function GetVehicleImages(vehicleId: int): (r: seq<VehicleImage>)
      reads this
      requires Valid()
      ensures NewestFirst(r, ImageCreatedAt)
      ensures forall i :: i in r <==> Stored(images, i) && i.vehicleId == vehicleId
    {
      RowsValues(images, nextImageId);
      var mine := Filter(ImageRows(), (i: VehicleImage) => i.vehicleId == vehicleId);
      var r := SortNewestFirst(mine, ImageCreatedAt);
      assert forall i :: i in r <==> i in mine by {
        forall i ensures i in r <==> i in mine {
          assert i in r <==> i in multiset(r);
        }
      }
      r
    }

    method CreateVehicleImage(vehicleId: int, fileName: string, filePath: string, now: Instant)
      returns (r: Result<VehicleImage, StoreError>)
      requires Valid()
      modifies this
      ensures Valid() && OthersThanImagesUnchanged() && nextImageId == old(nextImageId) + 1
      ensures r.Ok? <==> vehicleId in old(vehicles)
      ensures r.Ok? ==>
        (r.value == VehicleImage(old(nextImageId), vehicleId, fileName, filePath, now)
         && images == old(images)[r.value.id := r.value])
      ensures r.Err? ==> images == old(images)
    {
      var id := nextImageId;
      nextImageId := nextImageId + 1;
      if vehicleId !in vehicles {
        return Err(ForeignKeyViolation("vehicle_id"));
      }
      var img := VehicleImage(id, vehicleId, fileName, filePath, now);
      images := images[id := img];
      return Ok(img);
    }

    /** `deleteVehicleImage`: removes the row and returns it, or none if there was no such row. */
    method DeleteVehicleImage(id: int) returns (r: Option<VehicleImage>)
      requires Valid()
      modifies this
      ensures Valid() && OthersThanImagesUnchanged() && nextImageId == old(nextImageId)
      ensures images == old(images) - {id}
      ensures r.Some? <==> id in old(images)
      ensures r.Some? ==> r.value == old(images)[id]
    {
      r := if id in images then Some(images[id]) else None;
      images := images - {id};
    }

    /** `deleteAllVehicleImages`: removes and returns every image of that vehicle. */
    method DeleteAllVehicleImages(vehicleId: int) returns (r: seq<VehicleImage>)
      requires Valid()
      modifies this
      ensures Valid() && OthersThanImagesUnchanged() && nextImageId == old(nextImageId)
      ensures images == map k | k in old(images) && old(images)[k].vehicleId != vehicleId :: old(images)[k]
      ensures forall i :: i in r <==> Stored(old(images), i) && i.vehicleId == vehicleId
    {
      RowsValues(images, nextImageId);
      r := Filter(ImageRows(), (i: VehicleImage) => i.vehicleId == vehicleId);
      images := map k | k in images && images[k].vehicleId != vehicleId :: images[k];
    }

    // ---- dashboard ----

    /** `getDashboardStats` with the clock reading `now`. */
    function GetDashboardStats(now: Instant): (r: DashboardStats)
      reads this
      requires Valid()
      ensures r == ComputeStats(VehicleRows(), ExpenseRows(), StoreExpenseRows(), now)
      ensures r.totalVehicles == |vehicles| && r.totalSold <= r.totalVehicles && r.totalAvailable == 0
      ensures r.totalSold == |Filter(VehicleRows(), IsSold)|
      ensures r.totalExpenses == r.totalVehicleExpenses + r.totalStoreExpenses
    {
      RowsLength(vehicles, 1, nextVehicleId);
      ComputeStats(VehicleRows(), ExpenseRows(), StoreExpenseRows(), now)
    }
  }

  lemma AllHoldAppend(a: seq<Condition>, b: seq<Condition>, v: Vehicle)
    ensures AllHold(a + b, v) <==> AllHold(a, v) && AllHold(b, v)
  {
    if AllHold(a, v) && AllHold(b, v) {
      forall i | 0 <= i < |a + b| ensures Holds((a + b)[i], v) {
        if i >= |a| {
          assert (a + b)[i] == b[i - |a|];
        }
      }
    }
    if AllHold(a + b, v) {
      forall i | 0 <= i < |a| ensures Holds(a[i], v) {
        assert (a + b)[i] == a[i];
      }
      forall i | 0 <= i < |b| ensures Holds(b[i], v) {
        assert (a + b)[|a| + i] == b[i];
      }
    }
  }

  lemma AllHoldSingle(c: Condition, v: Vehicle)
    ensures AllHold([c], v) <==> Holds(c, v)
    ensures AllHold([], v)
  {
    assert [c][0] == c;
  }

  /** The listing's `conditions` list: one entry per filter that is set, in the order status, owner, search. */
  method ListingConditions(filters: VehicleFilters) returns (conditions: seq<Condition>)
    ensures forall v :: AllHold(conditions, v) <==> MatchesFilters(v, filters)
  {
    conditions := [];
    if TruthyText(filters.status) {
      conditions := conditions + [StatusIs(filters.status.value)];
    }
    if TruthyId(filters.ownerId) {
      conditions := conditions + [OwnerIs(filters.ownerId.value)];
    }
    if TruthyText(filters.search) {
      conditions := conditions + [Mentions(filters.search.value)];
    }
    forall v ensures AllHold(conditions, v) <==> MatchesFilters(v, filters) {
      ConditionsMatchFilters(conditions, filters, v);
    }
  }

  /** The conditions pushed for a set of filters hold of a vehicle exactly when it matches the filters. */
  lemma ConditionsMatchFilters(cs: seq<Condition>, f: VehicleFilters, v: Vehicle)
    requires cs == (if TruthyText(f.status) then [StatusIs(f.status.value)] else [])
                 + (if TruthyId(f.ownerId) then [OwnerIs(f.ownerId.value)] else [])
                 + (if TruthyText(f.search) then [Mentions(f.search.value)] else [])
    ensures AllHold(cs, v) <==> MatchesFilters(v, f)
  {
    var a := if TruthyText(f.status) then [StatusIs(f.status.value)] else [];
    var b := if TruthyId(f.ownerId) then [OwnerIs(f.ownerId.value)] else [];
    var c := if TruthyText(f.search) then [Mentions(f.search.value)] else [];
    AllHoldAppend(a + b, c, v);
    AllHoldAppend(a, b, v);
    if TruthyText(f.status) {
      AllHoldSingle(StatusIs(f.status.value), v);
    }
    if TruthyId(f.ownerId) {
      AllHoldSingle(OwnerIs(f.ownerId.value), v);
    }
    if TruthyText(f.search) {
      AllHoldSingle(Mentions(f.search.value), v);
    }
    AllHoldSingle(StatusIs(""), v);
  }
}
