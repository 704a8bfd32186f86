/**
 * The inventory schema: the enumerations, the rows of the five inventory
 * tables, what an insert supplies and what an update may change.
 * Money is an integer number of cents throughout.
 */
module Schema {
  import opened Wrappers
  import opened Time

  /** The brands a vehicle may be registered under. */
  const VehicleBrands: seq<string> :=
    ["Toyota", "Honda", "Ford", "Chevrolet", "Volkswagen",
     "Fiat", "Hyundai", "Renault", "Nissan", "Jeep", "Outra"]

  datatype VehicleStatus = Available | Sold | InMaintenance | AwaitingPreparation | Reserved

  /** The text stored in the `status` column. */
  function StatusLabel(s: VehicleStatus): string {
    match s
    case Available => "Disponível"
    case Sold => "Vendido"
    case InMaintenance => "Em Manutenção"
    case AwaitingPreparation => "Aguardando Preparação"
    case Reserved => "Reservado"
  }

  const AllStatuses: seq<VehicleStatus> := [Available, Sold, InMaintenance, AwaitingPreparation, Reserved]

  /** The status a vehicle inserted without one receives. */
  const DefaultStatus: VehicleStatus := AwaitingPreparation

  /** Reads a status from its text; `None` for any text not in the enumeration. */
  function ParseStatus(text: string): (r: Option<VehicleStatus>)
    ensures r.Some? ==> StatusLabel(r.value) == text
  {
    if text == "Disponível" then Some(Available)
    else if text == "Vendido" then Some(Sold)
    else if text == "Em Manutenção" then Some(InMaintenance)
    else if text == "Aguardando Preparação" then Some(AwaitingPreparation)
    else if text == "Reservado" then Some(Reserved)
    else None
  }

  /** The enumeration has exactly five members, each listed once, with five distinct labels. */
  lemma StatusEnumeration()
    ensures |AllStatuses| == 5
    ensures forall s: VehicleStatus :: s in AllStatuses
    ensures forall i, j :: 0 <= i < j < |AllStatuses| ==> StatusLabel(AllStatuses[i]) != StatusLabel(AllStatuses[j])
  {
    forall s: VehicleStatus ensures s in AllStatuses {
      match s
      case Available => assert AllStatuses[0] == s;
      case Sold => assert AllStatuses[1] == s;
      case InMaintenance => assert AllStatuses[2] == s;
      case AwaitingPreparation => assert AllStatuses[3] == s;
      case Reserved => assert AllStatuses[4] == s;
    }
  }

  /** A status reads back from its own label, and only labels read as a status. */
  lemma ParseStatusRoundTrip(s: VehicleStatus, text: string)
    ensures ParseStatus(StatusLabel(s)) == Some(s)
    ensures ParseStatus(text).None? <==> forall t: VehicleStatus :: StatusLabel(t) != text
  {
    if ParseStatus(text).None? {
      forall t: VehicleStatus ensures StatusLabel(t) != text {
        match t
        case Available =>
        case Sold =>
        case InMaintenance =>
        case AwaitingPreparation =>
        case Reserved =>
      }
    }
  }

  datatype PersonType = Owner | Client

  function PersonTypeLabel(t: PersonType): string {
    match t
    case Owner => "Proprietário"
    case Client => "Cliente"
  }

  datatype StoreExpenseCategory =
    | Rent | Internet | Water | Energy | CleaningProducts | OfficeSupplies
    | Telephone | Insurance | Taxes | Salaries | Others

  function CategoryLabel(c: StoreExpenseCategory): string {
    match c
    case Rent => "Aluguel"
    case Internet => "Internet"
    case Water => "Água"
    case Energy => "Energia"
    case CleaningProducts => "Produto de Limpeza"
    case OfficeSupplies => "Material de Escritório"
    case Telephone => "Telefone"
    case Insurance => "Seguro"
    case Taxes => "Impostos"
    case Salaries => "Salários"
    case Others => "Outros"
  }

  const AllCategories: seq<StoreExpenseCategory> :=
    [Rent, Internet, Water, Energy, CleaningProducts, OfficeSupplies,
     Telephone, Insurance, Taxes, Salaries, Others]

  /** There are exactly eleven store-expense categories, each listed once under a label of its own. */
  lemma CategoryEnumeration()
    ensures |AllCategories| == 11
    ensures forall c: StoreExpenseCategory :: c in AllCategories
    ensures forall i, j :: 0 <= i < j < |AllCategories| ==> CategoryLabel(AllCategories[i]) != CategoryLabel(AllCategories[j])
  {
    forall c: StoreExpenseCategory ensures c in AllCategories {
      match c
      case Rent => assert AllCategories[0] == c;
      case Internet => assert AllCategories[1] == c;
      case Water => assert AllCategories[2] == c;
      case Energy => assert AllCategories[3] == c;
      case CleaningProducts => assert AllCategories[4] == c;
      case OfficeSupplies => assert AllCategories[5] == c;
      case Telephone => assert AllCategories[6] == c;
      case Insurance => assert AllCategories[7] == c;
      case Taxes => assert AllCategories[8] == c;
      case Salaries => assert AllCategories[9] == c;
      case Others => assert AllCategories[10] == c;
    }
  }

  // ---- Rows ----

  datatype Person = Person(
    id: int, name: string, email: Option<string>, phone: string,
    document: Option<string>, personType: PersonType, createdAt: Instant)

  datatype Vehicle = Vehicle(
    id: int, plate: string, brand: string, model: string, color: string,
    year: Option<int>, price: Option<int>, salePrice: Option<int>,
    saleDate: Option<Instant>, buyerId: Option<int>, status: VehicleStatus,
    ownerId: Option<int>, entryDate: Instant, notes: Option<string>)

  datatype Expense = Expense(id: int, vehicleId: int, description: string, amount: int, date: Instant)

  datatype StoreExpense = StoreExpense(
    id: int, description: string, category: StoreExpenseCategory, amount: int, date: Instant)

  datatype VehicleImage = VehicleImage(
    id: int, vehicleId: int, fileName: string, filePath: string, createdAt: Instant)

  /** A listed vehicle with its owner row, when the owner reference finds one. */
  datatype VehicleWithOwner = VehicleWithOwner(vehicle: Vehicle, owner: Option<Person>)

  /** A single vehicle with its owner, its buyer and its expenses. */
  datatype VehicleWithDetails = VehicleWithDetails(
    vehicle: Vehicle, owner: Option<Person>, buyer: Option<Person>, expenses: seq<Expense>)

  // ---- Inserts and updates ----

  datatype InsertPerson = InsertPerson(
    name: string, email: Option<string>, phone: string, document: Option<string>, personType: PersonType)

  /**
   * A vehicle insert: everything but id, entryDate and saleDate. An absent
   * status takes the column default.
   */
  datatype InsertVehicle = InsertVehicle(
    plate: string, brand: string, model: string, color: string,
    year: Option<int>, price: Option<int>, salePrice: Option<int>,
    buyerId: Option<int>, status: Option<VehicleStatus>, ownerId: Option<int>,
    notes: Option<string>)

  datatype InsertExpense = InsertExpense(vehicleId: int, description: string, amount: int)

  datatype InsertStoreExpense = InsertStoreExpense(description: string, category: StoreExpenseCategory, amount: int)

  /** A partial insert: each field is left as it is or set, a nullable one possibly to null. */
  datatype PersonPatch = PersonPatch(
    name: Patch<string>, email: Patch<Option<string>>, phone: Patch<string>,
    document: Patch<Option<string>>, personType: Patch<PersonType>)

  datatype VehiclePatch = VehiclePatch(
    plate: Patch<string>, brand: Patch<string>, model: Patch<string>, color: Patch<string>,
    year: Patch<Option<int>>, price: Patch<Option<int>>, salePrice: Patch<Option<int>>,
    buyerId: Patch<Option<int>>, status: Patch<VehicleStatus>, ownerId: Patch<Option<int>>,
    notes: Patch<Option<string>>)

  /** The row a vehicle insert creates under `id` at time `now`. */
  function NewVehicle(id: int, ins: InsertVehicle, now: Instant): (v: Vehicle)
    ensures v.id == id && v.entryDate == now && v.saleDate.None?
    ensures v.status == (if ins.status.Some? then ins.status.value else DefaultStatus)
    ensures v.plate == ins.plate && v.brand == ins.brand && v.model == ins.model && v.color == ins.color
    ensures v.year == ins.year && v.price == ins.price && v.salePrice == ins.salePrice
    ensures v.buyerId == ins.buyerId && v.ownerId == ins.ownerId && v.notes == ins.notes
  {
    Vehicle(id, ins.plate, ins.brand, ins.model, ins.color, ins.year, ins.price,
      ins.salePrice, None, ins.buyerId, ins.status.GetOr(DefaultStatus), ins.ownerId, now, ins.notes)
  }

  /** The row a person insert creates under `id` at time `now`. */
  function NewPerson(id: int, ins: InsertPerson, now: Instant): (x: Person)
    ensures x.id == id && x.createdAt == now
    ensures x.name == ins.name && x.email == ins.email && x.phone == ins.phone
    ensures x.document == ins.document && x.personType == ins.personType
  {
    Person(id, ins.name, ins.email, ins.phone, ins.document, ins.personType, now)
  }

  predicate VehiclePatchEmpty(p: VehiclePatch) {
    p.plate.Keep? && p.brand.Keep? && p.model.Keep? && p.color.Keep? && p.year.Keep?
    && p.price.Keep? && p.salePrice.Keep? && p.buyerId.Keep? && p.status.Keep?
    && p.ownerId.Keep? && p.notes.Keep?
  }

  predicate PersonPatchEmpty(p: PersonPatch) {
    p.name.Keep? && p.email.Keep? && p.phone.Keep? && p.document.Keep? && p.personType.Keep?
  }

  /**
   * The row after an update: each supplied column takes the supplied value and
   * every other column keeps its value; id, entry date and sale date are never
   * among the columns an update sets.
   */
  function ApplyVehiclePatch(v: Vehicle, p: VehiclePatch): (r: Vehicle)
    ensures r.id == v.id && r.entryDate == v.entryDate && r.saleDate == v.saleDate
    ensures (p.plate.Keep? ==> r.plate == v.plate) && (p.plate.Put? ==> r.plate == p.plate.value)
    ensures (p.brand.Keep? ==> r.brand == v.brand) && (p.brand.Put? ==> r.brand == p.brand.value)
    ensures (p.model.Keep? ==> r.model == v.model) && (p.model.Put? ==> r.model == p.model.value)
    ensures (p.color.Keep? ==> r.color == v.color) && (p.color.Put? ==> r.color == p.color.value)
    ensures (p.year.Keep? ==> r.year == v.year) && (p.year.Put? ==> r.year == p.year.value)
    ensures (p.price.Keep? ==> r.price == v.price) && (p.price.Put? ==> r.price == p.price.value)
    ensures (p.salePrice.Keep? ==> r.salePrice == v.salePrice) && (p.salePrice.Put? ==> r.salePrice == p.salePrice.value)
    ensures (p.buyerId.Keep? ==> r.buyerId == v.buyerId) && (p.buyerId.Put? ==> r.buyerId == p.buyerId.value)
    ensures (p.status.Keep? ==> r.status == v.status) && (p.status.Put? ==> r.status == p.status.value)
    ensures (p.ownerId.Keep? ==> r.ownerId == v.ownerId) && (p.ownerId.Put? ==> r.ownerId == p.ownerId.value)
    ensures (p.notes.Keep? ==> r.notes == v.notes) && (p.notes.Put? ==> r.notes == p.notes.value)
    ensures VehiclePatchEmpty(p) ==> r == v
  {
    v.(plate := p.plate.ApplyTo(v.plate), brand := p.brand.ApplyTo(v.brand),
       model := p.model.ApplyTo(v.model), color := p.color.ApplyTo(v.color),
       year := p.year.ApplyTo(v.year), price := p.price.ApplyTo(v.price),
       salePrice := p.salePrice.ApplyTo(v.salePrice), buyerId := p.buyerId.ApplyTo(v.buyerId),
       status := p.status.ApplyTo(v.status), ownerId := p.ownerId.ApplyTo(v.ownerId),
       notes := p.notes.ApplyTo(v.notes))
  }

  /** The person after an update: supplied columns take their values, the rest keep theirs. */
  function ApplyPersonPatch(x: Person, p: PersonPatch): (r: Person)
    ensures r.id == x.id && r.createdAt == x.createdAt
    ensures (p.name.Keep? ==> r.name == x.name) && (p.name.Put? ==> r.name == p.name.value)
    ensures (p.email.Keep? ==> r.email == x.email) && (p.email.Put? ==> r.email == p.email.value)
    ensures (p.phone.Keep? ==> r.phone == x.phone) && (p.phone.Put? ==> r.phone == p.phone.value)
    ensures (p.document.Keep? ==> r.document == x.document) && (p.document.Put? ==> r.document == p.document.value)
    ensures (p.personType.Keep? ==> r.personType == x.personType) && (p.personType.Put? ==> r.personType == p.personType.value)
    ensures PersonPatchEmpty(p) ==> r == x
  {
    x.(name := p.name.ApplyTo(x.name), email := p.email.ApplyTo(x.email),
       phone := p.phone.ApplyTo(x.phone), document := p.document.ApplyTo(x.document),
       personType := p.personType.ApplyTo(x.personType))
  }
}
