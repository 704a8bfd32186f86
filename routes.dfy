/**
 * The inventory routes: the guards the handlers put in front of the store
 * when a vehicle is created, updated or sold, the document search, the
 * image upload with its file filter, file serving by basename, and the seed.
 */
module Routes {
  import opened Wrappers
  import opened Time
  import opened Text
  import opened Schema
  import opened Tables
  import opened Storage
  import opened Zod
  import opened Api
  import opened NodePath

  const PlateTakenMessage: string := "Placa já cadastrada"
  const SellFormMessage: string := "Use o formulário de venda para marcar como vendido"
  const VehicleNotFound: string := "Vehicle not found"
  const UploadVehicleNotFound: string := "Veículo não encontrado"
  const NoImagesMessage: string := "Nenhuma imagem enviada"

  // ---- uploads ----

  /** The extensions the upload filter lets through, compared case-insensitively. */
  const ImageExtensions: seq<string> := [".jpg", ".jpeg", ".png", ".gif", ".webp"]

  /** `/\.(jpg|jpeg|png|gif|webp)$/i.test(path.extname(name))`. */
  predicate AllowedImage(name: string) {
    Lower(Extname(name)) in ImageExtensions
  }

  /** A plain file name ending in an image extension, in any case, passes the filter. */
  lemma AllowedImageName(stem: string, ext: string)
    requires stem != [] && '/' !in stem && '/' !in ext
    requires Lower(ext) in ImageExtensions
    ensures AllowedImage(stem + ext)
  {
    assert |ext| >= 2 && ext[0] == '.' && '.' !in ext[1..] by {
      var e := Lower(ext);
      assert |e| == |ext|;
      forall i | 0 <= i < |ext| ensures (ext[i] == '.' <==> e[i] == '.') {
        assert e[i] == LowerChar(ext[i]);
      }
      assert e[0] == '.' && forall i :: 1 <= i < |e| ==> e[i] != '.';
      forall c | c in ext[1..] ensures c != '.' {
        var i :| 1 <= i < |ext| && ext[i] == c;
      }
    }
    ExtnameOfStem(stem, ext);
  }

  /** A hidden file such as `.png` has no extension in Node's sense, so it is refused. */
  lemma DotfileRefused(name: string)
    requires '/' !in name && |name| >= 1 && name[0] == '.' && '.' !in name[1..]
    ensures !AllowedImage(name)
  {
    DotfileHasNoExtension(name);
    EmptyExtensionRefused(name);
  }

  /** No allowed extension is empty. */
  lemma NoEmptyExtension()
    ensures "" !in ImageExtensions
  {
  }

  lemma EmptyExtensionRefused(name: string)
    requires Extname(name) == ""
    ensures !AllowedImage(name)
  {
    assert Lower("") == "";
    NoEmptyExtension();
  }

  /** One file of a multipart upload: the client's name, the name it was stored under and its size. */
  datatype Upload = Upload(originalName: string, storedName: string, size: int)

  const MaxImages: int := 20
  const MaxImageBytes: int := 10 * 1024 * 1024

  /** What the upload middleware lets reach the handler: at most 20 files, each an image of at most 10 MiB. */
  predicate UploadAccepted(files: seq<Upload>) {
    |files| <= MaxImages
    && forall i :: 0 <= i < |files| ==> AllowedImage(files[i].originalName) && files[i].size <= MaxImageBytes
  }

  /** The row the handler creates for the `j`-th accepted file. */
  function ImageRow(id: int, vehicleId: int, f: Upload, now: Instant): VehicleImage {
    VehicleImage(id, vehicleId, f.originalName, "/uploads/" + f.storedName, now)
  }

  /** The requested name reduced to its basename before it is joined to the uploads directory. */
  function ServedName(requested: string): (r: string)
    ensures '/' !in r
    ensures var s := StripTrailingSlashes(requested); |r| <= |s| && s[|s| - |r|..] == r
  {
    BasenameIsTail(requested);
    Basename(requested)
  }

  // ---- search by document ----

  /** The handler looks a document up only when it is given and has at least three digits. */
  predicate NeedsLookup(document: Option<string>) {
    document.Some? && document.value != "" && |Digits(document.value)| >= 3
  }

  /** `GET /api/people/search-by-document`. */
  method SearchByDocument(db: DatabaseStorage, document: Option<string>) returns (r: Option<Person>)
    requires db.Valid()
    ensures !NeedsLookup(document) ==> r.None?
    ensures NeedsLookup(document) && r.Some? ==>
      r.value.id in db.people && db.people[r.value.id] == r.value && DocumentMatches(r.value, document.value)
    ensures NeedsLookup(document) ==>
      (r.None? <==> forall p :: Stored(db.people, p) ==> !DocumentMatches(p, document.value))
  {
    if !NeedsLookup(document) {
      return None;
    }
    r := db.GetPersonByDocument(document.value);
  }

  // ---- vehicles ----

  /**
   * `POST /api/vehicles`: a plate already in the table is refused with 400
   * on `plate` before anything is written; a store error after that escapes
   * the handler.
   */
  method CreateVehicleRoute(db: DatabaseStorage, input: InsertVehicle, now: Instant) returns (reply: Reply<Vehicle>)
    requires db.Valid()
    modifies db
    ensures db.Valid()
    ensures old(db.PlateTaken(input.plate, 0)) ==>
      reply == Failure(400, ErrorBody(PlateTakenMessage, Some("plate")))
      && db.vehicles == old(db.vehicles) && db.nextVehicleId == old(db.nextVehicleId)
    ensures !old(db.PlateTaken(input.plate, 0)) ==>
      (reply.Success? <==> old(RefOk(input.ownerId, db.people) && RefOk(input.buyerId, db.people)))
    ensures !old(db.PlateTaken(input.plate, 0)) && !reply.Success? ==> reply == Unhandled
    ensures reply.Success? ==>
      reply.status == 201 && reply.body == NewVehicle(old(db.nextVehicleId), input, now)
      && db.vehicles == old(db.vehicles)[reply.body.id := reply.body]
    ensures !reply.Success? ==> db.vehicles == old(db.vehicles)
    ensures db.people == old(db.people) && db.expenses == old(db.expenses) && db.images == old(db.images)
    ensures db.storeExpenses == old(db.storeExpenses)
  {
    var existing := db.GetVehicleByPlate(input.plate);
    if existing.Some? {
      return Failure(400, ErrorBody(PlateTakenMessage, Some("plate")));
    }
    assert !db.PlateTaken(input.plate, 0);
    var created := db.CreateVehicle(input, now);
    if created.Err? {
      return Unhandled;
    }
    return Success(201, created.value);
  }

  /**
   * `PUT /api/vehicles/:id`: setting the status to "Vendido" is refused with
   * 400 on `status` and writes nothing; any store error (an empty patch, a
   * plate another vehicle holds, an owner or buyer that is not a person) is
   * answered as 404 "Vehicle not found"; an unknown id answers 200 with null.
   * No other status is refused, whatever the vehicle's current status.
   */
  method UpdateVehicleRoute(db: DatabaseStorage, id: int, patch: VehiclePatch) returns (reply: Reply<Option<Vehicle>>)
    requires db.Valid()
    modifies db
    ensures db.Valid()
    ensures patch.status == Put(Sold) ==>
      reply == Failure(400, ErrorBody(SellFormMessage, Some("status"))) && db.vehicles == old(db.vehicles)
    ensures patch.status != Put(Sold) && VehiclePatchEmpty(patch) ==> reply == Failure(404, Message(VehicleNotFound))
    ensures patch.status != Put(Sold) && !VehiclePatchEmpty(patch) && id !in old(db.vehicles) ==> reply == Success(200, None)
    ensures patch.status != Put(Sold) && !VehiclePatchEmpty(patch) && id in old(db.vehicles) ==>
      var u := ApplyVehiclePatch(old(db.vehicles)[id], patch);
      (reply.Success? <==> !old(db.PlateTaken(u.plate, id)) && old(RefOk(u.ownerId, db.people) && RefOk(u.buyerId, db.people)))
    ensures patch.status != Put(Sold) && !reply.Success? ==> reply == Failure(404, Message(VehicleNotFound))
    ensures reply.Success? ==> reply.status == 200
    ensures reply.Success? && reply.body.Some? ==>
      id in old(db.vehicles) && reply.body.value == ApplyVehiclePatch(old(db.vehicles)[id], patch)
      && db.vehicles == old(db.vehicles)[id := reply.body.value]
    ensures !(reply.Success? && reply.body.Some?) ==> db.vehicles == old(db.vehicles)
    ensures reply.Success? || reply.Failure?
    ensures db.people == old(db.people) && db.expenses == old(db.expenses) && db.images == old(db.images)
    ensures db.storeExpenses == old(db.storeExpenses) && db.nextVehicleId == old(db.nextVehicleId)
  {
    if patch.status == Put(Sold) {
      return Failure(400, ErrorBody(SellFormMessage, Some("status")));
    }
    var updated := db.UpdateVehicle(id, patch);
    if updated.Err? {
      return Failure(404, Message(VehicleNotFound));
    }
    return Success(200, updated.value);
  }

  /** The sale date the sell handler passes: the parsed `saleDate` when one is given, else `now`. */
  function SaleDate(input: SellInput, now: Instant, parseDate: string -> Option<Instant>): Option<Instant> {
    if input.saleDate.Some? && input.saleDate.value != "" then parseDate(input.saleDate.value) else Some(now)
  }

  /**
   * `POST /api/vehicles/:id/sell`: a malformed body is refused with 400 and a
   * missing vehicle with 404, neither writing anything. Otherwise the vehicle
   * is marked sold with the body's price, its buyer (`null` when absent) and
   * its sale date; no other input field, and no check of price or status,
   * enters into it. `parseDate` is `new Date(text)`; a text it cannot read
   * makes the write throw.
   */
  method SellRoute(db: DatabaseStorage, id: int, body: Json, now: Instant, parseDate: string -> Option<Instant>)
    returns (reply: Reply<Vehicle>)
    requires db.Valid()
    modifies db
    ensures db.Valid()
    ensures ParseSellInput(body).Err? ==> reply == Failure(400, ParseSellInput(body).error) && db.vehicles == old(db.vehicles)
    ensures ParseSellInput(body).Ok? && id !in old(db.vehicles) ==>
      reply == Failure(404, Message(VehicleNotFound)) && db.vehicles == old(db.vehicles)
    ensures reply.Success? ==>
      var input := ParseSellInput(body).value;
      id in old(db.vehicles) && SaleDate(input, now, parseDate).Some?
      && reply == Success(200, DatabaseStorage.SoldVersion(old(db.vehicles)[id], input.salePrice, input.buyerId,
                                                          SaleDate(input, now, parseDate).value))
      && db.vehicles == old(db.vehicles)[id := reply.body]
    ensures (ParseSellInput(body).Ok? && id in old(db.vehicles) && SaleDate(ParseSellInput(body).value, now, parseDate).Some?
             && old(RefOk(ParseSellInput(body).value.buyerId, db.people))) ==> reply.Success?
    ensures ParseSellInput(body).Ok? && id in old(db.vehicles) && !reply.Success? ==> reply == Unhandled
    ensures !reply.Success? ==> db.vehicles == old(db.vehicles)
    ensures db.people == old(db.people) && db.expenses == old(db.expenses) && db.images == old(db.images)
    ensures db.storeExpenses == old(db.storeExpenses) && db.nextVehicleId == old(db.nextVehicleId)
  {
    var parsed := ParseSellInput(body);
    if parsed.Err? {
      return Failure(400, parsed.error);
    }
    var input := parsed.value;
    if db.GetVehicle(id).None? {
      return Failure(404, Message(VehicleNotFound));
    }
    var date := SaleDate(input, now, parseDate);
    if date.None? {
      return Unhandled;
    }
    var sold := db.MarkVehicleAsSold(id, input.salePrice, input.buyerId, date, now);
    if sold.Err? {
      return Unhandled;
    }
    assert sold.value.Some?;
    return Success(200, sold.value.value);
  }

  // ---- images ----

  /**
   * `POST /api/vehicles/:vehicleId/images`: files the middleware refuses
   * never reach the handler; a missing vehicle gives 404 and an empty upload
   * 400, neither creating a row; otherwise one row per file, in order, under
   * consecutive ids, each pointing at `/uploads/` and the stored name.
   */
  method UploadImages(db: DatabaseStorage, vehicleId: int, files: seq<Upload>, now: Instant)
    returns (reply: Reply<seq<VehicleImage>>)
    requires db.Valid()
    modifies db
    ensures db.Valid()
    ensures !UploadAccepted(files) ==> reply == Unhandled && db.images == old(db.images)
    ensures UploadAccepted(files) && vehicleId !in old(db.vehicles) ==>
      reply == Failure(404, Message(UploadVehicleNotFound)) && db.images == old(db.images)
    ensures UploadAccepted(files) && vehicleId in old(db.vehicles) && files == [] ==>
      reply == Failure(400, Message(NoImagesMessage)) && db.images == old(db.images)
    ensures UploadAccepted(files) && vehicleId in old(db.vehicles) && files != [] ==>
      reply == Success(201, ImageRows(old(db.nextImageId), vehicleId, files, now))
      && db.images == AddRows(old(db.images), reply.body)
      && db.nextImageId == old(db.nextImageId) + |files|
    ensures db.people == old(db.people) && db.vehicles == old(db.vehicles) && db.expenses == old(db.expenses)
    ensures db.storeExpenses == old(db.storeExpenses)
  {
    if !UploadAccepted(files) {
      return Unhandled;
    }
    if db.GetVehicle(vehicleId).None? {
      return Failure(404, Message(UploadVehicleNotFound));
    }
    if files == [] {
      return Failure(400, Message(NoImagesMessage));
    }
    var results := CreateImages(db, vehicleId, files, now);
    reply := Success(201, results);
  }

  /** The rows for `files`, under consecutive ids from `start`. */
  function ImageRows(start: int, vehicleId: int, files: seq<Upload>, now: Instant): (r: seq<VehicleImage>)
    ensures |r| == |files|
    decreases |files|
  {
    if files == [] then []
    else ImageRows(start, vehicleId, files[..|files| - 1], now) + [ImageRow(start + |files| - 1, vehicleId, files[|files| - 1], now)]
  }

  /** The `j`-th file gets the `j`-th consecutive id from `start` and the path under `/uploads/`. */
  lemma {:induction false} ImageRowsEach(start: int, vehicleId: int, files: seq<Upload>, now: Instant)
    ensures forall j :: 0 <= j < |files| ==>
      ImageRows(start, vehicleId, files, now)[j] == ImageRow(start + j, vehicleId, files[j], now)
    ensures forall j :: 0 <= j < |files| ==>
      ImageRows(start, vehicleId, files, now)[j].filePath == "/uploads/" + files[j].storedName
    decreases |files|
  {
    if files != [] {
      var init := files[..|files| - 1];
      ImageRowsEach(start, vehicleId, init, now);
      forall j | 0 <= j < |files|
        ensures ImageRows(start, vehicleId, files, now)[j] == ImageRow(start + j, vehicleId, files[j], now)
      {
        if j < |init| {
          assert files[j] == init[j];
        }
      }
    }
  }

  /** The table `m` with the rows `rows` added, each under its own id. */
  function AddRows(m: map<int, VehicleImage>, rows: seq<VehicleImage>): map<int, VehicleImage>
    decreases |rows|
  {
    if rows == [] then m else AddRows(m, rows[..|rows| - 1])[rows[|rows| - 1].id := rows[|rows| - 1]]
  }

  /** Rows that agree with `ImageRows` index by index are `ImageRows`. */
  lemma RowsAreImageRows(rows: seq<VehicleImage>, start: int, vehicleId: int, files: seq<Upload>, now: Instant)
    requires |rows| == |files|
    requires forall j :: 0 <= j < |files| ==> rows[j] == ImageRow(start + j, vehicleId, files[j], now)
    ensures rows == ImageRows(start, vehicleId, files, now)
  {
    ImageRowsEach(start, vehicleId, files, now);
  }

  lemma AddRowsSnoc(m: map<int, VehicleImage>, rows: seq<VehicleImage>, row: VehicleImage)
    ensures AddRows(m, rows + [row]) == AddRows(m, rows)[row.id := row]
  {
    assert (rows + [row])[..|rows|] == rows;
  }

  /** One `createVehicleImage` for an accepted file of an existing vehicle: it adds the file's row under the next id. */
  method CreateImage(db: DatabaseStorage, vehicleId: int, f: Upload, now: Instant) returns (row: VehicleImage)
    requires db.Valid() && vehicleId in db.vehicles
    modifies db
    ensures db.Valid() && row == ImageRow(old(db.nextImageId), vehicleId, f, now)
    ensures db.images == old(db.images)[row.id := row] && db.nextImageId == old(db.nextImageId) + 1
    ensures db.people == old(db.people) && db.vehicles == old(db.vehicles) && db.expenses == old(db.expenses)
    ensures db.storeExpenses == old(db.storeExpenses)
  {
    var created := db.CreateVehicleImage(vehicleId, f.originalName, "/uploads/" + f.storedName, now);
    row := created.value;
  }

  /** The handler's loop: one `createVehicleImage` per file, results pushed in order. */
  method CreateImages(db: DatabaseStorage, vehicleId: int, files: seq<Upload>, now: Instant) returns (results: seq<VehicleImage>)
    requires db.Valid() && vehicleId in db.vehicles
    modifies db
    ensures db.Valid()
    ensures results == ImageRows(old(db.nextImageId), vehicleId, files, now)
    ensures db.images == AddRows(old(db.images), results) && db.nextImageId == old(db.nextImageId) + |files|
    ensures db.people == old(db.people) && db.vehicles == old(db.vehicles) && db.expenses == old(db.expenses)
    ensures db.storeExpenses == old(db.storeExpenses)
  {
    var start, images0, vehicles0 := db.nextImageId, db.images, db.vehicles;
    results := [];
    var i := 0;
    while i < |files|
      invariant 0 <= i <= |files|
      invariant db.Valid()
      invariant db.people == old(db.people) && db.vehicles == vehicles0 && db.expenses == old(db.expenses)
      invariant db.storeExpenses == old(db.storeExpenses)
      invariant db.nextImageId == start + i
      invariant |results| == i
      invariant forall j :: 0 <= j < i ==> results[j] == ImageRow(start + j, vehicleId, files[j], now)
      invariant db.images == AddRows(images0, results)
    {
      var row := CreateImage(db, vehicleId, files[i], now);
      AddRowsSnoc(images0, results, row);
      results := results + [row];
      i := i + 1;
    }
    RowsAreImageRows(results, start, vehicleId, files, now);
  }

  // ---- seed ----

  const SeedOwner1: InsertPerson := InsertPerson("João Silva", Some("joao@email.com"), "11999998888", Some("123.456.789-00"), Owner)
  const SeedOwner2: InsertPerson := InsertPerson("Maria Oliveira", Some("maria@email.com"), "11988887777", Some("987.654.321-99"), Owner)
  const SeedClient: InsertPerson := InsertPerson("Carlos Santos", Some("carlos@email.com"), "11977776666", Some("111.222.333-44"), Client)

  /**
   * The seed vehicles. The seed passes `yearFab` and `yearModel`, which are
   * not columns of the table, so the stored year stays null.
   */
  function SeedVehicle1(ownerId: int): InsertVehicle {
    InsertVehicle("ABC-1234", "Honda", "Civic EX", "Prata", None, Some(8500000), None, None,
      Some(Available), Some(ownerId), Some("Carro em ótimo estado, único dono."))
  }

  function SeedVehicle2(ownerId: int): InsertVehicle {
    InsertVehicle("XYZ-9876", "Toyota", "Corolla XEi", "Preto", None, Some(11000000), None, None,
      Some(AwaitingPreparation), Some(ownerId), Some("Precisa de polimento."))
  }

  /**
   * `seedDatabase`: only an empty people table is seeded, with three people,
   * two vehicles and two expenses of the first vehicle. A store error (a
   * seed plate already present) escapes.
   */
  method SeedDatabase(db: DatabaseStorage, now: Instant) returns (r: Result<(), StoreError>)
    requires db.Valid()
    modifies db
    ensures db.Valid()
    ensures old(db.people) != map[] ==>
      r.Ok? && db.people == old(db.people) && db.vehicles == old(db.vehicles) && db.expenses == old(db.expenses)
      && db.nextVehicleId == old(db.nextVehicleId) && db.nextExpenseId == old(db.nextExpenseId)
    ensures old(db.people) == map[] ==>
      |db.people| == 3 && (forall k :: k in db.people ==> db.people[k].createdAt == now)
    ensures old(db.people) == map[] && r.Ok? ==>
      |db.vehicles| == |old(db.vehicles)| + 2 && |db.expenses| == |old(db.expenses)| + 2
    ensures old(db.people) == map[] && !old(db.PlateTaken("ABC-1234", 0)) && !old(db.PlateTaken("XYZ-9876", 0)) ==> r.Ok?
    ensures db.storeExpenses == old(db.storeExpenses) && db.images == old(db.images)
  {
    if |db.GetPeople(None)| != 0 {
      return Ok(());
    }
    var owner1, owner2 := SeedPeople(db, now);
    r := SeedInventory(db, owner1, owner2, now);
  }

  /** The three seed people, into an empty people table. */
  method SeedPeople(db: DatabaseStorage, now: Instant) returns (owner1: int, owner2: int)
    requires db.Valid() && db.people == map[]
    modifies db
    ensures db.Valid() && owner1 in db.people && owner2 in db.people
    ensures |db.people| == 3 && (forall k :: k in db.people ==> db.people[k].createdAt == now)
    ensures db.vehicles == old(db.vehicles) && db.expenses == old(db.expenses) && db.images == old(db.images)
    ensures db.storeExpenses == old(db.storeExpenses)
    ensures db.nextVehicleId == old(db.nextVehicleId) && db.nextExpenseId == old(db.nextExpenseId)
  {
    var p1 := db.CreatePerson(SeedOwner1, now);
    var p2 := db.CreatePerson(SeedOwner2, now);
    var p3 := db.CreatePerson(SeedClient, now);
    ThreeRows(p1, p2, p3, now);
    owner1, owner2 := p1.id, p2.id;
  }

  /** Three rows under three different ids, all created at `now`, make a table of three rows created at `now`. */
  lemma ThreeRows(a: Person, b: Person, c: Person, now: Instant)
    requires a.id < b.id < c.id && a.createdAt == now && b.createdAt == now && c.createdAt == now
    ensures var m := map[][a.id := a][b.id := b][c.id := c];
      |m| == 3 && forall k :: k in m ==> m[k].createdAt == now
  {
    var m1 := map[][a.id := a];
    var m2 := m1[b.id := b];
    assert b.id !in m1;
    assert c.id !in m2;
  }

  /** The two seed vehicles, owned by the two seed owners; the first one's id on success. */
  method SeedVehicles(db: DatabaseStorage, owner1: int, owner2: int, now: Instant) returns (r: Result<int, StoreError>)
    requires db.Valid() && owner1 in db.people && owner2 in db.people
    modifies db
    ensures db.Valid() && db.people == old(db.people) && db.expenses == old(db.expenses)
    ensures r.Ok? ==> |db.vehicles| == |old(db.vehicles)| + 2 && r.value in db.vehicles
    ensures !old(db.PlateTaken("ABC-1234", 0)) && !old(db.PlateTaken("XYZ-9876", 0)) ==> r.Ok?
    ensures db.storeExpenses == old(db.storeExpenses) && db.images == old(db.images)
  {
    var vehicle1 := db.CreateVehicle(SeedVehicle1(owner1), now);
    if vehicle1.Err? {
      return Err(vehicle1.error);
    }
    assert vehicle1.value.id !in old(db.vehicles);
    ghost var afterFirst := db.vehicles;
    assert !old(db.PlateTaken("XYZ-9876", 0)) ==> !db.PlateTaken("XYZ-9876", 0);
    var vehicle2 := db.CreateVehicle(SeedVehicle2(owner2), now);
    if vehicle2.Err? {
      return Err(vehicle2.error);
    }
    assert vehicle2.value.id !in afterFirst;
    return Ok(vehicle1.value.id);
  }

  /** The two expenses of the first seed vehicle. */
  method SeedExpenses(db: DatabaseStorage, vehicleId: int, now: Instant)
    requires db.Valid() && vehicleId in db.vehicles
    modifies db
    ensures db.Valid() && db.people == old(db.people) && db.vehicles == old(db.vehicles)
    ensures |db.expenses| == |old(db.expenses)| + 2
    ensures forall k :: k in db.expenses && k !in old(db.expenses) ==> db.expenses[k].vehicleId == vehicleId
    ensures db.storeExpenses == old(db.storeExpenses) && db.images == old(db.images)
  {
    var e1 := db.CreateExpense(InsertExpense(vehicleId, "Lavagem completa", 15000), now);
    assert e1.value.id !in old(db.expenses);
    ghost var afterExpense := db.expenses;
    var e2 := db.CreateExpense(InsertExpense(vehicleId, "Troca de óleo", 35000), now);
    assert e2.value.id !in afterExpense;
  }

  /** The two seed vehicles, owned by the two seed owners, and two expenses of the first. */
  method SeedInventory(db: DatabaseStorage, owner1: int, owner2: int, now: Instant) returns (r: Result<(), StoreError>)
    requires db.Valid() && owner1 in db.people && owner2 in db.people
    modifies db
    ensures db.Valid() && db.people == old(db.people)
    ensures r.Ok? ==> |db.vehicles| == |old(db.vehicles)| + 2 && |db.expenses| == |old(db.expenses)| + 2
    ensures !old(db.PlateTaken("ABC-1234", 0)) && !old(db.PlateTaken("XYZ-9876", 0)) ==> r.Ok?
    ensures db.storeExpenses == old(db.storeExpenses) && db.images == old(db.images)
  {
    var first := SeedVehicles(db, owner1, owner2, now);
    if first.Err? {
      return Err(first.error);
    }
    SeedExpenses(db, first.value, now);
    return Ok(());
  }
}
