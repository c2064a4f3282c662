/** The car catalogue: adding a car from an upload form, the public
    listing with its filters, the owner's own listing, and the owner-only
    update, availability toggle and delete. The car collection is a
    sequence kept in creation order inside a CarStore object. */
module Cars {
  import opened Outcomes
  import opened Seqs
  import opened Text
  import opened Records

  // ----- adding a car -----

  /** A numeric field: the text as sent, and the number the server reads
      from it (None where it reads none). In the add form that reader is
      parseInt or parseFloat, which take a leading number ("2020abc" reads
      2020); in an update body it is the schema's Number cast inside
      findByIdAndUpdate, which refuses any text that is not wholly a number.
      The reader is outside this model: each field carries its result. */
  datatype NumberField = NumberField(text: string, value: Option<int>)

  /** The multipart form body of POST /cars; every field arrives as text. */
  datatype CarForm = CarForm(
    brand: string,
    model: string,
    year: NumberField,
    pricePerDay: NumberField,
    category: string,
    transmission: string,
    fuelType: string,
    seatingCapacity: NumberField,
    location: string,
    description: string)

  /** The presence check: none of the ten fields is empty. */
  predicate FormComplete(f: CarForm) {
    && f.brand != "" && f.model != "" && f.year.text != "" && f.pricePerDay.text != ""
    && f.category != "" && f.transmission != "" && f.fuelType != ""
    && f.seatingCapacity.text != "" && f.location != "" && f.description != ""
  }

  /** The image URL stored for an uploaded file. */
  function ImageUrl(filename: string): string {
    "/uploads/" + filename
  }

  /** What the casts and the schema's validators accept of a form: the four
      enum fields name a value of their enum, the three numbers parse and
      lie in range, and brand, model and description keep some text once
      trimmed. */
  predicate SchemaAccepts(f: CarForm) {
    && ParseCategory(f.category).Some? && ParseFuelType(f.fuelType).Some?
    && ParseTransmission(f.transmission).Some? && ParseLocation(f.location).Some?
    && f.year.value.Some? && 1990 <= f.year.value.value <= 2030
    && f.seatingCapacity.value.Some? && 2 <= f.seatingCapacity.value.value <= 12
    && f.pricePerDay.value.Some? && f.pricePerDay.value.value >= 0
    && !AllWhitespace(f.brand) && !AllWhitespace(f.model) && !AllWhitespace(f.description)
  }

  /** The car document addCar saves, or None when a cast or a schema
      validator rejects it (the save throws and the handler answers 500). */
  function CarFromForm(id: Id, owner: Id, f: CarForm, filename: string, now: Millis): (r: Option<Car>)
    ensures r.Some? <==> SchemaAccepts(f)
    ensures r.Some? ==> ValidCar(r.value) && TrimmedText(r.value)
    ensures r.Some? ==> && r.value.id == id && r.value.owner == owner
                        && r.value.image == ImageUrl(filename)
                        && r.value.isAvailable && r.value.createdAt == now
                        && r.value.brand == Trim(f.brand) && r.value.model == Trim(f.model)
                        && r.value.description == Trim(f.description)
                        && CategoryName(r.value.category) == f.category
                        && LocationName(r.value.location) == f.location
                        && FuelTypeName(r.value.fuelType) == f.fuelType
                        && TransmissionName(r.value.transmission) == f.transmission
                        && Some(r.value.year) == f.year.value
                        && Some(r.value.seatingCapacity) == f.seatingCapacity.value
                        && Some(r.value.pricePerDay) == f.pricePerDay.value
  {
    match (ParseCategory(f.category), ParseFuelType(f.fuelType), ParseTransmission(f.transmission),
           ParseLocation(f.location), f.year.value, f.seatingCapacity.value, f.pricePerDay.value)
    case (Some(category), Some(fuel), Some(gearbox), Some(location), Some(year), Some(seats), Some(price)) =>
      var c := Car(id, owner, Trim(f.brand), Trim(f.model), ImageUrl(filename), year, category, seats,
                   fuel, gearbox, price, location, Trim(f.description), DefaultAvailability, now);
      if ValidCar(c) then Some(c) else None
    case _ => None
  }

  /** addCar's decision: the presence check, then the upload check, then
      the schema; on success the car that is stored. */
  function AddCarCheck(id: Id, caller: Caller, f: CarForm, upload: Option<string>, now: Millis): (r: Outcome<Car>)
    ensures r == Err(MissingField) <==> !FormComplete(f)
    ensures r == Err(MissingImage) <==> FormComplete(f) && upload.None?
    ensures r == Err(Internal) <==> FormComplete(f) && upload.Some? && !SchemaAccepts(f)
    ensures r.Ok? <==> FormComplete(f) && upload.Some? && SchemaAccepts(f)
    ensures r.Err? ==> r.failure in {MissingField, MissingImage, Internal}
    ensures r.Ok? ==> && upload.Some? && ValidCar(r.value) && TrimmedText(r.value)
                      && r.value.id == id && r.value.owner == caller.id
                      && r.value.image == ImageUrl(upload.value)
                      && r.value.isAvailable && r.value.createdAt == now
                      && r.value.brand == Trim(f.brand) && r.value.model == Trim(f.model)
                      && r.value.description == Trim(f.description)
                      && CategoryName(r.value.category) == f.category
                      && LocationName(r.value.location) == f.location
                      && FuelTypeName(r.value.fuelType) == f.fuelType
                      && TransmissionName(r.value.transmission) == f.transmission
                      && Some(r.value.year) == f.year.value
                      && Some(r.value.seatingCapacity) == f.seatingCapacity.value
                      && Some(r.value.pricePerDay) == f.pricePerDay.value
  {
    if !FormComplete(f) then Err(MissingField)
    else if upload.None? then Err(MissingImage)
    else match CarFromForm(id, caller.id, f, upload.value, now)
      case None => Err(Internal)
      case Some(c) => Ok(c)
  }

  /** A brand made only of whitespace passes the presence check but is
      trimmed to nothing, so the schema refuses it and the handler fails
      with a server error rather than a 400. */
  lemma BlankBrandIsServerError(id: Id, caller: Caller, f: CarForm, filename: string, now: Millis)
    requires FormComplete(f) && AllWhitespace(f.brand)
    ensures AddCarCheck(id, caller, f, Some(filename), now) == Err(Internal)
  {
    assert Trim(f.brand) == [];
  }

  // ----- listing -----

  /** The query string of GET /cars; an empty string or None means the
      parameter was not given. The price bounds are the parsed numbers. */
  datatype CarQuery = CarQuery(
    category: string,
    location: string,
    search: string,
    minPrice: Option<int>,
    maxPrice: Option<int>)

  /** The case-insensitive search: the text occurs in brand, model or
      description, ignoring the case of both sides. */
  predicate SearchHit(search: string, c: Car) {
    || Contains(Lower(c.brand), Lower(search))
    || Contains(Lower(c.model), Lower(search))
    || Contains(Lower(c.description), Lower(search))
  }

  /** The filter document getAllCars builds: available cars only, then
      each given parameter narrows the match. */
  predicate Matches(q: CarQuery, c: Car) {
    && c.isAvailable
    && (q.category == "" || CategoryName(c.category) == q.category)
    && (q.location == "" || LocationName(c.location) == q.location)
    && (q.minPrice.None? || q.minPrice.value <= c.pricePerDay)
    && (q.maxPrice.None? || c.pricePerDay <= q.maxPrice.value)
    && (q.search == "" || SearchHit(q.search, c))
  }

  /** The search ignores the case of the query text. */
  lemma SearchIgnoresCase(q1: CarQuery, q2: CarQuery, c: Car)
    requires q1.(search := q2.search) == q2
    requires Lower(q1.search) == Lower(q2.search)
    ensures Matches(q1, c) == Matches(q2, c)
  {
    assert (q1.search == "") == (q2.search == "") by {
      assert |Lower(q1.search)| == |q1.search|;
    }
  }

  // ----- image paths -----

  /** The file path derived from a stored image URL,
      `./uploads${image.split("/uploads")[1]}`. A URL without "/uploads"
      has no second piece, which JavaScript renders as "undefined". */
  function UploadPath(image: string): string {
    var pieces := Split(image, "/uploads");
    "./uploads" + (if |pieces| > 1 then pieces[1] else "undefined")
  }

  /** The URL stored for an upload maps back to the file under ./uploads,
      provided the name does not itself reintroduce "/uploads". */
  lemma UploadPathOfImageUrl(name: string)
    requires !Contains("/" + name, "/uploads")
    ensures UploadPath(ImageUrl(name)) == "./uploads/" + name
  {
    var url := ImageUrl(name);
    assert OccursAt(url, "/uploads", 0);
    assert IndexOf(url, "/uploads", 0) == Some(0);
    assert url[8..] == "/" + name;
    assert Split(url, "/uploads") == [url[..0]] + Split("/" + name, "/uploads");
    assert Split("/" + name, "/uploads") == ["/" + name];
  }

  /** The upload middleware names a file "car-" followed by a timestamp,
      a random number and the original extension; for any such suffix
      without a '/', the stored URL maps back to the file under ./uploads. */
  lemma GeneratedNameMapsBack(suffix: string)
    requires forall i :: 0 <= i < |suffix| ==> suffix[i] != '/'
    ensures !Contains("/" + ("car-" + suffix), "/uploads")
    ensures UploadPath(ImageUrl("car-" + suffix)) == "./uploads/car-" + suffix
  {
    var name := "car-" + suffix;
    var s := "/" + name;
    forall k | 0 <= k ensures !OccursAt(s, "/uploads", k) {
      if k + 8 <= |s| {
        if k > 0 {
          assert s[k..k + 8][0] == name[k - 1];
          if k > 4 {
            assert name[k - 1] == suffix[k - 5];
          }
        } else {
          assert s[k..k + 8][1] == 'c';
        }
      }
    }
    UploadPathOfImageUrl(name);
  }

  // ----- owner-only changes -----

  /** The 404-then-403 check shared by updateCar, toggleCarAvailability
      and deleteCar: the index of the caller's car. */
  function OwnedCarCheck(cars: seq<Car>, caller: Caller, id: Id): (r: Outcome<nat>)
    ensures r.Err? ==> r.failure in {NotFound, Forbidden}
    ensures r == Err(NotFound) <==> forall i :: 0 <= i < |cars| ==> cars[i].id != id
    ensures r == Err(Forbidden) ==> exists i :: 0 <= i < |cars| && cars[i].id == id && cars[i].owner != caller.id
    ensures r.Ok? ==> r.value < |cars| && cars[r.value].id == id && cars[r.value].owner == caller.id
    ensures (exists i :: 0 <= i < |cars| && cars[i].id == id) &&
            (forall i :: 0 <= i < |cars| && cars[i].id == id ==> cars[i].owner == caller.id)
            ==> r.Ok?
  {
    match Find(cars, CarKey, id)
    case None => Err(NotFound)
    case Some(i) => if cars[i].owner != caller.id then Err(Forbidden) else Ok(i)
  }

  /** The fields of a PUT /cars/:id body; None where the body leaves the
      field out. The body is spread into the update as it is, so the
      owner and the availability flag can be overwritten too. The flag is
      given as the result of the schema's Boolean cast of the body value:
      Some(b) when it converts to b, None when the cast refuses it. */
  datatype CarPatch = CarPatch(
    owner: Option<Id>,
    brand: Option<string>,
    model: Option<string>,
    image: Option<string>,
    year: Option<NumberField>,
    category: Option<string>,
    seatingCapacity: Option<NumberField>,
    fuelType: Option<string>,
    transmission: Option<string>,
    pricePerDay: Option<NumberField>,
    location: Option<string>,
    description: Option<string>,
    isAvailable: Option<Option<bool>>)

  const EmptyPatch := CarPatch(None, None, None, None, None, None, None, None, None, None, None, None, None)

  function PatchText(current: string, p: Option<string>): string {
    if p.Some? then Trim(p.value) else current
  }

  function PatchNumber(current: int, p: Option<NumberField>): Option<int> {
    if p.Some? then p.value.value else Some(current)
  }

  function PatchFlag(current: bool, p: Option<Option<bool>>): Option<bool> {
    if p.Some? then p.value else Some(current)
  }

  function PatchEnum<E>(current: E, p: Option<string>, parse: string -> Option<E>): Option<E> {
    if p.Some? then parse(p.value) else Some(current)
  }

  /** What the casts and the validators accept of an update to a stored
      car: each enum field the body gives names a value, each number it
      gives parses and lies in range, each text it gives keeps some text
      once trimmed, a flag it gives converts to a boolean, and an image it
      gives without an upload is not empty. */
  predicate PatchAccepted(p: CarPatch, upload: Option<string>) {
    && (p.category.None? || ParseCategory(p.category.value).Some?)
    && (p.fuelType.None? || ParseFuelType(p.fuelType.value).Some?)
    && (p.transmission.None? || ParseTransmission(p.transmission.value).Some?)
    && (p.location.None? || ParseLocation(p.location.value).Some?)
    && (p.year.None? || (p.year.value.value.Some? && 1990 <= p.year.value.value.value <= 2030))
    && (p.seatingCapacity.None? || (p.seatingCapacity.value.value.Some? && 2 <= p.seatingCapacity.value.value.value <= 12))
    && (p.pricePerDay.None? || (p.pricePerDay.value.value.Some? && p.pricePerDay.value.value.value >= 0))
    && (p.brand.None? || !AllWhitespace(p.brand.value))
    && (p.model.None? || !AllWhitespace(p.model.value))
    && (p.description.None? || !AllWhitespace(p.description.value))
    && (p.isAvailable.None? || p.isAvailable.value.Some?)
    && (upload.Some? || p.image.None? || p.image.value != "")
  }

  /** The car after findByIdAndUpdate with validators, or None when a
      cast or a validator rejects the update. Every field the body gives
      replaces the stored one (texts trimmed, enums and numbers cast), the
      others stay, and a new upload replaces the image URL whatever the
      body says. */
  function ApplyPatch(c: Car, p: CarPatch, upload: Option<string>): (r: Option<Car>)
    ensures r.Some? ==> ValidCar(r.value) && TrimmedText(r.value)
    ensures r.Some? ==> r.value.id == c.id && r.value.createdAt == c.createdAt
    ensures r.Some? ==> r.value.owner == (if p.owner.Some? then p.owner.value else c.owner)
    ensures r.Some? ==> Some(r.value.isAvailable) == (if p.isAvailable.Some? then p.isAvailable.value else Some(c.isAvailable))
    ensures r.Some? && upload.Some? ==> r.value.image == ImageUrl(upload.value)
  {
    var image := if upload.Some? then ImageUrl(upload.value) else if p.image.Some? then p.image.value else c.image;
    var category := PatchEnum(c.category, p.category, ParseCategory);
    var fuel := PatchEnum(c.fuelType, p.fuelType, ParseFuelType);
    var gearbox := PatchEnum(c.transmission, p.transmission, ParseTransmission);
    var location := PatchEnum(c.location, p.location, ParseLocation);
    var year := PatchNumber(c.year, p.year);
    var seats := PatchNumber(c.seatingCapacity, p.seatingCapacity);
    var price := PatchNumber(c.pricePerDay, p.pricePerDay);
    var available := PatchFlag(c.isAvailable, p.isAvailable);
    if category.None? || fuel.None? || gearbox.None? || location.None? || year.None? || seats.None? || price.None?
       || available.None? then None
    else
      var n := Car(c.id,
                   if p.owner.Some? then p.owner.value else c.owner,
                   PatchText(c.brand, p.brand), PatchText(c.model, p.model), image,
                   year.value, category.value, seats.value, fuel.value, gearbox.value, price.value, location.value,
                   PatchText(c.description, p.description),
                   available.value,
                   c.createdAt);
      if ValidCar(n) && TrimmedText(n) then Some(n) else None
  }

  /** What an accepted update stores: each field the body gives, cast (and
      trimmed for texts), each field it leaves out as it was, and the
      uploaded file's URL when there is one. */
  lemma PatchSetsFields(c: Car, p: CarPatch, upload: Option<string>)
    requires ApplyPatch(c, p, upload).Some?
    ensures ApplyPatch(c, p, upload).value.brand == (if p.brand.Some? then Trim(p.brand.value) else c.brand)
    ensures ApplyPatch(c, p, upload).value.model == (if p.model.Some? then Trim(p.model.value) else c.model)
    ensures ApplyPatch(c, p, upload).value.description ==
            (if p.description.Some? then Trim(p.description.value) else c.description)
    ensures Some(ApplyPatch(c, p, upload).value.year) == (if p.year.Some? then p.year.value.value else Some(c.year))
    ensures Some(ApplyPatch(c, p, upload).value.seatingCapacity) ==
            (if p.seatingCapacity.Some? then p.seatingCapacity.value.value else Some(c.seatingCapacity))
    ensures Some(ApplyPatch(c, p, upload).value.pricePerDay) ==
            (if p.pricePerDay.Some? then p.pricePerDay.value.value else Some(c.pricePerDay))
    ensures p.category.Some? ==> CategoryName(ApplyPatch(c, p, upload).value.category) == p.category.value
    ensures p.category.None? ==> ApplyPatch(c, p, upload).value.category == c.category
    ensures p.fuelType.Some? ==> FuelTypeName(ApplyPatch(c, p, upload).value.fuelType) == p.fuelType.value
    ensures p.fuelType.None? ==> ApplyPatch(c, p, upload).value.fuelType == c.fuelType
    ensures p.transmission.Some? ==> TransmissionName(ApplyPatch(c, p, upload).value.transmission) == p.transmission.value
    ensures p.transmission.None? ==> ApplyPatch(c, p, upload).value.transmission == c.transmission
    ensures p.location.Some? ==> LocationName(ApplyPatch(c, p, upload).value.location) == p.location.value
    ensures p.location.None? ==> ApplyPatch(c, p, upload).value.location == c.location
    ensures ApplyPatch(c, p, upload).value.image ==
            (if upload.Some? then ImageUrl(upload.value) else if p.image.Some? then p.image.value else c.image)
  {
  }

  /** A stored car's update is rejected exactly when a field the body
      gives fails its cast or its validator. */
  lemma PatchRejectedExactly(c: Car, p: CarPatch, upload: Option<string>)
    requires ValidCar(c) && TrimmedText(c)
    ensures ApplyPatch(c, p, upload).Some? <==> PatchAccepted(p, upload)
  {
  }

  /** An update with an empty body and no upload leaves a stored car as it is. */
  lemma EmptyPatchKeepsCar(c: Car)
    requires ValidCar(c) && TrimmedText(c)
    ensures ApplyPatch(c, EmptyPatch, None) == Some(c)
  {
  }

  /** Because the body is spread into the update, an owner can hand the
      car to another user, which the booking records' copied owner field
      does not follow. */
  lemma PatchCanTransferOwnership(c: Car, newOwner: Id)
    requires ValidCar(c) && TrimmedText(c) && newOwner != c.owner
    ensures ApplyPatch(c, EmptyPatch.(owner := Some(newOwner)), None) == Some(c.(owner := newOwner))
  {
  }

  /** toggleCarAvailability's change: flip the flag, nothing else. */
  function Toggle(c: Car): (r: Car)
    ensures r.isAvailable != c.isAvailable
    ensures r.(isAvailable := c.isAvailable) == c
  {
    c.(isAvailable := !c.isAvailable)
  }

  lemma ToggleInvolution(c: Car)
    ensures Toggle(Toggle(c)) == c
  {
  }

  /** The catalogue invariant: every stored car passed the schema, ids are
      unique and fresh ids lie above all of them, and creation times never
      decrease. */
  ghost predicate WellFormed(cars: seq<Car>, nextId: Id) {
    && (forall i :: 0 <= i < |cars| ==> cars[i].id < nextId && ValidCar(cars[i]) && TrimmedText(cars[i]))
    && (forall i, j :: 0 <= i < j < |cars| ==> cars[i].id != cars[j].id)
    && Ascending(cars, CarStamp)
  }

  /** Deleting the i-th car keeps the invariant and leaves no car with its id. */
  lemma RemoveKeepsWellFormed(cars: seq<Car>, nextId: Id, i: nat)
    requires WellFormed(cars, nextId) && i < |cars|
    ensures WellFormed(cars[..i] + cars[i + 1..], nextId)
    ensures forall c :: c in cars[..i] + cars[i + 1..] ==> c.id != cars[i].id
  {
    var r := cars[..i] + cars[i + 1..];
    assert forall j :: 0 <= j < |r| ==> r[j] == cars[if j < i then j else j + 1];
    AscendingRemove(cars, i, CarStamp);
  }

  /** The car collection, in creation order. */
  class CarStore {
    var cars: seq<Car>
    var nextId: Id

    ghost predicate Valid()
      reads this
    {
      WellFormed(cars, nextId)
    }

    constructor ()
      ensures Valid() && cars == [] && nextId == 0
    {
      cars := [];
      nextId := 0;
    }

    /** POST /cars (owner only). */
    method AddCar(caller: Caller, form: CarForm, upload: Option<string>, now: Millis) returns (r: Outcome<Car>)
      requires Valid() && caller.role == Owner
      requires forall i :: 0 <= i < |cars| ==> cars[i].createdAt <= now
      modifies this
      ensures Valid()
      ensures r == AddCarCheck(old(nextId), caller, form, upload, now)
      ensures r.Ok? ==> cars == old(cars) + [r.value] && nextId == old(nextId) + 1
      ensures r.Err? ==> cars == old(cars) && nextId == old(nextId)
    {
      r := AddCarCheck(nextId, caller, form, upload, now);
      if r.Ok? {
        AscendingAppend(cars, r.value, CarStamp);
        cars := cars + [r.value];
        nextId := nextId + 1;
      }
    }

    /** GET /cars: the matching cars, newest first. */
    method GetAllCars(q: CarQuery) returns (r: seq<Car>)
      requires Valid()
      ensures forall c :: c in r <==> c in cars && Matches(q, c)
      ensures forall i :: 0 <= i < |r| ==> r[i].isAvailable
      ensures Descending(r, CarStamp)
      ensures IsSubsequence(Reverse(r), cars)
    {
      var keep := (c: Car) => Matches(q, c);
      r := Reverse(Filter(cars, keep));
      NewestFirstQuery(cars, keep, CarStamp);
    }

    /** GET /cars/:id. */
    method GetCarById(id: Id) returns (r: Outcome<Car>)
      requires Valid()
      ensures r.Ok? ==> r.value in cars && r.value.id == id
      ensures r.Err? <==> forall i :: 0 <= i < |cars| ==> cars[i].id != id
      ensures r.Err? ==> r.failure == NotFound
    {
      match Find(cars, CarKey, id)
      case None => r := Err(NotFound);
      case Some(i) => r := Ok(cars[i]);
    }

    /** GET /cars/owner/my-cars: exactly the caller's cars, newest first. */
    method GetOwnerCars(caller: Caller) returns (r: seq<Car>)
      requires Valid() && caller.role == Owner
      ensures forall c :: c in r <==> c in cars && c.owner == caller.id
      ensures Descending(r, CarStamp)
      ensures IsSubsequence(Reverse(r), cars)
    {
      var keep := (c: Car) => c.owner == caller.id;
      r := Reverse(Filter(cars, keep));
      NewestFirstQuery(cars, keep, CarStamp);
    }

    /** PUT /cars/:id. `discarded` is the image file the handler unlinks:
        it is chosen after the ownership checks but before the update is
        validated, so a rejected update still loses the old file. */
    method UpdateCar(caller: Caller, id: Id, patch: CarPatch, upload: Option<string>)
      returns (r: Outcome<Car>, discarded: Option<string>)
      requires Valid() && caller.role == Owner
      modifies this
      ensures Valid() && nextId == old(nextId) && |cars| == |old(cars)|
      ensures OwnedCarCheck(old(cars), caller, id).Err? ==>
                r == Err(OwnedCarCheck(old(cars), caller, id).failure) && discarded == None && cars == old(cars)
      ensures OwnedCarCheck(old(cars), caller, id).Ok? ==>
                var i := OwnedCarCheck(old(cars), caller, id).value;
                && discarded == (if upload.Some? && old(cars)[i].image != "" then Some(UploadPath(old(cars)[i].image)) else None)
                && match ApplyPatch(old(cars)[i], patch, upload)
                   case None => r == Err(Internal) && cars == old(cars)
                   case Some(n) => r == Ok(n) && cars == old(cars)[i := n]
    {
      var check := OwnedCarCheck(cars, caller, id);
      if check.Err? {
        r, discarded := Err(check.failure), None;
        return;
      }
      var i := check.value;
      discarded := if upload.Some? && cars[i].image != "" then Some(UploadPath(cars[i].image)) else None;
      match ApplyPatch(cars[i], patch, upload)
      case None =>
        r := Err(Internal);
      case Some(n) =>
        cars := cars[i := n];
        r := Ok(n);
    }

    /** PATCH /cars/:id/toggle. */
    method ToggleAvailability(caller: Caller, id: Id) returns (r: Outcome<Car>)
      requires Valid() && caller.role == Owner
      modifies this
      ensures Valid() && nextId == old(nextId)
      ensures OwnedCarCheck(old(cars), caller, id).Err? ==>
                r == Err(OwnedCarCheck(old(cars), caller, id).failure) && cars == old(cars)
      ensures OwnedCarCheck(old(cars), caller, id).Ok? ==>
                var i := OwnedCarCheck(old(cars), caller, id).value;
                r == Ok(Toggle(old(cars)[i])) && cars == old(cars)[i := Toggle(old(cars)[i])]
    {
      var check := OwnedCarCheck(cars, caller, id);
      if check.Err? {
        r := Err(check.failure);
        return;
      }
      var i := check.value;
      var t := Toggle(cars[i]);
      cars := cars[i := t];
      r := Ok(t);
    }

    /** DELETE /cars/:id. Only the car goes; bookings that name it are
        kept (they live in another store this method cannot touch).
        `discarded` is the image file the handler unlinks. */
    method DeleteCar(caller: Caller, id: Id) returns (r: Outcome<()>, discarded: Option<string>)
      requires Valid() && caller.role == Owner
      modifies this
      ensures Valid() && nextId == old(nextId)
      ensures OwnedCarCheck(old(cars), caller, id).Err? ==>
                r == Err(OwnedCarCheck(old(cars), caller, id).failure) && discarded == None && cars == old(cars)
      ensures OwnedCarCheck(old(cars), caller, id).Ok? ==>
                var i := OwnedCarCheck(old(cars), caller, id).value;
                && r == Ok(())
                && discarded == (if old(cars)[i].image != "" then Some(UploadPath(old(cars)[i].image)) else None)
                && cars == old(cars)[..i] + old(cars)[i + 1..]
                && forall j :: 0 <= j < |cars| ==> cars[j].id != id
    {
      var check := OwnedCarCheck(cars, caller, id);
      if check.Err? {
        r, discarded := Err(check.failure), None;
        return;
      }
      var i := check.value;
      discarded := if cars[i].image != "" then Some(UploadPath(cars[i].image)) else None;
      RemoveKeepsWellFormed(cars, nextId, i);
      cars := cars[..i] + cars[i + 1..];
      r := Ok(());
    }
  }

  /** Toggling the same car twice restores the store. */
  method ToggleTwiceRestores(store: CarStore, caller: Caller, id: Id)
    requires store.Valid() && caller.role == Owner
    modifies store
    ensures store.cars == old(store.cars)
  {
    var first := store.ToggleAvailability(caller, id);
    var second := store.ToggleAvailability(caller, id);
  }
}
