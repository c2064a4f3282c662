/** The two stored record kinds, Booking and Car, with the constraints the
    schemas place on them (enums, numeric ranges, required fields,
    defaults, trimming). Object ids are naturals, dates and timestamps are
    integer milliseconds and amounts of money are integers. */
module Records {
  import opened Outcomes
  import opened Text

  type Id = nat
  type Millis = int

  /** Milliseconds per day, `1000 * 60 * 60 * 24`. */
  const DayMs: int := 86_400_000

  /** The role the authentication token carries. */
  datatype Role = Customer | Owner

  /** The identity the authentication middleware attaches to a request. */
  datatype Caller = Caller(id: Id, role: Role)

  // ----- Booking -----

  datatype Status = Pending | Confirmed | Cancelled | Completed

  /** The status every new booking starts in. */
  const DefaultStatus: Status := Pending

  function StatusName(s: Status): string {
    match s
    case Pending => "pending"
    case Confirmed => "confirmed"
    case Cancelled => "cancelled"
    case Completed => "completed"
  }

  /** The enum check: exactly the four lower-case names are statuses. */
  function ParseStatus(text: string): (r: Option<Status>)
    ensures r.Some? ==> StatusName(r.value) == text
    ensures forall s :: StatusName(s) == text ==> r == Some(s)
  {
    if text == "pending" then Some(Pending)
    else if text == "confirmed" then Some(Confirmed)
    else if text == "cancelled" then Some(Cancelled)
    else if text == "completed" then Some(Completed)
    else None
  }

  /** Pending and confirmed bookings hold the car; the others do not. */
  predicate Active(s: Status) {
    s == Pending || s == Confirmed
  }

  /** Confirmed and completed bookings earn revenue. */
  predicate Earning(s: Status) {
    s == Confirmed || s == Completed
  }

  datatype Booking = Booking(
    id: Id,
    car: Id,
    user: Id,
    owner: Id,
    pickupDate: Millis,
    returnDate: Millis,
    status: Status,
    price: int,
    createdAt: Millis)

  function BookingKey(b: Booking): nat { b.id }
  function BookingStamp(b: Booking): int { b.createdAt }

  /** What the booking schema's validators accept. Car, user, owner and
      both dates are required, which the datatype guarantees; the status
      enum is the Status type. Nothing orders the two dates. */
  predicate ValidBooking(b: Booking) {
    b.price >= 0
  }

  /** The schema accepts a booking that returns the car before picking it up. */
  lemma SchemaAllowsReversedDates()
    ensures exists b: Booking :: ValidBooking(b) && b.returnDate < b.pickupDate
  {
    var b := Booking(0, 0, 0, 0, DayMs, 0, DefaultStatus, 0, 0);
    assert ValidBooking(b) && b.returnDate < b.pickupDate;
  }

  // ----- Car -----

  datatype Category = Sedan | SUV | Hatchback | Luxury
  datatype FuelType = Petrol | Diesel | Hybrid | Electric
  datatype Transmission = Automatic | Manual | SemiAutomatic
  datatype Location = NewYork | LosAngeles | Houston | Chicago

  function CategoryName(c: Category): string {
    match c
    case Sedan => "Sedan"
    case SUV => "SUV"
    case Hatchback => "Hatchback"
    case Luxury => "Luxury"
  }

  function ParseCategory(text: string): (r: Option<Category>)
    ensures r.Some? ==> CategoryName(r.value) == text
    ensures forall c :: CategoryName(c) == text ==> r == Some(c)
  {
    if text == "Sedan" then Some(Sedan)
    else if text == "SUV" then Some(SUV)
    else if text == "Hatchback" then Some(Hatchback)
    else if text == "Luxury" then Some(Luxury)
    else None
  }

  function FuelTypeName(f: FuelType): string {
    match f
    case Petrol => "Petrol"
    case Diesel => "Diesel"
    case Hybrid => "Hybrid"
    case Electric => "Electric"
  }

  function ParseFuelType(text: string): (r: Option<FuelType>)
    ensures r.Some? ==> FuelTypeName(r.value) == text
    ensures forall f :: FuelTypeName(f) == text ==> r == Some(f)
  {
    if text == "Petrol" then Some(Petrol)
    else if text == "Diesel" then Some(Diesel)
    else if text == "Hybrid" then Some(Hybrid)
    else if text == "Electric" then Some(Electric)
    else None
  }

  function TransmissionName(t: Transmission): string {
    match t
    case Automatic => "Automatic"
    case Manual => "Manual"
    case SemiAutomatic => "Semi-Automatic"
  }

  function ParseTransmission(text: string): (r: Option<Transmission>)
    ensures r.Some? ==> TransmissionName(r.value) == text
    ensures forall t :: TransmissionName(t) == text ==> r == Some(t)
  {
    if text == "Automatic" then Some(Automatic)
    else if text == "Manual" then Some(Manual)
    else if text == "Semi-Automatic" then Some(SemiAutomatic)
    else None
  }

  function LocationName(l: Location): string {
    match l
    case NewYork => "New York"
    case LosAngeles => "Los Angeles"
    case Houston => "Houston"
    case Chicago => "Chicago"
  }

  function ParseLocation(text: string): (r: Option<Location>)
    ensures r.Some? ==> LocationName(r.value) == text
    ensures forall l :: LocationName(l) == text ==> r == Some(l)
  {
    if text == "New York" then Some(NewYork)
    else if text == "Los Angeles" then Some(LosAngeles)
    else if text == "Houston" then Some(Houston)
    else if text == "Chicago" then Some(Chicago)
    else None
  }

  datatype Car = Car(
    id: Id,
    owner: Id,
    brand: string,
    model: string,
    image: string,
    year: int,
    category: Category,
    seatingCapacity: int,
    fuelType: FuelType,
    transmission: Transmission,
    pricePerDay: int,
    location: Location,
    description: string,
    isAvailable: bool,
    createdAt: Millis)

  function CarKey(c: Car): nat { c.id }
  function CarStamp(c: Car): int { c.createdAt }

  /** The availability a car gets when none is given. */
  const DefaultAvailability: bool := true

  /** What the car schema's validators accept: the required strings are
      non-empty, the year lies in 1990..2030, the seats in 2..12 and the
      daily price is not negative. The enums are the datatypes above. */
  predicate ValidCar(c: Car) {
    && c.brand != "" && c.model != "" && c.image != "" && c.description != ""
    && 1990 <= c.year <= 2030
    && 2 <= c.seatingCapacity <= 12
    && c.pricePerDay >= 0
  }

  /** The schema trims brand, model and description before it stores them. */
  predicate TrimmedText(c: Car) {
    Trimmed(c.brand) && Trimmed(c.model) && Trimmed(c.description)
  }
}
