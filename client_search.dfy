/** The search box of the car listing page: the input is lower-cased and
    split on spaces into terms, blank pieces are dropped, and a car stays
    listed when its descriptor "brand model category transmission",
    lower-cased, contains every term. The page's state setter becomes the
    returned list. */
module ClientSearch {
  import opened Seqs
  import opened Text
  import opened Records

  function NonBlank(t: string): bool {
    Trim(t) != ""
  }

  /** The search terms: the lower-cased input split on ' ', with the pieces
      that are empty after trimming dropped. */
  function Terms(input: string): (r: seq<string>)
    ensures forall t :: t in r <==> t in Split(Lower(input), " ") && NonBlank(t)
    ensures forall t :: multiset(r)[t] == if NonBlank(t) then multiset(Split(Lower(input), " "))[t] else 0
    ensures IsSubsequence(r, Split(Lower(input), " "))
    ensures forall i :: 0 <= i < |r| ==> NonBlank(r[i]) && !Contains(r[i], " ")
    ensures forall i, j :: 0 <= i < |r| && 0 <= j < |r[i]| ==> r[i][j] in Lower(input)
  {
    var pieces := Split(Lower(input), " ");
    DropPieces(pieces, Lower(input), NonBlank);
    Filter(pieces, NonBlank)
  }

  /** Dropping pieces of a split keeps the rest, in order and with their
      multiplicity, and each kept piece is still a piece of the split text. */
  lemma DropPieces(pieces: seq<string>, text: string, keep: string -> bool)
    requires forall i :: 0 <= i < |pieces| ==> !Contains(pieces[i], " ")
    requires forall i, j :: 0 <= i < |pieces| && 0 <= j < |pieces[i]| ==> pieces[i][j] in text
    ensures var r := Filter(pieces, keep);
            && (forall t :: t in r <==> t in pieces && keep(t))
            && (forall t :: multiset(r)[t] == if keep(t) then multiset(pieces)[t] else 0)
            && IsSubsequence(r, pieces)
            && (forall i :: 0 <= i < |r| ==> keep(r[i]) && !Contains(r[i], " "))
            && (forall i, j :: 0 <= i < |r| && 0 <= j < |r[i]| ==> r[i][j] in text)
  {
    FilterIsSubsequence(pieces, keep);
    FilterMultiplicity(pieces, keep);
  }

  /** The text a car is searched in. */
  function Descriptor(c: Car): string {
    Lower(c.brand + " " + c.model + " " + CategoryName(c.category) + " " + TransmissionName(c.transmission))
  }

  /** Every term occurs in the car's descriptor. */
  predicate KeepCar(terms: seq<string>, c: Car) {
    forall i :: 0 <= i < |terms| ==> Contains(Descriptor(c), terms[i])
  }

  /** `applyfilter`: an empty input lists every car; otherwise exactly the
      cars whose descriptor contains every term stay, in their order. */
  function ApplyFilter(input: string, cars: seq<Car>): (r: seq<Car>)
    ensures input == "" ==> r == cars
    ensures input != "" ==> forall c :: c in r <==> c in cars && KeepCar(Terms(input), c)
    ensures |r| <= |cars|
  {
    if input == "" then cars
    else Filter(cars, (c: Car) => KeepCar(Terms(input), c))
  }

  /** The filter only removes cars; the rest keep their order. */
  lemma ApplyFilterIsSubsequence(input: string, cars: seq<Car>)
    ensures IsSubsequence(ApplyFilter(input, cars), cars)
  {
    FilterIsSubsequence(cars, (c: Car) => KeepCar(Terms(input), c));
    if input == "" {
      SubsequenceOfSelf(cars);
    }
  }

  /** An input made only of whitespace yields no terms, so every car is
      listed. */
  lemma BlankInputKeepsAll(input: string, cars: seq<Car>)
    requires AllWhitespace(input)
    ensures Terms(input) == []
    ensures ApplyFilter(input, cars) == cars
  {
    var low := Lower(input);
    LowerKeepsWhitespace(input);
    var pieces := Split(low, " ");
    forall i | 0 <= i < |pieces| ensures !NonBlank(pieces[i]) {
      forall j | 0 <= j < |pieces[i]| ensures IsWhitespace(pieces[i][j]) {
        var k :| 0 <= k < |low| && low[k] == pieces[i][j];
      }
    }
    FilterKeepsNone(pieces, NonBlank);
    FilterKeepsAll(cars, (c: Car) => KeepCar(Terms(input), c));
  }

  /** The result depends on the input only through its lower-cased form:
      inputs that differ only in the case of letters list the same cars. */
  lemma CaseDoesNotMatter(a: string, b: string, cars: seq<Car>)
    requires Lower(a) == Lower(b)
    ensures ApplyFilter(a, cars) == ApplyFilter(b, cars)
    ensures ApplyFilter(Lower(a), cars) == ApplyFilter(a, cars)
  {
    LowerIdempotent(a);
    assert Terms(a) == Terms(b) == Terms(Lower(a));
  }
}
