/** The scan history screen of components/PreviousScansGallery.tsx: a fixed
    list of past scans, two status lookups that label each scan, the route a
    tapped scan opens, and the search bar's filter toggle. */
module ScanGallery {

  /** One past scan; `healthStatus` is one of "healthy", "warning" and
      "critical" for the built-in list, but the lookups accept any string. */
  datatype ScanItem = ScanItem(id: string, plantName: string, date: string, healthStatus: string)

  /** `getHealthStatusColor`. */
  function StatusColor(status: string): (r: string)
    ensures status == "healthy" <==> r == "bg-green-500"
    ensures status == "warning" <==> r == "bg-yellow-500"
    ensures status == "critical" <==> r == "bg-red-500"
    ensures status !in {"healthy", "warning", "critical"} <==> r == "bg-gray-500"
  {
    if status == "healthy" then "bg-green-500"
    else if status == "warning" then "bg-yellow-500"
    else if status == "critical" then "bg-red-500"
    else "bg-gray-500"
  }

  /** `getHealthStatusText`. */
  function StatusText(status: string): (r: string)
    ensures status == "healthy" <==> r == "Healthy"
    ensures status == "warning" <==> r == "Needs Attention"
    ensures status == "critical" <==> r == "Critical"
    ensures status !in {"healthy", "warning", "critical"} <==> r == "Unknown"
  {
    if status == "healthy" then "Healthy"
    else if status == "warning" then "Needs Attention"
    else if status == "critical" then "Critical"
    else "Unknown"
  }

  /** The two lookups agree: the dot is gray exactly when the label reads
      "Unknown", and each colour goes with one label. */
  lemma ColorMatchesText(status: string)
    ensures StatusColor(status) == "bg-gray-500" <==> StatusText(status) == "Unknown"
    ensures StatusColor(status) == "bg-green-500" <==> StatusText(status) == "Healthy"
    ensures StatusColor(status) == "bg-yellow-500" <==> StatusText(status) == "Needs Attention"
    ensures StatusColor(status) == "bg-red-500" <==> StatusText(status) == "Critical"
  {
  }

  /** `defaultScans`, without the image URLs. */
  const DefaultScans: seq<ScanItem> := [
    ScanItem("1", "Tomato Plant", "2023-06-15", "healthy"),
    ScanItem("2", "Corn", "2023-06-10", "warning"),
    ScanItem("3", "Wheat", "2023-06-05", "healthy"),
    ScanItem("4", "Soybean", "2023-06-01", "critical"),
    ScanItem("5", "Rice", "2023-05-28", "healthy")
  ]

  /** The list's `keyExtractor` uses the id: the built-in ids are pairwise
      distinct. */
  lemma DefaultIdsDistinct()
    ensures forall i, j :: 0 <= i < j < |DefaultScans| ==> DefaultScans[i].id != DefaultScans[j].id
  {
  }

  predicate IsDigit(c: char) { '0' <= c <= '9' }

  /** JavaScript's `<` on strings of code units below U+10000: the first
      difference decides, and a proper prefix is smaller. */
  predicate LexLess(a: string, b: string)
  {
    b != [] && (a == [] || a[0] < b[0] || (a[0] == b[0] && LexLess(a[1..], b[1..])))
  }

  /** The weight of a character in `Value`: a digit counts its value, any
      other character (the dashes of a date) counts zero. */
  function Weight(c: char): nat
  {
    if IsDigit(c) then (c as int - '0' as int) else 0
  }

  function Pow10(n: nat): (r: nat)
    ensures r >= 1
  {
    if n == 0 then 1 else 10 * Pow10(n - 1)
  }

  /** The text read as a decimal numeral, separators counting as zero
      digits: "2023-06-15" is 2023006015. */
  function Value(s: string): (r: nat)
    ensures r < Pow10(|s|)
  {
    if s == [] then 0
    else
      var p := Pow10(|s| - 1);
      ScaleMonotone(Weight(s[0]), 9, p);
      Weight(s[0]) * p + Value(s[1..])
  }

  lemma ScaleMonotone(x: nat, y: nat, p: nat)
    requires x <= y
    ensures x * p <= y * p
  {
  }

  /** Two texts of the same shape: equal length, and at each position either
      two digits or the same character. */
  predicate SameShape(a: string, b: string)
  {
    |a| == |b| && forall i :: 0 <= i < |a| ==> (IsDigit(a[i]) && IsDigit(b[i])) || a[i] == b[i]
  }

  /** Dropping the first character keeps two texts of the same shape. */
  lemma SameShapeTail(a: string, b: string)
    requires SameShape(a, b) && a != []
    ensures SameShape(a[1..], b[1..])
  {
    forall i | 0 <= i < |a| - 1
      ensures (IsDigit(a[1..][i]) && IsDigit(b[1..][i])) || a[1..][i] == b[1..][i]
    {
      assert a[1..][i] == a[i + 1] && b[1..][i] == b[i + 1];
    }
  }

  /** A numeral's leading digit outweighs everything after it. */
  lemma LeadingDigitDecides(wa: nat, wb: nat, ra: nat, rb: nat, p: nat)
    requires ra < p && rb < p
    ensures wa < wb ==> wa * p + ra < wb * p + rb
    ensures wa == wb ==> (wa * p + ra < wb * p + rb <==> ra < rb)
  {
    if wa < wb {
      ScaleMonotone(wa + 1, wb, p);
    }
  }

  /** For texts of the same shape, string order is numeric order. This is
      why the ISO dates of the scans sort correctly as plain strings. */
  lemma {:induction false} LexLessIsNumericLess(a: string, b: string)
    requires SameShape(a, b)
    ensures LexLess(a, b) <==> Value(a) < Value(b)
    decreases |a|
  {
    if a != [] {
      SameShapeTail(a, b);
      LexLessIsNumericLess(a[1..], b[1..]);
      var p := Pow10(|a| - 1);
      var wa, wb := Weight(a[0]), Weight(b[0]);
      assert Value(a) == wa * p + Value(a[1..]);
      assert Value(b) == wb * p + Value(b[1..]);
      if a[0] != b[0] {
        assert IsDigit(a[0]) && IsDigit(b[0]);
        assert a[0] < b[0] <==> wa < wb;
      }
      LeadingDigitDecides(wa, wb, Value(a[1..]), Value(b[1..]), p);
      LeadingDigitDecides(wb, wa, Value(b[1..]), Value(a[1..]), p);
    }
  }

  /** A date in the form yyyy-mm-dd. */
  predicate IsoDate(d: string)
  {
    |d| == 10 && d[4] == '-' && d[7] == '-'
    && forall i :: 0 <= i < 10 && i != 4 && i != 7 ==> IsDigit(d[i])
  }

  /** Two ISO dates compare as strings exactly as their numbers do. */
  lemma IsoDatesCompareNumerically(a: string, b: string)
    requires IsoDate(a) && IsoDate(b)
    ensures LexLess(a, b) <==> Value(a) < Value(b)
  {
    LexLessIsNumericLess(a, b);
  }

  /** The first position where two texts differ decides their order. */
  lemma {:induction false} FirstDifferenceDecides(a: string, b: string, k: nat)
    requires k < |a| && k < |b| && a[k] < b[k]
    requires forall i :: 0 <= i < k ==> a[i] == b[i]
    ensures LexLess(a, b)
    decreases k
  {
    if k > 0 {
      assert a[0] == b[0];
      FirstDifferenceDecides(a[1..], b[1..], k - 1);
    }
  }

  /** Each built-in scan is newer than the next one, by string order. */
  lemma DefaultConsecutiveNewestFirst(i: nat)
    requires i + 1 < |DefaultScans|
    ensures LexLess(DefaultScans[i + 1].date, DefaultScans[i].date)
  {
    var a, b := DefaultScans[i + 1].date, DefaultScans[i].date;
    if i == 1 {
      FirstDifferenceDecides(a, b, 8);
    } else if i == 3 {
      FirstDifferenceDecides(a, b, 6);
    } else {
      FirstDifferenceDecides(a, b, 9);
    }
  }

  /** Every built-in date is in the form yyyy-mm-dd. */
  lemma DefaultDatesIso()
    ensures forall i :: 0 <= i < |DefaultScans| ==> IsoDate(DefaultScans[i].date)
  {
    forall i | 0 <= i < |DefaultScans| ensures IsoDate(DefaultScans[i].date) {
    }
  }

  /** A list whose dates fall from each scan to the next falls from any scan
      to any later one. */
  lemma {:induction false} NewerThanLater(scans: seq<ScanItem>, i: nat, j: nat)
    requires i < j < |scans|
    requires forall k :: 0 <= k < |scans| - 1 ==> Value(scans[k + 1].date) < Value(scans[k].date)
    ensures Value(scans[j].date) < Value(scans[i].date)
    decreases j - i
  {
    if i + 1 < j {
      NewerThanLater(scans, i, j - 1);
    }
  }

  /** The built-in list is ordered newest first, both by date value and by
      string order. */
  lemma DefaultNewestFirst()
    ensures forall i :: 0 <= i < |DefaultScans| ==> IsoDate(DefaultScans[i].date)
    ensures forall i, j :: 0 <= i < j < |DefaultScans| ==>
      Value(DefaultScans[j].date) < Value(DefaultScans[i].date)
      && LexLess(DefaultScans[j].date, DefaultScans[i].date)
  {
    DefaultDatesIso();
    forall k | 0 <= k < |DefaultScans| - 1
      ensures Value(DefaultScans[k + 1].date) < Value(DefaultScans[k].date)
    {
      DefaultConsecutiveNewestFirst(k);
      IsoDatesCompareNumerically(DefaultScans[k + 1].date, DefaultScans[k].date);
    }
    forall i, j | 0 <= i < j < |DefaultScans|
      ensures Value(DefaultScans[j].date) < Value(DefaultScans[i].date)
      ensures LexLess(DefaultScans[j].date, DefaultScans[i].date)
    {
      NewerThanLater(DefaultScans, i, j);
      IsoDatesCompareNumerically(DefaultScans[j].date, DefaultScans[i].date);
    }
  }

  /** The navigation `handleScanPress` requests. */
  datatype Route = Route(pathname: string, params: map<string, string>)

  /** `handleScanPress(item)`: open the details screen with the scan's id and
      plant name, and no other parameter. */
  function ScanRoute(item: ScanItem): (r: Route)
    ensures r.pathname == "/plant-details"
    ensures r.params.Keys == {"id", "name"}
    ensures r.params["id"] == item.id && r.params["name"] == item.plantName
  {
    Route("/plant-details", map["id" := item.id, "name" := item.plantName])
  }

  /** Among the built-in scans, the route's id parameter tells which scan was
      pressed. */
  lemma RouteIdentifiesScan(i: nat, j: nat)
    requires i < |DefaultScans| && j < |DefaultScans|
    requires ScanRoute(DefaultScans[i]).params["id"] == ScanRoute(DefaultScans[j]).params["id"]
    ensures i == j
  {
    DefaultIdsDistinct();
  }

  /** The placeholder the search bar shows: the query, or a hint when the
      query is empty. */
  function SearchLabel(searchQuery: string): (r: string)
    ensures searchQuery != [] ==> r == searchQuery
    ensures searchQuery == [] ==> r == "Search plants..."
  {
    if searchQuery != [] then searchQuery else "Search plants..."
  }

  /** The screen's `searchQuery` and `filterActive` state. */
  class Gallery {
    var searchQuery: string
    var filterActive: bool

    constructor ()
      ensures searchQuery == "" && !filterActive
    {
      searchQuery := "";
      filterActive := false;
    }

    /** Tapping the search bar: flip `filterActive`, nothing else. */
    method TapSearchBar()
      modifies this
      ensures filterActive == !old(filterActive) && searchQuery == old(searchQuery)
    {
      filterActive := !filterActive;
    }
  }

  /** One tap on a fresh screen opens the filter panel, a second closes it
      again. */
  method TapTwice() returns (afterOne: bool, afterTwo: bool)
    ensures afterOne && !afterTwo
  {
    var g := new Gallery();
    g.TapSearchBar();
    afterOne := g.filterActive;
    g.TapSearchBar();
    afterTwo := g.filterActive;
  }
}
