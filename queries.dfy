/**
 * The per-resource queries of the knowledge API, with the mock tables passed in:
 * GET /network/sites, /network/incidents, /network/maintenance,
 * /solutions/products and /solutions/cases.
 */
module Queries {
  import opened Wrappers
  import opened Strings
  import opened Seqs
  import opened Catalog
  import opened Sorting

  /**
   * An optional string query parameter enables its filter when it is truthy:
   * neither None nor the empty string.
   */
  predicate Given(arg: Option<string>)
  {
    arg.Some? && arg.value != ""
  }

  /** The lowered value of a query parameter; the empty string when it is absent. */
  function ArgKey(arg: Option<string>): string
  {
    if arg.Some? then Lower(arg.value) else ""
  }

  /** The 404 of the site lookup: the location asked for and every key on offer. */
  datatype SitesNotFound = SitesNotFound(location: string, available: seq<string>)

  /** The keys of the site dictionary, in insertion order. */
  function Keys(table: seq<Bucket>): seq<string>
  {
    seq(|table|, i requires 0 <= i < |table| => table[i].key)
  }

  /** The position of key among the bucket keys, if it is one. */
  function FindBucket(table: seq<Bucket>, key: string): (r: Option<nat>)
    ensures r.Some? ==> r.value < |table| && table[r.value].key == key
    ensures r.None? ==> forall i :: 0 <= i < |table| ==> table[i].key != key
  {
    if table == [] then None
    else if table[0].key == key then Some(0)
    else match FindBucket(table[1..], key)
      case None => None
      case Some(i) => Some(i + 1)
  }

  /** GET /network/sites: the bucket of `location.lower()`, or not found. */
  function GetCellSites(table: SiteTable, location: string): (r: Result<seq<CellSite>, SitesNotFound>)
    ensures r.Success? <==> Lower(location) in Keys(table)
    ensures forall i :: 0 <= i < |table| && table[i].key == Lower(location) ==> r == Success(table[i].sites)
    ensures r.Failure? ==> r.error == SitesNotFound(location, Keys(table))
  {
    match FindBucket(table, Lower(location))
    case None => Failure(SitesNotFound(location, Keys(table)))
    case Some(i) =>
      assert Keys(table)[i] == table[i].key;
      Success(table[i].sites)
  }

  function InArea(locationKey: string): Incident -> bool
  {
    (inc: Incident) => Contains(Lower(inc.affectedArea), locationKey)
  }

  function HasSeverity(severity: string): Incident -> bool
  {
    (inc: Incident) => inc.severity == severity
  }

  /**
   * An incident passes the filters of GET /network/incidents that apply: its lowered
   * affected area contains the lowered location, and its stored severity equals the
   * lowered severity.
   */
  predicate IncidentMatches(inc: Incident, location: Option<string>, severity: Option<string>)
  {
    (Given(location) ==> Contains(Lower(inc.affectedArea), Lower(location.value)))
    && (Given(severity) ==> inc.severity == Lower(severity.value))
  }

  /**
   * GET /network/incidents: the matching incidents, each filter applied only when its
   * parameter is given, in catalog order and each as often as it occurs there.
   */
  function GetActiveIncidents(incidents: seq<Incident>, location: Option<string>, severity: Option<string>)
    : (r: seq<Incident>)
    ensures IsSubsequence(r, incidents)
    ensures forall i :: 0 <= i < |r| ==> IncidentMatches(r[i], location, severity)
    ensures forall i :: 0 <= i < |incidents| && IncidentMatches(incidents[i], location, severity) ==> incidents[i] in r
    ensures forall x :: multiset(r)[x] == if IncidentMatches(x, location, severity) then multiset(incidents)[x] else 0
    ensures !Given(location) && !Given(severity) ==> r == incidents
  {
    IncidentFilterCounts(incidents, location, severity);
    IncidentFilterSound(incidents, location, severity);
    IncidentFilterComplete(incidents, location, severity);
    FilterWhenTwice(Given(location), InArea(ArgKey(location)), Given(severity), HasSeverity(ArgKey(severity)),
                    Matching(location, severity), incidents);
    FilteredIncidents(incidents, location, severity)
  }

  function Matching(location: Option<string>, severity: Option<string>): Incident -> bool
  {
    (inc: Incident) => IncidentMatches(inc, location, severity)
  }

  /** What the two optional filters of GET /network/incidents leave. */
  function FilteredIncidents(incidents: seq<Incident>, location: Option<string>, severity: Option<string>): seq<Incident>
  {
    FilterWhen(Given(severity), FilterWhen(Given(location), incidents, InArea(ArgKey(location))), HasSeverity(ArgKey(severity)))
  }

  /** The conjunction of the filters that apply is IncidentMatches. */
  lemma MatchingIsBothFilters(location: Option<string>, severity: Option<string>)
    ensures forall x :: (Matching(location, severity)(x)
      == ((!Given(location) || InArea(ArgKey(location))(x)) && (!Given(severity) || HasSeverity(ArgKey(severity))(x))))
  {
  }

  lemma IncidentFilterCounts(incidents: seq<Incident>, location: Option<string>, severity: Option<string>)
    ensures forall x :: (multiset(FilteredIncidents(incidents, location, severity))[x]
      == if IncidentMatches(x, location, severity) then multiset(incidents)[x] else 0)
  {
    MatchingIsBothFilters(location, severity);
    FilterWhenTwice(Given(location), InArea(ArgKey(location)), Given(severity), HasSeverity(ArgKey(severity)),
                    Matching(location, severity), incidents);
  }

  lemma IncidentFilterSound(incidents: seq<Incident>, location: Option<string>, severity: Option<string>)
    ensures var r := FilteredIncidents(incidents, location, severity);
      forall i :: 0 <= i < |r| ==> IncidentMatches(r[i], location, severity)
  {
    MatchingIsBothFilters(location, severity);
    FilterWhenTwice(Given(location), InArea(ArgKey(location)), Given(severity), HasSeverity(ArgKey(severity)),
                    Matching(location, severity), incidents);
  }

  lemma IncidentFilterComplete(incidents: seq<Incident>, location: Option<string>, severity: Option<string>)
    ensures forall i :: (0 <= i < |incidents| && IncidentMatches(incidents[i], location, severity)
      ==> incidents[i] in FilteredIncidents(incidents, location, severity))
  {
    MatchingIsBothFilters(location, severity);
    FilterWhenTwice(Given(location), InArea(ArgKey(location)), Given(severity), HasSeverity(ArgKey(severity)),
                    Matching(location, severity), incidents);
  }

  /** Filtering by area then severity keeps the same incidents as severity then area. */
  lemma IncidentFiltersCommute(incidents: seq<Incident>, locationKey: string, severity: string)
    ensures Filter(Filter(incidents, InArea(locationKey)), HasSeverity(severity))
         == Filter(Filter(incidents, HasSeverity(severity)), InArea(locationKey))
  {
    FilterCommute(incidents, InArea(locationKey), HasSeverity(severity));
  }

  function IsActive(now: int): Maintenance -> bool
  {
    (m: Maintenance) => m.scheduledStart <= now <= m.scheduledEnd
  }

  /**
   * GET /network/maintenance: with activeOnly, the windows whose interval contains
   * now (read once); otherwise every window.
   */
  function GetScheduledMaintenance(maintenance: seq<Maintenance>, activeOnly: bool, now: int)
    : (r: seq<Maintenance>)
    ensures IsSubsequence(r, maintenance)
    ensures activeOnly ==> forall i :: 0 <= i < |r| ==> r[i].scheduledStart <= now <= r[i].scheduledEnd
    ensures activeOnly ==> forall i ::
      (0 <= i < |maintenance| && maintenance[i].scheduledStart <= now <= maintenance[i].scheduledEnd)
      ==> maintenance[i] in r
    ensures !activeOnly ==> r == maintenance
    ensures forall x :: (multiset(r)[x] ==
      if !activeOnly || x.scheduledStart <= now <= x.scheduledEnd then multiset(maintenance)[x] else 0)
  {
    FilterWhen(activeOnly, maintenance, IsActive(now))
  }

  /**
   * When every window is in progress at now, the active-only list is the whole
   * list: the filter need not drop anything.
   */
  lemma {:induction false} MaintenanceAllActive(maintenance: seq<Maintenance>, now: int)
    requires forall i :: 0 <= i < |maintenance| ==> maintenance[i].scheduledStart <= now <= maintenance[i].scheduledEnd
    ensures GetScheduledMaintenance(maintenance, true, now) == maintenance
  {
    FilterAll(maintenance, IsActive(now));
  }

  function InCategory(category: string): Product -> bool
  {
    (p: Product) => Contains(Lower(p.category), category)
  }

  /** GET /solutions/products: the products whose lowered category contains the lowered argument. */
  function GetKenmeiProducts(products: seq<Product>, category: Option<string>): (r: seq<Product>)
    ensures IsSubsequence(r, products)
    ensures Given(category) ==>
      forall i :: 0 <= i < |r| ==> Contains(Lower(r[i].category), Lower(category.value))
    ensures Given(category) ==> forall i ::
      (0 <= i < |products| && Contains(Lower(products[i].category), Lower(category.value)))
      ==> products[i] in r
    ensures !Given(category) ==> r == products
    ensures forall x :: (multiset(r)[x] ==
      if !Given(category) || Contains(Lower(x.category), Lower(category.value)) then multiset(products)[x] else 0)
  {
    FilterWhen(Given(category), products, InCategory(ArgKey(category)))
  }

  function OfType(locationType: string): SimilarCase -> bool
  {
    (c: SimilarCase) => c.locationType == locationType
  }

  /** The cases GET /solutions/cases lists, before sorting. */
  function SelectCases(cases: seq<SimilarCase>, locationType: Option<string>): (r: seq<SimilarCase>)
    ensures IsSubsequence(r, cases)
    ensures forall x :: (multiset(r)[x] ==
      if !Given(locationType) || x.locationType == Lower(locationType.value) then multiset(cases)[x] else 0)
  {
    FilterWhen(Given(locationType), cases, OfType(ArgKey(locationType)))
  }

  /**
   * GET /solutions/cases: the cases of the lowered location type (all cases when
   * none is given), sorted in place by success rate, highest first, stably.
   */
  method GetSimilarCases(cases: seq<SimilarCase>, locationType: Option<string>) returns (r: seq<SimilarCase>)
    ensures r == SortByRate(SelectCases(cases, locationType))
    ensures SortedDesc(r)
    ensures multiset(r) == multiset(SelectCases(cases, locationType))
    ensures SameRateGroups(r, SelectCases(cases, locationType))
    ensures Given(locationType) ==> forall i :: 0 <= i < |r| ==> r[i].locationType == Lower(locationType.value)
    ensures forall i ::
      (0 <= i < |cases| && (Given(locationType) ==> cases[i].locationType == Lower(locationType.value)))
      ==> cases[i] in r
  {
    var selected := SelectCases(cases, locationType);
    r := SortCases(selected);
    SortByRateStable(selected);
    forall i | 0 <= i < |r| ensures r[i] in selected {
      assert r[i] in multiset(r);
    }
    forall i | 0 <= i < |cases| && (Given(locationType) ==> cases[i].locationType == Lower(locationType.value))
      ensures cases[i] in r
    {
      assert cases[i] in selected;
      assert cases[i] in multiset(selected);
    }
  }
}
