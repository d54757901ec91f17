/**
 * POST /diagnostics/analyze: one request resolves nearby sites, incidents in the
 * area, active maintenance, a location type with its resolved cases, a product
 * recommendation and a narrative summary.
 */
module Diagnostics {
  import opened Wrappers
  import opened Strings
  import opened Seqs
  import opened Catalog
  import opened Sorting
  import opened Queries

  // ---------------------------------------------------------------- sites

  /**
   * A bucket key matches when either string occurs somewhere inside the other;
   * in particular the exact key matches.
   */
  predicate KeyMatches(bucketKey: string, locationKey: string)
    ensures KeyMatches(bucketKey, locationKey)
        <==> (exists i :: OccursAt(locationKey, bucketKey, i)) || (exists i :: OccursAt(bucketKey, locationKey, i))
    ensures bucketKey == locationKey ==> KeyMatches(bucketKey, locationKey)
  {
    ContainsIffOccurs(locationKey, bucketKey);
    ContainsIffOccurs(bucketKey, locationKey);
    Contains(locationKey, bucketKey) || Contains(bucketKey, locationKey)
  }

  /**
   * The sites of every matching bucket, buckets in dictionary order: nothing when
   * no key matches, and a matching first bucket's sites come first.
   */
  function NearbySites(table: seq<Bucket>, locationKey: string): (r: seq<CellSite>)
    ensures (forall i :: 0 <= i < |table| ==> !KeyMatches(table[i].key, locationKey)) ==> r == []
    ensures |table| > 0 && KeyMatches(table[0].key, locationKey) ==> table[0].sites <= r
  {
    if table == [] then []
    else
      (if KeyMatches(table[0].key, locationKey) then table[0].sites else [])
      + NearbySites(table[1..], locationKey)
  }

  lemma {:induction false} NearbySitesAppend(a: seq<Bucket>, b: seq<Bucket>, locationKey: string)
    ensures NearbySites(a + b, locationKey) == NearbySites(a, locationKey) + NearbySites(b, locationKey)
  {
    if a == [] {
      assert a + b == b;
    } else {
      assert (a + b)[1..] == a[1..] + b;
      NearbySitesAppend(a[1..], b, locationKey);
    }
  }

  /** A site is nearby exactly when it belongs to a bucket whose key matches. */
  lemma {:induction false} NearbySitesMembers(table: seq<Bucket>, locationKey: string, site: CellSite)
    ensures site in NearbySites(table, locationKey)
        <==> exists i :: 0 <= i < |table| && KeyMatches(table[i].key, locationKey) && site in table[i].sites
  {
    if table != [] {
      NearbySitesMembers(table[1..], locationKey, site);
      if site in NearbySites(table[1..], locationKey) {
        var i :| 0 <= i < |table[1..]| && KeyMatches(table[1..][i].key, locationKey) && site in table[1..][i].sites;
        assert table[i + 1] == table[1..][i];
      }
      forall i | 0 < i < |table| && KeyMatches(table[i].key, locationKey) && site in table[i].sites
        ensures site in NearbySites(table[1..], locationKey)
      {
        assert table[1..][i - 1] == table[i];
      }
    }
  }

  /**
   * When no bucket key other than the exact one matches, the diagnostic finds
   * the same sites as GET /network/sites, and none when that lookup fails.
   */
  lemma {:induction false} NearbySitesIsLookup(table: SiteTable, location: string)
    requires forall i :: 0 <= i < |table| && KeyMatches(table[i].key, Lower(location)) ==> table[i].key == Lower(location)
    ensures NearbySites(table, Lower(location)) == match GetCellSites(table, location)
      case Success(sites) => sites
      case Failure(_) => []
  {
    var key := Lower(location);
    if table != [] {
      var rest: SiteTable := table[1..];
      NearbySitesIsLookup(rest, location);
      assert Contains(key, key);
      if table[0].key == key {
        assert forall i :: 0 <= i < |rest| ==> rest[i].key != key;
        assert GetCellSites(rest, location).Failure?;
      } else {
        assert !KeyMatches(table[0].key, key);
        assert forall i :: 0 <= i < |rest| && rest[i].key == key ==> table[i + 1].key == key;
      }
    }
  }

  /** Taking one more bucket adds its sites when its key matches. */
  lemma NearbySitesStep(table: seq<Bucket>, i: nat, locationKey: string)
    requires i < |table|
    ensures NearbySites(table[..i + 1], locationKey)
      == NearbySites(table[..i], locationKey) + if KeyMatches(table[i].key, locationKey) then table[i].sites else []
  {
    assert table[..i + 1] == table[..i] + [table[i]];
    NearbySitesAppend(table[..i], [table[i]], locationKey);
  }

  /** The scan over the site table, extending the result with each matching bucket's sites in turn. */
  method ResolveSites(table: seq<Bucket>, locationKey: string) returns (sites: seq<CellSite>)
    ensures sites == NearbySites(table, locationKey)
  {
    sites := [];
    for i := 0 to |table|
      invariant sites == NearbySites(table[..i], locationKey)
    {
      NearbySitesStep(table, i, locationKey);
      if KeyMatches(table[i].key, locationKey) {
        sites := sites + table[i].sites;
      }
    }
    assert table[..|table|] == table;
  }

  // ---------------------------------------------------------------- location type

  datatype LocationType = Urban | Industrial | Highway | Underground

  /** The value stored in a case's location_type field. */
  function TypeName(t: LocationType): string
  {
    match t
    case Urban => "urban"
    case Industrial => "industrial"
    case Highway => "highway"
    case Underground => "underground"
  }

  lemma TypeNameIsLower(t: LocationType)
    ensures Lower(TypeName(t)) == TypeName(t)
  {
  }

  /**
   * The keyword heuristic over the lowered location, checked in this order: an
   * industrial keyword always wins, a highway keyword wins over an underground one,
   * and the location is urban exactly when it holds none of the six keywords.
   */
  function ClassifyLocation(locationKey: string): (t: LocationType)
    ensures Contains(locationKey, "poligono") || Contains(locationKey, "industrial") ==> t == Industrial
    ensures t == Highway ==> Contains(locationKey, "autovia") || Contains(locationKey, "carretera")
    ensures t == Underground ==> Contains(locationKey, "metro") || Contains(locationKey, "tunel")
    ensures t == Urban <==> !(Contains(locationKey, "poligono") || Contains(locationKey, "industrial")
                              || Contains(locationKey, "autovia") || Contains(locationKey, "carretera")
                              || Contains(locationKey, "metro") || Contains(locationKey, "tunel"))
  {
    if Contains(locationKey, "poligono") || Contains(locationKey, "industrial") then Industrial
    else if Contains(locationKey, "autovia") || Contains(locationKey, "carretera") then Highway
    else if Contains(locationKey, "metro") || Contains(locationKey, "tunel") then Underground
    else Urban
  }

  /** The step-by-step assignment of location_type. */
  method DetermineLocationType(locationKey: string) returns (locationType: LocationType)
    ensures locationType == ClassifyLocation(locationKey)
  {
    locationType := Urban;
    if Contains(locationKey, "poligono") || Contains(locationKey, "industrial") {
      locationType := Industrial;
    } else if Contains(locationKey, "autovia") || Contains(locationKey, "carretera") {
      locationType := Highway;
    } else if Contains(locationKey, "metro") || Contains(locationKey, "tunel") {
      locationType := Underground;
    }
  }

  /** A keyword rule: any of its keywords selects its result. */
  datatype Rule = Rule(keywords: seq<string>, result: LocationType)

  predicate Fires(rule: Rule, locationKey: string)
  {
    exists i :: 0 <= i < |rule.keywords| && Contains(locationKey, rule.keywords[i])
  }

  /** The result of the first rule that fires, or the fallback when none does. */
  function FirstMatch(rules: seq<Rule>, locationKey: string, fallback: LocationType): (t: LocationType)
    ensures (forall i :: 0 <= i < |rules| ==> !Fires(rules[i], locationKey)) ==> t == fallback
    ensures forall i ::
      (0 <= i < |rules| && Fires(rules[i], locationKey)
       && (forall j :: 0 <= j < i ==> !Fires(rules[j], locationKey)))
      ==> t == rules[i].result
  {
    if rules == [] then fallback
    else if Fires(rules[0], locationKey) then rules[0].result
    else
      var t := FirstMatch(rules[1..], locationKey, fallback);
      assert forall i :: 1 <= i < |rules| ==> rules[i] == rules[1..][i - 1];
      t
  }

  const LocationRules: seq<Rule> := [
    Rule(["poligono", "industrial"], Industrial),
    Rule(["autovia", "carretera"], Highway),
    Rule(["metro", "tunel"], Underground)
  ]

  /** The classifier is the first-match-wins reading of the rule table, urban by default. */
  lemma ClassifyIsFirstMatch(locationKey: string)
    ensures ClassifyLocation(locationKey) == FirstMatch(LocationRules, locationKey, Urban)
  {
    var r := LocationRules;
    assert Fires(r[0], locationKey) <==> Contains(locationKey, "poligono") || Contains(locationKey, "industrial") by {
      assert r[0].keywords[0] == "poligono" && r[0].keywords[1] == "industrial";
    }
    assert Fires(r[1], locationKey) <==> Contains(locationKey, "autovia") || Contains(locationKey, "carretera") by {
      assert r[1].keywords[0] == "autovia" && r[1].keywords[1] == "carretera";
    }
    assert Fires(r[2], locationKey) <==> Contains(locationKey, "metro") || Contains(locationKey, "tunel") by {
      assert r[2].keywords[0] == "metro" && r[2].keywords[1] == "tunel";
    }
  }

  /** A location naming both an industrial estate and the metro is industrial: the first rule wins. */
  lemma PoligonoBeatsMetro(locationKey: string)
    requires Contains(locationKey, "poligono") && Contains(locationKey, "metro")
    ensures ClassifyLocation(locationKey) == Industrial
  {
  }

  /** The cases of the request's location type, as GET /solutions/cases selects them. */
  function MatchedCases(cases: seq<SimilarCase>, locationKey: string): seq<SimilarCase>
  {
    SelectCases(cases, Some(TypeName(ClassifyLocation(locationKey))))
  }

  // ---------------------------------------------------------------- incidents

  /**
   * The diagnostic's incident search is GET /network/incidents with the request
   * location and no severity, also for an empty location, where both keep every incident.
   */
  lemma DiagnosticIncidentsMatchQuery(incidents: seq<Incident>, location: string)
    ensures Filter(incidents, InArea(Lower(location))) == GetActiveIncidents(incidents, Some(location), None)
  {
    if location == "" {
      assert Lower(location) == "";
      assert forall i :: 0 <= i < |incidents| ==> InArea("")(incidents[i]);
      FilterAll(incidents, InArea(""));
    }
  }

  /** The diagnostic's case filter is GET /solutions/cases with the classified type. */
  lemma MatchedCasesOfType(cases: seq<SimilarCase>, locationKey: string)
    ensures MatchedCases(cases, locationKey) == Filter(cases, OfType(TypeName(ClassifyLocation(locationKey))))
  {
    TypeNameIsLower(ClassifyLocation(locationKey));
  }

  // ---------------------------------------------------------------- products

  predicate InterferenceRule(issueType: string, symptoms: seq<string>)
  {
    Contains(Lower(issueType), "interference") || Contains(Lower(Join(" ", symptoms)), "signal")
  }

  predicate CoverageRule(issueType: string)
  {
    Contains(Lower(issueType), "coverage") || Contains(Lower(issueType), "cobertura")
  }

  /**
   * The recommendation list: Interference Detection (catalog entry 3) first when the
   * interference rule fires, Geolocation (entry 1) next when the coverage rule fires,
   * and Anomaly Detection (entry 0) always last.
   */
  ghost predicate RecommendationShape(products: seq<Product>, issueType: string, symptoms: seq<string>, rec: seq<Product>)
    requires |products| >= 4
  {
    var interference, coverage := InterferenceRule(issueType, symptoms), CoverageRule(issueType);
    |rec| == 1 + (if interference then 1 else 0) + (if coverage then 1 else 0)
    && rec[|rec| - 1] == products[0]
    && (interference ==> rec[0] == products[3])
    && (coverage ==> rec[|rec| - 2] == products[1])
  }

  method RecommendProducts(products: seq<Product>, issueType: string, symptoms: seq<string>)
    returns (rec: seq<Product>)
    requires |products| >= 4
    ensures RecommendationShape(products, issueType, symptoms, rec)
  {
    rec := [];
    var issueLower := Lower(issueType);
    if Contains(issueLower, "interference") || Contains(Lower(Join(" ", symptoms)), "signal") {
      rec := rec + [products[3]];
    }
    if Contains(issueLower, "coverage") || Contains(issueLower, "cobertura") {
      rec := rec + [products[1]];
    }
    rec := rec + [products[0]];
  }

  /**
   * With the three recommended catalog entries distinct, the list holds one to three
   * entries without repeats, ends with Anomaly Detection, starts with Interference
   * Detection exactly when the interference rule fires and holds Geolocation exactly
   * when the coverage rule fires.
   */
  lemma RecommendationOrder(products: seq<Product>, issueType: string, symptoms: seq<string>, rec: seq<Product>)
    requires |products| >= 4
    requires products[0] != products[1] && products[0] != products[3] && products[1] != products[3]
    requires RecommendationShape(products, issueType, symptoms, rec)
    ensures 1 <= |rec| <= 3 && rec[|rec| - 1] == products[0]
    ensures rec[0] == products[3] <==> InterferenceRule(issueType, symptoms)
    ensures products[1] in rec <==> CoverageRule(issueType)
    ensures forall i, j :: 0 <= i < j < |rec| ==> rec[i] != rec[j]
  {
    var interference, coverage := InterferenceRule(issueType, symptoms), CoverageRule(issueType);
    if interference && coverage {
      assert rec == [products[3], products[1], products[0]];
    } else if interference {
      assert rec == [products[3], products[0]];
    } else if coverage {
      assert rec == [products[1], products[0]];
    } else {
      assert rec == [products[0]];
    }
  }

  /** "signal" is in the lowered text of a + " " + b exactly when it is in lowered a or lowered b. */
  lemma SignalAcrossSpace(a: string, b: string)
    ensures Contains(Lower(a + " " + b), "signal") <==> Contains(Lower(a), "signal") || Contains(Lower(b), "signal")
  {
    LowerConcat(a + " ", b);
    LowerConcat(a, " ");
    assert Lower(" ") == " ";
    ContainsAcrossSpace(Lower(a), Lower(b), "signal");
  }

  /** "signal" occurs in the space-joined, lowered symptoms exactly when it occurs in one lowered symptom. */
  lemma {:induction false} SignalInSomeSymptom(symptoms: seq<string>)
    ensures Contains(Lower(Join(" ", symptoms)), "signal")
        <==> exists i :: 0 <= i < |symptoms| && Contains(Lower(symptoms[i]), "signal")
  {
    if |symptoms| == 0 {
      assert !Contains("", "signal");
    } else if |symptoms| > 1 {
      var rest := symptoms[1..];
      var tail := Join(" ", rest);
      assert Join(" ", symptoms) == symptoms[0] + " " + tail;
      SignalInSomeSymptom(rest);
      SignalAcrossSpace(symptoms[0], tail);
      forall i | 1 <= i < |symptoms| ensures symptoms[i] == rest[i - 1] { }
      if Contains(Lower(tail), "signal") {
        var i :| 0 <= i < |rest| && Contains(Lower(rest[i]), "signal");
        assert symptoms[i + 1] == rest[i];
      }
    }
  }

  // ---------------------------------------------------------------- narrative

  const NoContext: string := "No hay contexto adicional disponible"

  /** The kinds of line the narrative is made of, with what each line shows. */
  datatype ContextLine =
    | SitesFound(count: nat, siteIds: seq<string>)
    | IncidentAlert(count: nat)
    | IncidentItem(incidentId: string, description: string)
    | MaintenanceActive
    | CasesFound(count: nat)

  /**
   * The text of a line, as the service words it: never empty, and an incident
   * line always ends in "...".
   */
  function Render(line: ContextLine): (r: string)
    ensures |r| > 0
    ensures line.IncidentItem? ==> |r| >= 3 && r[|r| - 3..] == "..."
  {
    match line
    case SitesFound(count, siteIds) =>
      "Hay " + NatToString(count) + " sites en el \U{E1}rea: " + Join(", ", siteIds)
    case IncidentAlert(count) =>
      "\U{26A0}\U{FE0F} ALERTA: Hay " + NatToString(count) + " incidencias activas en la zona"
    case IncidentItem(incidentId, description) =>
      "  - " + incidentId + ": " + Take(description, 150) + "..."
    case MaintenanceActive =>
      "\U{1F527}" + " Hay mantenimiento programado activo que puede estar afectando"
    case CasesFound(count) =>
      "\U{1F4DA} Se encontraron " + NatToString(count) + " casos similares resueltos con \U{E9}xito"
  }

  function RenderAll(lines: seq<ContextLine>): seq<string>
  {
    seq(|lines|, i requires 0 <= i < |lines| => Render(lines[i]))
  }

  function SiteIds(sites: seq<CellSite>): seq<string>
  {
    seq(|sites|, i requires 0 <= i < |sites| => sites[i].siteId)
  }

  /** The line of one incident: its id and its description, cut to 150 characters by Render. */
  function IncidentLine(inc: Incident): ContextLine
  {
    IncidentItem(inc.incidentId, inc.description)
  }

  function IncidentLines(incidents: seq<Incident>): seq<ContextLine>
  {
    seq(|incidents|, i requires 0 <= i < |incidents| => IncidentLine(incidents[i]))
  }

  function SitesPart(sites: seq<CellSite>): seq<ContextLine>
  {
    if |sites| > 0 then [SitesFound(|sites|, SiteIds(sites))] else []
  }

  function IncidentsPart(incidents: seq<Incident>): seq<ContextLine>
  {
    if |incidents| > 0 then [IncidentAlert(|incidents|)] + IncidentLines(incidents) else []
  }

  function MaintenancePart(maintenance: seq<Maintenance>): seq<ContextLine>
  {
    if |maintenance| > 0 then [MaintenanceActive] else []
  }

  function CasesPart(cases: seq<SimilarCase>): seq<ContextLine>
  {
    if |cases| > 0 then [CasesFound(|cases|)] else []
  }

  /** The narrative lines, each rule contributing only when its list is non-empty, in this order. */
  function ContextParts(sites: seq<CellSite>, incidents: seq<Incident>, maintenance: seq<Maintenance>,
                        cases: seq<SimilarCase>): seq<ContextLine>
  {
    SitesPart(sites) + IncidentsPart(incidents) + MaintenancePart(maintenance) + CasesPart(cases)
  }

  /**
   * The narrative: the sentinel when there are no lines, the single line when
   * there is one, and otherwise the lines joined by newlines, starting with the first.
   */
  function AdditionalContext(parts: seq<ContextLine>): (r: string)
    ensures parts == [] ==> r == NoContext
    ensures |parts| == 1 ==> r == Render(parts[0])
    ensures parts != [] ==> Render(parts[0]) <= r
  {
    if parts == [] then NoContext else Join("\n", RenderAll(parts))
  }

  /** Appends one narrative line per incident, in the order of the incidents. */
  method AppendIncidentLines(parts: seq<ContextLine>, incidents: seq<Incident>) returns (extended: seq<ContextLine>)
    ensures extended == parts + IncidentLines(incidents)
  {
    extended := parts;
    for k := 0 to |incidents|
      invariant extended == parts + IncidentLines(incidents[..k])
    {
      extended := extended + [IncidentLine(incidents[k])];
      assert IncidentLines(incidents[..k + 1]) == IncidentLines(incidents[..k]) + [IncidentLine(incidents[k])];
    }
    assert incidents[..|incidents|] == incidents;
  }

  /** The first two narrative rules: the sites line, then the incident alert and one line per incident. */
  method OpeningParts(sites: seq<CellSite>, incidents: seq<Incident>) returns (parts: seq<ContextLine>)
    ensures parts == SitesPart(sites) + IncidentsPart(incidents)
  {
    parts := [];
    if |sites| > 0 {
      parts := parts + [SitesFound(|sites|, SiteIds(sites))];
    }
    if |incidents| > 0 {
      parts := parts + [IncidentAlert(|incidents|)];
      parts := AppendIncidentLines(parts, incidents);
    }
  }

  /** The narrative lines, built by successive appends. */
  method BuildContextParts(sites: seq<CellSite>, incidents: seq<Incident>, maintenance: seq<Maintenance>,
                           cases: seq<SimilarCase>) returns (parts: seq<ContextLine>)
    ensures parts == ContextParts(sites, incidents, maintenance, cases)
  {
    parts := OpeningParts(sites, incidents);
    if |maintenance| > 0 {
      parts := parts + [MaintenanceActive];
    }
    if |cases| > 0 {
      parts := parts + [CasesFound(|cases|)];
    }
  }

  lemma FirstCharOfConcat(a: string, b: string)
    requires |a| > 0
    ensures |a + b| > 0 && (a + b)[0] == a[0]
  {
  }

  /** Every line but an incident item starts with a character other than the sentinel's 'N'. */
  lemma HeadLinesStartApart(line: ContextLine)
    requires !line.IncidentItem?
    ensures |Render(line)| > 0 && Render(line)[0] != NoContext[0]
  {
    match line
    case SitesFound(count, siteIds) =>
      var hay := "Hay " + NatToString(count);
      FirstCharOfConcat("Hay ", NatToString(count));
      FirstCharOfConcat(hay, " sites en el \U{E1}rea: ");
      FirstCharOfConcat(hay + " sites en el \U{E1}rea: ", Join(", ", siteIds));
    case IncidentAlert(count) =>
      FirstCharOfConcat("\U{26A0}\U{FE0F} ALERTA: Hay ", NatToString(count));
      FirstCharOfConcat("\U{26A0}\U{FE0F} ALERTA: Hay " + NatToString(count), " incidencias activas en la zona");
    case MaintenanceActive =>
      FirstCharOfConcat("\U{1F527}", " Hay mantenimiento programado activo que puede estar afectando");
    case CasesFound(count) =>
      FirstCharOfConcat("\U{1F4DA} Se encontraron ", NatToString(count));
      FirstCharOfConcat("\U{1F4DA} Se encontraron " + NatToString(count), " casos similares resueltos con \U{E9}xito");
  }

  /** An incident line shows the first 150 characters of the description (all of a shorter one), then "...". */
  lemma IncidentLineShape(inc: Incident)
    ensures var text := Render(IncidentLine(inc));
      var prefix := "  - " + inc.incidentId + ": ";
      var shown := if |inc.description| <= 150 then |inc.description| else 150;
      |text| == |prefix| + shown + 3
      && text[..|prefix|] == prefix
      && text[|prefix|..|prefix| + shown] == inc.description[..shown]
      && text[|prefix| + shown..] == "..."
  {
  }

  /** The narrative has one line per firing rule plus one line per incident. */
  lemma ContextPartsCount(sites: seq<CellSite>, incidents: seq<Incident>, maintenance: seq<Maintenance>,
                          cases: seq<SimilarCase>)
    ensures |ContextParts(sites, incidents, maintenance, cases)|
      == (if sites != [] then 1 else 0) + (if incidents != [] then 1 + |incidents| else 0)
       + (if maintenance != [] then 1 else 0) + (if cases != [] then 1 else 0)
  {
  }

  /** The sentinel is produced exactly when sites, incidents, maintenance and cases are all empty. */
  lemma ContextSentinelIff(sites: seq<CellSite>, incidents: seq<Incident>, maintenance: seq<Maintenance>,
                           cases: seq<SimilarCase>)
    ensures AdditionalContext(ContextParts(sites, incidents, maintenance, cases)) == NoContext
        <==> (sites == [] && incidents == [] && maintenance == [] && cases == [])
  {
    var parts := ContextParts(sites, incidents, maintenance, cases);
    if parts != [] {
      assert !parts[0].IncidentItem?;
      HeadLinesStartApart(parts[0]);
      assert AdditionalContext(parts)[0] == Render(parts[0])[0];
    }
  }

  /** The additional_context text: the lines built, joined by newlines, or the sentinel when there are none. */
  method Narrate(sites: seq<CellSite>, incidents: seq<Incident>, maintenance: seq<Maintenance>,
                 cases: seq<SimilarCase>) returns (text: string)
    ensures text == AdditionalContext(ContextParts(sites, incidents, maintenance, cases))
    ensures text == NoContext <==> (sites == [] && incidents == [] && maintenance == [] && cases == [])
  {
    var parts := BuildContextParts(sites, incidents, maintenance, cases);
    text := if |parts| > 0 then Join("\n", RenderAll(parts)) else NoContext;
    ContextSentinelIff(sites, incidents, maintenance, cases);
  }

  // ---------------------------------------------------------------- the endpoint

  /**
   * POST /diagnostics/analyze, with the tables in kb and the clock reading now.
   * The extra request field network_technology is not consulted.
   */
  method AnalyzeDiagnostic(kb: KnowledgeBase, request: DiagnosticRequest, now: int)
    returns (response: DiagnosticResponse)
    requires |kb.products| >= 4
    ensures response.cellSitesNearby == NearbySites(kb.cellSites, Lower(request.location))
    ensures response.activeIncidents == GetActiveIncidents(kb.incidents, Some(request.location), None)
    ensures response.scheduledMaintenance == GetScheduledMaintenance(kb.maintenance, true, now)
    ensures var ranked := SortByRate(MatchedCases(kb.cases, Lower(request.location)));
      |response.similarCases| == (if |ranked| < 3 then |ranked| else 3)
      && response.similarCases == ranked[..|response.similarCases|]
    ensures RecommendationShape(kb.products, request.issueType, request.symptoms, response.recommendedProducts)
    ensures response.additionalContext == AdditionalContext(ContextParts(
      response.cellSitesNearby, response.activeIncidents, response.scheduledMaintenance,
      SortByRate(MatchedCases(kb.cases, Lower(request.location)))))
    ensures response.additionalContext == NoContext
        <==> (response.cellSitesNearby == [] && response.activeIncidents == []
              && response.scheduledMaintenance == [] && response.similarCases == [])
    ensures response.contextFound <==> response.cellSitesNearby != [] || response.activeIncidents != []
  {
    var locationKey := Lower(request.location);

    var cellSites := ResolveSites(kb.cellSites, locationKey);

    var activeIncidents := Filter(kb.incidents, InArea(locationKey));

    var scheduledMaintenance := Filter(kb.maintenance, IsActive(now));

    var locationType := DetermineLocationType(locationKey);

    var matched := Filter(kb.cases, OfType(TypeName(locationType)));
    var similarCases := SortCases(matched);

    var recommended := RecommendProducts(kb.products, request.issueType, request.symptoms);

    var additionalContext := Narrate(cellSites, activeIncidents, scheduledMaintenance, similarCases);

    response := DiagnosticResponse(
      |cellSites| > 0 || |activeIncidents| > 0,
      cellSites,
      activeIncidents,
      scheduledMaintenance,
      similarCases[..if |similarCases| < 3 then |similarCases| else 3],
      recommended,
      additionalContext);

    MatchedCasesOfType(kb.cases, locationKey);
    DiagnosticIncidentsMatchQuery(kb.incidents, request.location);
  }
}
