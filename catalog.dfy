/**
 * The records the knowledge base serves. Field names follow the service's own;
 * timestamps are integers, floating-point fields are reals, and fields the
 * service compares as text (severity, status, location type) stay strings.
 */
module Catalog {
  import opened Wrappers

  /** The four radio technologies: "4G", "5G NSA", "5G SA", "VoLTE". */
  datatype Technology = LTE | NSA | SA | VoLTE

  /** The incident issue types. */
  datatype IssueType = Coverage | Speed | Latency | Interference | Handover | CallDrop

  datatype Coordinates = Coordinates(lat: real, lon: real)

  datatype CellSite = CellSite(
    siteId: string,
    siteName: string,
    location: string,
    technologies: seq<Technology>,
    sectors: int,
    status: string,
    coverageRadiusKm: real,
    coordinates: Coordinates)

  datatype Incident = Incident(
    incidentId: string,
    issueType: IssueType,
    affectedArea: string,
    affectedSites: seq<string>,
    severity: string,
    startTime: int,
    estimatedResolution: Option<int>,
    status: string,
    description: string,
    affectedCustomers: int)

  datatype Maintenance = Maintenance(
    maintenanceId: string,
    sites: seq<string>,
    scheduledStart: int,
    scheduledEnd: int,
    maintenanceType: string,
    impact: string,
    affectedServices: seq<string>,
    notificationSent: bool)

  datatype Product = Product(
    productName: string,
    category: string,
    description: string,
    useCases: seq<string>,
    benefits: seq<string>,
    url: string)

  datatype SimilarCase = SimilarCase(
    caseId: string,
    issueDescription: string,
    rootCause: string,
    solutionApplied: string,
    resolutionTimeHours: real,
    successRate: real,
    locationType: string)

  /** One entry of the cell-site dictionary: a location key and its sites. */
  datatype Bucket = Bucket(key: string, sites: seq<CellSite>)

  /** A dictionary has each key once. */
  predicate UniqueKeys(buckets: seq<Bucket>)
  {
    forall i, j :: 0 <= i < j < |buckets| ==> buckets[i].key != buckets[j].key
  }

  /** The cell-site dictionary, its entries in insertion order. */
  type SiteTable = buckets: seq<Bucket> | UniqueKeys(buckets) witness []

  /** The five tables the service reads. */
  datatype KnowledgeBase = KnowledgeBase(
    cellSites: SiteTable,
    incidents: seq<Incident>,
    maintenance: seq<Maintenance>,
    products: seq<Product>,
    cases: seq<SimilarCase>)

  datatype DiagnosticRequest = DiagnosticRequest(
    location: string,
    issueType: string,
    symptoms: seq<string>,
    networkTechnology: Option<string>)

  datatype DiagnosticResponse = DiagnosticResponse(
    contextFound: bool,
    cellSitesNearby: seq<CellSite>,
    activeIncidents: seq<Incident>,
    scheduledMaintenance: seq<Maintenance>,
    similarCases: seq<SimilarCase>,
    recommendedProducts: seq<Product>,
    additionalContext: string)
}
