/** The persisted analytics document of analytics.ts and the records it holds.
    Every value here is what JSON.stringify writes to the storage slot and
    JSON.parse reads back; the in-memory object that the tracking operations
    mutate is the class in the Store module. */
module Records {

  datatype Option<+T> = None | Some(value: T)

  /** The closed lifecycle of a lead. */
  datatype Status = Pending | Contacted | Converted

  /** One page view. Timestamps are the ISO-8601 text of Date.toISOString. */
  datatype Visitor = Visitor(
    id: string,
    timestamp: string,
    page: string,
    userAgent: string,
    referrer: string,
    screenSize: string)

  /** One briefing form submission (a lead). */
  datatype Submission = Submission(
    id: string,
    timestamp: string,
    ownerName: string,
    barbershopName: string,
    whatsapp: string,
    email: string,
    objective: string,
    styleReferences: string,
    mustHave: string,
    status: Status)

  /** One satisfaction rating; the form sends 1 to 5 stars, nothing here checks it. */
  datatype Rating = Rating(
    id: string,
    timestamp: string,
    clientName: string,
    barbershopName: string,
    rating: int,
    comment: string,
    wouldRecommend: bool)

  /** The briefing fields the caller passes to trackFormSubmission. */
  datatype BriefingFields = BriefingFields(
    ownerName: string,
    barbershopName: string,
    whatsapp: string,
    email: string,
    objective: string,
    styleReferences: string,
    mustHave: string)

  /** The rating fields the caller passes to trackSatisfaction. */
  datatype RatingFields = RatingFields(
    clientName: string,
    barbershopName: string,
    rating: int,
    comment: string,
    wouldRecommend: bool)

  /** The whole aggregate: three logs that grow only at the end (visits are
      also pruned by cleanOldData, and a lead's status may be overwritten),
      the page-view tally and three cached scalars. */
  datatype Document = Document(
    visitors: seq<Visitor>,
    formSubmissions: seq<Submission>,
    satisfactionRatings: seq<Rating>,
    pageViews: map<string, int>,
    totalVisitors: int,
    todayVisitors: int,
    conversionRate: real)

  /** The document loadData returns when nothing usable is stored. */
  function Empty(): (d: Document)
    ensures d.visitors == [] && d.formSubmissions == [] && d.satisfactionRatings == []
    ensures d.pageViews == map[]
    ensures d.totalVisitors == 0 && d.todayVisitors == 0 && d.conversionRate == 0.0
  {
    Document([], [], [], map[], 0, 0, 0.0)
  }

  /** loadData: `stored` is what JSON.parse gave for the slot, None when the
      slot is absent, empty or does not parse. Either way the caller gets a
      document and never an exception. */
  function LoadData(stored: Option<Document>): (d: Document)
    ensures stored.Some? ==> d == stored.value
    ensures stored.None? ==> d == Empty()
  {
    match stored
    case Some(doc) => doc
    case None => Empty()
  }

  /** The visitor record trackVisit builds; an empty referrer becomes "direct". */
  function NewVisitor(id: string, timestamp: string, page: string,
                      userAgent: string, referrer: string, screenSize: string): (v: Visitor)
    ensures referrer == "" ==> v.referrer == "direct"
    ensures referrer != "" ==> v.referrer == referrer
    ensures v.id == id && v.timestamp == timestamp && v.page == page
    ensures v.userAgent == userAgent && v.screenSize == screenSize
  {
    Visitor(id, timestamp, page, userAgent, if referrer == "" then "direct" else referrer, screenSize)
  }

  /** The submission trackFormSubmission builds: the caller's fields, a fresh
      id, the creation time and always status pending. */
  function NewSubmission(f: BriefingFields, id: string, timestamp: string): (s: Submission)
    ensures s.status == Pending
    ensures s.id == id && s.timestamp == timestamp
    ensures s.ownerName == f.ownerName && s.barbershopName == f.barbershopName
    ensures s.whatsapp == f.whatsapp && s.email == f.email && s.objective == f.objective
    ensures s.styleReferences == f.styleReferences && s.mustHave == f.mustHave
  {
    Submission(id, timestamp, f.ownerName, f.barbershopName, f.whatsapp, f.email,
               f.objective, f.styleReferences, f.mustHave, Pending)
  }

  /** The rating trackSatisfaction builds: the caller's fields, a fresh id and
      the creation time. */
  function NewRating(f: RatingFields, id: string, timestamp: string): (r: Rating)
    ensures r.id == id && r.timestamp == timestamp
    ensures r.clientName == f.clientName && r.barbershopName == f.barbershopName
    ensures r.rating == f.rating && r.comment == f.comment && r.wouldRecommend == f.wouldRecommend
  {
    Rating(id, timestamp, f.clientName, f.barbershopName, f.rating, f.comment, f.wouldRecommend)
  }
}
