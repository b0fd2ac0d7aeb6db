/** The storage-backed store of analytics.ts. Every mutating operation loads
    the document from the slot into a fresh object, changes that object's
    fields in place and writes it back whole. */
module Store {
  import opened Records
  import opened Metrics
  import opened Tracking

  /** The in-memory aggregate JSON.parse hands back: the operations push onto
      its logs and assign its cached scalars. */
  class AnalyticsData {
    var visitors: seq<Visitor>
    var formSubmissions: seq<Submission>
    var satisfactionRatings: seq<Rating>
    var pageViews: map<string, int>
    var totalVisitors: int
    var todayVisitors: int
    var conversionRate: real

    constructor (d: Document)
      ensures Snapshot() == d
    {
      visitors := d.visitors;
      formSubmissions := d.formSubmissions;
      satisfactionRatings := d.satisfactionRatings;
      pageViews := d.pageViews;
      totalVisitors := d.totalVisitors;
      todayVisitors := d.todayVisitors;
      conversionRate := d.conversionRate;
    }

    /** What JSON.stringify of this object writes. */
    function Snapshot(): Document
      reads this
    {
      Document(visitors, formSubmissions, satisfactionRatings, pageViews,
               totalVisitors, todayVisitors, conversionRate)
    }
  }

  /** The browser's storage slot for the analytics document. `stored` is the
      parsed content: None when the slot is absent or does not parse. */
  class AnalyticsStore {
    var stored: Option<Document>

    constructor (stored: Option<Document>)
      ensures this.stored == stored
    {
      this.stored := stored;
    }

    /** loadData: a fresh object holding the stored document, or the empty
        default when there is none. */
    method Load() returns (data: AnalyticsData)
      ensures fresh(data)
      ensures data.Snapshot() == LoadData(stored)
    {
      data := new AnalyticsData(LoadData(stored));
    }

    /** saveData: overwrite the slot with the whole document. */
    method Save(data: AnalyticsData)
      modifies this
      ensures stored == Some(data.Snapshot())
    {
      stored := Some(data.Snapshot());
    }

    /** getAnalyticsData. */
    method GetAnalyticsData() returns (d: Document)
      ensures stored.Some? ==> d == stored.value
      ensures stored.None? ==> d == Empty()
    {
      var data := Load();
      d := data.Snapshot();
    }

    /** trackVisit: `today` and `timestamp` are the two clock readings the
        source takes, `id` the fresh identifier, and the browser descriptors
        are passed in; `page` defaults to "home". */
    method TrackVisit(id: string, timestamp: string, today: string,
                      userAgent: string, referrer: string, screenSize: string,
                      page: string := "home")
      modifies this
      ensures stored == Some(AfterVisit(LoadData(old(stored)),
                                        NewVisitor(id, timestamp, page, userAgent, referrer, screenSize),
                                        today))
    {
      var data := Load();
      var visitor := NewVisitor(id, timestamp, page, userAgent, referrer, screenSize);
      data.visitors := data.visitors + [visitor];
      data.totalVisitors := |data.visitors|;
      data.todayVisitors := CountOn(data.visitors, today);
      data.pageViews := data.pageViews[page := ViewCount(data.pageViews, page) + 1];
      if data.totalVisitors > 0 {
        data.conversionRate := Rate(|data.formSubmissions|, data.totalVisitors);
      }
      Save(data);
    }

    /** trackFormSubmission: returns the pending lead it stored. */
    method TrackFormSubmission(fields: BriefingFields, id: string, timestamp: string)
      returns (submission: Submission)
      modifies this
      ensures submission == NewSubmission(fields, id, timestamp) && submission.status == Pending
      ensures stored == Some(AfterSubmission(LoadData(old(stored)), submission))
    {
      var data := Load();
      submission := NewSubmission(fields, id, timestamp);
      data.formSubmissions := data.formSubmissions + [submission];
      if data.totalVisitors > 0 {
        data.conversionRate := Rate(|data.formSubmissions|, data.totalVisitors);
      }
      Save(data);
    }

    /** trackSatisfaction: returns the rating it stored. */
    method TrackSatisfaction(fields: RatingFields, id: string, timestamp: string)
      returns (satisfaction: Rating)
      modifies this
      ensures satisfaction == NewRating(fields, id, timestamp)
      ensures stored == Some(AfterRating(LoadData(old(stored)), satisfaction))
    {
      var data := Load();
      satisfaction := NewRating(fields, id, timestamp);
      data.satisfactionRatings := data.satisfactionRatings + [satisfaction];
      Save(data);
    }

    /** updateSubmissionStatus: when no lead has the id nothing is saved, so
        even an absent or unreadable slot stays as it was. */
    method UpdateSubmissionStatus(id: string, status: Status)
      modifies this
      ensures WithStatus(LoadData(old(stored)), id, status).None? ==> stored == old(stored)
      ensures WithStatus(LoadData(old(stored)), id, status).Some? ==>
                stored == Some(WithStatus(LoadData(old(stored)), id, status).value)
    {
      var data := Load();
      var found := FirstWithId(data.formSubmissions, id);
      if found.Some? {
        var i := found.value;
        data.formSubmissions := data.formSubmissions[i := data.formSubmissions[i].(status := status)];
        Save(data);
      }
    }

    /** cleanOldData: `cutoff` is the instant thirty calendar days before
        now and `instantOf` the host's date parser. */
    method CleanOldData(cutoff: int, instantOf: string -> Option<int>)
      modifies this
      ensures stored == Some(Pruned(LoadData(old(stored)), cutoff, instantOf))
    {
      var data := Load();
      data.visitors := Kept(data.visitors, cutoff, instantOf);
      Save(data);
    }
  }

  /** Starting from an empty slot, three visits to "home" and one lead give
      three visitors and a conversion rate of one third of 100%. The
      timestamps are short stand-ins ("d1T1" has the date part "d1"): only
      their date part matters here, and full ISO-8601 text would make the
      verifier unfold `DatePart` over every character of every timestamp. */
  method ThreeVisitsOneLead() returns (total: int, rate: real)
    ensures total == 3 && rate == 100.0 / 3.0
  {
    var store := new AnalyticsStore(None);
    store.TrackVisit("a", "d1T1", "d1", "ua", "", "1280x720");
    assert |store.stored.value.visitors| == 1 && store.stored.value.formSubmissions == [];
    store.TrackVisit("b", "d1T2", "d1", "ua", "", "1280x720");
    assert |store.stored.value.visitors| == 2 && store.stored.value.formSubmissions == [];
    store.TrackVisit("c", "d1T3", "d1", "ua", "", "1280x720");
    assert store.stored.value.totalVisitors == 3 && store.stored.value.formSubmissions == [];
    var fields := BriefingFields("Ana", "Corte Fino", "+55 93 90000-0000", "ana@example.com", "site", "", "");
    var lead := store.TrackFormSubmission(fields, "d", "d1T4");
    assert |store.stored.value.formSubmissions| == 1;
    var d := store.GetAnalyticsData();
    total, rate := d.totalVisitors, d.conversionRate;
  }
}
