/** Whole histories of calls into the store, replayed from an empty slot:
    what holds after any sequence of tracking, status and clean-up calls. */
module History {
  import opened Records
  import opened Metrics
  import opened Tracking

  /** One call into the store, with the inputs the host supplied. */
  datatype Event =
    | Visit(id: string, timestamp: string, today: string, userAgent: string,
            referrer: string, screenSize: string, page: string)
    | Lead(fields: BriefingFields, id: string, timestamp: string)
    | Feedback(answers: RatingFields, id: string, timestamp: string)
    | SetStatus(id: string, status: Status)
    | Clean(cutoff: int, instantOf: string -> Option<int>)

  /** The document saved after one call; a status update for an unknown id
      saves nothing and leaves the document as it was. */
  function Apply(d: Document, e: Event): Document
  {
    match e
    case Visit(id, ts, today, ua, ref, screen, page) =>
      AfterVisit(d, NewVisitor(id, ts, page, ua, ref, screen), today)
    case Lead(f, id, ts) => AfterSubmission(d, NewSubmission(f, id, ts))
    case Feedback(f, id, ts) => AfterRating(d, NewRating(f, id, ts))
    case SetStatus(id, st) =>
      (match WithStatus(d, id, st) case None => d case Some(updated) => updated)
    case Clean(cutoff, instantOf) => Pruned(d, cutoff, instantOf)
  }

  /** The stored document after the calls `h`, oldest first, starting from
      an empty (or unreadable) slot. */
  function Replay(h: seq<Event>): Document
  {
    if h == [] then Empty() else Apply(Replay(h[..|h| - 1]), h[|h| - 1])
  }

  /** How many visits to `page` the history holds. */
  function VisitsTo(h: seq<Event>, page: string): nat
  {
    if h == [] then 0
    else VisitsTo(h[..|h| - 1], page) + (if h[|h| - 1].Visit? && h[|h| - 1].page == page then 1 else 0)
  }

  function VisitCount(h: seq<Event>): nat
  {
    if h == [] then 0 else VisitCount(h[..|h| - 1]) + (if h[|h| - 1].Visit? then 1 else 0)
  }

  /** The ratings the history submitted, in order. */
  function RatingsGiven(h: seq<Event>): seq<Rating>
  {
    if h == [] then []
    else
      var e := h[|h| - 1];
      RatingsGiven(h[..|h| - 1]) + (if e.Feedback? then [NewRating(e.answers, e.id, e.timestamp)] else [])
  }

  /** The ids of the leads the history submitted, in order. */
  function LeadIds(h: seq<Event>): seq<string>
  {
    if h == [] then []
    else LeadIds(h[..|h| - 1]) + (if h[|h| - 1].Lead? then [h[|h| - 1].id] else [])
  }

  function Ids(subs: seq<Submission>): (r: seq<string>)
    ensures |r| == |subs|
    ensures forall i :: 0 <= i < |subs| ==> r[i] == subs[i].id
  {
    if subs == [] then [] else [subs[0].id] + Ids(subs[1..])
  }

  lemma {:induction false} IdsAppend(a: seq<Submission>, b: seq<Submission>)
    ensures Ids(a + b) == Ids(a) + Ids(b)
  {
    if a == [] {
      assert a + b == b;
    } else {
      assert (a + b)[1..] == a[1..] + b;
      IdsAppend(a[1..], b);
    }
  }

  predicate NoClean(h: seq<Event>)
  {
    forall i :: 0 <= i < |h| ==> !h[i].Clean?
  }

  /** The page-view tally counts every visit ever tracked, page by page;
      pruning old visits does not lower it. */
  lemma {:induction false} PageViewsCountVisits(h: seq<Event>, page: string)
    ensures ViewCount(Replay(h).pageViews, page) == VisitsTo(h, page)
  {
    if h != [] {
      PageViewsCountVisits(h[..|h| - 1], page);
    }
  }

  /** No visitor count means no conversion rate: a zero cached total always
      comes with a zero rate, however many leads were tracked. */
  lemma {:induction false} ZeroVisitorsZeroRate(h: seq<Event>)
    ensures Replay(h).totalVisitors >= 0
    ensures Replay(h).totalVisitors == 0 ==> Replay(h).conversionRate == 0.0
  {
    if h != [] {
      ZeroVisitorsZeroRate(h[..|h| - 1]);
    }
  }

  /** One call adds the new lead's id at the end, if it tracks a lead, and
      otherwise leaves the ids of the stored leads as they were. */
  lemma ApplyIds(d: Document, e: Event)
    ensures Ids(Apply(d, e).formSubmissions) == Ids(d.formSubmissions) + (if e.Lead? then [e.id] else [])
  {
    match e
    case Lead(f, id, ts) =>
      IdsAppend(d.formSubmissions, [NewSubmission(f, id, ts)]);
    case SetStatus(id, st) =>
      if WithStatus(d, id, st).Some? {
        var subs := WithStatus(d, id, st).value.formSubmissions;
        assert Ids(subs) == Ids(d.formSubmissions);
      }
    case _ =>
  }

  /** Leads are never removed or reordered: the stored leads carry exactly
      the ids of the tracked leads, in the order they were tracked, whatever
      status updates and clean-ups happened in between. */
  lemma {:induction false} LeadsAreAppendOnly(h: seq<Event>)
    ensures Ids(Replay(h).formSubmissions) == LeadIds(h)
  {
    if h != [] {
      LeadsAreAppendOnly(h[..|h| - 1]);
      ApplyIds(Replay(h[..|h| - 1]), h[|h| - 1]);
    }
  }

  /** Ratings are immutable and never removed: the stored ratings are
      exactly the ones submitted, in order. */
  lemma {:induction false} RatingsAreAsGiven(h: seq<Event>)
    ensures Replay(h).satisfactionRatings == RatingsGiven(h)
  {
    if h != [] {
      RatingsAreAsGiven(h[..|h| - 1]);
    }
  }

  /** Without clean-ups, the visitor log holds one record per visit and the
      cached total and conversion rate agree with the logs. */
  lemma {:induction false} TotalsAgreeWithoutCleanup(h: seq<Event>)
    requires NoClean(h)
    ensures |Replay(h).visitors| == VisitCount(h)
    ensures Replay(h).totalVisitors == VisitCount(h)
    ensures Replay(h).conversionRate
            == (if VisitCount(h) > 0 then Rate(|Replay(h).formSubmissions|, VisitCount(h)) else 0.0)
  {
    if h != [] {
      var prev := h[..|h| - 1];
      assert NoClean(prev) by {
        forall i | 0 <= i < |prev| ensures !prev[i].Clean? {
          assert prev[i] == h[i];
        }
      }
      TotalsAgreeWithoutCleanup(prev);
      assert !h[|h| - 1].Clean?;
    }
  }
}
