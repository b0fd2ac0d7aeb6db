/** What each mutating operation of analytics.ts does to the loaded document,
    as functions from the document before to the document that is saved.
    The Store module's methods perform the same steps in place and are
    proved equal to these. */
module Tracking {
  import opened Records
  import opened Metrics

  /** `pageViews[page] || 0`: a page never viewed counts zero. */
  function ViewCount(m: map<string, int>, page: string): (n: int)
    ensures page !in m ==> n == 0
    ensures page in m ==> n == m[page]
  {
    if page in m then m[page] else 0
  }

  /** `(submissions / visitors) * 100`, only ever taken with visitors > 0. */
  function Rate(submissions: nat, visitors: int): (r: real)
    requires visitors > 0
    ensures r >= 0.0
    ensures r * (visitors as real) == (submissions as real) * 100.0
    ensures submissions <= visitors ==> r <= 100.0
  {
    var q := (submissions as real) / (visitors as real);
    assert q * (visitors as real) == submissions as real;
    assert submissions <= visitors ==> q <= 1.0;
    q * 100.0
  }

  /** The three cached scalars agree with the logs they summarise, for the
      calendar day `today`. */
  predicate CachesAgree(d: Document, today: string)
  {
    && d.totalVisitors == |d.visitors|
    && d.todayVisitors == CountOn(d.visitors, today)
    && d.conversionRate == (if |d.visitors| > 0 then Rate(|d.formSubmissions|, |d.visitors|) else 0.0)
  }

  /** The default document agrees with its (empty) logs on every day. */
  lemma EmptyCachesAgree(today: string)
    ensures CachesAgree(Empty(), today)
  {
  }

  /** trackVisit: append the visitor, count all visitors, recount today's,
      bump the page's counter and recompute the conversion rate. The guard
      `totalVisitors > 0` always holds here, right after the push. */
  function AfterVisit(d: Document, v: Visitor, today: string): (r: Document)
    ensures r.visitors == d.visitors + [v]
    ensures r.formSubmissions == d.formSubmissions && r.satisfactionRatings == d.satisfactionRatings
    ensures r.todayVisitors == CountOn(d.visitors, today) + (if DatePart(v.timestamp) == today then 1 else 0)
    ensures ViewCount(r.pageViews, v.page) == ViewCount(d.pageViews, v.page) + 1
    ensures forall p :: p != v.page ==> ViewCount(r.pageViews, p) == ViewCount(d.pageViews, p)
    ensures r.pageViews.Keys == d.pageViews.Keys + {v.page}
    ensures CachesAgree(r, today)
  {
    var visitors := d.visitors + [v];
    CountOnAppend(d.visitors, v, today);
    d.(visitors := visitors,
       totalVisitors := |visitors|,
       todayVisitors := CountOn(visitors, today),
       pageViews := d.pageViews[v.page := ViewCount(d.pageViews, v.page) + 1],
       conversionRate := Rate(|d.formSubmissions|, |visitors|))
  }

  /** trackFormSubmission: append the lead and, when the cached visitor
      total is positive, recompute the rate against that cached total. */
  function AfterSubmission(d: Document, s: Submission): (r: Document)
    ensures r.formSubmissions == d.formSubmissions + [s]
    ensures r.(formSubmissions := d.formSubmissions, conversionRate := d.conversionRate) == d
    ensures d.totalVisitors > 0 ==> r.conversionRate == Rate(|d.formSubmissions| + 1, d.totalVisitors)
    ensures d.totalVisitors <= 0 ==> r.conversionRate == d.conversionRate
    ensures forall today :: CachesAgree(d, today) ==> CachesAgree(r, today)
  {
    var subs := d.formSubmissions + [s];
    d.(formSubmissions := subs,
       conversionRate := if d.totalVisitors > 0 then Rate(|subs|, d.totalVisitors) else d.conversionRate)
  }

  /** trackSatisfaction: append the rating; no cached scalar depends on it. */
  function AfterRating(d: Document, rt: Rating): (r: Document)
    ensures r.satisfactionRatings == d.satisfactionRatings + [rt]
    ensures r.(satisfactionRatings := d.satisfactionRatings) == d
    ensures forall today :: CachesAgree(d, today) ==> CachesAgree(r, today)
  {
    d.(satisfactionRatings := d.satisfactionRatings + [rt])
  }

  /** updateSubmissionStatus: None when no lead has the id (nothing is saved);
      otherwise the first lead with that id gets the new status and nothing
      else in the document changes. Any status may replace any other. */
  function WithStatus(d: Document, id: string, st: Status): (r: Option<Document>)
    ensures r.None? <==> forall j :: 0 <= j < |d.formSubmissions| ==> d.formSubmissions[j].id != id
    ensures r.Some? ==> r.value.(formSubmissions := d.formSubmissions) == d
    ensures r.Some? ==>
      var i := FirstWithId(d.formSubmissions, id).value;
      var subs := r.value.formSubmissions;
      && |subs| == |d.formSubmissions|
      && subs[i] == d.formSubmissions[i].(status := st)
      && forall j :: 0 <= j < |subs| && j != i ==> subs[j] == d.formSubmissions[j]
    ensures forall today :: r.Some? && CachesAgree(d, today) ==> CachesAgree(r.value, today)
  {
    match FirstWithId(d.formSubmissions, id)
    case None => None
    case Some(i) =>
      Some(d.(formSubmissions := d.formSubmissions[i := d.formSubmissions[i].(status := st)]))
  }

  /** The first lead with a given id stays the first after any status
      change, since ids never change. */
  lemma {:induction false} FirstWithIdIgnoresStatus(subs: seq<Submission>, i: nat, st: Status, id: string)
    requires i < |subs|
    ensures FirstWithId(subs[i := subs[i].(status := st)], id) == FirstWithId(subs, id)
  {
    if subs != [] && subs[0].id != id {
      var updated := subs[i := subs[i].(status := st)];
      if i == 0 {
        assert updated[1..] == subs[1..];
      } else {
        assert updated[1..] == subs[1..][i - 1 := subs[1..][i - 1].(status := st)];
        FirstWithIdIgnoresStatus(subs[1..], i - 1, st, id);
      }
    }
  }

  /** Two status updates of the same lead: the second one wins, whatever the
      first set; e.g. converted and then pending leaves it pending. */
  lemma StatusLastWriteWins(d: Document, id: string, first: Status, second: Status)
    requires WithStatus(d, id, first).Some?
    ensures WithStatus(WithStatus(d, id, first).value, id, second) == WithStatus(d, id, second)
  {
    var i := FirstWithId(d.formSubmissions, id).value;
    FirstWithIdIgnoresStatus(d.formSubmissions, i, first, id);
    var once := d.formSubmissions[i := d.formSubmissions[i].(status := first)];
    assert once[i := once[i].(status := second)] == d.formSubmissions[i := d.formSubmissions[i].(status := second)];
  }

  /** Setting the status a lead already has saves the same document. */
  lemma StatusSameIsNoChange(d: Document, id: string)
    requires FirstWithId(d.formSubmissions, id).Some?
    ensures WithStatus(d, id, d.formSubmissions[FirstWithId(d.formSubmissions, id).value].status) == Some(d)
  {
    var i := FirstWithId(d.formSubmissions, id).value;
    assert d.formSubmissions[i := d.formSubmissions[i].(status := d.formSubmissions[i].status)] == d.formSubmissions;
  }

  /** After a status change the e-mail report's per-status counts move the
      lead from its old status to the new one. */
  lemma StatusCountsAfterUpdate(d: Document, id: string, st: Status, t: Status)
    requires WithStatus(d, id, st).Some?
    ensures var i := FirstWithId(d.formSubmissions, id).value;
      CountStatus(WithStatus(d, id, st).value.formSubmissions, t)
      == CountStatus(d.formSubmissions, t) - (if d.formSubmissions[i].status == t then 1 else 0) + (if st == t then 1 else 0)
  {
    StatusCountAfterUpdate(d.formSubmissions, FirstWithId(d.formSubmissions, id).value, st, t);
  }

  /** `new Date(v.timestamp) > thirtyDaysAgo`, with the host's date parser
      `instantOf` (None for an Invalid Date, which compares false). */
  function IsRecent(v: Visitor, cutoff: int, instantOf: string -> Option<int>): (b: bool)
    ensures b ==> instantOf(v.timestamp).Some?
    ensures instantOf(v.timestamp).Some? ==> (b <==> instantOf(v.timestamp).value > cutoff)
  {
    match instantOf(v.timestamp)
    case Some(t) => t > cutoff
    case None => false
  }

  /** The visitors cleanOldData keeps, in their original order. */
  function Kept(vs: seq<Visitor>, cutoff: int, instantOf: string -> Option<int>): (r: seq<Visitor>)
    ensures |r| <= |vs|
    ensures forall v :: v in r <==> v in vs && IsRecent(v, cutoff, instantOf)
  {
    if vs == [] then []
    else if IsRecent(vs[0], cutoff, instantOf) then [vs[0]] + Kept(vs[1..], cutoff, instantOf)
    else Kept(vs[1..], cutoff, instantOf)
  }

  /** Pruning works visit by visit and keeps append order: pruning a log
      made of two parts is pruning each part. */
  lemma {:induction false} KeptAppend(a: seq<Visitor>, b: seq<Visitor>, cutoff: int, instantOf: string -> Option<int>)
    ensures Kept(a + b, cutoff, instantOf) == Kept(a, cutoff, instantOf) + Kept(b, cutoff, instantOf)
  {
    if a != [] {
      assert (a + b)[1..] == a[1..] + b;
      KeptAppend(a[1..], b, cutoff, instantOf);
    } else {
      assert a + b == b;
    }
  }

  /** Pruning twice with the same cutoff removes nothing more. */
  lemma {:induction false} KeptIdempotent(vs: seq<Visitor>, cutoff: int, instantOf: string -> Option<int>)
    ensures Kept(Kept(vs, cutoff, instantOf), cutoff, instantOf) == Kept(vs, cutoff, instantOf)
  {
    if vs != [] {
      KeptIdempotent(vs[1..], cutoff, instantOf);
    }
  }

  /** cleanOldData: only the visitor log changes; the cached totals are not
      recomputed. */
  function Pruned(d: Document, cutoff: int, instantOf: string -> Option<int>): (r: Document)
    ensures r.(visitors := d.visitors) == d
    ensures r.visitors == Kept(d.visitors, cutoff, instantOf)
    ensures |r.visitors| <= |d.visitors|
    ensures forall v :: v in r.visitors <==> v in d.visitors && IsRecent(v, cutoff, instantOf)
  {
    d.(visitors := Kept(d.visitors, cutoff, instantOf))
  }

  /** 2024-02-01T00:00:00Z in milliseconds since the epoch. */
  const FebFirst: int := 1706745600000

  /** A date parser that knows one instant, 2024-01-01T10:00:00.000Z, and
      treats every other text as an Invalid Date. */
  function InstantOfJanFirst(ts: string): Option<int>
  {
    if ts == "2024-01-01T10:00:00.000Z" then Some(1704103200000) else None
  }

  /** Pruning can leave the caches stale: one visit from 2024-01-01, a month
      before the cutoff, is removed, totalVisitors still says 1, and a lead tracked next is
      rated against that stale total (100% with no visitor on record). */
  lemma PruneLeavesCachesStale()
    ensures var v := Visitor("v1", "2024-01-01T10:00:00.000Z", "home", "ua", "direct", "1x1");
      var d := AfterVisit(Empty(), v, "2024-01-01");
      var p := Pruned(d, FebFirst, InstantOfJanFirst);
      var s := NewSubmission(BriefingFields("o", "b", "w", "e", "g", "", ""), "s1", "2024-03-01T10:00:00.000Z");
      && CachesAgree(d, "2024-01-01")
      && p.visitors == [] && p.totalVisitors == 1
      && !CachesAgree(p, "2024-01-01")
      && AfterSubmission(p, s).conversionRate == 100.0
  {
    var v := Visitor("v1", "2024-01-01T10:00:00.000Z", "home", "ua", "direct", "1x1");
    var d := AfterVisit(Empty(), v, "2024-01-01");
    assert d.visitors == [v];
    assert !IsRecent(v, FebFirst, InstantOfJanFirst);
    assert Kept([v], FebFirst, InstantOfJanFirst) == [];
  }
}
