/** The filters, counts and slices that analytics.ts computes with
    filter/length, reduce, find and slice over the record logs. */
module Metrics {
  import opened Records

  /** `ts.split('T')[0]`: the text before the first 'T', or all of it. */
  function DatePart(ts: string): (r: string)
    ensures r <= ts
    ensures 'T' !in r
    ensures |r| == |ts| || ts[|r|] == 'T'
  {
    if ts == [] || ts[0] == 'T' then [] else [ts[0]] + DatePart(ts[1..])
  }

  /** A date part is determined by the two facts above: any prefix free of
      'T' that ends the text or stops at a 'T' is the date part. */
  lemma {:induction false} DatePartUnique(ts: string, p: string)
    requires p <= ts && 'T' !in p
    requires |p| == |ts| || ts[|p|] == 'T'
    ensures p == DatePart(ts)
  {
    if ts != [] && ts[0] != 'T' {
      assert p != [] && p[0] == ts[0];
      DatePartUnique(ts[1..], p[1..]);
    }
  }

  /** How many visits fall on `day` (trackVisit's filter for todayVisitors). */
  function CountOn(vs: seq<Visitor>, day: string): (n: nat)
    ensures n <= |vs|
  {
    if vs == [] then 0
    else (if DatePart(vs[0].timestamp) == day then 1 else 0) + CountOn(vs[1..], day)
  }

  lemma {:induction false} CountOnAppend(vs: seq<Visitor>, v: Visitor, day: string)
    ensures CountOn(vs + [v], day) == CountOn(vs, day) + (if DatePart(v.timestamp) == day then 1 else 0)
  {
    if vs != [] {
      assert (vs + [v])[1..] == vs[1..] + [v];
      CountOnAppend(vs[1..], v, day);
    }
  }

  /** A day none of whose visits is recorded counts zero visits, and a day
      every visit is recorded on counts them all. */
  lemma {:induction false} CountOnExtremes(vs: seq<Visitor>, day: string)
    ensures (forall i :: 0 <= i < |vs| ==> DatePart(vs[i].timestamp) != day) ==> CountOn(vs, day) == 0
    ensures (forall i :: 0 <= i < |vs| ==> DatePart(vs[i].timestamp) == day) ==> CountOn(vs, day) == |vs|
  {
    if vs != [] {
      CountOnExtremes(vs[1..], day);
      if forall i :: 0 <= i < |vs| ==> DatePart(vs[i].timestamp) != day {
        assert forall i :: 0 <= i < |vs[1..]| ==> DatePart(vs[1..][i].timestamp) != day by {
          forall i | 0 <= i < |vs[1..]| ensures DatePart(vs[1..][i].timestamp) != day {
            assert vs[1..][i] == vs[i + 1];
          }
        }
      }
      if forall i :: 0 <= i < |vs| ==> DatePart(vs[i].timestamp) == day {
        assert forall i :: 0 <= i < |vs[1..]| ==> DatePart(vs[1..][i].timestamp) == day by {
          forall i | 0 <= i < |vs[1..]| ensures DatePart(vs[1..][i].timestamp) == day {
            assert vs[1..][i] == vs[i + 1];
          }
        }
      }
    }
  }

  /** The submissions created on `day`, in append order (the report's
      todaySubmissions). */
  function SubmissionsOn(subs: seq<Submission>, day: string): (r: seq<Submission>)
    ensures |r| <= |subs|
    ensures forall s :: s in r <==> s in subs && DatePart(s.timestamp) == day
  {
    if subs == [] then []
    else if DatePart(subs[0].timestamp) == day then [subs[0]] + SubmissionsOn(subs[1..], day)
    else SubmissionsOn(subs[1..], day)
  }

  /** The filter keeps append order: a new lead dated `day` joins the end of
      the day's list, and any other lead leaves it as it was. */
  lemma {:induction false} SubmissionsOnAppend(subs: seq<Submission>, s: Submission, day: string)
    ensures SubmissionsOn(subs + [s], day)
         == SubmissionsOn(subs, day) + (if DatePart(s.timestamp) == day then [s] else [])
  {
    if subs == [] {
      assert subs + [s] == [s];
    } else {
      assert (subs + [s])[1..] == subs[1..] + [s];
      SubmissionsOnAppend(subs[1..], s, day);
    }
  }

  /** How many submissions are in status `st`. */
  function CountStatus(subs: seq<Submission>, st: Status): (n: nat)
    ensures n <= |subs|
  {
    if subs == [] then 0
    else (if subs[0].status == st then 1 else 0) + CountStatus(subs[1..], st)
  }

  /** A new lead raises exactly the count of its own status by one. */
  lemma {:induction false} CountStatusAppend(subs: seq<Submission>, s: Submission, st: Status)
    ensures CountStatus(subs + [s], st) == CountStatus(subs, st) + (if s.status == st then 1 else 0)
  {
    if subs != [] {
      assert (subs + [s])[1..] == subs[1..] + [s];
      CountStatusAppend(subs[1..], s, st);
    }
  }

  /** Every submission is in exactly one of the three states, so the three
      per-status counts of the e-mail report add up to the total. */
  lemma {:induction false} StatusCountsPartition(subs: seq<Submission>)
    ensures CountStatus(subs, Pending) + CountStatus(subs, Contacted) + CountStatus(subs, Converted) == |subs|
  {
    if subs != [] {
      StatusCountsPartition(subs[1..]);
    }
  }

  /** Overwriting the status of the submission at `i` moves it from its old
      status count to the new one; every other count stays. */
  lemma {:induction false} StatusCountAfterUpdate(subs: seq<Submission>, i: nat, s: Status, st: Status)
    requires i < |subs|
    ensures CountStatus(subs[i := subs[i].(status := s)], st)
         == CountStatus(subs, st) - (if subs[i].status == st then 1 else 0) + (if s == st then 1 else 0)
  {
    var updated := subs[i := subs[i].(status := s)];
    if i == 0 {
      assert updated[1..] == subs[1..];
    } else {
      assert updated[1..] == subs[1..][i - 1 := subs[1..][i - 1].(status := s)];
      StatusCountAfterUpdate(subs[1..], i - 1, s, st);
    }
  }

  /** How many raters would recommend the agency. */
  function CountRecommending(rs: seq<Rating>): (n: nat)
    ensures n <= |rs|
  {
    if rs == [] then 0
    else (if rs[0].wouldRecommend then 1 else 0) + CountRecommending(rs[1..])
  }

  /** A new rating raises the recommend count by one exactly when its rater
      would recommend the agency. */
  lemma {:induction false} CountRecommendingAppend(rs: seq<Rating>, r: Rating)
    ensures CountRecommending(rs + [r]) == CountRecommending(rs) + (if r.wouldRecommend then 1 else 0)
  {
    if rs != [] {
      assert (rs + [r])[1..] == rs[1..] + [r];
      CountRecommendingAppend(rs[1..], r);
    }
  }

  predicate StarsInRange(rs: seq<Rating>)
  {
    forall i :: 0 <= i < |rs| ==> 1 <= rs[i].rating <= 5
  }

  /** `reduce((sum, r) => sum + r.rating, 0)`. With ratings from the 1..5
      star form the sum lies between the count and five times the count. */
  function SumRatings(rs: seq<Rating>): (sum: int)
    ensures StarsInRange(rs) ==> |rs| <= sum <= 5 * |rs|
  {
    if rs == [] then 0
    else
      assert StarsInRange(rs) ==> StarsInRange(rs[1..]) by {
        if StarsInRange(rs) {
          forall i | 0 <= i < |rs[1..]| ensures 1 <= rs[1..][i].rating <= 5 {
            assert rs[1..][i] == rs[i + 1];
          }
        }
      }
      rs[0].rating + SumRatings(rs[1..])
  }

  /** The reduce runs left to right: a new rating adds its stars to the sum
      of the earlier ones. */
  lemma {:induction false} SumRatingsAppend(rs: seq<Rating>, r: Rating)
    ensures SumRatings(rs + [r]) == SumRatings(rs) + r.rating
  {
    if rs == [] {
      assert rs + [r] == [r];
      assert [r][1..] == [];
    } else {
      assert (rs + [r])[1..] == rs[1..] + [r];
      SumRatingsAppend(rs[1..], r);
    }
  }

  /** The mean rating, or None for the report's 'N/A' when nobody rated. */
  function Average(rs: seq<Rating>): (r: Option<real>)
    ensures r.None? <==> rs == []
    ensures r.Some? ==> r.value * (|rs| as real) == SumRatings(rs) as real
  {
    if |rs| > 0 then Some(SumRatings(rs) as real / |rs| as real) else None
  }

  /** With ratings from the 1..5 star form, the mean is between 1 and 5. */
  lemma AverageWithinStars(rs: seq<Rating>)
    requires rs != [] && StarsInRange(rs)
    ensures Average(rs).Some? && 1.0 <= Average(rs).value <= 5.0
  {
    QuotientBounds(SumRatings(rs) as real, |rs| as real);
  }

  lemma QuotientBounds(s: real, n: real)
    requires 0.0 < n && n <= s <= 5.0 * n
    ensures 1.0 <= s / n <= 5.0
  {
    assert (s / n) * n == s;
  }

  /** `slice(-5)`: the last five items in append order, or all when fewer. */
  function LastFive<T>(s: seq<T>): (r: seq<T>)
    ensures |r| == if |s| < 5 then |s| else 5
    ensures s == s[..|s| - |r|] + r
  {
    if |s| <= 5 then s else s[|s| - 5..]
  }

  /** Appending one item slides the window: it becomes the last entry and
      the oldest one drops out once five are shown. */
  lemma LastFiveAppend<T>(s: seq<T>, x: T)
    ensures LastFive(s + [x]) == (if |s| < 5 then LastFive(s) else LastFive(s)[1..]) + [x]
  {
    if |s| >= 5 {
      assert (s + [x])[|s| + 1 - 5..] == s[|s| - 4..] + [x];
      assert LastFive(s)[1..] == s[|s| - 4..];
    }
  }

  /** `find(s => s.id === id)` as an index: the first submission with that id. */
  function FirstWithId(subs: seq<Submission>, id: string): (r: Option<nat>)
    ensures r.Some? ==> r.value < |subs| && subs[r.value].id == id
    ensures r.Some? ==> forall j :: 0 <= j < r.value ==> subs[j].id != id
    ensures r.None? <==> forall j :: 0 <= j < |subs| ==> subs[j].id != id
  {
    if subs == [] then None
    else if subs[0].id == id then Some(0)
    else match FirstWithId(subs[1..], id)
      case None => None
      case Some(k) => Some(k + 1)
  }
}
