/** The read-only projections generateWhatsAppReport and generateEmailReport
    make of a loaded document: every figure and list the two texts show.
    The fixed template text, the locale dates and the one-decimal number
    formatting around them are not part of this model. */
module Reports {
  import opened Records
  import opened Metrics
  import opened Tracking

  /** The figures of the WhatsApp report. The visitor figures are the cached
      scalars as stored, not recounted; `newLeads` holds the lines of the
      "new leads today" block, which is left out when it is empty. */
  datatype WhatsAppReport = WhatsAppReport(
    totalVisitors: int,
    todayVisitors: int,
    conversionRate: real,
    submissions: nat,
    submissionsToday: nat,
    pending: nat,
    ratings: nat,
    average: Option<real>,
    recommending: nat,
    newLeads: seq<string>)

  /** One line of the new-leads block: "• <business> - <phone>". */
  function LeadLine(s: Submission): (line: string)
    ensures |line| == 5 + |s.barbershopName| + |s.whatsapp|
    ensures line[..2] == "• "
    ensures line[2..2 + |s.barbershopName|] == s.barbershopName
    ensures line[2 + |s.barbershopName|..|line| - |s.whatsapp|] == " - "
    ensures line[|line| - |s.whatsapp|..] == s.whatsapp
  {
    "• " + s.barbershopName + " - " + s.whatsapp
  }

  function LeadLines(subs: seq<Submission>): (r: seq<string>)
    ensures |r| == |subs|
    ensures forall i :: 0 <= i < |subs| ==> r[i] == LeadLine(subs[i])
  {
    if subs == [] then [] else [LeadLine(subs[0])] + LeadLines(subs[1..])
  }

  lemma LeadLinesAppend(subs: seq<Submission>, s: Submission)
    ensures LeadLines(subs + [s]) == LeadLines(subs) + [LeadLine(s)]
  {
    assert forall i :: 0 <= i < |subs| ==> (subs + [s])[i] == subs[i];
  }

  /** generateWhatsAppReport for the day `today` (the date part of now). */
  function WhatsApp(d: Document, today: string): (r: WhatsAppReport)
    ensures r.totalVisitors == d.totalVisitors && r.todayVisitors == d.todayVisitors
    ensures r.conversionRate == d.conversionRate
    ensures r.submissions == |d.formSubmissions|
    ensures r.submissionsToday == |SubmissionsOn(d.formSubmissions, today)|
    ensures r.pending == CountStatus(d.formSubmissions, Pending)
    ensures r.ratings == |d.satisfactionRatings|
    ensures r.average == Average(d.satisfactionRatings)
    ensures r.recommending == CountRecommending(d.satisfactionRatings)
    ensures r.newLeads == LeadLines(SubmissionsOn(d.formSubmissions, today))
  {
    var todays := SubmissionsOn(d.formSubmissions, today);
    WhatsAppReport(
      d.totalVisitors, d.todayVisitors, d.conversionRate,
      |d.formSubmissions|, |todays|, CountStatus(d.formSubmissions, Pending),
      |d.satisfactionRatings|, Average(d.satisfactionRatings),
      CountRecommending(d.satisfactionRatings),
      LeadLines(todays))
  }

  /** The new-leads block has one line per lead of the day, and its lines are
      exactly those of the stored leads dated today. */
  lemma NewLeadsAreTodaysLeads(d: Document, today: string)
    ensures WhatsApp(d, today).submissionsToday == |WhatsApp(d, today).newLeads|
    ensures forall line :: line in WhatsApp(d, today).newLeads <==>
              exists s :: s in d.formSubmissions && DatePart(s.timestamp) == today && line == LeadLine(s)
  {
    var todays := SubmissionsOn(d.formSubmissions, today);
    var lines := LeadLines(todays);
    forall line ensures line in lines <==> exists s :: s in todays && line == LeadLine(s) {
      if line in lines {
        var i :| 0 <= i < |lines| && lines[i] == line;
        assert todays[i] in todays;
      }
    }
  }

  const Star: char := '\U{2B50}'

  /** `'⭐'.repeat(n)` for n >= 0. */
  function Stars(n: nat): (r: string)
    ensures |r| == n
    ensures forall i :: 0 <= i < n ==> r[i] == Star
  {
    if n == 0 then "" else [Star] + Stars(n - 1)
  }

  /** One entry of the e-mail report's latest-ratings list. */
  datatype RatingEntry = RatingEntry(
    clientName: string,
    barbershopName: string,
    stars: string,
    comment: string,
    recommend: string)

  function EntryOf(r: Rating): (e: RatingEntry)
    requires r.rating >= 0
    ensures e.clientName == r.clientName && e.barbershopName == r.barbershopName
    ensures e.comment == r.comment
    ensures e.stars == Stars(r.rating) && |e.stars| == r.rating
    ensures e.recommend == (if r.wouldRecommend then "Sim" else "Não")
  {
    RatingEntry(r.clientName, r.barbershopName, Stars(r.rating), r.comment,
                if r.wouldRecommend then "Sim" else "Não")
  }

  /** The entries of a list of ratings; None when one rating is negative,
      for which `repeat` throws a RangeError and no report is produced. */
  function RatingEntries(rs: seq<Rating>): (r: Option<seq<RatingEntry>>)
    ensures r.None? <==> exists i :: 0 <= i < |rs| && rs[i].rating < 0
    ensures r.Some? ==> |r.value| == |rs|
    ensures r.Some? ==> forall i :: 0 <= i < |rs| ==> rs[i].rating >= 0 && r.value[i] == EntryOf(rs[i])
  {
    if rs == [] then Some([])
    else if rs[0].rating < 0 then None
    else match RatingEntries(rs[1..])
      case None => None
      case Some(rest) => Some([EntryOf(rs[0])] + rest)
  }

  /** The contents of the e-mail report. The latest lists keep append order
      (oldest of the last five first). */
  datatype EmailReport = EmailReport(
    subject: string,
    totalVisitors: int,
    todayVisitors: int,
    conversionRate: real,
    submissions: nat,
    pending: nat,
    contacted: nat,
    converted: nat,
    ratings: nat,
    average: Option<real>,
    recentSubmissions: seq<Submission>,
    recentRatings: seq<RatingEntry>)

  const SubjectPrefix: string := "[Bex Sites] Relatório Diário - "

  /** generateEmailReport; `dateLabel` is the locale-formatted date of now.
      None when the report would throw (a negative rating among the last five). */
  function Email(d: Document, dateLabel: string): (r: Option<EmailReport>)
    ensures r.None? <==> exists i :: 0 <= i < |LastFive(d.satisfactionRatings)| && LastFive(d.satisfactionRatings)[i].rating < 0
    ensures r.Some? ==> r.value.subject == SubjectPrefix + dateLabel
    ensures r.Some? ==>
      && r.value.totalVisitors == d.totalVisitors && r.value.todayVisitors == d.todayVisitors
      && r.value.conversionRate == d.conversionRate
    ensures r.Some? ==>
      && r.value.submissions == |d.formSubmissions|
      && r.value.pending == CountStatus(d.formSubmissions, Pending)
      && r.value.contacted == CountStatus(d.formSubmissions, Contacted)
      && r.value.converted == CountStatus(d.formSubmissions, Converted)
    ensures r.Some? ==>
      && r.value.ratings == |d.satisfactionRatings|
      && r.value.average == Average(d.satisfactionRatings)
      && r.value.recentSubmissions == LastFive(d.formSubmissions)
    ensures r.Some? ==>
      var shown := LastFive(d.satisfactionRatings);
      && |r.value.recentRatings| == |shown|
      && forall i :: 0 <= i < |shown| ==> shown[i].rating >= 0 && r.value.recentRatings[i] == EntryOf(shown[i])
  {
    match RatingEntries(LastFive(d.satisfactionRatings))
    case None => None
    case Some(entries) =>
      Some(EmailReport(
        SubjectPrefix + dateLabel,
        d.totalVisitors, d.todayVisitors, d.conversionRate,
        |d.formSubmissions|,
        CountStatus(d.formSubmissions, Pending),
        CountStatus(d.formSubmissions, Contacted),
        CountStatus(d.formSubmissions, Converted),
        |d.satisfactionRatings|, Average(d.satisfactionRatings),
        LastFive(d.formSubmissions),
        entries))
  }

  /** Ratings from the star form (1 to 5) never make the e-mail report throw. */
  lemma EmailReportWithStarRatings(d: Document, dateLabel: string)
    requires StarsInRange(d.satisfactionRatings)
    ensures Email(d, dateLabel).Some?
  {
    var rs := d.satisfactionRatings;
    var shown := LastFive(rs);
    forall i | 0 <= i < |shown| ensures shown[i].rating >= 1 {
      assert shown[i] == rs[|rs| - |shown| + i];
    }
  }

  /** A tracked lead shows up in both reports: one more pending lead, and it
      is the last of the e-mail report's latest submissions. */
  lemma NewLeadInReports(d: Document, f: BriefingFields, id: string, timestamp: string,
                         today: string, dateLabel: string)
    requires Email(d, dateLabel).Some?
    ensures var s := NewSubmission(f, id, timestamp);
      var after := AfterSubmission(d, s);
      && WhatsApp(after, today).pending == WhatsApp(d, today).pending + 1
      && Email(after, dateLabel).Some?
      && Email(after, dateLabel).value.pending == Email(d, dateLabel).value.pending + 1
      && Email(after, dateLabel).value.recentSubmissions
         == (if |d.formSubmissions| < 5 then LastFive(d.formSubmissions) else LastFive(d.formSubmissions)[1..]) + [s]
  {
    var s := NewSubmission(f, id, timestamp);
    CountStatusAppend(d.formSubmissions, s, Pending);
    LastFiveAppend(d.formSubmissions, s);
  }

  /** A lead tracked today joins the end of the WhatsApp report's new-leads
      block, and "Hoje" counts one more; a lead dated another day changes
      neither. */
  lemma NewLeadLineToday(d: Document, f: BriefingFields, id: string, timestamp: string, today: string)
    ensures var s := NewSubmission(f, id, timestamp);
      var before := WhatsApp(d, today);
      var after := WhatsApp(AfterSubmission(d, s), today);
      && after.newLeads == before.newLeads + (if DatePart(timestamp) == today then [LeadLine(s)] else [])
      && after.submissionsToday == before.submissionsToday + (if DatePart(timestamp) == today then 1 else 0)
  {
    var s := NewSubmission(f, id, timestamp);
    var todays := SubmissionsOn(d.formSubmissions, today);
    var todaysAfter := SubmissionsOn(d.formSubmissions + [s], today);
    SubmissionsOnAppend(d.formSubmissions, s, today);
    assert AfterSubmission(d, s).formSubmissions == d.formSubmissions + [s];
    if DatePart(timestamp) == today {
      LeadLinesAppend(todays, s);
    } else {
      assert todaysAfter == todays;
    }
  }

  /** The report's "today" figure is the cached count from the day of the
      last tracked visit: a report drawn the next day, before any new visit,
      still shows yesterday's visitors. */
  lemma ReportTodayIsCachedCount()
    ensures var v := Visitor("v1", "2024-01-01T10:00:00.000Z", "home", "ua", "direct", "1x1");
      var d := AfterVisit(Empty(), v, "2024-01-01");
      && WhatsApp(d, "2024-01-02").todayVisitors == 1
      && CountOn(d.visitors, "2024-01-02") == 0
  {
    var v := Visitor("v1", "2024-01-01T10:00:00.000Z", "home", "ua", "direct", "1x1");
    assert DatePart(v.timestamp) == "2024-01-01" by {
      DatePartUnique(v.timestamp, "2024-01-01");
    }
    assert AfterVisit(Empty(), v, "2024-01-01").visitors == [v];
    assert CountOn([v], "2024-01-02") == 0 by {
      assert [v][1..] == [];
    }
  }

  /** Two ratings of 3 and 5 stars average 4. */
  lemma AverageOfThreeAndFive(a: Rating, b: Rating)
    requires a.rating == 3 && b.rating == 5
    ensures Average([a, b]) == Some(4.0)
  {
    assert [b][1..] == [];
    assert SumRatings([b]) == 5;
    assert [a, b][1..] == [b];
    assert SumRatings([a, b]) == 8;
  }
}
