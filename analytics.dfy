/**
 * The analytics page: daily, hourly and funnel aggregates over the latest messages,
 * the day-over-day growth and the keyword ranking. Each aggregate is computed by a loop
 * over the messages, as the page does, and proved equal to a definition by groups and
 * counts.
 */
module Analytics {
  import opened Common
  import opened Text
  import opened Sorting
  import opened Records
  import opened Grouping
  import opened KeywordAggregate

  /** The range selector: '7d' is seven days, '30d' thirty, anything else one. */
  function RangeDays(range: string): (n: nat)
    ensures range == "7d" ==> n == 7
    ensures range == "30d" ==> n == 30
    ensures range != "7d" && range != "30d" ==> n == 1
  {
    if range == "7d" then 7 else if range == "30d" then 30 else 1
  }

  /** A message is grouped under its date when the date is truthy. */
  function DateKey(m: Message): Option<string>
  {
    if Truthy(m.date) then m.date else None
  }

  function Sender(m: Message): string
  {
    m.from
  }

  predicate IsConsultation(m: Message)
  {
    m.keyword == Some("konsultasi")
  }

  /** One day of the daily chart. */
  datatype DayStats = DayStats(date: string, messages: nat, users: nat, consultations: nat)

  /** The day `d` as the definition has it: its messages, distinct senders, consultations. */
  function DayOf(s: seq<Message>, d: string): DayStats
  {
    var g := Group(s, DateKey, d);
    DayStats(d, |g|, |Image(g, Sender)|, Count(g, IsConsultation))
  }

  /** The days in the order first met, the last `days` of them, each with its figures. */
  function DailyData(s: seq<Message>, days: nat): seq<DayStats>
  {
    Days(s, TakeLast(FirstSeen(s, DateKey), days))
  }

  /** The rows of the dates `ds`, in that order. */
  function Days(s: seq<Message>, ds: seq<string>): (r: seq<DayStats>)
    ensures |r| == |ds|
    ensures forall k :: 0 <= k < |ds| ==> r[k] == DayOf(s, ds[k])
  {
    if ds == [] then [] else [DayOf(s, ds[0])] + Days(s, ds[1..])
  }

  /** The figures the loop keeps per date: a count, a set of senders, a count. */
  datatype Tally = Tally(messages: nat, users: set<string>, consultations: nat)

  function TallyOf(s: seq<Message>, d: string): Tally
  {
    var g := Group(s, DateKey, d);
    Tally(|g|, Image(g, Sender), Count(g, IsConsultation))
  }

  /** A dated message adds one to its date's tally and to nothing else. */
  lemma TallySnoc(s: seq<Message>, m: Message, d: string)
    ensures TallyOf(s + [m], d) == if DateKey(m) == Some(d) then Bump(TallyOf(s, d), m) else TallyOf(s, d)
  {
    GroupSnoc(s, m, DateKey, d);
    if DateKey(m) == Some(d) {
      TallyHit(s, m, d);
    } else {
      assert Group(s + [m], DateKey, d) == Group(s, DateKey, d) + [];
      assert Group(s, DateKey, d) + [] == Group(s, DateKey, d);
    }
  }

  lemma TallyHit(s: seq<Message>, m: Message, d: string)
    requires Group(s + [m], DateKey, d) == Group(s, DateKey, d) + [m]
    ensures TallyOf(s + [m], d) == Bump(TallyOf(s, d), m)
  {
    var g := Group(s, DateKey, d);
    ImageSnoc(g, m, Sender);
    CountSnoc(g, m, IsConsultation);
  }

  /** One more message in a tally. */
  function Bump(t: Tally, m: Message): Tally
  {
    Tally(t.messages + 1, t.users + {m.from}, t.consultations + (if IsConsultation(m) then 1 else 0))
  }

  /** `order` lists the dates met in `s` as first met, and `acc` holds each one's tally. */
  ghost predicate Tallied(order: seq<string>, acc: map<string, Tally>, s: seq<Message>)
  {
    && order == FirstSeen(s, DateKey)
    && (forall d :: d in acc <==> d in order)
    && (forall d :: d in acc ==> acc[d] == TallyOf(s, d))
  }

  /** One message of the daily loop: a dated message opens its date if new, then bumps it. */
  function Advance(acc: map<string, Tally>, m: Message): map<string, Tally>
  {
    if m.date.Some? && m.date.value != "" then
      var d := m.date.value;
      var t := if d in acc then acc[d] else Tally(0, {}, 0);
      acc[d := Bump(t, m)]
    else acc
  }

  function Opened(order: seq<string>, acc: map<string, Tally>, m: Message): seq<string>
  {
    if m.date.Some? && m.date.value != "" && m.date.value !in acc then order + [m.date.value] else order
  }

  lemma AdvanceTallies(order: seq<string>, acc: map<string, Tally>, s: seq<Message>, m: Message)
    requires Tallied(order, acc, s)
    ensures Tallied(Opened(order, acc, m), Advance(acc, m), s + [m])
  {
    if m.date.Some? && m.date.value != "" {
      AdvanceDated(order, acc, s, m);
    } else {
      AdvanceUndated(order, acc, s, m);
    }
  }

  /** A dated message opens its date when new, and changes that date's tally only. */
  lemma AdvanceDated(order: seq<string>, acc: map<string, Tally>, s: seq<Message>, m: Message)
    requires Tallied(order, acc, s) && m.date.Some? && m.date.value != ""
    ensures Tallied(Opened(order, acc, m), Advance(acc, m), s + [m])
  {
    FirstSeenSnoc(s, m, DateKey);
    FirstSeenSpec(s, DateKey, m.date.value);
    var acc2 := Advance(acc, m);
    forall d | d in acc2 ensures acc2[d] == TallyOf(s + [m], d) {
      TallySnoc(s, m, d);
    }
  }

  /** A message without a date changes nothing. */
  lemma AdvanceUndated(order: seq<string>, acc: map<string, Tally>, s: seq<Message>, m: Message)
    requires Tallied(order, acc, s) && !(m.date.Some? && m.date.value != "")
    ensures Tallied(Opened(order, acc, m), Advance(acc, m), s + [m])
  {
    FirstSeenSnoc(s, m, DateKey);
    forall d | d in acc ensures acc[d] == TallyOf(s + [m], d) {
      TallySnoc(s, m, d);
    }
  }

  /** The loop of `getDailyData`: the dates in the order first met, each with its tally. */
  method TallyDates(messages: seq<Message>) returns (order: seq<string>, acc: map<string, Tally>)
    ensures Tallied(order, acc, messages)
  {
    order := [];
    acc := map[];
    var i := 0;
    while i < |messages|
      invariant 0 <= i <= |messages|
      invariant Tallied(order, acc, messages[..i])
    {
      assert messages[..i + 1] == messages[..i] + [messages[i]];
      AdvanceTallies(order, acc, messages[..i], messages[i]);
      order := Opened(order, acc, messages[i]);
      acc := Advance(acc, messages[i]);
      i := i + 1;
    }
    assert messages[..i] == messages;
  }

  /** `getDailyData`: the tallies of the last `days` dates, in the order first met. */
  method GetDailyData(messages: seq<Message>, range: string) returns (rows: seq<DayStats>)
    ensures rows == DailyData(messages, RangeDays(range))
  {
    var days := RangeDays(range);
    var order, acc := TallyDates(messages);
    var ds := TakeLast(order, days);
    rows := seq(|ds|, k requires 0 <= k < |ds| => Row(acc[ds[k]], ds[k]));
    forall k | 0 <= k < |ds| ensures rows[k] == DayOf(messages, ds[k]) {
      assert ds[k] in order;
    }
  }

  /** A date's row as the page builds it from its tally. */
  function Row(t: Tally, d: string): DayStats
  {
    DayStats(d, t.messages, |t.users|, t.consultations)
  }

  /** A day's figures: consultations and senders never exceed its messages, and a listed day has one. */
  lemma {:induction false} DayBounds(s: seq<Message>, days: nat, k: nat)
    requires k < |DailyData(s, days)|
    ensures var r := DailyData(s, days)[k];
            r.consultations <= r.messages && 1 <= r.users <= r.messages
  {
    var ds := TakeLast(FirstSeen(s, DateKey), days);
    var g := Group(s, DateKey, ds[k]);
    FirstSeenSpec(s, DateKey, ds[k]);
    ImageBound(g, Sender);
    assert Sender(g[0]) in Image(g, Sender);
  }

  /** When the range covers every day met, the chart's message counts add up to the dated messages. */
  lemma DailyTotal(s: seq<Message>, days: nat)
    requires |FirstSeen(s, DateKey)| <= days
    ensures Sum(DailyData(s, days), DayMessages) == Count(s, HasKey(DateKey))
  {
    var ds := FirstSeen(s, DateKey);
    RowsSum(s, ds);
    GroupTotals(s, DateKey, One);
    SumOne(Filter(s, HasKey(DateKey)));
  }

  function DayMessages(r: DayStats): int
  {
    r.messages
  }

  lemma {:induction false} RowsSum(s: seq<Message>, ds: seq<string>)
    ensures Sum(Days(s, ds), DayMessages) == SumGroups(s, DateKey, ds, One)
  {
    if ds != [] {
      RowsSum(s, ds[1..]);
      SumOne(Group(s, DateKey, ds[0]));
    }
  }

  function One(m: Message): int
  {
    1
  }

  lemma {:induction false} SumOne(s: seq<Message>)
    ensures Sum(s, One) == |s|
  {
    if s != [] {
      SumOne(s[1..]);
    }
  }

  /** The messages sent in hour `h` of the day. */
  function AtHour(h: int): Message -> bool
  {
    (m: Message) => m.hour == Some(h)
  }

  /** The 24 hourly buckets, labelled "0:00" to "23:00". */
  function Histogram(s: seq<Message>): (r: seq<HourlyActivity>)
    ensures |r| == 24
    ensures forall h :: 0 <= h < 24 ==> r[h].hour == NatToString(h) + ":00"
  {
    seq(24, h requires 0 <= h < 24 => HourlyActivity(NatToString(h) + ":00", Count(s, AtHour(h))))
  }

  /** `hourly[h]` holds the number of messages of `s` sent in hour `h`; absent hours have none. */
  ghost predicate HoursTallied(hourly: map<int, nat>, s: seq<Message>)
  {
    && (forall h :: h in hourly ==> hourly[h] == Count(s, AtHour(h)))
    && (forall h :: h !in hourly ==> Count(s, AtHour(h)) == 0)
  }

  /** `hourly[hour] = (hourly[hour] || 0) + 1` for a message with an hour. */
  function CountHour(hourly: map<int, nat>, m: Message): map<int, nat>
  {
    if m.hour.Some? then hourly[m.hour.value := (if m.hour.value in hourly then hourly[m.hour.value] else 0) + 1]
    else hourly
  }

  lemma HoursTalliedSnoc(hourly: map<int, nat>, s: seq<Message>, m: Message)
    requires HoursTallied(hourly, s)
    ensures HoursTallied(CountHour(hourly, m), s + [m])
  {
    forall h ensures Count(s + [m], AtHour(h)) == Count(s, AtHour(h)) + (if m.hour == Some(h) then 1 else 0) {
      CountSnoc(s, m, AtHour(h));
    }
  }

  /** The 24 rows read off a tally, an absent hour counting 0. */
  function ReadOff(hourly: map<int, nat>): seq<HourlyActivity>
  {
    seq(24, h requires 0 <= h < 24 => HourlyActivity(NatToString(h) + ":00", if h in hourly then hourly[h] else 0))
  }

  /** Reading the 24 hours off a tally of `s` gives the histogram of `s`. */
  lemma HoursReadOff(hourly: map<int, nat>, s: seq<Message>)
    requires HoursTallied(hourly, s)
    ensures ReadOff(hourly) == Histogram(s)
  {
  }

  /** Counting message `i` extends a tally of the first `i` messages to the first `i + 1`. */
  lemma TallyNext(hourly: map<int, nat>, messages: seq<Message>, i: nat)
    requires i < |messages| && HoursTallied(hourly, messages[..i])
    ensures HoursTallied(CountHour(hourly, messages[i]), messages[..i + 1])
  {
    assert messages[..i + 1] == messages[..i] + [messages[i]];
    HoursTalliedSnoc(hourly, messages[..i], messages[i]);
  }

  /** A tally of all the messages reads off as their histogram. */
  lemma TallyDone(hourly: map<int, nat>, messages: seq<Message>, i: nat)
    requires i == |messages| && HoursTallied(hourly, messages[..i])
    ensures ReadOff(hourly) == Histogram(messages)
  {
    assert messages[..i] == messages;
    HoursReadOff(hourly, messages);
  }

  /** `getHourlyData`: count per hour value, then read off the 24 hours of the day. */
  method GetHourlyData(messages: seq<Message>) returns (rows: seq<HourlyActivity>)
    ensures rows == Histogram(messages)
  {
    var hourly: map<int, nat> := map[];
    var i := 0;
    while i < |messages|
      invariant 0 <= i <= |messages|
      invariant HoursTallied(hourly, messages[..i])
    {
      TallyNext(hourly, messages, i);
      hourly := CountHour(hourly, messages[i]);
      i := i + 1;
    }
    TallyDone(hourly, messages, i);
    rows := ReadOff(hourly);
  }

  /** Σ of the first `n` buckets. */
  function BucketSum(s: seq<Message>, n: nat): nat
  {
    if n == 0 then 0 else BucketSum(s, n - 1) + Count(s, AtHour(n - 1))
  }

  /** The messages whose hour lies in `0 .. n - 1`. */
  function HourBelow(n: nat): Message -> bool
  {
    (m: Message) => m.hour.Some? && 0 <= m.hour.value < n
  }

  lemma {:induction false} BucketSumCounts(s: seq<Message>, n: nat)
    ensures BucketSum(s, n) == Count(s, HourBelow(n))
  {
    if n > 0 {
      BucketSumCounts(s, n - 1);
      BucketStep(s, n);
    } else {
      NoHourBelowZero(s);
    }
  }

  /** Adding bucket `n - 1` to the first `n - 1` adds the messages of hour `n - 1`. */
  lemma BucketStep(s: seq<Message>, n: nat)
    requires n > 0 && BucketSum(s, n - 1) == Count(s, HourBelow(n - 1))
    ensures BucketSum(s, n) == Count(s, HourBelow(n))
  {
    CountSplit(s, n);
  }

  lemma NoHourBelowZero(s: seq<Message>)
    ensures Count(s, HourBelow(0)) == 0
  {
    assert forall i :: 0 <= i < |s| ==> !HourBelow(0)(s[i]);
  }

  lemma {:induction false} CountSplit(s: seq<Message>, n: nat)
    requires n > 0
    ensures Count(s, HourBelow(n)) == Count(s, HourBelow(n - 1)) + Count(s, AtHour(n - 1))
  {
    if s != [] {
      CountSplit(s[1..], n);
    }
  }

  /** The 24 buckets together hold exactly the messages whose hour is in the day. */
  lemma HistogramTotal(s: seq<Message>)
    ensures BucketSum(s, 24) == Count(s, HourBelow(24))
  {
    BucketSumCounts(s, 24);
  }

  /** The stages of the funnel, in order, with the keyword each one counts. */
  const FunnelStages: seq<string> := ["Welcome", "Mulai", "Tips", "Bonus", "Autopilot", "Konsultasi"]
  const FunnelKeywords: seq<string> := ["welcome", "mulai", "tips", "bonus", "autopilot", "konsultasi"]

  datatype Stage = Stage(stage: string, count: nat)

  function KeywordIs(k: string): Message -> bool
  {
    (m: Message) => m.keyword == Some(k)
  }

  /** The funnel by definition: each stage's count of messages with its keyword. */
  function Funnel(s: seq<Message>): (r: seq<Stage>)
    ensures |r| == 6
    ensures forall j :: 0 <= j < 6 ==> r[j].stage == FunnelStages[j]
  {
    seq(6, j requires 0 <= j < 6 => Stage(FunnelStages[j], Count(s, KeywordIs(FunnelKeywords[j]))))
  }

  /** `counts` holds, for every truthy keyword, its number of messages in `s`. */
  ghost predicate Counted(counts: map<string, nat>, s: seq<Message>)
  {
    && (forall k :: k in counts ==> k != "" && counts[k] == Count(s, KeywordIs(k)))
    && (forall k :: k != "" && k !in counts ==> Count(s, KeywordIs(k)) == 0)
  }

  /** One message of the funnel loop: a truthy keyword's count goes up by one. */
  function Tick(counts: map<string, nat>, m: Message): map<string, nat>
  {
    if m.keyword.Some? && m.keyword.value != "" then counts[m.keyword.value := CountOr(counts, m.keyword.value) + 1]
    else counts
  }

  lemma TickCounts(counts: map<string, nat>, s: seq<Message>, m: Message)
    requires Counted(counts, s)
    ensures Counted(Tick(counts, m), s + [m])
  {
    forall k ensures Count(s + [m], KeywordIs(k)) == Count(s, KeywordIs(k)) + (if m.keyword == Some(k) then 1 else 0)
    {
      CountSnoc(s, m, KeywordIs(k));
    }
  }

  /** The first half of `getFunnelData`: count the messages of every truthy keyword. */
  method CountKeywords(messages: seq<Message>) returns (counts: map<string, nat>)
    ensures Counted(counts, messages)
  {
    counts := map[];
    var i := 0;
    while i < |messages|
      invariant 0 <= i <= |messages|
      invariant Counted(counts, messages[..i])
    {
      assert messages[..i + 1] == messages[..i] + [messages[i]];
      TickCounts(counts, messages[..i], messages[i]);
      counts := Tick(counts, messages[i]);
      i := i + 1;
    }
    assert messages[..i] == messages;
  }

  /** `getFunnelData`: the six stages read off the keyword counts. */
  method GetFunnelData(messages: seq<Message>) returns (stages: seq<Stage>)
    ensures stages == Funnel(messages)
  {
    var counts := CountKeywords(messages);
    stages := FunnelOf(counts);
    FunnelFromCounts(messages, counts);
  }

  /** The six stages read off the keyword counts. */
  function FunnelOf(counts: map<string, nat>): seq<Stage>
  {
    seq(6, j requires 0 <= j < 6 => Stage(FunnelStages[j], CountOr(counts, FunnelKeywords[j])))
  }

  lemma FunnelFromCounts(s: seq<Message>, counts: map<string, nat>)
    requires Counted(counts, s)
    ensures FunnelOf(counts) == Funnel(s)
  {
    forall j | 0 <= j < 6 ensures CountOr(counts, FunnelKeywords[j]) == Count(s, KeywordIs(FunnelKeywords[j])) {
      assert FunnelKeywords[j] != "";
    }
  }

  /** `counts[k] || 0`. */
  function CountOr(counts: map<string, nat>, k: string): nat
  {
    if k in counts then counts[k] else 0
  }

  /** The consultation stage counts exactly the consultations the daily chart counts. */
  lemma FunnelConsultations(s: seq<Message>)
    ensures Funnel(s)[5].count == Count(s, IsConsultation)
  {
    CountSame(s, KeywordIs("konsultasi"), IsConsultation);
  }

  lemma {:induction false} CountSame(s: seq<Message>, p: Message -> bool, q: Message -> bool)
    requires forall m :: p(m) == q(m)
    ensures Count(s, p) == Count(s, q)
  {
    if s != [] {
      CountSame(s[1..], p, q);
    }
  }

  /** A day-over-day change: none when the earlier figure is zero. */
  datatype Rate = Flat | Change(latest: nat, previous: nat)

  /** `safePercent` on its two operands: the percentage is `(latest - previous) / previous`. */
  function SafePercent(latest: nat, previous: nat): (r: Rate)
    ensures r.Flat? <==> previous == 0
    ensures r.Change? ==> r.previous > 0 && r.latest == latest && r.previous == previous
  {
    if previous == 0 then Flat else Change(latest, previous)
  }

  datatype Growth = Growth(messages: Rate, users: Rate, consultations: Rate)

  /** `calculateGrowth`: compare the last two days of the daily chart. */
  function CalculateGrowth(daily: seq<DayStats>): (g: Growth)
    ensures |daily| < 2 ==> g == Growth(Flat, Flat, Flat)
    ensures |daily| >= 2 ==>
              g.messages == SafePercent(daily[|daily| - 1].messages, daily[|daily| - 2].messages)
              && g.users == SafePercent(daily[|daily| - 1].users, daily[|daily| - 2].users)
              && g.consultations == SafePercent(daily[|daily| - 1].consultations, daily[|daily| - 2].consultations)
  {
    if |daily| < 2 then Growth(Flat, Flat, Flat)
    else
      var latest := daily[|daily| - 1];
      var previous := daily[|daily| - 2];
      Growth(SafePercent(latest.messages, previous.messages),
             SafePercent(latest.users, previous.users),
             SafePercent(latest.consultations, previous.consultations))
  }

  /** On the page's daily chart a listed day has a message and a sender, so users growth is a change. */
  lemma UsersGrowthDefined(s: seq<Message>, days: nat)
    requires |DailyData(s, days)| >= 2
    ensures CalculateGrowth(DailyData(s, days)).users.Change?
    ensures CalculateGrowth(DailyData(s, days)).messages.Change?
  {
    ListedDaysActive(s, days);
    GrowthOfActiveDays(DailyData(s, days));
  }

  /** Every day of the chart has a message and a sender. */
  ghost predicate ActiveDays(daily: seq<DayStats>)
  {
    forall k :: 0 <= k < |daily| ==> daily[k].users >= 1 && daily[k].messages >= 1
  }

  lemma ListedDaysActive(s: seq<Message>, days: nat)
    ensures ActiveDays(DailyData(s, days))
  {
    forall k | 0 <= k < |DailyData(s, days)|
      ensures DailyData(s, days)[k].users >= 1 && DailyData(s, days)[k].messages >= 1
    {
      DayBounds(s, days, k);
    }
  }

  lemma GrowthOfActiveDays(daily: seq<DayStats>)
    requires |daily| >= 2 && ActiveDays(daily)
    ensures CalculateGrowth(daily).users.Change? && CalculateGrowth(daily).messages.Change?
  {
    assert daily[|daily| - 2].users >= 1 && daily[|daily| - 2].messages >= 1;
  }

  /** The keyword table's order: a copy of the stats sorted by count, most used first (stable). */
  function TopKeywords(stats: seq<KeywordStat>): seq<KeywordStat>
  {
    Sort(stats, MoreUsed)
  }

  lemma TopKeywordsRanked(stats: seq<KeywordStat>)
    ensures SortedBy(TopKeywords(stats), MoreUsed)
    ensures multiset(TopKeywords(stats)) == multiset(stats)
  {
    MoreUsedIsPreorder();
    SortSorted(stats, MoreUsed);
  }
}
