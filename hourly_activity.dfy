/**
 * The `useHourlyActivity` hook: the messages of one date counted into 24 hourly buckets
 * held in an array, then listed as chart entries.
 */
module HourlyActivityHook {
  import opened Common
  import opened Text
  import opened Records
  import opened Analytics

  /** The store's query `date == date`. */
  function DatedOn(date: string): Message -> bool
  {
    (m: Message) => m.date == Some(date)
  }

  /** The hook's chart for a store and a date, by definition. */
  function HourlyFor(store: seq<Message>, date: string): seq<HourlyActivity>
  {
    Histogram(Filter(store, DatedOn(date)))
  }

  /** The 24 buckets count exactly the messages of the date whose hour is in the day. */
  lemma HourlyTotal(store: seq<Message>, date: string)
    ensures BucketSum(Filter(store, DatedOn(date)), 24) == Count(Filter(store, DatedOn(date)), HourBelow(24))
  {
    HistogramTotal(Filter(store, DatedOn(date)));
  }

  /** `counts` holds, for each hour of the day, its number of messages in `s`. */
  ghost predicate Bucketed(counts: seq<nat>, s: seq<Message>)
  {
    |counts| == 24 && forall h :: 0 <= h < 24 ==> counts[h] == Count(s, AtHour(h))
  }

  /** One message adds one to the bucket of its hour, if it has one in the day. */
  lemma BucketStep(counts: seq<nat>, s: seq<Message>, m: Message)
    requires Bucketed(counts, s)
    ensures m.hour.Some? && 0 <= m.hour.value < 24 ==>
              Bucketed(counts[m.hour.value := counts[m.hour.value] + 1], s + [m])
    ensures !(m.hour.Some? && 0 <= m.hour.value < 24) ==> Bucketed(counts, s + [m])
  {
    forall h | 0 <= h < 24 ensures Count(s + [m], AtHour(h)) == Count(s, AtHour(h)) + (if m.hour == Some(h) then 1 else 0)
    {
      CountSnoc(s, m, AtHour(h));
    }
  }

  /** The `forEach` of `fetchHourly`: 24 zeros, then one increment per message with an hour. */
  method CountHours(docs: seq<Message>) returns (hourCounts: array<nat>)
    ensures fresh(hourCounts)
    ensures Bucketed(hourCounts[..], docs)
  {
    hourCounts := new nat[24](_ => 0);
    assert Bucketed(hourCounts[..], docs[..0]);
    var i := 0;
    while i < |docs|
      invariant 0 <= i <= |docs|
      invariant hourCounts.Length == 24
      invariant Bucketed(hourCounts[..], docs[..i])
    {
      var m := docs[i];
      assert docs[..i + 1] == docs[..i] + [m];
      BucketStep(hourCounts[..], docs[..i], m);
      if m.hour.Some? && 0 <= m.hour.value < 24 {
        hourCounts[m.hour.value] := hourCounts[m.hour.value] + 1;
      }
      i := i + 1;
    }
    assert docs[..i] == docs;
  }

  class HourlyActivityState {
    var hourlyData: seq<HourlyActivity>
    var loading: bool

    constructor ()
      ensures hourlyData == [] && loading
    {
      hourlyData := [];
      loading := true;
    }

    /** `fetchHourly`: `store` is the `messages` collection; the chart lists the 24 buckets. */
    method FetchHourly(store: seq<Message>, date: string, read: Step)
      modifies this
      ensures !loading
      ensures read.Done? ==> hourlyData == HourlyFor(store, date)
      ensures read.Failed? ==> hourlyData == old(hourlyData)
    {
      if read.Done? {
        var docs := Filter(store, DatedOn(date));
        var hourCounts := CountHours(docs);
        hourlyData := seq(24, h requires 0 <= h < 24 reads hourCounts =>
                                HourlyActivity(NatToString(h) + ":00", hourCounts[h]));
      }
      loading := false;
    }
  }
}
