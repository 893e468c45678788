/**
 * Time arithmetic of the use case. Instants are whole seconds since Go's zero
 * time (January 1, year 1, UTC), the origin `time.Time.Truncate` rounds from;
 * the aggregate interval is a positive number of minutes.
 */
module TimeBucket {

  const SecondsPerMinute: int := 60

  /** The bucket width in seconds: `time.Duration(interval) * time.Minute`. */
  function Width(interval: int): (w: int)
    requires interval > 0
    ensures w >= SecondsPerMinute
  {
    interval * SecondsPerMinute
  }

  /** `t.Truncate(interval minutes)`: the start of the bucket holding `t`. */
  function Truncate(t: int, interval: int): (begin: int)
    requires interval > 0
    ensures begin % Width(interval) == 0
    ensures begin <= t < begin + Width(interval)
  {
    var w := Width(interval);
    assert t == w * (t / w) + t % w;
    MultipleMod(t / w, w);
    t - t % w
  }

  /** A non-zero multiple of `w` is at least `w` away from zero. */
  lemma {:induction false} MulSign(w: int, d: int)
    requires w > 0
    ensures d > 0 ==> w * d >= w
    ensures d < 0 ==> w * d <= -w
    decreases if d < 0 then -d else d
  {
    if d > 1 {
      MulSign(w, d - 1);
      assert w * d == w * (d - 1) + w;
    } else if d < -1 {
      MulSign(w, d + 1);
      assert w * d == w * (d + 1) - w;
    }
  }

  lemma MultipleMod(q: int, w: int)
    requires w > 0
    ensures (w * q) % w == 0
  {
    var m := w * q;
    assert m == w * (m / w) + m % w;
    assert w * (q - m / w) == m - w * (m / w);
    MulSign(w, q - m / w);
  }

  /** Every instant of a bucket truncates to the bucket's start: buckets
      neither overlap nor leave gaps. */
  lemma TruncateSameBucket(t: int, begin: int, interval: int)
    requires interval > 0
    requires begin % Width(interval) == 0 && begin <= t < begin + Width(interval)
    ensures Truncate(t, interval) == begin
  {
    var w := Width(interval);
    var b := Truncate(t, interval);
    assert b == w * (b / w) && begin == w * (begin / w);
    var d := b / w - begin / w;
    assert w * d == w * (b / w) - w * (begin / w);
    MulSign(w, d);
  }

  /** `beginDate.Add((interval-1) minutes + 59 seconds)`: the bucket's
      inclusive last second. */
  function BucketEnd(begin: int, interval: int): (end: int)
    requires interval > 0
    ensures end == begin + Width(interval) - 1
  {
    begin + (interval - 1) * SecondsPerMinute + 59
  }

  /** `now - interval minutes`: buckets starting at or after it are still open. */
  function Cutoff(now: int, interval: int): int
    requires interval > 0
  {
    now - Width(interval)
  }

  /** The run's guard: `lastUpdate + 1s` is after the cutoff, so no closed
      window exists yet. It holds exactly while less than a full interval has
      elapsed since the watermark. */
  predicate NoClosedWindow(lastUpdate: int, now: int, interval: int): (b: bool)
    requires interval > 0
    ensures b <==> now - lastUpdate <= Width(interval)
  {
    lastUpdate + 1 > Cutoff(now, interval)
  }

  /** A bucket's last second lies in the bucket and the next second starts the
      following bucket. */
  lemma BucketEndInBucket(begin: int, interval: int)
    requires interval > 0 && begin % Width(interval) == 0
    ensures Truncate(BucketEnd(begin, interval), interval) == begin
    ensures Truncate(BucketEnd(begin, interval) + 1, interval) == begin + Width(interval)
  {
    TruncateSameBucket(BucketEnd(begin, interval), begin, interval);
    MultipleMod(begin / Width(interval) + 1, Width(interval));
    assert begin + Width(interval) == Width(interval) * (begin / Width(interval) + 1);
    TruncateSameBucket(BucketEnd(begin, interval) + 1, begin + Width(interval), interval);
  }
}
