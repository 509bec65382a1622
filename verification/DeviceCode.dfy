/** Waiting for a device-code sign-in, with the polling rules of section 3.5 of RFC 8628. Times are in nanoseconds. */
module DeviceCode {
  import opened Prelude

  const SECOND: nat := 1_000_000_000

  const SLOW_DOWN_SECONDS: nat := 5

  /** What one poll of the token endpoint comes to; a failure is anything that is not an answer to keep waiting. */
  datatype PollReply = Tokens(token: string) | Pending | SlowDown | Failed(reason: string)

  datatype Error = TimedOut | Rejected(reason: string)

  datatype DeviceCode = DeviceCode(expiresIn: nat, interval: nat)
  {
    function PollInterval(): (seconds: nat)
      ensures seconds >= 1 && seconds >= interval && (seconds == interval || seconds == 1)
    {
      if interval < 1 then 1 else interval
    }
  }

  predicate KeepsWaiting(reply: PollReply) {
    reply.Pending? || reply.SlowDown?
  }

  function SlowDowns(replies: nat -> PollReply, polls: nat): (s: nat)
    ensures s <= polls
  {
    if polls == 0 then 0
    else SlowDowns(replies, polls - 1) + if replies(polls - 1).SlowDown? then 1 else 0
  }

  lemma {:induction false} SlowDownsCounted(replies: nat -> PollReply, polls: nat)
    ensures SlowDowns(replies, polls) == |set i: nat | i < polls && replies(i).SlowDown?|
  {
    if polls > 0 {
      SlowDownsCounted(replies, polls - 1);
      var last := polls - 1;
      var before := set i: nat | i < last && replies(i).SlowDown?;
      assert (set i: nat | i < polls && replies(i).SlowDown?)
          == before + if replies(last).SlowDown? then {last} else {};
    }
  }

  /** The waits, in seconds, that come before the first `polls` polls. */
  function Waited(base: nat, replies: nat -> PollReply, polls: nat): nat {
    if polls == 0 then 0
    else Waited(base, replies, polls - 1) + base + SLOW_DOWN_SECONDS * SlowDowns(replies, polls - 1)
  }

  /** A wait between two polls: when it started and how long it was asked to be. */
  datatype Wait = Wait(start: nat, length: nat)

  /** The interval in force for wait `k`, in seconds. */
  function IntervalAt(code: DeviceCode, replies: nat -> PollReply, k: nat): (seconds: nat)
    ensures seconds >= 1
  {
    code.PollInterval() + SLOW_DOWN_SECONDS * SlowDowns(replies, k)
  }

  /**
   * One wait before each poll, each started before the deadline, of exactly the interval in force, and over
   * before the next one starts.
   */
  ghost predicate WellPaced(code: DeviceCode, replies: nat -> PollReply, start: nat, waits: seq<Wait>) {
    && (forall k :: 0 <= k < |waits| ==>
          && start <= waits[k].start < start + code.expiresIn * SECOND
          && waits[k].length == IntervalAt(code, replies, k) * SECOND)
    && (forall j, k :: 0 <= j < k < |waits| ==> waits[j].start + waits[j].length <= waits[k].start)
  }

  /** In nanoseconds: the server's interval, or a second if that is shorter, and five seconds for each slow-down. */
  lemma PacedExactly(code: DeviceCode, replies: nat -> PollReply, start: nat, waits: seq<Wait>, k: nat)
    requires WellPaced(code, replies, start, waits) && k < |waits|
    ensures start <= waits[k].start < start + code.expiresIn * 1_000_000_000
    ensures waits[k].length
         == ((if code.interval < 1 then 1 else code.interval) + 5 * |set i: nat | i < k && replies(i).SlowDown?|)
            * 1_000_000_000
  {
    SlowDownsCounted(replies, k);
  }

  lemma PacedSnoc(code: DeviceCode, replies: nat -> PollReply, start: nat, waits: seq<Wait>, now: nat)
    requires WellPaced(code, replies, start, waits) && start <= now < start + code.expiresIn * SECOND
    requires forall k :: 0 <= k < |waits| ==> waits[k].start + waits[k].length <= now
    ensures WellPaced(code, replies, start, waits + [Wait(now, IntervalAt(code, replies, |waits|) * SECOND)])
    ensures IntervalAt(code, replies, |waits|) * SECOND >= SECOND
  {
  }

  /** A slow-down reply adds five seconds, any other leaves the interval alone. */
  lemma IntervalStep(code: DeviceCode, replies: nat -> PollReply, k: nat)
    ensures IntervalAt(code, replies, k + 1) * SECOND
         == IntervalAt(code, replies, k) * SECOND + (if replies(k).SlowDown? then SLOW_DOWN_SECONDS * SECOND else 0)
  {
  }

  /**
   * The waiting loop. `replies(k)` is the answer to poll `k`, and sleeping or polling may take longer than
   * asked. Also reported: the waits, one before each poll, and when the loop ended.
   */
  method WaitForDeviceCode(code: DeviceCode, replies: nat -> PollReply, start: nat)
    returns (r: Result<string, Error>, polls: nat, ended: nat, ghost waits: seq<Wait>)
    ensures |waits| == polls && WellPaced(code, replies, start, waits)
    ensures forall k :: 0 <= k < polls ==> waits[k].start + waits[k].length <= ended
    ensures forall k :: 0 <= k < polls - 1 ==> KeepsWaiting(replies(k))
    ensures r.Ok? ==> polls > 0 && replies(polls - 1) == Tokens(r.value)
    ensures r.Err? && r.error.Rejected? ==> polls > 0 && replies(polls - 1) == Failed(r.error.reason)
    ensures r == Err(TimedOut) ==>
              (polls > 0 ==> KeepsWaiting(replies(polls - 1))) && ended >= start + code.expiresIn * SECOND
  {
    var deadline := start + code.expiresIn * SECOND;
    var interval := code.PollInterval() * SECOND;
    var now := start;
    polls, waits := 0, [];
    while true
      invariant deadline == start + code.expiresIn * SECOND && now >= start
      invariant interval == IntervalAt(code, replies, polls) * SECOND
      invariant |waits| == polls && WellPaced(code, replies, start, waits)
      invariant forall k :: 0 <= k < polls ==> waits[k].start + waits[k].length <= now
      invariant forall k :: 0 <= k < polls ==> KeepsWaiting(replies(k))
      decreases deadline - now
    {
      if now >= deadline {
        return Err(TimedOut), polls, now, waits;
      }
      PacedSnoc(code, replies, start, waits, now);
      waits := waits + [Wait(now, interval)];
      var late: nat :| true;
      now := now + interval + late;

      var took: nat :| true;
      now := now + took;
      var reply := replies(polls);
      IntervalStep(code, replies, polls);
      polls := polls + 1;
      match reply {
        case Tokens(token) => return Ok(token), polls, now, waits;
        case Pending =>
        case SlowDown => interval := interval + SLOW_DOWN_SECONDS * SECOND;
        case Failed(reason) => return Err(Rejected(reason)), polls, now, waits;
      }
    }
  }

  /** Well-paced waits take at least the nominal time, so the last one starts no earlier than that. */
  lemma {:induction false} WaitsAddUp(code: DeviceCode, replies: nat -> PollReply, start: nat, waits: seq<Wait>, k: nat)
    requires WellPaced(code, replies, start, waits) && k < |waits|
    ensures waits[k].start >= start + Waited(code.PollInterval(), replies, k) * SECOND
  {
    if k > 0 {
      WaitsAddUp(code, replies, start, waits, k - 1);
      assert waits[k - 1].start + waits[k - 1].length <= waits[k].start;
    }
  }

  lemma {:induction false} TriangleStep(s: nat)
    ensures s * (s - 1) / 2 + s == (s + 1) * s / 2
  {
  }

  /** Slowing down costs: after `s` slow-downs in `p` polls at least 5 s (s - 1) / 2 further seconds have gone. */
  lemma {:induction false} SlowDownsCost(base: nat, replies: nat -> PollReply, polls: nat)
    ensures var s := SlowDowns(replies, polls);
            Waited(base, replies, polls) >= polls * base + 5 * (s * (s - 1) / 2)
  {
    if polls > 0 {
      SlowDownsCost(base, replies, polls - 1);
      TriangleStep(SlowDowns(replies, polls - 1));
      assert polls * base == (polls - 1) * base + base;
    }
  }

  lemma AtLeastOneEach(n: nat, base: nat)
    requires base >= 1
    ensures n * base >= n
  {
  }

  lemma TriangleNonNegative(s: nat)
    ensures s * (s - 1) / 2 >= 0
  {
  }

  /** Polls are bounded by the code's lifetime, whatever the server answers and however long calls take. */
  lemma PollsBounded(code: DeviceCode, replies: nat -> PollReply, start: nat, waits: seq<Wait>)
    requires WellPaced(code, replies, start, waits) && waits != []
    ensures Waited(code.PollInterval(), replies, |waits| - 1) < code.expiresIn
    ensures (|waits| - 1) * code.PollInterval() < code.expiresIn
    ensures |waits| <= code.expiresIn
  {
    var last := |waits| - 1;
    WaitsAddUp(code, replies, start, waits, last);
    SlowDownsCost(code.PollInterval(), replies, last);
    TriangleNonNegative(SlowDowns(replies, last));
    AtLeastOneEach(last, code.PollInterval());
  }
}
