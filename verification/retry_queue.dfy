/**
 * The bounded retry queue for outgoing messages: a list with a capacity,
 * removal by message id, a delay table per retry policy, one processing pass
 * that drops, sends, reschedules or keeps each message, and a flush.
 * The clock, the publish results and the connection checks are parameters.
 */
module RetryQueue {
  import opened Wrappers
  import opened Text

  /** The four enum members, and any other value passed as a policy (it has no delay table). */
  datatype RetryPolicy = ExponentialBackoff | LinearBackoff | FixedDelay | Immediate | Unlisted

  datatype QueuedMessage = QueuedMessage(
    topic: string,
    payload: string,
    qos: int,
    retain: bool,
    timestamp: real,
    retryCount: nat,
    maxRetries: int,
    policy: RetryPolicy,
    nextRetryTime: real,
    messageId: string)

  /** `f"{topic}_{int(time.time() * 1000)}"`, with the clock in milliseconds as a parameter. */
  function MessageId(topic: string, millis: nat): (id: string)
    ensures StartsWith(id, topic + "_") && IsDigits(id[|topic| + 1..])
  {
    var id := topic + "_" + NatToString(millis);
    assert id[..|topic| + 1] == topic + "_";
    assert id[|topic| + 1..] == NatToString(millis);
    id
  }

  /**
   * The dataclass constructor with `__post_init__`: a zero timestamp becomes
   * the clock `now`, a zero next-retry time becomes the timestamp and a
   * missing id is derived from the topic and the clock in milliseconds.
   */
  function Create(topic: string, payload: string, qos: int, retain: bool, timestamp: real,
                  retryCount: nat, maxRetries: int, policy: RetryPolicy, nextRetryTime: real,
                  messageId: Option<string>, now: real, millis: nat): (m: QueuedMessage)
    ensures m.topic == topic && m.payload == payload && m.qos == qos && m.retain == retain
    ensures m.retryCount == retryCount && m.maxRetries == maxRetries && m.policy == policy
    ensures m.timestamp == if timestamp == 0.0 then now else timestamp
    ensures m.nextRetryTime == if nextRetryTime == 0.0 then m.timestamp else nextRetryTime
    ensures m.messageId == if messageId.Some? then messageId.value else MessageId(topic, millis)
  {
    var ts := if timestamp == 0.0 then now else timestamp;
    QueuedMessage(topic, payload, qos, retain, ts, retryCount, maxRetries, policy,
                  if nextRetryTime == 0.0 then ts else nextRetryTime,
                  if messageId.Some? then messageId.value else MessageId(topic, millis))
  }

  /** The message `add_message` builds: every field not passed keeps its dataclass default. */
  function NewMessage(topic: string, payload: string, qos: int, retain: bool, maxRetries: int,
                      policy: RetryPolicy, now: real, millis: nat): (m: QueuedMessage)
    ensures m.topic == topic && m.payload == payload && m.qos == qos && m.retain == retain
    ensures m.maxRetries == maxRetries && m.policy == policy
  {
    Create(topic, payload, qos, retain, 0.0, 0, maxRetries, policy, 0.0, None, now, millis)
  }

  /** A new message has not been retried and is due at its own creation time. */
  lemma NewMessageIsDue(topic: string, payload: string, qos: int, retain: bool, maxRetries: int,
                        policy: RetryPolicy, now: real, millis: nat)
    ensures var m := NewMessage(topic, payload, qos, retain, maxRetries, policy, now, millis);
            && m.retryCount == 0 && m.timestamp == now && m.nextRetryTime == m.timestamp
            && m.messageId == MessageId(topic, millis)
            && (maxRetries > 0 ==> IsDue(m, now))
  {
  }

  /** The delay table; a policy without an entry gets `[1]`. */
  function Delays(policy: RetryPolicy): (d: seq<nat>)
    ensures |d| >= 1
  {
    match policy
    case ExponentialBackoff => [1, 2, 4, 8, 16, 32]
    case LinearBackoff => [1, 2, 3, 4, 5, 6]
    case FixedDelay => [5, 5, 5, 5, 5, 5]
    case Immediate => [0, 0, 0, 0, 0, 0]
    case Unlisted => [1]
  }

  /** `get_retry_delay`: the entry at the retry count, or the last entry beyond the table. */
  function RetryDelay(policy: RetryPolicy, retryCount: nat): nat
  {
    var d := Delays(policy);
    if retryCount < |d| then d[retryCount] else d[|d| - 1]
  }

  /** Every delay comes from the policy's table; past the table the last entry repeats. */
  lemma RetryDelayFromTable(policy: RetryPolicy, retryCount: nat)
    ensures RetryDelay(policy, retryCount) in Delays(policy)
    ensures retryCount >= |Delays(policy)| ==> RetryDelay(policy, retryCount) == Delays(policy)[|Delays(policy)| - 1]
    ensures retryCount < |Delays(policy)| ==> RetryDelay(policy, retryCount) == Delays(policy)[retryCount]
  {
  }

  /** Exponential backoff doubles from 1 second up to 32 and then stays at 32. */
  lemma ExponentialDelays(n: nat)
    ensures n < 5 ==> RetryDelay(ExponentialBackoff, n + 1) == 2 * RetryDelay(ExponentialBackoff, n)
    ensures RetryDelay(ExponentialBackoff, 0) == 1
    ensures n >= 5 ==> RetryDelay(ExponentialBackoff, n) == 32
  {
  }

  /** No delay is longer than 32 seconds, and a later retry never waits less than an earlier one. */
  lemma DelayBoundedAndMonotone(policy: RetryPolicy, a: nat, b: nat)
    requires a <= b
    ensures RetryDelay(policy, a) <= RetryDelay(policy, b) <= 32
  {
  }

  /** A message is dropped on a pass once it has used up its retries. */
  predicate Exhausted(m: QueuedMessage) {
    m.retryCount >= m.maxRetries
  }

  /** A message is sent on a pass when it has retries left and its retry time has come. */
  predicate IsDue(m: QueuedMessage, now: real) {
    !Exhausted(m) && now >= m.nextRetryTime
  }

  /** A message is kept untouched on a pass when it has retries left and its retry time is still ahead. */
  predicate IsWaiting(m: QueuedMessage, now: real) {
    !Exhausted(m) && now < m.nextRetryTime
  }

  /** The messages a pass at time `now` sends, in queue order. */
  function Due(q: seq<QueuedMessage>, now: real): (r: seq<QueuedMessage>)
    ensures |r| <= |q|
  {
    if |q| == 0 then []
    else Due(q[..|q| - 1], now) + (if IsDue(q[|q| - 1], now) then [q[|q| - 1]] else [])
  }

  /** The messages a pass at time `now` leaves waiting, in queue order. */
  function Waiting(q: seq<QueuedMessage>, now: real): (r: seq<QueuedMessage>)
    ensures |r| <= |q|
  {
    if |q| == 0 then []
    else Waiting(q[..|q| - 1], now) + (if IsWaiting(q[|q| - 1], now) then [q[|q| - 1]] else [])
  }

  /** The messages a pass drops. */
  function Dropped(q: seq<QueuedMessage>): (r: seq<QueuedMessage>)
  {
    if |q| == 0 then []
    else Dropped(q[..|q| - 1]) + (if Exhausted(q[|q| - 1]) then [q[|q| - 1]] else [])
  }

  /** Appending a message to the queue appends it to the one group it belongs to. */
  lemma PassStep(p: seq<QueuedMessage>, m: QueuedMessage, now: real)
    ensures Dropped(p + [m]) == Dropped(p) + (if Exhausted(m) then [m] else [])
    ensures Due(p + [m], now) == Due(p, now) + (if IsDue(m, now) then [m] else [])
    ensures Waiting(p + [m], now) == Waiting(p, now) + (if IsWaiting(m, now) then [m] else [])
  {
    assert (p + [m])[..|p|] == p;
  }

  /** Adding one message to any of three groups adds it to their union. */
  lemma Regroup(d: multiset<QueuedMessage>, u: multiset<QueuedMessage>, w: multiset<QueuedMessage>,
                x: multiset<QueuedMessage>, whole: multiset<QueuedMessage>)
    requires d + u + w == whole
    ensures (d + x) + u + w == whole + x
    ensures d + (u + x) + w == whole + x
    ensures d + u + (w + x) == whole + x
  {
  }

  /** Every message goes to exactly one of the three groups of a pass. */
  lemma {:induction false} PassPartitions(q: seq<QueuedMessage>, now: real)
    ensures multiset(Dropped(q)) + multiset(Due(q, now)) + multiset(Waiting(q, now)) == multiset(q)
  {
    if |q| > 0 {
      var n := |q| - 1;
      var m := q[n];
      var p := q[..n];
      PassPartitions(p, now);
      assert q == p + [m];
      PassStep(p, m, now);
      var d, u, w := multiset(Dropped(p)), multiset(Due(p, now)), multiset(Waiting(p, now));
      var one := multiset{m};
      assert multiset(q) == multiset(p) + multiset{m};
      if Exhausted(m) {
        assert multiset(Dropped(q)) == d + multiset{m} && multiset(Due(q, now)) == u && multiset(Waiting(q, now)) == w;
        Regroup(d, u, w, one, multiset(p));
      } else if IsDue(m, now) {
        assert multiset(Dropped(q)) == d && multiset(Due(q, now)) == u + multiset{m} && multiset(Waiting(q, now)) == w;
        Regroup(d, u, w, one, multiset(p));
      } else {
        assert multiset(Dropped(q)) == d && multiset(Due(q, now)) == u && multiset(Waiting(q, now)) == w + multiset{m};
        Regroup(d, u, w, one, multiset(p));
      }
    }
  }

  /** A message whose publish failed: one more retry counted, next try after the delay for that count. */
  function Rescheduled(m: QueuedMessage, now: real): (r: QueuedMessage)
    ensures r.retryCount == m.retryCount + 1
    ensures r.nextRetryTime == now + RetryDelay(m.policy, m.retryCount + 1) as real
    ensures r.nextRetryTime >= now
    ensures r == m.(retryCount := r.retryCount, nextRetryTime := r.nextRetryTime)
  {
    m.(retryCount := m.retryCount + 1,
       nextRetryTime := now + RetryDelay(m.policy, m.retryCount + 1) as real)
  }

  /** The sent messages whose publish failed (`published[i]` is false), rescheduled, in sending order. */
  function Failed(sent: seq<QueuedMessage>, published: seq<bool>, now: real): (r: seq<QueuedMessage>)
    requires |published| == |sent|
    ensures |r| <= |sent|
    decreases |sent|
  {
    if |sent| == 0 then []
    else
      var n := |sent| - 1;
      Failed(sent[..n], published[..n], now) + (if published[n] then [] else [Rescheduled(sent[n], now)])
  }

  /** The number of publishes that succeeded. */
  function Successes(published: seq<bool>): nat
    decreases |published|
  {
    if |published| == 0 then 0
    else Successes(published[..|published| - 1]) + (if published[|published| - 1] then 1 else 0)
  }

  /** Each sent message either leaves the queue (published) or comes back once (failed). */
  lemma {:induction false} FailedCount(sent: seq<QueuedMessage>, published: seq<bool>, now: real)
    requires |published| == |sent|
    ensures |Failed(sent, published, now)| + Successes(published) == |sent|
    decreases |sent|
  {
    if |sent| > 0 {
      var n := |sent| - 1;
      FailedCount(sent[..n], published[..n], now);
    }
  }

  /** A rescheduled message is not due again before `now` plus its delay. */
  lemma {:induction false} FailedNotDueEarly(sent: seq<QueuedMessage>, published: seq<bool>, now: real)
    requires |published| == |sent|
    ensures forall m :: m in Failed(sent, published, now) ==> m.nextRetryTime >= now
    decreases |sent|
  {
    if |sent| > 0 {
      var n := |sent| - 1;
      FailedNotDueEarly(sent[..n], published[..n], now);
    }
  }

  /**
   * The sorting loop of `_process_queue`: exhausted messages are dropped,
   * due ones collected for sending and the others kept waiting, each list
   * in queue order.
   */
  method SplitPass(q: seq<QueuedMessage>, now: real) returns (toSend: seq<QueuedMessage>, toRetry: seq<QueuedMessage>)
    ensures toSend == Due(q, now) && toRetry == Waiting(q, now)
  {
    toSend := [];
    toRetry := [];
    var i := 0;
    while i < |q|
      invariant 0 <= i <= |q|
      invariant toSend == Due(q[..i], now)
      invariant toRetry == Waiting(q[..i], now)
    {
      assert q[..i + 1][..i] == q[..i];
      var m := q[i];
      if Exhausted(m) {
      } else if now >= m.nextRetryTime {
        toSend := toSend + [m];
      } else {
        toRetry := toRetry + [m];
      }
      i := i + 1;
    }
    assert q[..|q|] == q;
  }

  /** Extending the sent prefix by one message extends the failures by that message at most. */
  lemma FailedPrefix(sent: seq<QueuedMessage>, published: seq<bool>, j: nat, now: real)
    requires |published| == |sent| && j < |sent|
    ensures Failed(sent[..j + 1], published[..j + 1], now)
            == Failed(sent[..j], published[..j], now) + (if published[j] then [] else [Rescheduled(sent[j], now)])
  {
    assert sent[..j + 1][..j] == sent[..j];
    assert published[..j + 1][..j] == published[..j];
  }

  /** The same step, after the messages still waiting. */
  lemma FailedAfterWaiting(waiting: seq<QueuedMessage>, sent: seq<QueuedMessage>, published: seq<bool>, j: nat, now: real)
    requires |published| == |sent| && j < |sent|
    ensures waiting + Failed(sent[..j + 1], published[..j + 1], now)
            == (waiting + Failed(sent[..j], published[..j], now)) + (if published[j] then [] else [Rescheduled(sent[j], now)])
  {
    FailedPrefix(sent, published, j, now);
  }

  /**
   * The sending loop of `_process_queue`: each due message whose publish
   * fails is rescheduled and appended, in order, after the waiting ones.
   */
  method SendPass(waiting: seq<QueuedMessage>, toSend: seq<QueuedMessage>, published: seq<bool>, now: real)
    returns (next: seq<QueuedMessage>)
    requires |published| == |toSend|
    ensures next == waiting + Failed(toSend, published, now)
  {
    next := waiting;
    var j := 0;
    while j < |toSend|
      invariant 0 <= j <= |toSend|
      invariant next == waiting + Failed(toSend[..j], published[..j], now)
    {
      FailedAfterWaiting(waiting, toSend, published, j, now);
      next := next + if published[j] then [] else [Rescheduled(toSend[j], now)];
      j := j + 1;
    }
    assert toSend[..j] == toSend && published[..j] == published;
  }

  /**
   * The queue after one pass: the waiting messages in queue order, then the
   * failed ones. The pass drops messages and sends the due ones; it never
   * lengthens the queue, and it shortens it by one for each message dropped
   * or published.
   */
  lemma PassShrinks(q: seq<QueuedMessage>, published: seq<bool>, now: real)
    requires |published| == |Due(q, now)|
    ensures |Waiting(q, now) + Failed(Due(q, now), published, now)|
            == |q| - |Dropped(q)| - Successes(published)
  {
    PassPartitions(q, now);
    assert |multiset(q)| == |multiset(Dropped(q))| + |multiset(Due(q, now))| + |multiset(Waiting(q, now))|;
    FailedCount(Due(q, now), published, now);
  }

  /** `messages` without any message carrying `id`, the others in order. */
  function WithoutId(q: seq<QueuedMessage>, id: string): (r: seq<QueuedMessage>)
    ensures |r| <= |q|
  {
    if |q| == 0 then []
    else WithoutId(q[..|q| - 1], id) + (if q[|q| - 1].messageId == id then [] else [q[|q| - 1]])
  }

  predicate HasId(q: seq<QueuedMessage>, id: string) {
    exists i :: 0 <= i < |q| && q[i].messageId == id
  }

  /** The removal shortens the queue exactly when some message carries the id. */
  lemma {:induction false} WithoutIdShrinks(q: seq<QueuedMessage>, id: string)
    ensures |WithoutId(q, id)| < |q| <==> HasId(q, id)
    ensures !HasId(q, id) ==> WithoutId(q, id) == q
  {
    if |q| > 0 {
      var n := |q| - 1;
      WithoutIdShrinks(q[..n], id);
      if HasId(q[..n], id) {
        var i :| 0 <= i < n && q[..n][i].messageId == id;
        assert q[i].messageId == id;
      }
      if HasId(q, id) && q[n].messageId != id {
        var i :| 0 <= i < |q| && q[i].messageId == id;
        assert q[..n][i].messageId == id;
      }
      assert q == q[..n] + [q[n]];
    }
  }

  /** The removal keeps exactly the messages with another id. */
  lemma {:induction false} WithoutIdContents(q: seq<QueuedMessage>, id: string, m: QueuedMessage)
    ensures m in WithoutId(q, id) <==> m in q && m.messageId != id
  {
    if |q| > 0 {
      var n := |q| - 1;
      WithoutIdContents(q[..n], id, m);
      assert q == q[..n] + [q[n]];
    }
  }

  /** The index of the first failed connection check, or the length when every check passes. */
  function FirstDisconnected(connected: seq<bool>): (k: nat)
    ensures k <= |connected|
    ensures forall i :: 0 <= i < k ==> connected[i]
    ensures k < |connected| ==> !connected[k]
    decreases |connected|
  {
    if |connected| == 0 || !connected[0] then 0
    else 1 + FirstDisconnected(connected[1..])
  }

  /**
   * The ids `flush_queue` collects: those of the messages it published
   * successfully before the first failed connection check.
   */
  function FlushedIds(q: seq<QueuedMessage>, connected: seq<bool>, published: seq<bool>): (ids: seq<string>)
    requires |connected| == |q| == |published|
    ensures |ids| <= |q|
    decreases |q|
  {
    if |q| == 0 || !connected[0] then []
    else (if published[0] then [q[0].messageId] else []) + FlushedIds(q[1..], connected[1..], published[1..])
  }

  /** Removing every message whose id is in `ids`, one id at a time. */
  function WithoutIds(q: seq<QueuedMessage>, ids: seq<string>): (r: seq<QueuedMessage>)
    ensures |r| <= |q|
    decreases |ids|
  {
    if |ids| == 0 then q else WithoutIds(WithoutId(q, ids[0]), ids[1..])
  }

  /**
   * The queue `flush_queue` leaves, as written: it removes by id, so a
   * message that was never published but shares its id with one that was is
   * removed too.
   */
  function FlushAsWritten(q: seq<QueuedMessage>, connected: seq<bool>, published: seq<bool>): (r: seq<QueuedMessage>)
    requires |connected| == |q| == |published|
    ensures |r| <= |q|
  {
    WithoutIds(q, FlushedIds(q, connected, published))
  }

  /**
   * The queue a flush is meant to leave: every message it did not publish,
   * in order, those after the first failed connection check included.
   */
  function Unflushed(q: seq<QueuedMessage>, connected: seq<bool>, published: seq<bool>): (r: seq<QueuedMessage>)
    requires |connected| == |q| == |published|
    ensures |r| <= |q|
    decreases |q|
  {
    if |q| == 0 then []
    else if !connected[0] then q
    else (if published[0] then [] else [q[0]]) + Unflushed(q[1..], connected[1..], published[1..])
  }

  /** One step of a flush: a message whose connection check passes is kept exactly when its publish fails. */
  lemma UnflushedFrom(q: seq<QueuedMessage>, connected: seq<bool>, published: seq<bool>, i: nat)
    requires |connected| == |q| == |published| && i < |q| && connected[i]
    ensures Unflushed(q[i..], connected[i..], published[i..])
            == (if published[i] then [] else [q[i]]) + Unflushed(q[i + 1..], connected[i + 1..], published[i + 1..])
  {
    assert q[i..][1..] == q[i + 1..];
    assert connected[i..][1..] == connected[i + 1..];
    assert published[i..][1..] == published[i + 1..];
  }

  /**
   * The publishing loop of `flush_queue`: messages are published in order
   * while the connection check passes, and the unpublished ones, with
   * everything from the first failed check on, are kept.
   */
  method FlushPass(q: seq<QueuedMessage>, connected: seq<bool>, published: seq<bool>) returns (kept: seq<QueuedMessage>)
    requires |connected| == |q| == |published|
    ensures kept == Unflushed(q, connected, published)
  {
    kept := [];
    var i := 0;
    while i < |q| && connected[i]
      invariant 0 <= i <= |q|
      invariant Unflushed(q, connected, published) == kept + Unflushed(q[i..], connected[i..], published[i..])
    {
      UnflushedFrom(q, connected, published, i);
      ghost var rest := Unflushed(q[i + 1..], connected[i + 1..], published[i + 1..]);
      if !published[i] {
        assert kept + ([q[i]] + rest) == (kept + [q[i]]) + rest;
        kept := kept + [q[i]];
      } else {
        assert [] + rest == rest;
      }
      i := i + 1;
    }
    kept := kept + q[i..];
  }

  /** The messages a flush publishes, in order. */
  function Flushed(q: seq<QueuedMessage>, connected: seq<bool>, published: seq<bool>): seq<QueuedMessage>
    requires |connected| == |q| == |published|
    decreases |q|
  {
    if |q| == 0 || !connected[0] then []
    else (if published[0] then [q[0]] else []) + Flushed(q[1..], connected[1..], published[1..])
  }

  /** A flush splits the queue into the messages it published and those it keeps; none is lost. */
  lemma {:induction false} FlushSplits(q: seq<QueuedMessage>, connected: seq<bool>, published: seq<bool>)
    requires |connected| == |q| == |published|
    ensures multiset(Flushed(q, connected, published)) + multiset(Unflushed(q, connected, published)) == multiset(q)
    decreases |q|
  {
    if |q| > 0 && connected[0] {
      FlushSplits(q[1..], connected[1..], published[1..]);
      assert q == [q[0]] + q[1..];
    }
  }

  /** A flush keeps the whole queue when the first connection check fails, and empties it when every check and publish succeeds. */
  lemma {:induction false} FlushExtremes(q: seq<QueuedMessage>, connected: seq<bool>, published: seq<bool>)
    requires |connected| == |q| == |published|
    ensures |q| > 0 && !connected[0] ==> Unflushed(q, connected, published) == q
    ensures (forall i :: 0 <= i < |q| ==> connected[i] && published[i]) ==> Unflushed(q, connected, published) == []
    decreases |q|
  {
    if |q| > 0 && connected[0] {
      FlushExtremes(q[1..], connected[1..], published[1..]);
      if forall i :: 0 <= i < |q| ==> connected[i] && published[i] {
        assert forall i :: 0 <= i < |q| - 1 ==> connected[1..][i] && published[1..][i];
      }
    }
  }

  /** No two messages of the queue share an id. */
  predicate DistinctIds(q: seq<QueuedMessage>) {
    forall i, j :: 0 <= i < j < |q| ==> q[i].messageId != q[j].messageId
  }

  /** Removal by id works on each part of a queue separately. */
  lemma {:induction false} WithoutIdAppend(x: seq<QueuedMessage>, y: seq<QueuedMessage>, id: string)
    ensures WithoutId(x + y, id) == WithoutId(x, id) + WithoutId(y, id)
    decreases |y|
  {
    if |y| == 0 {
      assert x + y == x;
    } else {
      var n := |y| - 1;
      assert (x + y)[..|x + y| - 1] == x + y[..n];
      assert (x + y)[|x + y| - 1] == y[n];
      WithoutIdAppend(x, y[..n], id);
    }
  }

  /** Removal by several ids works on each part of a queue separately. */
  lemma {:induction false} WithoutIdsAppend(x: seq<QueuedMessage>, y: seq<QueuedMessage>, ids: seq<string>)
    ensures WithoutIds(x + y, ids) == WithoutIds(x, ids) + WithoutIds(y, ids)
    decreases |ids|
  {
    if |ids| > 0 {
      WithoutIdAppend(x, y, ids[0]);
      WithoutIdsAppend(WithoutId(x, ids[0]), WithoutId(y, ids[0]), ids[1..]);
    }
  }

  /** A single message survives removal by several ids exactly when its id is not among them. */
  lemma {:induction false} WithoutIdsSingle(m: QueuedMessage, ids: seq<string>)
    ensures WithoutIds([m], ids) == if m.messageId in ids then [] else [m]
    decreases |ids|
  {
    if |ids| > 0 {
      assert WithoutId([m], ids[0]) == if m.messageId == ids[0] then [] else [m] by {
        assert [m][..0] == [];
      }
      assert ids == [ids[0]] + ids[1..];
      if m.messageId == ids[0] {
        WithoutIdsEmpty(ids[1..]);
      } else {
        WithoutIdsSingle(m, ids[1..]);
      }
    }
  }

  lemma {:induction false} WithoutIdsEmpty(ids: seq<string>)
    ensures WithoutIds([], ids) == []
    decreases |ids|
  {
    if |ids| > 0 {
      WithoutIdsEmpty(ids[1..]);
    }
  }

  /** Every id a flush collects is the id of a message of the queue. */
  lemma {:induction false} FlushedIdsInQueue(q: seq<QueuedMessage>, connected: seq<bool>, published: seq<bool>, id: string)
    requires |connected| == |q| == |published|
    requires id in FlushedIds(q, connected, published)
    ensures HasId(q, id)
    decreases |q|
  {
    if id != q[0].messageId {
      FlushedIdsInQueue(q[1..], connected[1..], published[1..], id);
      var i :| 0 <= i < |q[1..]| && q[1..][i].messageId == id;
      assert q[i + 1].messageId == id;
    }
  }

  /**
   * With distinct ids, the ordinary case, removal by id after a flush keeps
   * exactly the unpublished messages: the flush as written and the intended
   * one differ only when ids collide.
   */
  lemma {:induction false} FlushAgreesOnDistinctIds(q: seq<QueuedMessage>, connected: seq<bool>, published: seq<bool>)
    requires |connected| == |q| == |published|
    requires DistinctIds(q)
    ensures FlushAsWritten(q, connected, published) == Unflushed(q, connected, published)
    decreases |q|
  {
    if |q| == 0 {
    } else if !connected[0] {
    } else {
      var rest, c, p := q[1..], connected[1..], published[1..];
      assert DistinctIds(rest) by {
        forall i, j | 0 <= i < j < |rest| ensures rest[i].messageId != rest[j].messageId {
          assert rest[i] == q[i + 1] && rest[j] == q[j + 1];
        }
      }
      FlushAgreesOnDistinctIds(rest, c, p);
      var ids := FlushedIds(rest, c, p);
      var pre := if published[0] then [q[0].messageId] else [];
      assert FlushedIds(q, connected, published) == pre + ids;
      assert !HasId(rest, q[0].messageId) by {
        forall i | 0 <= i < |rest| ensures rest[i].messageId != q[0].messageId {
          assert rest[i] == q[i + 1];
        }
      }
      assert q[0].messageId !in ids by {
        if q[0].messageId in ids {
          FlushedIdsInQueue(rest, c, p, q[0].messageId);
        }
      }
      assert q == [q[0]] + rest;
      WithoutIdsAppend([q[0]], rest, pre + ids);
      WithoutIdsSingle(q[0], pre + ids);
      if published[0] {
        assert (pre + ids)[0] == q[0].messageId && (pre + ids)[1..] == ids;
        WithoutIdShrinks(rest, q[0].messageId);
      } else {
        assert pre + ids == ids;
      }
    }
  }

  /**
   * Two messages to the same topic created in the same millisecond share an
   * id. If the first is published and the second's publish fails, the flush
   * as written removes both, and the unpublished one is lost.
   */
  lemma FlushLosesUnsentMessage(topic: string, now: real, millis: nat)
    ensures var m1 := NewMessage(topic, "a", 1, false, 5, ExponentialBackoff, now, millis);
            var m2 := NewMessage(topic, "b", 1, false, 5, ExponentialBackoff, now, millis);
            && m1.messageId == m2.messageId
            && FlushAsWritten([m1, m2], [true, true], [true, false]) == []
            && Unflushed([m1, m2], [true, true], [true, false]) == [m2]
  {
    var m1 := NewMessage(topic, "a", 1, false, 5, ExponentialBackoff, now, millis);
    var m2 := NewMessage(topic, "b", 1, false, 5, ExponentialBackoff, now, millis);
    assert [m1, m2][1..] == [m2] && [true, true][1..] == [true] && [true, false][1..] == [false];
    assert FlushedIds([m2], [true], [false]) == [] by {
      assert [m2][1..] == [];
    }
    assert FlushedIds([m1, m2], [true, true], [true, false]) == [m1.messageId];
    assert WithoutId([m1, m2], m1.messageId) == [] by {
      assert [m1, m2][..1] == [m1];
      assert [m1][..0] == [];
    }
    assert [m1.messageId][1..] == [];
    assert WithoutIds([m1, m2], [m1.messageId]) == WithoutIds([], []);
    assert Unflushed([m2], [true], [false]) == [m2] by {
      assert [m2][1..] == [];
    }
  }

  /**
   * The retry queue. `queue` is the list of pending messages; it never
   * holds more than `maxQueueSize` messages.
   */
  class MessageRetryQueue {
    var maxQueueSize: int
    var queue: seq<QueuedMessage>
    var running: bool

    ghost predicate Valid()
      reads this
    {
      |queue| == 0 || |queue| <= maxQueueSize
    }

    constructor(maxQueueSize: int)
      ensures Valid()
      ensures this.maxQueueSize == maxQueueSize && queue == [] && !running
    {
      this.maxQueueSize := maxQueueSize;
      queue := [];
      running := false;
    }

    /** `start`: marks the queue as running (the background pass itself is `ProcessOnce`). */
    method Start()
      modifies this
      ensures running && queue == old(queue) && maxQueueSize == old(maxQueueSize)
    {
      running := true;
    }

    /** `stop`. */
    method Stop()
      modifies this
      ensures !running && queue == old(queue) && maxQueueSize == old(maxQueueSize)
    {
      running := false;
    }

    /** `add_message`: refused when the queue is full, otherwise appended at the end. */
    method AddMessage(topic: string, payload: string, qos: int, retain: bool, maxRetries: int,
                      policy: RetryPolicy, now: real, millis: nat) returns (added: bool)
      requires Valid()
      modifies this
      ensures Valid()
      ensures added <==> |old(queue)| < maxQueueSize
      ensures queue == if added then old(queue) + [NewMessage(topic, payload, qos, retain, maxRetries, policy, now, millis)]
                       else old(queue)
      ensures maxQueueSize == old(maxQueueSize) && running == old(running)
    {
      if |queue| >= maxQueueSize {
        return false;
      }
      queue := queue + [NewMessage(topic, payload, qos, retain, maxRetries, policy, now, millis)];
      return true;
    }

    /** `remove_message`: every message with the id goes; true exactly when one did. */
    method RemoveMessage(id: string) returns (removed: bool)
      requires Valid()
      modifies this
      ensures Valid()
      ensures queue == WithoutId(old(queue), id)
      ensures removed <==> HasId(old(queue), id)
      ensures maxQueueSize == old(maxQueueSize) && running == old(running)
    {
      var initial := |queue|;
      WithoutIdShrinks(queue, id);
      queue := WithoutId(queue, id);
      removed := |queue| < initial;
    }

    /** `clear_queue`. */
    method ClearQueue()
      requires Valid()
      modifies this
      ensures Valid() && queue == []
      ensures maxQueueSize == old(maxQueueSize) && running == old(running)
    {
      queue := [];
    }

    /**
     * One pass of `_process_queue` at clock `now`. `published[i]` is the
     * result of publishing the `i`-th due message.
     */
    method ProcessOnce(now: real, published: seq<bool>)
      requires Valid() && |published| == |Due(queue, now)|
      modifies this
      ensures Valid()
      ensures queue == Waiting(old(queue), now) + Failed(Due(old(queue), now), published, now)
      ensures maxQueueSize == old(maxQueueSize) && running == old(running)
    {
      var toSend, toRetry := SplitPass(queue, now);
      var next := SendPass(toRetry, toSend, published, now);
      PassShrinks(queue, published, now);
      queue := next;
    }

    /**
     * `flush_queue`: when running, publish the messages in order while the
     * connection check passes, and remove the ones published. `connected[i]`
     * and `published[i]` are the check and the publish result at the `i`-th
     * message. The removal is by position; see `FlushAsWritten` for the
     * removal by id the source performs.
     */
    method Flush(connected: seq<bool>, published: seq<bool>)
      requires Valid() && |connected| == |queue| == |published|
      modifies this
      ensures Valid()
      ensures queue == if old(running) then Unflushed(old(queue), connected, published) else old(queue)
      ensures maxQueueSize == old(maxQueueSize) && running == old(running)
    {
      if !running {
        return;
      }
      queue := FlushPass(queue, connected, published);
    }
  }
}
