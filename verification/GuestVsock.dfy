/** The two loops of the guest channel: reading a response in chunks and polling
    until the guest answers. */
module GuestVsock {
  import opened Prelude

  // ── Reading a response ────────────────────────────────────────

  /** One `recv`: some bytes, none at the end of the stream, or an exception. */
  datatype Recv = Got(data: bytes) | TimesOut | RecvEscapes

  type Stream = nat -> Recv

  datatype ReadError = TimedOutReading | TooLong | ClosedEmpty

  datatype ReadResult = Payload(data: bytes) | Failed(error: ReadError) | ReadEscapes

  /** What `_read_response` collects from chunk `k` on, having `acc`. */
  function ReadFrom(stream: Stream, k: nat, acc: bytes, max: nat): ReadResult
    requires |acc| <= max
    decreases max - |acc|
  {
    match stream(k)
    case TimesOut => Failed(TimedOutReading)
    case RecvEscapes => ReadEscapes
    case Got(data) =>
      if data == [] then (if acc == [] then Failed(ClosedEmpty) else Payload(acc))
      else if |acc| + |data| > max then Failed(TooLong)
      else ReadFrom(stream, k + 1, acc + data, max)
  }

  function Concat(chunks: seq<bytes>): bytes {
    if chunks == [] then [] else Concat(chunks[..|chunks| - 1]) + chunks[|chunks| - 1]
  }

  lemma {:induction false} ConcatFront(chunk: bytes, rest: seq<bytes>)
    ensures Concat([chunk] + rest) == chunk + Concat(rest)
  {
    var all := [chunk] + rest;
    if rest == [] {
      assert all[..0] == [];
      assert Concat([]) == [];
    } else {
      assert all[..|all| - 1] == [chunk] + rest[..|rest| - 1];
      ConcatFront(chunk, rest[..|rest| - 1]);
    }
  }

  /** `_read_response` up to the decoding of the payload. It always ends: each
      chunk brings the total closer to the limit. */
  method ReadResponse(stream: Stream, max: nat) returns (r: ReadResult)
    ensures r == ReadFrom(stream, 0, [], max)
  {
    var chunks: seq<bytes> := [];
    var total := 0;
    var k := 0;
    while true
      invariant total == |Concat(chunks)| <= max
      invariant Concat(chunks) == [] <==> chunks == []
      invariant ReadFrom(stream, 0, [], max) == ReadFrom(stream, k, Concat(chunks), max)
      decreases max - total
    {
      var part := stream(k);
      if part.TimesOut? {
        return Failed(TimedOutReading);
      }
      if part.RecvEscapes? {
        return ReadEscapes;
      }
      if part.data == [] {
        break;
      }
      total := total + |part.data|;
      if total > max {
        return Failed(TooLong);
      }
      ghost var before := chunks;
      chunks := chunks + [part.data];
      assert chunks[..|chunks| - 1] == before;
      k := k + 1;
    }
    if chunks == [] {
      return Failed(ClosedEmpty);
    }
    return Payload(Concat(chunks));
  }

  /** The stream hands over these chunks, from `k` on, and then ends. */
  ghost predicate Delivers(stream: Stream, k: nat, chunks: seq<bytes>) {
    && (forall i | 0 <= i < |chunks| :: chunks[i] != [] && stream(k + i) == Got(chunks[i]))
    && stream(k + |chunks|) == Got([])
  }

  /** The result for a stream that delivers `all` in some chunks. */
  function Limited(all: bytes, max: nat): ReadResult {
    if |all| > max then Failed(TooLong) else if all == [] then Failed(ClosedEmpty) else Payload(all)
  }

  lemma DeliversRest(stream: Stream, k: nat, chunks: seq<bytes>)
    requires Delivers(stream, k, chunks) && chunks != []
    ensures chunks[0] != [] && stream(k) == Got(chunks[0])
    ensures Delivers(stream, k + 1, chunks[1..])
    ensures Concat(chunks) == chunks[0] + Concat(chunks[1..])
  {
    assert stream(k + 0) == Got(chunks[0]);
    forall i | 0 <= i < |chunks| - 1
      ensures chunks[1..][i] != [] && stream(k + 1 + i) == Got(chunks[1..][i])
    {
      assert stream(k + (i + 1)) == Got(chunks[i + 1]);
    }
    assert chunks == [chunks[0]] + chunks[1..];
    ConcatFront(chunks[0], chunks[1..]);
  }

  lemma {:induction false} ReadsConcat(stream: Stream, k: nat, chunks: seq<bytes>, acc: bytes, max: nat)
    requires Delivers(stream, k, chunks) && |acc| <= max
    ensures ReadFrom(stream, k, acc, max) == Limited(acc + Concat(chunks), max)
    decreases |chunks|
  {
    if chunks == [] {
      assert stream(k + 0) == Got([]);
      assert acc + Concat(chunks) == acc;
    } else {
      DeliversRest(stream, k, chunks);
      var d, rest := chunks[0], Concat(chunks[1..]);
      assert acc + (d + rest) == (acc + d) + rest;
      if |acc| + |d| <= max {
        ReadsConcat(stream, k + 1, chunks[1..], acc + d, max);
      }
    }
  }

  /** How the peer's bytes are split into chunks makes no difference: the result
      depends on their concatenation alone. */
  lemma ChunkingImmaterial(a: Stream, b: Stream, xs: seq<bytes>, ys: seq<bytes>, max: nat)
    requires Delivers(a, 0, xs) && Delivers(b, 0, ys) && Concat(xs) == Concat(ys)
    ensures ReadFrom(a, 0, [], max) == ReadFrom(b, 0, [], max)
    ensures ReadFrom(a, 0, [], max).Payload? <==> 0 < |Concat(xs)| <= max
    ensures ReadFrom(a, 0, [], max).Payload? ==> ReadFrom(a, 0, [], max).data == Concat(xs)
  {
    ReadsConcat(a, 0, xs, [], max);
    ReadsConcat(b, 0, ys, [], max);
    assert [] + Concat(xs) == Concat(xs);
  }

  // ── Responses ─────────────────────────────────────────────────

  /** The `exit_code` entry of a decoded response. */
  datatype ExitEntry = NoEntry | Number(code: int) | NotANumber

  datatype Reply = Reply(okIsTrue: bool, exitCode: ExitEntry)

  datatype Parsed = Command(code: int) | Unexpected | ParseEscapes

  /** `_parse_command_response`. */
  function ParseReply(r: Reply): Parsed {
    if r.okIsTrue && r.exitCode.NoEntry? then Command(0)
    else
      match r.exitCode
      case NoEntry => Unexpected
      case Number(code) => Command(code)
      case NotANumber => ParseEscapes
  }

  // ── Waiting for the guest ─────────────────────────────────────

  /** A ping: no usable connection, a reply, or an uncaught exception. */
  datatype Ping = NoAnswer | Answered(reply: Reply) | PingEscapes

  predicate Ready(p: Ping) {
    p.Answered? && ParseReply(p.reply).Command?
  }

  /** The failures that are retried. */
  predicate Retried(p: Ping) {
    p.NoAnswer? || (p.Answered? && ParseReply(p.reply).Unexpected?)
  }

  /** The process handle to watch, if any: whether it has exited after ping k. */
  type Watch = Option<nat -> bool>

  predicate HasExited(w: Watch, k: nat) {
    w.Some? && w.value(k)
  }

  /** How the wait ends, and the number of pings that were retried before. */
  datatype Wait = Up(retried: nat) | NotReady(retried: nat) | QemuExited(retried: nat) | WaitEscapes(retried: nat)

  /** A clock that never runs backwards and advances by at least `poll` between
      pings, as the sleep guarantees; `clock(k)` is read before ping k. */
  ghost predicate Ticks(start: real, clock: nat -> real, poll: real) {
    start <= clock(0) && forall k: nat :: clock(k) + poll <= clock(k + 1)
  }

  lemma Scale(m: nat, n: nat, poll: real)
    requires poll > 0.0
    ensures m <= n ==> (m as real) * poll <= (n as real) * poll
  {
  }

  lemma FewPings(k: nat, bound: nat, poll: real, timeout: real)
    requires poll > 0.0 && (k as real) * poll < timeout <= (bound as real) * poll
    ensures k < bound
  {
    Scale(bound, k, poll);
  }

  /** The clock after one more interval. */
  lemma OneMore(k: nat, now: real, next: real, start: real, poll: real)
    requires now >= start + (k as real) * poll && now + poll <= next
    ensures next >= start + ((k + 1) as real) * poll
  {
    var r := k as real;
    assert (k + 1) as real == r + 1.0;
    assert (r + 1.0) * poll == r * poll + poll;
  }

  /** The first `n` pings failed in a way that is retried, before the deadline
      and with the process alive. */
  ghost predicate AllRetried(clock: nat -> real, deadline: real, ping: nat -> Ping, watch: Watch, n: nat) {
    forall j | 0 <= j < n :: Retried(ping(j)) && !HasExited(watch, j) && clock(j) < deadline
  }

  /** `wait_for_guest`: for any such clock it gives up after at most `bound`
      failed pings, any number of poll intervals that covers the timeout; it
      returns only after a well-formed reply, and stops early only when the
      process has exited. */
  method WaitForGuest(start: real, clock: nat -> real, timeout: real, poll: real, ping: nat -> Ping, watch: Watch,
                      bound: nat)
    returns (r: Wait)
    requires poll > 0.0 && Ticks(start, clock, poll)
    requires timeout <= (bound as real) * poll
    ensures r.retried <= bound
    ensures AllRetried(clock, start + timeout, ping, watch, r.retried)
    ensures r.NotReady? <==> clock(r.retried) >= start + timeout
    ensures r.Up? ==> Ready(ping(r.retried))
    ensures r.QemuExited? ==> Retried(ping(r.retried)) && HasExited(watch, r.retried)
    ensures r.WaitEscapes? ==> !Ready(ping(r.retried)) && !Retried(ping(r.retried))
  {
    var deadline := start + timeout;
    var k := 0;
    while clock(k) < deadline
      invariant k <= bound || k == 0
      invariant AllRetried(clock, deadline, ping, watch, k)
      invariant clock(k) >= start + (k as real) * poll
      invariant k > 0 ==> k <= bound
      decreases bound - k
    {
      FewPings(k, bound, poll, timeout);
      var p := ping(k);
      if p.PingEscapes? || (p.Answered? && ParseReply(p.reply).ParseEscapes?) {
        return WaitEscapes(k);
      }
      if p.Answered? && ParseReply(p.reply).Command? {
        return Up(k);
      }
      if watch.Some? && watch.value(k) {
        return QemuExited(k);
      }
      OneMore(k, clock(k), clock(k + 1), start, poll);
      k := k + 1;
    }
    return NotReady(k);
  }

  /** A guest that answers in time, with the process alive until then, is found
      up at its first answer: the outcome of the wait is determined. */
  lemma WaitDetermined(start: real, clock: nat -> real, timeout: real, ping: nat -> Ping, watch: Watch, m: nat, n: nat)
    requires AllRetried(clock, start + timeout, ping, watch, m) && Ready(ping(m)) && clock(m) < start + timeout
    requires AllRetried(clock, start + timeout, ping, watch, n)
    requires Ready(ping(n)) || !Retried(ping(n)) || HasExited(watch, n) || clock(n) >= start + timeout
    ensures n == m
  {
  }
}
