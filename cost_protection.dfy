/**
 * Cost protection in front of the AI chat (lib/ai-cost-protection.ts): message
 * and prompt length limits, a request history pruned in place to the last hour
 * with per-minute and per-hour limits, and the token and cost estimate. The
 * clock is the `now` argument, in milliseconds.
 */
module CostProtection {
  import opened Wrappers

  const MaxPromptLength: nat := 50000
  const MaxMessageLength: nat := 5000
  const RateLimitWindowMs: int := 60000
  const HourMs: int := 3600000
  const MaxRequestsPerWindow: nat := 10
  const MaxRequestsPerHour: nat := 100

  /** `s.length`: UTF-16 code units, two for a character beyond the Basic Multilingual Plane. */
  function Utf16Length(s: string): (n: nat)
    ensures |s| <= n <= 2 * |s|
  {
    if s == [] then 0 else (if s[0] as int > 0xFFFF then 2 else 1) + Utf16Length(s[1..])
  }

  datatype DenyReason = MessageTooLong | PromptTooLong | MinuteLimit | HourLimit | CostTooHigh

  /** validateMessageLength: at most 5000 units passes. */
  function ValidateMessageLength(message: string): (r: Option<DenyReason>)
    ensures r.None? <==> Utf16Length(message) <= MaxMessageLength
    ensures r.Some? ==> r.value == MessageTooLong
  {
    if Utf16Length(message) > MaxMessageLength then Some(MessageTooLong) else None
  }

  /** validatePromptLength: at most 50000 units passes. */
  function ValidatePromptLength(prompt: string): (r: Option<DenyReason>)
    ensures r.None? <==> Utf16Length(prompt) <= MaxPromptLength
    ensures r.Some? ==> r.value == PromptTooLong
  {
    if Utf16Length(prompt) > MaxPromptLength then Some(PromptTooLong) else None
  }

  // ================================================================ estimate

  datatype CostEstimate = CostEstimate(estimatedTokens: nat, estimatedCostKrw: real, warning: bool)

  /** Average USD per token: three input tokens at 0.075 and one output at 0.30 per million. */
  const AvgCostPerTokenUsd: real := (0.075 / 1000000.0 * 3.0 + 0.30 / 1000000.0) / 4.0
  const KrwPerUsd: real := 1300.0

  /** estimateCost: ⌈length / 4⌉ tokens at the average price, a warning above 100 KRW. */
  function EstimateCost(prompt: string): (e: CostEstimate)
    ensures 4 * e.estimatedTokens >= Utf16Length(prompt) > 4 * (e.estimatedTokens - 1)
    ensures e.estimatedCostKrw == e.estimatedTokens as real * AvgCostPerTokenUsd * KrwPerUsd
    ensures e.warning <==> e.estimatedCostKrw > 100.0
  {
    var tokens := (Utf16Length(prompt) + 3) / 4;
    var krw := tokens as real * AvgCostPerTokenUsd * KrwPerUsd;
    CostEstimate(tokens, krw, krw > 100.0)
  }

  /** A prompt within the length limit costs at most 12500 tokens, about 2.1 KRW: far below the 1000 KRW block. */
  lemma AllowedPromptIsCheap(prompt: string)
    requires ValidatePromptLength(prompt).None?
    ensures EstimateCost(prompt).estimatedTokens <= 12500
    ensures EstimateCost(prompt).estimatedCostKrw <= 2.2
  {
    var t := EstimateCost(prompt).estimatedTokens;
    assert t as real * AvgCostPerTokenUsd * KrwPerUsd <= 12500.0 * AvgCostPerTokenUsd * KrwPerUsd;
  }

  // ================================================================ rate limit

  datatype RequestRecord = RequestRecord(timestamp: int, userId: Option<string>, ip: Option<string>)

  /** The records newer than `cutoff`, in order. */
  function After(h: seq<RequestRecord>, cutoff: int): (r: seq<RequestRecord>)
    ensures |r| <= |h|
    ensures forall i :: 0 <= i < |r| ==> r[i].timestamp > cutoff && r[i] in h
    decreases |h|
  {
    if h == [] then []
    else After(h[..|h| - 1], cutoff) + (if h[|h| - 1].timestamp > cutoff then [h[|h| - 1]] else [])
  }

  /** Filtering by a later cutoff only drops more; applying both equals the later one. */
  lemma {:induction false} AfterAfter(h: seq<RequestRecord>, c1: int, c2: int)
    requires c1 <= c2
    ensures After(After(h, c1), c2) == After(h, c2)
    decreases |h|
  {
    if h != [] {
      var init := h[..|h| - 1];
      var x := h[|h| - 1];
      AfterAfter(init, c1, c2);
      AfterAppend(After(init, c1), if x.timestamp > c1 then [x] else [], c2);
    }
  }

  lemma {:induction false} AfterAppend(a: seq<RequestRecord>, b: seq<RequestRecord>, cutoff: int)
    ensures After(a + b, cutoff) == After(a, cutoff) + After(b, cutoff)
    decreases |b|
  {
    if b != [] {
      assert (a + b)[..|a + b| - 1] == a + b[..|b| - 1];
      AfterAppend(a, b[..|b| - 1], cutoff);
    } else {
      assert a + b == a;
    }
  }

  /** The module-level request history. */
  class RateLimiter {
    var history: seq<RequestRecord>

    constructor()
      ensures history == []
    {
      history := [];
    }

    /** At most 100 records are kept; all of them count for the hour at the last call. */
    predicate Valid()
      reads this
    {
      |history| <= MaxRequestsPerHour
    }

    /** The verdict checkRateLimit gives at `now` for a history, before it prunes. */
    static function Verdict(h: seq<RequestRecord>, now: int): (r: Option<DenyReason>)
      ensures r.None? <==> |After(h, now - RateLimitWindowMs)| < MaxRequestsPerWindow && |After(h, now - HourMs)| < MaxRequestsPerHour
      ensures r == Some(MinuteLimit) <==> |After(h, now - RateLimitWindowMs)| >= MaxRequestsPerWindow
    {
      var recent := After(h, now - HourMs);
      AfterAfter(h, now - HourMs, now - RateLimitWindowMs);
      if |After(recent, now - RateLimitWindowMs)| >= MaxRequestsPerWindow then Some(MinuteLimit)
      else if |recent| >= MaxRequestsPerHour then Some(HourLimit)
      else None
    }

    /** The pruning step: the records of the last hour, kept in place. */
    method Prune(now: int) returns (recent: seq<RequestRecord>)
      modifies this
      ensures recent == After(old(history), now - HourMs) && history == recent
    {
      var oneHourAgo := now - HourMs;
      recent := [];
      var i := 0;
      while i < |history|
        invariant 0 <= i <= |history|
        invariant recent == After(history[..i], oneHourAgo)
      {
        assert history[..i + 1][..i] == history[..i];
        if history[i].timestamp > oneHourAgo {
          recent := recent + [history[i]];
        }
        i := i + 1;
      }
      assert history[..i] == history;
      history := recent;
    }

    /** Number of records newer than `cutoff`. */
    static method CountAfter(h: seq<RequestRecord>, cutoff: int) returns (n: nat)
      ensures n == |After(h, cutoff)|
    {
      n := 0;
      var i := 0;
      while i < |h|
        invariant 0 <= i <= |h|
        invariant n == |After(h[..i], cutoff)|
      {
        assert h[..i + 1][..i] == h[..i];
        if h[i].timestamp > cutoff {
          n := n + 1;
        }
        i := i + 1;
      }
      assert h[..i] == h;
    }

    /** checkRateLimit: prune, then the minute limit, then the hour limit; only an allowed call is recorded. */
    method CheckRateLimit(now: int, userId: Option<string>, ip: Option<string>) returns (denied: Option<DenyReason>)
      requires Valid()
      modifies this
      ensures Valid()
      ensures denied == Verdict(old(history), now)
      ensures history == After(old(history), now - HourMs) + (if denied.None? then [RequestRecord(now, userId, ip)] else [])
    {
      var recent := Prune(now);
      var inLastMinute := CountAfter(recent, now - RateLimitWindowMs);
      AfterAfter(old(history), now - HourMs, now - RateLimitWindowMs);
      if inLastMinute >= MaxRequestsPerWindow {
        return Some(MinuteLimit);
      }
      if |recent| >= MaxRequestsPerHour {
        return Some(HourLimit);
      }
      history := history + [RequestRecord(now, userId, ip)];
      return None;
    }

    /**
     * checkCostProtection: the message, then the prompt, then the rate limit,
     * so a request refused for its length uses no slot; then the estimate.
     */
    method CheckCostProtection(message: string, prompt: string, now: int, userId: Option<string>, ip: Option<string>)
      returns (denied: Option<DenyReason>, estimate: Option<CostEstimate>)
      requires Valid()
      modifies this
      ensures Valid()
      ensures ValidateMessageLength(message).Some? ==> denied == ValidateMessageLength(message) && history == old(history) && estimate.None?
      ensures ValidateMessageLength(message).None? && ValidatePromptLength(prompt).Some? ==>
        denied == ValidatePromptLength(prompt) && history == old(history) && estimate.None?
      ensures ValidateMessageLength(message).None? && ValidatePromptLength(prompt).None? ==>
        denied == Verdict(old(history), now)
        && history == After(old(history), now - HourMs) + (if denied.None? then [RequestRecord(now, userId, ip)] else [])
        && (denied.None? ==> estimate == Some(EstimateCost(prompt)))
      ensures denied != Some(CostTooHigh)
    {
      if ValidatePromptLength(prompt).None? {
        AllowedPromptIsCheap(prompt);
      }
      denied := ValidateMessageLength(message);
      if denied.Some? {
        return denied, None;
      }
      denied := ValidatePromptLength(prompt);
      if denied.Some? {
        return denied, None;
      }
      denied := CheckRateLimit(now, userId, ip);
      if denied.Some? {
        return denied, None;
      }
      var e := EstimateCost(prompt);
      if e.estimatedCostKrw > 1000.0 {
        return Some(CostTooHigh), Some(e);
      }
      return None, Some(e);
    }
  }
}
