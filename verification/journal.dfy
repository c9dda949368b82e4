/**
 * `journal/Journal.kt`: the `retryOn503` wrapper around the inference API
 * calls, and the state changes of `EmotionViewModel.analyzeAndSave`.
 */
module Journal {
  import opened Wrappers
  import opened KotlinInts
  import opened KotlinStrings
  import opened Timestamps

  /** What one invocation of the wrapped block does. */
  datatype Attempt<T> =
    | Success(value: T)
    | HttpError(code: Int32)   // a retrofit2.HttpException
    | OtherError               // any other exception

  predicate Is503<T>(a: Attempt<T>) {
    a.HttpError? && a.code == 503
  }

  // ------------------------------------------------------------ attempt count

  /** `repeat(times - 1)` as written: `times - 1` is `Int` arithmetic and wraps below `Int.MIN_VALUE`. */
  function GuardedAttemptsAsWritten(times: Int32): nat {
    var n := Wrap32(times - 1);
    if n > 0 then n else 0
  }

  /** `times = Int.MIN_VALUE` makes the guarded loop run `Int.MAX_VALUE` times instead of none. */
  lemma AsWrittenWrapsAtMinInt()
    ensures GuardedAttemptsAsWritten(INT_MIN as Int32) == INT_MAX
    ensures GuardedAttemptsAsWritten(INT_MIN as Int32) + 1 > 1
  {
  }

  /** The guarded attempts the loop is meant to make: one fewer than `times`, and none when `times <= 1`. */
  function GuardedAttempts(times: Int32): (n: nat)
    ensures n + 1 == if times >= 1 then times else 1
  {
    if times > 1 then times - 1 else 0
  }

  /** The two agree on every `times` except `Int.MIN_VALUE`. */
  lemma GuardedAttemptsAgree(times: Int32)
    requires times != INT_MIN
    ensures GuardedAttemptsAsWritten(times) == GuardedAttempts(times)
  {
  }

  // ------------------------------------------------------------ the retry contract

  /**
   * How many times `block` runs when `n` guarded attempts are allowed,
   * counting from invocation `k`: it stops at the first outcome that is not
   * a 503 among the guarded ones, and otherwise makes one more, unguarded,
   * attempt.
   */
  function CallsMade<T>(n: nat, block: nat -> Attempt<T>, k: nat): (calls: nat)
    requires k <= n
    ensures k + 1 <= calls <= n + 1
    ensures forall i :: k <= i < calls - 1 ==> Is503(block(i))
    ensures calls <= n ==> !Is503(block(calls - 1))
    decreases n - k
  {
    if k == n then n + 1
    else if !Is503(block(k)) then k + 1
    else CallsMade(n, block, k + 1)
  }

  /** The i-th wait (from 0): `initialDelayMs`, then each one `(previous * factor).toLong()`. */
  function Backoff(initialDelayMs: Int64, factor: nat, i: nat): (d: Int64)
    ensures initialDelayMs >= 0 ==> d >= 0
    ensures initialDelayMs >= 0 && factor >= 1 ==> d >= initialDelayMs
  {
    if i == 0 then initialDelayMs
    else
      var prev := Backoff(initialDelayMs, factor, i - 1);
      if prev >= 0 && factor >= 1 then
        MulMono(prev, 1, factor);
        SaturateToLong(prev * factor)
      else
        SaturateToLong(prev * factor)
  }

  /** With a non-negative start and a factor of at least 1, no wait is shorter than the one before. */
  lemma BackoffGrows(initialDelayMs: Int64, factor: nat, i: nat)
    requires initialDelayMs >= 0 && factor >= 1
    ensures Backoff(initialDelayMs, factor, i + 1) >= Backoff(initialDelayMs, factor, i)
  {
    MulMono(Backoff(initialDelayMs, factor, i), 1, factor);
  }

  function Pow(b: nat, e: nat): nat {
    if e == 0 then 1 else b * Pow(b, e - 1)
  }

  /** Without saturation the waits form the geometric sequence `initialDelayMs * factor^i`. */
  lemma {:induction false} BackoffGeometric(initialDelayMs: Int64, factor: nat, i: nat)
    requires initialDelayMs >= 0 && initialDelayMs * Pow(factor, i) <= LONG_MAX
    ensures Backoff(initialDelayMs, factor, i) == initialDelayMs * Pow(factor, i)
  {
    if i > 0 {
      var prev := initialDelayMs * Pow(factor, i - 1);
      assert prev <= LONG_MAX by {
        if factor == 0 {
          assert Pow(factor, i - 1) <= 1 by { if i - 1 > 0 { assert Pow(factor, i - 1) == 0; } }
          assert prev <= initialDelayMs by {
            MulMono(initialDelayMs, Pow(factor, i - 1), 1);
          }
        } else {
          assert Pow(factor, i) == factor * Pow(factor, i - 1);
          MulMono(Pow(factor, i - 1), 1, factor);
          MulMono(initialDelayMs, Pow(factor, i - 1), Pow(factor, i));
        }
      }
      BackoffGeometric(initialDelayMs, factor, i - 1);
      assert prev * factor == initialDelayMs * Pow(factor, i) by {
        assert Pow(factor, i) == factor * Pow(factor, i - 1);
      }
    }
  }

  lemma MulMono(a: nat, b: nat, c: nat)
    requires b <= c
    ensures a * b <= a * c
  {
  }

  /** With the defaults (3 attempts, 1000 ms, factor 2) the waits are 1000 ms and then 2000 ms. */
  lemma DefaultBackoff()
    ensures Backoff(1000, 2, 0) == 1000 && Backoff(1000, 2, 1) == 2000
  {
    BackoffGeometric(1000, 2, 1);
  }

  /** `retryOn503`'s result: the outcome of the last invocation, returned or thrown as it is. */
  function RetryOutcome<T>(times: Int32, block: nat -> Attempt<T>): (r: Attempt<T>)
    ensures exists k :: (0 <= k <= GuardedAttempts(times) && r == block(k)
      && (forall i :: 0 <= i < k ==> Is503(block(i)))
      && (k < GuardedAttempts(times) ==> !Is503(r)))
    ensures Is503(r) <==> forall i :: 0 <= i <= GuardedAttempts(times) ==> Is503(block(i))
  {
    var calls := CallsMade(GuardedAttempts(times), block, 0);
    assert 0 <= calls - 1 <= GuardedAttempts(times);
    block(calls - 1)
  }

  /** The waits `retryOn503` goes through: one per 503 on a guarded attempt. */
  function RetryWaits<T>(times: Int32, initialDelayMs: Int64, factor: nat, block: nat -> Attempt<T>): (w: seq<Int64>)
    ensures |w| == CallsMade(GuardedAttempts(times), block, 0) - 1
  {
    seq(CallsMade(GuardedAttempts(times), block, 0) - 1, i requires i >= 0 => Backoff(initialDelayMs, factor, i))
  }

  /**
   * `retryOn503(times, initialDelayMs, factor, block)`. The k-th invocation
   * of `block` (from 0) has outcome `block(k)`; each `delay` is recorded in
   * `waits` instead of suspending.
   */
  method RetryOn503<T>(times: Int32, initialDelayMs: Int64, factor: nat, block: nat -> Attempt<T>)
    returns (outcome: Attempt<T>, calls: nat, waits: seq<Int64>)
    ensures calls == CallsMade(GuardedAttempts(times), block, 0)
    ensures 1 <= calls <= (if times >= 1 then times else 1)
    ensures outcome == block(calls - 1) == RetryOutcome(times, block)
    ensures forall k :: 0 <= k < calls - 1 ==> Is503(block(k))
    ensures Is503(outcome) ==> calls == GuardedAttempts(times) + 1
    ensures waits == RetryWaits(times, initialDelayMs, factor, block)
    ensures forall i :: 0 <= i < |waits| ==> waits[i] == Backoff(initialDelayMs, factor, i)
  {
    var n := GuardedAttempts(times);
    var delayMs := initialDelayMs;
    calls, waits := 0, [];
    while calls < n
      invariant calls <= n
      invariant CallsMade(n, block, calls) == CallsMade(n, block, 0)
      invariant forall k :: 0 <= k < calls ==> Is503(block(k))
      invariant |waits| == calls
      invariant forall i :: 0 <= i < calls ==> waits[i] == Backoff(initialDelayMs, factor, i)
      invariant delayMs == Backoff(initialDelayMs, factor, calls)
    {
      var r := block(calls);
      calls := calls + 1;
      if !Is503(r) {
        // a success is returned, any other failure propagates
        outcome := r;
        return;
      }
      waits := waits + [delayMs];
      delayMs := SaturateToLong(delayMs * factor);
    }
    // the last attempt is outside the try: a 503 here propagates too
    outcome := block(calls);
    calls := calls + 1;
  }

  // ------------------------------------------------------------ EmotionViewModel

  /** `EmotionLabel(label, score)`; `label` is a reserved word in Dafny. */
  datatype EmotionLabel = EmotionLabel(emotion: string, score: real)

  datatype ChatResponse = ChatResponse(generatedText: string)

  datatype JournalEntry = JournalEntry(
    text: string,
    createdAt: Timestamp,
    emotions: seq<EmotionLabel>,
    blenderReply: Option<string>,
    suggestedTasks: seq<string>)

  /** `nested.flatten()`: the inner lists one after the other. */
  function Flatten<T(!new)>(nested: seq<seq<T>>): (r: seq<T>)
    ensures forall x :: x in r <==> exists i :: 0 <= i < |nested| && x in nested[i]
    ensures nested == [] ==> r == []
    ensures |nested| == 1 ==> r == nested[0]
  {
    if nested == [] then [] else nested[0] + Flatten(nested[1..])
  }

  /** Flattening keeps the order of the inner lists. */
  lemma {:induction false} FlattenAppend<T(!new)>(a: seq<seq<T>>, b: seq<seq<T>>)
    ensures Flatten(a + b) == Flatten(a) + Flatten(b)
    decreases |a|
  {
    if a == [] {
      assert a + b == b;
    } else {
      assert (a + b)[1..] == a[1..] + b;
      FlattenAppend(a[1..], b);
    }
  }

  /** `resp.firstOrNull()?.generated_text` */
  function FirstReply(resp: seq<ChatResponse>): (r: Option<string>)
    ensures r.None? <==> resp == []
    ensures r.Some? ==> r.value == resp[0].generatedText
  {
    if resp == [] then None else Some(resp[0].generatedText)
  }

  const ERROR_RESULTS: seq<EmotionLabel> := [EmotionLabel("Error", 0.0)]

  const RETRY_TIMES: Int32 := 3
  const RETRY_INITIAL_DELAY_MS: Int64 := 1000
  const RETRY_FACTOR: nat := 2

  class EmotionViewModel {
    var inputText: string
    var results: seq<EmotionLabel>
    var blenderReply: Option<string>
    var isLoading: bool

    constructor ()
      ensures inputText == "" && results == [] && blenderReply.None? && !isLoading
    {
      inputText, results, blenderReply, isLoading := "", [], None, false;
    }

    /** `onInputChange(text)` */
    method OnInputChange(text: string)
      modifies this
      ensures inputText == text
      ensures results == old(results) && blenderReply == old(blenderReply) && isLoading == old(isLoading)
    {
      inputText := text;
    }

    /**
     * The synchronous part of `analyzeAndSave()`: with no signed-in user or
     * blank input nothing happens; otherwise loading starts and the job is
     * launched.
     */
    method AnalyzeAndSave(uid: Option<string>) returns (launched: bool)
      modifies this
      ensures launched <==> uid.Some? && !IsBlank(old(inputText))
      ensures isLoading == (if launched then true else old(isLoading))
      ensures inputText == old(inputText) && results == old(results) && blenderReply == old(blenderReply)
    {
      if uid.None? || IsBlank(inputText) {
        return false;
      }
      isLoading := true;
      launched := true;
    }

    /**
     * The coroutine `analyzeAndSave()` launches. `emotionCall` and
     * `blenderCall` give the outcome of each invocation of the two HTTP
     * calls; the result is the entry handed to Firestore (whose own success
     * is only logged) and the waits of both retries.
     */
    method AnalysisJob(
      emotionCall: nat -> Attempt<seq<seq<EmotionLabel>>>,
      blenderCall: nat -> Attempt<seq<ChatResponse>>,
      now: Timestamp)
      returns (saved: Option<JournalEntry>, waits: seq<Int64>)
      modifies this
      ensures
        var e := RetryOutcome(RETRY_TIMES, emotionCall);
        var b := RetryOutcome(RETRY_TIMES, blenderCall);
        if e.Success? && b.Success? then
          && results == Flatten(e.value)
          && blenderReply == FirstReply(b.value)
          && saved == Some(JournalEntry(old(inputText), now, results, blenderReply, []))
        else
          results == ERROR_RESULTS && blenderReply.None? && saved.None?
      ensures waits == RetryWaits(RETRY_TIMES, RETRY_INITIAL_DELAY_MS, RETRY_FACTOR, emotionCall)
        + (if RetryOutcome(RETRY_TIMES, emotionCall).Success?
           then RetryWaits(RETRY_TIMES, RETRY_INITIAL_DELAY_MS, RETRY_FACTOR, blenderCall) else [])
      ensures !isLoading
      ensures inputText == old(inputText)
    {
      saved := None;
      var nested, _, w1 := RetryOn503(RETRY_TIMES, RETRY_INITIAL_DELAY_MS, RETRY_FACTOR, emotionCall);
      waits := w1;
      if nested.Success? {
        results := Flatten(nested.value);
        var resp, _, w2 := RetryOn503(RETRY_TIMES, RETRY_INITIAL_DELAY_MS, RETRY_FACTOR, blenderCall);
        waits := waits + w2;
        if resp.Success? {
          blenderReply := FirstReply(resp.value);
          saved := Some(JournalEntry(inputText, now, results, blenderReply, []));
        } else {
          results := ERROR_RESULTS;
          blenderReply := None;
        }
      } else {
        results := ERROR_RESULTS;
        blenderReply := None;
      }
      isLoading := false;
    }
  }
}
