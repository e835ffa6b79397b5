/** One call of the model client, the fallback chain over models, and what a failed chain means for
    the job (src/ai/anthropicClient.js, src/ai/llm.js, src/worker/worker.js:61-104). */
module Llm {
  import opened Jobs

  // -------------------------------------------------------------------------
  // callClaude
  // -------------------------------------------------------------------------

  /** What came of the HTTP exchange. An OK response whose body cannot be parsed is `BadBody`. */
  datatype Exchange = NetworkError | TimedOut | HttpError(status: int) | BadBody | OkBody(text: string)

  datatype Reply =
    | Answered(text: string)
    | CallFailed(status: Option<int>, flag: Flag, message: string)

  predicate IsRetryableStatus(status: int) {
    status == 408 || status == 429 || status >= 500
  }

  // The parse of an OK body is outside any try, so its error carries no flag at all.
  function CallClaude(hasKey: bool, exchange: Exchange, message: string): Reply {
    if !hasKey then CallFailed(None, No, message)
    else match exchange
      case NetworkError => CallFailed(None, Yes, message)
      case TimedOut => CallFailed(None, Yes, message)
      case HttpError(status) => CallFailed(Some(status), if IsRetryableStatus(status) then Yes else No, message)
      case BadBody => CallFailed(None, Unset, message)
      case OkBody(text) => Answered(text)
  }

  // -------------------------------------------------------------------------
  // generate
  // -------------------------------------------------------------------------

  datatype Failure = Failure(model: string, message: string, flag: Flag)

  datatype Generated =
    | Answer(text: string, fallbackUsed: bool, failedModels: seq<(string, string)>)
    | Thrown(flag: Flag, status: Option<int>)

  /** An error about the request, not the model: a 404 says only that this model does not exist. */
  predicate Permanent(r: Reply) {
    r.CallFailed? && r.flag == No && r.status != Some(404)
  }

  /** The chain ends at this reply. */
  predicate Stops(r: Reply) {
    r.Answered? || Permanent(r)
  }

  function FailureOf(model: string, r: Reply): Failure
    requires r.CallFailed?
  {
    Failure(model, r.message, r.flag)
  }

  /** What the chain comes to from model i on, with the failures so far. */
  function Chain(models: seq<string>, replies: seq<Reply>, i: nat, failures: seq<Failure>): Generated
    requires |replies| == |models| && i <= |models|
    decreases |models| - i
  {
    if i == |models| then Thrown(if exists f | f in failures :: f.flag == Yes then Yes else No, None)
    else match replies[i]
      case Answered(text) =>
        Answer(text, models[i] != models[0],
               seq(|failures|, k requires 0 <= k < |failures| => (failures[k].model, failures[k].message)))
      case CallFailed(status, flag, _) =>
        if Permanent(replies[i]) then Thrown(flag, status)
        else Chain(models, replies, i + 1, failures + [FailureOf(models[i], replies[i])])
  }

  /** How many of the models the chain calls. */
  function CallsOf(replies: seq<Reply>): nat {
    if replies == [] then 0 else if Stops(replies[0]) then 1 else 1 + CallsOf(replies[1..])
  }

  /** All replies but the last go on, so they are calls the chain makes; it goes on after the last unless
      that one stops it. */
  lemma {:induction false} CallsSoFar(replies: seq<Reply>, rest: seq<Reply>)
    requires forall i | 0 <= i < |replies| - 1 :: !Stops(replies[i])
    ensures CallsOf(replies + rest) ==
              if replies != [] && Stops(replies[|replies| - 1]) then |replies| else |replies| + CallsOf(rest)
  {
    if replies == [] {
      assert replies + rest == rest;
    } else {
      assert (replies + rest)[1..] == replies[1..] + rest;
      assert |replies| > 1 ==> replies[1..][|replies| - 2] == replies[|replies| - 1];
      CallsSoFar(replies[1..], rest);
    }
  }

  lemma {:induction false} CallsAtMost(replies: seq<Reply>)
    ensures CallsOf(replies) <= |replies| && (replies != [] ==> CallsOf(replies) >= 1)
  {
    if replies != [] {
      CallsAtMost(replies[1..]);
    }
  }

  /** The for loop over the models; `replies` are what their calls would return, and `calls` counts
      the calls made. */
  method Generate(models: seq<string>, replies: seq<Reply>) returns (r: Generated, calls: nat)
    requires |replies| == |models|
    ensures r == Chain(models, replies, 0, [])
    ensures calls == CallsOf(replies) <= |models|
    ensures forall k | 0 <= k < calls - 1 :: !Stops(replies[k])
    ensures calls < |models| ==> calls > 0 && Stops(replies[calls - 1])
  {
    var failures: seq<Failure> := [];
    calls := 0;
    for i := 0 to |models|
      invariant calls == i
      invariant Chain(models, replies, 0, []) == Chain(models, replies, i, failures)
      invariant forall k | 0 <= k < i :: !Stops(replies[k])
    {
      calls := calls + 1;
      CallsSoFar(replies[..i + 1], replies[i + 1..]);
      assert replies[..i + 1] + replies[i + 1..] == replies;
      match replies[i] {
        case Answered(text) =>
          var failedModels := seq(|failures|, k requires 0 <= k < |failures| =>
                                  (failures[k].model, failures[k].message));
          return Answer(text, models[i] != models[0], failedModels), calls;
        case CallFailed(status, flag, _) =>
          failures := failures + [FailureOf(models[i], replies[i])];
          if flag == No && status != Some(404) {
            return Thrown(flag, status), calls;
          }
      }
    }
    CallsSoFar(replies, []);
    assert replies + [] == replies;
    var anyRetryable := exists f | f in failures :: f.flag == Yes;
    r := Thrown(if anyRetryable then Yes else No, None);
  }

  // -------------------------------------------------------------------------
  // What the chain means
  // -------------------------------------------------------------------------

  /** k is where the chain stops. */
  predicate FirstStop(replies: seq<Reply>, k: nat) {
    k < |replies| && Stops(replies[k]) && forall i | 0 <= i < k :: !Stops(replies[i])
  }

  function FailuresUpTo(models: seq<string>, replies: seq<Reply>, k: nat): seq<Failure>
    requires |replies| == |models| && k <= |models|
    requires forall i | 0 <= i < k :: !Stops(replies[i])
  {
    seq(k, i requires 0 <= i < k => assert !Stops(replies[i]); FailureOf(models[i], replies[i]))
  }

  predicate SomeRetryable(replies: seq<Reply>) {
    exists i | 0 <= i < |replies| :: replies[i].CallFailed? && replies[i].flag == Yes
  }

  lemma {:induction false} ChainFrom(models: seq<string>, replies: seq<Reply>, i: nat)
    requires |replies| == |models| && i <= |models|
    requires forall n | 0 <= n < i :: !Stops(replies[n])
    ensures Chain(models, replies, i, FailuresUpTo(models, replies, i)) == Chain(models, replies, 0, [])
  {
    if i == 0 {
      assert FailuresUpTo(models, replies, 0) == [];
    } else {
      ChainFrom(models, replies, i - 1);
      assert FailuresUpTo(models, replies, i)
          == FailuresUpTo(models, replies, i - 1) + [FailureOf(models[i - 1], replies[i - 1])];
    }
  }

  /** If some reply stops the chain, the result is the first one that does: the answer with the
      failures before it, or the permanent error unchanged. */
  lemma ChainStops(models: seq<string>, replies: seq<Reply>, k: nat)
    requires |replies| == |models| && FirstStop(replies, k)
    ensures match replies[k]
            case Answered(text) =>
              var r := Chain(models, replies, 0, []);
              && r.Answer? && r.text == text && r.fallbackUsed == (models[k] != models[0])
              && |r.failedModels| == k
              && forall i | 0 <= i < k :: r.failedModels[i] == (models[i], replies[i].message)
            case CallFailed(status, flag, _) => Chain(models, replies, 0, []) == Thrown(flag, status)
  {
    ChainFrom(models, replies, k);
  }

  /** If none does, the result is an aggregate that is retryable iff some failure was flagged so. */
  lemma ChainExhausts(models: seq<string>, replies: seq<Reply>)
    requires |replies| == |models| && forall i | 0 <= i < |replies| :: !Stops(replies[i])
    ensures Chain(models, replies, 0, []) == Thrown(if SomeRetryable(replies) then Yes else No, None)
  {
    ChainFrom(models, replies, |models|);
    var failures := FailuresUpTo(models, replies, |models|);
    if SomeRetryable(replies) {
      var i :| 0 <= i < |replies| && replies[i].CallFailed? && replies[i].flag == Yes;
      assert failures[i].flag == Yes && failures[i] in failures;
    }
  }

  lemma {:induction false} StopOrNone(replies: seq<Reply>, i: nat) returns (k: nat)
    requires i <= |replies| && forall n | 0 <= n < i :: !Stops(replies[n])
    ensures FirstStop(replies, k) || (k == |replies| && forall n | 0 <= n < |replies| :: !Stops(replies[n]))
    decreases |replies| - i
  {
    if i == |replies| || Stops(replies[i]) {
      k := i;
    } else {
      k := StopOrNone(replies, i + 1);
    }
  }

  /** `fallbackUsed` says that there are failed models, except when the first model answers after
      all, further down the chain. */
  lemma FallbackUsedExactly(models: seq<string>, replies: seq<Reply>, k: nat)
    requires |replies| == |models| && FirstStop(replies, k) && replies[k].Answered?
    ensures var r := Chain(models, replies, 0, []);
            && r.Answer?
            && ((r.fallbackUsed <==> r.failedModels != []) <==> (k == 0 || models[k] != models[0]))
  {
    ChainStops(models, replies, k);
  }

  // -------------------------------------------------------------------------
  // What a failed chain means for the job
  // -------------------------------------------------------------------------

  /** The chain failed in a way no retry can mend: a permanent error stopped it, or it ran through
      every model and no failure was flagged retryable. */
  predicate Hopeless(replies: seq<Reply>) {
    || (exists k | 0 <= k < |replies| :: Permanent(replies[k]) && forall i | 0 <= i < k :: !Stops(replies[i]))
    || ((forall i | 0 <= i < |replies| :: !Stops(replies[i])) && !SomeRetryable(replies))
  }

  /** An AI job whose generate call throws is buried exactly if its attempts are spent or the chain
      failed hopelessly. */
  lemma BuriedExactly(models: seq<string>, replies: seq<Reply>, job: Doc, message: Message, now: int)
    requires |replies| == |models| && Chain(models, replies, 0, []).Thrown?
    ensures Decide(job, Error(Chain(models, replies, 0, []).flag, message), now).Bury?
       <==> job.attempts >= job.maxAttempts || Hopeless(replies)
  {
    var k := StopOrNone(replies, 0);
    if k < |replies| {
      ChainStops(models, replies, k);
      assert Permanent(replies[k]);
    } else {
      ChainExhausts(models, replies);
    }
  }

  /** What one exchange comes to, with a key: an answer, or an error with its HTTP status, if there
      was one, that asks for another try after a network error, a timeout and the statuses 408, 429
      and from 500 on, says nothing of it after an OK body that does not parse, and else refuses it. */
  lemma CallMeans(exchange: Exchange, message: string)
    ensures var r := CallClaude(true, exchange, message);
            if exchange.OkBody? then r == Answered(exchange.text)
            else
              && r.CallFailed? && r.message == message
              && r.status == (if exchange.HttpError? then Some(exchange.status) else None)
              && (r.flag == Yes <==>
                    || exchange.NetworkError? || exchange.TimedOut?
                    || (exchange.HttpError? && (exchange.status in {408, 429} || exchange.status >= 500)))
              && (r.flag == Unset <==> exchange.BadBody?)
  {
  }

  /** By HTTP status: with a key, one exchange stops the chain as permanent exactly for an error
      status below 500 that is none of 404, 408 and 429; without a key every call does. */
  lemma PermanentStatuses(exchange: Exchange, message: string)
    ensures Permanent(CallClaude(true, exchange, message))
       <==> exchange.HttpError? && exchange.status !in {404, 408, 429} && exchange.status < 500
    ensures Permanent(CallClaude(false, exchange, message))
  {
  }

  function Replies(exchanges: seq<Exchange>, message: string): seq<Reply> {
    seq(|exchanges|, i requires 0 <= i < |exchanges| => CallClaude(true, exchanges[i], message))
  }

  /** A failure that another try may not meet. */
  predicate MayPass(x: Exchange) {
    x.NetworkError? || x.TimedOut? || (x.HttpError? && (x.status in {408, 429} || x.status >= 500))
  }

  /** A failure every model would meet. */
  predicate MustRecur(x: Exchange) {
    x.HttpError? && x.status < 500 && x.status !in {404, 408, 429}
  }

  /** An AI job goes back to the queue exactly if it has attempts left, every model was called and
      failed, none with a permanent status, and at least one in a way that may pass. */
  lemma RetriedExactly(
      models: seq<string>, exchanges: seq<Exchange>, message: string, job: Doc, text: Message, now: int)
    requires |exchanges| == |models|
    ensures
      (var r := Chain(models, Replies(exchanges, message), 0, []);
       r.Thrown? && Decide(job, Error(r.flag, text), now).Reschedule?)
      <==> && job.attempts < job.maxAttempts
           && (forall x | x in exchanges :: !x.OkBody? && !MustRecur(x))
           && (exists x | x in exchanges :: MayPass(x))
  {
    var replies := Replies(exchanges, message);
    var k := StopOrNone(replies, 0);
    if k < |replies| {
      ChainStops(models, replies, k);
      assert exchanges[k] in exchanges;
    } else {
      ChainExhausts(models, replies);
      forall x | x in exchanges ensures !x.OkBody? && !MustRecur(x) && (MayPass(x) ==> SomeRetryable(replies)) {
        var i :| 0 <= i < |exchanges| && exchanges[i] == x;
        assert replies[i] == CallClaude(true, x, message);
      }
      if SomeRetryable(replies) {
        var i :| 0 <= i < |replies| && replies[i].CallFailed? && replies[i].flag == Yes;
        assert exchanges[i] in exchanges && MayPass(exchanges[i]);
      }
    }
  }

  /** Unparsable OK bodies from every model bury the job on its first attempt, although the same
      unflagged error thrown by a handler itself would be retried. */
  lemma BadBodiesBury(models: seq<string>, message: string, job: Doc, now: int)
    requires job.attempts < job.maxAttempts
    ensures var replies := seq(|models|, i => CallClaude(true, BadBody, message));
            && Chain(models, replies, 0, []) == Thrown(No, None)
            && Decide(job, Error(Chain(models, replies, 0, []).flag, Text(message)), now).Bury?
            && Decide(job, Error(CallClaude(true, BadBody, message).flag, Text(message)), now).Reschedule?
  {
    ChainExhausts(models, seq(|models|, i => CallClaude(true, BadBody, message)));
  }
}
