/** The connector operations of the API client: the bounded retry loop with
    exponential backoff, the substring classifier that decides which errors
    are retried, the variable maps of the three mutations and the query, and
    the extraction of the connector from a query response. */
module Connector {
  import opened Values

  // ---------------------------------------------------------------------
  // Error classification
  // ---------------------------------------------------------------------

  /** `sub` occurs in `s` at some offset. */
  ghost predicate Occurs(sub: string, s: string)
  {
    exists i :: 0 <= i <= |s| - |sub| && s[i..][..|sub|] == sub
  }

  /** `strings.Contains(s, sub)`, by scanning the offsets left to right. */
  function Contains(s: string, sub: string): (r: bool)
    ensures r <==> Occurs(sub, s)
    decreases |s|
  {
    if |sub| > |s| then false
    else if s[..|sub|] == sub then assert s[0..][..|sub|] == sub; true
    else
      var r := Contains(s[1..], sub);
      assert Occurs(sub, s[1..]) ==> Occurs(sub, s) by {
        if Occurs(sub, s[1..]) {
          var i :| 0 <= i <= |s[1..]| - |sub| && s[1..][i..][..|sub|] == sub;
          assert s[i + 1..] == s[1..][i..];
        }
      }
      assert Occurs(sub, s) ==> Occurs(sub, s[1..]) by {
        if Occurs(sub, s) {
          var i :| 0 <= i <= |s| - |sub| && s[i..][..|sub|] == sub;
          assert i != 0;
          assert s[1..][i - 1..] == s[i..];
        }
      }
      r
  }

  /** The message fragments that mark an error as transient. */
  const RetryMarkers: seq<string> :=
    ["rate limit", "timeout", "connection reset", "temporary", "service unavailable"]

  /** `isRetryableError`: the message contains one of the five markers. */
  function IsRetryableError(err: Error): (r: bool)
    ensures r <==> exists m :: m in RetryMarkers && Occurs(m, err.Message())
  {
    var msg := err.Message();
    var r := Contains(msg, "rate limit")
             || Contains(msg, "timeout")
             || Contains(msg, "connection reset")
             || Contains(msg, "temporary")
             || Contains(msg, "service unavailable");
    assert r ==> exists m :: m in RetryMarkers && Occurs(m, msg) by {
      assert RetryMarkers[0] == "rate limit" && RetryMarkers[1] == "timeout";
      assert RetryMarkers[2] == "connection reset" && RetryMarkers[3] == "temporary";
      assert RetryMarkers[4] == "service unavailable";
    }
    r
  }

  // ---------------------------------------------------------------------
  // Retry with exponential backoff
  // ---------------------------------------------------------------------

  /** Attempts made before giving up. */
  const MaxRetries: nat := 5

  /** One second, in nanoseconds (Go's `time.Duration` unit). */
  const BaseDelay: nat := 1_000_000_000

  function Pow2(i: nat): (r: nat)
    ensures r >= 1
  {
    if i == 0 then 1 else 2 * Pow2(i - 1)
  }

  /** The exponential part of the wait after 0-indexed attempt `i`. */
  function Backoff(i: nat): nat
  {
    BaseDelay * Pow2(i)
  }

  /** A jitter value `rand.Int63n(delay / 2)` may draw for attempt `i`. */
  predicate JitterInRange(i: nat, jitter: int)
  {
    0 <= jitter < Backoff(i) / 2
  }

  /** `retryWithBackoff`. The closure is given by its answers: `outcomes[i]`
      is what the (i+1)-th call returns (None for nil). `jitters[i]` is the
      random draw for the wait after attempt i, and `cancelled[i]` says
      whether the context is done before that wait elapses. The method
      reports how many times the closure ran and which waits it started. */
  method RetryWithBackoff(outcomes: seq<Option<Error>>, jitters: seq<int>,
                          cancelled: seq<bool>, ctxErr: Error)
    returns (result: Option<Error>, attempts: nat, waits: seq<int>)
    requires |outcomes| == MaxRetries && |jitters| == MaxRetries && |cancelled| == MaxRetries
    requires forall i :: 0 <= i < MaxRetries ==> JitterInRange(i, jitters[i])
    ensures 1 <= attempts <= MaxRetries && |waits| <= attempts
    // every attempt before the last failed with a retryable error and its
    // wait ran to the end: in particular f is never called again after nil
    ensures forall i :: 0 <= i < attempts - 1 ==>
              outcomes[i].Some? && IsRetryableError(outcomes[i].value) && !cancelled[i]
    ensures forall i :: 0 <= i < |waits| ==> waits[i] == Backoff(i) + jitters[i]
    ensures forall i :: 0 <= i < |waits| ==>
              Backoff(i) <= waits[i] && 2 * waits[i] < 3 * Backoff(i)
    // success: nil, no wait after the successful attempt
    ensures outcomes[attempts - 1].None? ==> result.None? && |waits| == attempts - 1
    // terminal error: returned unchanged, no wait
    ensures outcomes[attempts - 1].Some? && !IsRetryableError(outcomes[attempts - 1].value) ==>
              result == outcomes[attempts - 1] && |waits| == attempts - 1
    // retryable error: a wait follows; it is either cancelled or it was the fifth attempt
    ensures outcomes[attempts - 1].Some? && IsRetryableError(outcomes[attempts - 1].value) ==>
              |waits| == attempts &&
              (if cancelled[attempts - 1] then result == Some(ctxErr)
               else attempts == MaxRetries &&
                    result == Some(Wrap("maximum retries exceeded", outcomes[MaxRetries - 1].value)))
    ensures result.None? <==> outcomes[attempts - 1].None?
  {
    var err: Option<Error> := None;
    attempts, waits := 0, [];
    var i := 0;
    while i < MaxRetries
      invariant 0 <= i <= MaxRetries
      invariant attempts == i && |waits| == i
      invariant forall j :: 0 <= j < i ==>
                  outcomes[j].Some? && IsRetryableError(outcomes[j].value) && !cancelled[j]
      invariant forall j :: 0 <= j < i ==> waits[j] == Backoff(j) + jitters[j]
      invariant i > 0 ==> err == outcomes[i - 1]
    {
      err := outcomes[i];
      attempts := attempts + 1;
      if err.None? {
        return None, attempts, waits;
      }
      if !IsRetryableError(err.value) {
        return err, attempts, waits;
      }
      var delay := Backoff(i);
      var jitter := jitters[i];
      delay := delay + jitter;
      waits := waits + [delay];
      if cancelled[i] {
        return Some(ctxErr), attempts, waits;
      }
      i := i + 1;
    }
    result := Some(Wrap("maximum retries exceeded", err.value));
  }

  /** Four transient failures and then a success: the fifth call's nil is
      returned after exactly five calls and four waits. */
  method RecoversOnFifthAttempt(transient: Error, jitters: seq<int>, ctxErr: Error)
    returns (result: Option<Error>, attempts: nat, waits: seq<int>)
    requires IsRetryableError(transient)
    requires |jitters| == MaxRetries && forall i :: 0 <= i < MaxRetries ==> JitterInRange(i, jitters[i])
    ensures result.None? && attempts == MaxRetries && |waits| == MaxRetries - 1
  {
    var failing := Some(transient);
    result, attempts, waits := RetryWithBackoff([failing, failing, failing, failing, None], jitters,
                                                [false, false, false, false, false], ctxErr);
  }

  /** A terminal error on the first call: one call, no wait, the error itself. */
  method TerminalErrorNotRetried(terminal: Error, later: seq<Option<Error>>, jitters: seq<int>,
                                 cancelled: seq<bool>, ctxErr: Error)
    returns (result: Option<Error>, attempts: nat, waits: seq<int>)
    requires !IsRetryableError(terminal)
    requires |later| == MaxRetries - 1 && |jitters| == MaxRetries && |cancelled| == MaxRetries
    requires forall i :: 0 <= i < MaxRetries ==> JitterInRange(i, jitters[i])
    ensures result == Some(terminal) && attempts == 1 && waits == []
  {
    var outcomes := [Some(terminal)] + later;
    assert outcomes[0] == Some(terminal) && !IsRetryableError(outcomes[0].value);
    result, attempts, waits := RetryWithBackoff(outcomes, jitters, cancelled, ctxErr);
  }

  // ---------------------------------------------------------------------
  // Query variables
  // ---------------------------------------------------------------------

  /** Variables of `TestConnectorConfig`: the optional extra configuration
      and id are left out when nil or empty. */
  function TestConnectorVariables(connectorType: string, authParams: Option<Tree>,
                                  extraConfig: Option<Tree>, id: string): (variables: Tree)
    ensures variables.Keys == {"type", "authParams"}
                              + (if extraConfig.Some? then {"extraConfig"} else {})
                              + (if id != "" then {"id"} else {})
    ensures variables["type"] == Str(connectorType)
    ensures variables["authParams"] == MapOrNull(authParams)
    ensures extraConfig.Some? ==> variables["extraConfig"] == Map(extraConfig.value)
    ensures id != "" ==> variables["id"] == Str(id)
  {
    var variables := map["type" := Str(connectorType), "authParams" := MapOrNull(authParams)];
    var variables := if extraConfig.Some? then variables["extraConfig" := Map(extraConfig.value)] else variables;
    if id != "" then variables["id" := Str(id)] else variables
  }

  /** Variables of `CreateConnector`: a single `input` object. */
  function CreateConnectorVariables(name: string, connectorType: string,
                                    authParams: Option<Tree>, extraConfig: Option<Tree>): (variables: Tree)
    ensures variables.Keys == {"input"} && variables["input"].Map?
    ensures var input := variables["input"].m;
      && input.Keys == {"name", "type", "authParams"} + (if extraConfig.Some? then {"extraConfig"} else {})
      && input["name"] == Str(name)
      && input["type"] == Str(connectorType)
      && input["authParams"] == MapOrNull(authParams)
      && (extraConfig.Some? ==> input["extraConfig"] == Map(extraConfig.value))
  {
    var input := map["name" := Str(name), "type" := Str(connectorType), "authParams" := MapOrNull(authParams)];
    var input := if extraConfig.Some? then input["extraConfig" := Map(extraConfig.value)] else input;
    map["input" := Map(input)]
  }

  /** Variables of `UpdateConnector`: `input` carries the id and a patch that
      always holds the name and holds each optional map only when non-nil. */
  function UpdateConnectorVariables(id: string, name: string,
                                    authParams: Option<Tree>, extraConfig: Option<Tree>): (variables: Tree)
    ensures variables.Keys == {"input"} && variables["input"].Map?
    ensures var input := variables["input"].m;
      && input.Keys == {"id", "patch"}
      && input["id"] == Str(id)
      && input["patch"].Map?
      && var patch := input["patch"].m;
      && patch.Keys == {"name"} + (if authParams.Some? then {"authParams"} else {})
                                + (if extraConfig.Some? then {"extraConfig"} else {})
      && patch["name"] == Str(name)
      && (authParams.Some? ==> patch["authParams"] == Map(authParams.value))
      && (extraConfig.Some? ==> patch["extraConfig"] == Map(extraConfig.value))
  {
    var patch := map["name" := Str(name)];
    var patch := if authParams.Some? then patch["authParams" := Map(authParams.value)] else patch;
    var patch := if extraConfig.Some? then patch["extraConfig" := Map(extraConfig.value)] else patch;
    map["input" := Map(map["id" := Str(id), "patch" := Map(patch)])]
  }

  /** The map building of `TestConnectorConfig`, insertion by insertion. */
  method BuildTestVariables(connectorType: string, authParams: Option<Tree>,
                            extraConfig: Option<Tree>, id: string) returns (variables: Tree)
    ensures variables == TestConnectorVariables(connectorType, authParams, extraConfig, id)
  {
    variables := map["type" := Str(connectorType), "authParams" := MapOrNull(authParams)];
    if extraConfig.Some? {
      variables := variables["extraConfig" := Map(extraConfig.value)];
    }
    if id != "" {
      variables := variables["id" := Str(id)];
    }
  }

  /** The map building of `CreateConnector`. */
  method BuildCreateVariables(name: string, connectorType: string,
                              authParams: Option<Tree>, extraConfig: Option<Tree>) returns (variables: Tree)
    ensures variables == CreateConnectorVariables(name, connectorType, authParams, extraConfig)
  {
    var input := map["name" := Str(name), "type" := Str(connectorType), "authParams" := MapOrNull(authParams)];
    if extraConfig.Some? {
      input := input["extraConfig" := Map(extraConfig.value)];
    }
    variables := map["input" := Map(input)];
  }

  /** The map building of `UpdateConnector`. */
  method BuildUpdateVariables(id: string, name: string,
                              authParams: Option<Tree>, extraConfig: Option<Tree>) returns (variables: Tree)
    ensures variables == UpdateConnectorVariables(id, name, authParams, extraConfig)
  {
    var patch := map["name" := Str(name)];
    if authParams.Some? {
      patch := patch["authParams" := Map(authParams.value)];
    }
    if extraConfig.Some? {
      patch := patch["extraConfig" := Map(extraConfig.value)];
    }
    variables := map["input" := Map(map["id" := Str(id), "patch" := Map(patch)])];
  }

  // ---------------------------------------------------------------------
  // GetConnector
  // ---------------------------------------------------------------------

  /** The result extraction of `GetConnector`: the `connector` entry of the
      response, which must be present, non-nil and an object. */
  function ExtractConnector(response: Tree, id: string): (r: Result<Tree>)
    ensures r.Ok? <==> "connector" in response && response["connector"].Map?
    ensures r.Ok? ==> r.value == response["connector"].m
    ensures ("connector" !in response || response["connector"].Null?) ==>
              r == Err(Fail("connector not found: " + id))
    ensures "connector" in response && !response["connector"].Null? && !response["connector"].Map? ==>
              r == Err(Fail("invalid connector data format"))
  {
    if "connector" !in response || response["connector"] == Null then
      Err(Fail("connector not found: " + id))
    else
      match response["connector"]
      case Map(m) => Ok(m)
      case _ => Err(Fail("invalid connector data format"))
  }

  /** `GetConnector` after its retried query: `queryErr` is what the retry
      loop returned and `response` the decoded body of the last attempt. */
  function GetConnector(id: string, queryErr: Option<Error>, response: Tree): (r: Result<Tree>)
    ensures queryErr.Some? ==> r == Err(Wrap("error getting connector", queryErr.value))
    ensures queryErr.None? ==> r == ExtractConnector(response, id)
  {
    if queryErr.Some? then Err(Wrap("error getting connector", queryErr.value))
    else ExtractConnector(response, id)
  }
}
