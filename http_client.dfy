/**
 * The shared HTTP client's response interceptor together with
 * `refreshAccesToken`.
 *
 * A request that fails with status 401 on a config not yet marked `_retry`
 * gets its config marked, then one call to refresh the access token; if that
 * call succeeds the marked config is replayed and the replay's outcome is
 * the request's, otherwise the original error is rejected. Every other
 * outcome passes through unchanged. The refresh call is itself a POST
 * through the same client with a fresh, unmarked config, so a 401 from the
 * refresh endpoint starts another refresh: the marker bounds replays per
 * config, not the depth of nested refreshes.
 *
 * The server is a finite script of outcomes, one consumed per request; once
 * it is used up every further request gets no response. `Send` and
 * `Refresh` give the outcome and the requests made; `ApiClient` performs
 * the same steps on a mutable config and is proved to agree with them.
 */
module HttpClient {
  import opened Common

  /** How one request ends: resolved, or rejected with the response status if there was a response. */
  datatype Outcome = Ok | Err(status: Option<int>)

  /** One request as the server sees it: path, whether its config was marked `_retry`, and its outcome. */
  datatype Attempt = Attempt(path: string, retry: bool, outcome: Outcome)

  const RefreshPath := "/auth/refresh-token"
  const Unauthorized := Err(Some(401))

  /** The server's next answer; with the script used up, no response. */
  function Head(script: seq<Outcome>): Outcome
  {
    if script == [] then Err(None) else script[0]
  }

  function Tail(script: seq<Outcome>): (rest: seq<Outcome>)
    ensures script != [] ==> |rest| == |script| - 1
    ensures script == [] ==> rest == []
  {
    if script == [] then [] else script[1..]
  }

  /** What a call through the client returns, the requests it made in order, and the script left. */
  datatype Run = Run(result: Outcome, log: seq<Attempt>, rest: seq<Outcome>)

  datatype RefreshRun = RefreshRun(success: bool, log: seq<Attempt>, rest: seq<Outcome>)

  /**
   * A request through the client with its config's `_retry` flag as given.
   * Its first request is the one it was asked to make.
   */
  function Send(path: string, retry: bool, script: seq<Outcome>): (run: Run)
    ensures |run.rest| <= |script|
    ensures |run.log| >= 1 && run.log[0] == Attempt(path, retry, Head(script))
    decreases |script|, 0
  {
    var reply := Head(script);
    var first := Attempt(path, retry, reply);
    if reply == Unauthorized && !retry then
      var refresh := Refresh(Tail(script));
      if refresh.success then
        var replay := Send(path, true, refresh.rest);
        Run(replay.result, [first] + refresh.log + replay.log, replay.rest)
      else
        Run(reply, [first] + refresh.log, refresh.rest)
    else
      Run(reply, [first], Tail(script))
  }

  /**
   * `refreshAccesToken`: one POST to the refresh endpoint through the same
   * client with an unmarked config; `true` exactly when it resolves. A
   * rejection becomes `false`, so it never fails itself.
   */
  function Refresh(script: seq<Outcome>): (r: RefreshRun)
    ensures |r.rest| <= |script|
    ensures |r.log| >= 1 && r.log[0] == Attempt(RefreshPath, false, Head(script))
    decreases |script|, 1
  {
    var post := Send(RefreshPath, false, script);
    RefreshRun(post.result.Ok?, post.log, post.rest)
  }

  /** A resolved response is returned as it is, and nothing else is requested. */
  lemma SuccessPassesThrough(path: string, retry: bool, script: seq<Outcome>)
    requires Head(script) == Ok
    ensures Send(path, retry, script) == Run(Ok, [Attempt(path, retry, Ok)], Tail(script))
  {
  }

  /**
   * An error other than 401, an error without a response, or a 401 on a
   * config already marked is rejected unchanged, with no refresh.
   */
  lemma RejectedUnchanged(path: string, retry: bool, script: seq<Outcome>)
    requires Head(script).Err?
    requires Head(script) != Unauthorized || retry
    ensures Send(path, retry, script) == Run(Head(script), [Attempt(path, retry, Head(script))], Tail(script))
  {
  }

  /** A config already marked makes exactly one request, whatever the answer. */
  lemma MarkedSendsOnce(path: string, script: seq<Outcome>)
    ensures Send(path, true, script) == Run(Head(script), [Attempt(path, true, Head(script))], Tail(script))
  {
  }

  /**
   * A first 401 followed by a failed refresh rejects with the original
   * error; the requests are the original and those of the refresh, with no
   * replay after them.
   */
  lemma RefreshFailureRejects(path: string, script: seq<Outcome>)
    requires Head(script) == Unauthorized
    requires !Refresh(Tail(script)).success
    ensures var run := Send(path, false, script);
      && run.result == Unauthorized
      && run.log == [Attempt(path, false, Unauthorized)] + Refresh(Tail(script)).log
  {
  }

  /**
   * A first 401 followed by a successful refresh replays the request once,
   * marked, and returns the replay's outcome, even if that is another 401.
   */
  lemma RefreshSuccessReplaysOnce(path: string, script: seq<Outcome>)
    requires Head(script) == Unauthorized
    requires Refresh(Tail(script)).success
    ensures var refresh := Refresh(Tail(script));
      var run := Send(path, false, script);
      && run.result == Head(refresh.rest)
      && run.log == [Attempt(path, false, Unauthorized)] + refresh.log + [Attempt(path, true, Head(refresh.rest))]
      && run.rest == Tail(refresh.rest)
  {
    MarkedSendsOnce(path, Refresh(Tail(script)).rest);
  }

  /**
   * After the first request, every request the client makes is a refresh
   * POST or a replay of the original on its marked config.
   */
  lemma {:induction false} OnlyOwnRequests(path: string, retry: bool, script: seq<Outcome>)
    ensures forall k :: 1 <= k < |Send(path, retry, script).log| ==>
      var a := Send(path, retry, script).log[k];
      a.path == RefreshPath || (a.path == path && a.retry)
    decreases |script|, 0
  {
    var reply := Head(script);
    if reply == Unauthorized && !retry {
      var refresh := Refresh(Tail(script));
      RefreshOnlyRefreshes(Tail(script));
      var log := Send(path, retry, script).log;
      if refresh.success {
        var replay := Send(path, true, refresh.rest);
        MarkedSendsOnce(path, refresh.rest);
        assert log == [Attempt(path, retry, reply)] + refresh.log + replay.log;
        forall k | 1 <= k < |log| ensures log[k].path == RefreshPath || (log[k].path == path && log[k].retry) {
          if k <= |refresh.log| {
            assert log[k] == refresh.log[k - 1];
          } else {
            assert log[k] == replay.log[0];
          }
        }
      } else {
        assert log == [Attempt(path, retry, reply)] + refresh.log;
        forall k | 1 <= k < |log| ensures log[k].path == RefreshPath {
          assert log[k] == refresh.log[k - 1];
        }
      }
    }
  }

  lemma {:induction false} RefreshOnlyRefreshes(script: seq<Outcome>)
    ensures forall a :: a in Refresh(script).log ==> a.path == RefreshPath
    decreases |script|, 1
  {
    var post := Send(RefreshPath, false, script);
    OnlyOwnRequests(RefreshPath, false, script);
    forall a | a in post.log ensures a.path == RefreshPath {
      var k :| 0 <= k < |post.log| && post.log[k] == a;
    }
  }

  /** A server that answers 401 to the next `n` requests. */
  function Unauthorizeds(n: nat): (s: seq<Outcome>)
    ensures |s| == n && forall k :: 0 <= k < n ==> s[k] == Unauthorized
  {
    if n == 0 then [] else [Unauthorized] + Unauthorizeds(n - 1)
  }

  /**
   * Against a server that answers 401 to the next `n` requests, a request
   * makes `n + 1` requests: itself, then `n` refresh POSTs, each started by
   * the 401 of the one before. The nesting of refreshes grows with `n`: the
   * `_retry` marker does not bound it.
   */
  lemma {:induction false} RefreshChain(path: string, n: nat)
    ensures var run := Send(path, false, Unauthorizeds(n));
      && |run.log| == n + 1
      && (forall k :: 1 <= k <= n ==> run.log[k].path == RefreshPath && !run.log[k].retry)
      && run.result == (if n == 0 then Err(None) else Unauthorized)
    decreases n
  {
    if n > 0 {
      var script := Unauthorizeds(n);
      assert Tail(script) == Unauthorizeds(n - 1);
      RefreshChain(RefreshPath, n - 1);
      var refresh := Refresh(Tail(script));
      assert !refresh.success;
      var run := Send(path, false, script);
      assert run.log == [Attempt(path, false, Unauthorized)] + refresh.log;
      forall k | 1 <= k <= n ensures run.log[k].path == RefreshPath && !run.log[k].retry {
        assert run.log[k] == refresh.log[k - 1];
      }
    }
  }

  /** The request config object; the interceptor adds and sets its `_retry` flag. */
  class RequestConfig {
    const path: string
    var retry: bool

    constructor (path: string)
      ensures this.path == path && !retry
    {
      this.path := path;
      retry := false;
    }
  }

  /** The client: the script of answers still to come and the requests made so far. */
  class ApiClient {
    var script: seq<Outcome>
    var log: seq<Attempt>

    constructor (script: seq<Outcome>)
      ensures this.script == script && log == []
    {
      this.script := script;
      log := [];
    }

    /**
     * A request through the interceptor. The config is marked before the
     * refresh starts, and stays marked.
     */
    method Request(config: RequestConfig) returns (result: Outcome)
      modifies this, config
      ensures var run := Send(config.path, old(config.retry), old(script));
        result == run.result && log == old(log) + run.log && script == run.rest
      ensures config.retry == (old(config.retry) || Head(old(script)) == Unauthorized)
      decreases |script|, 0
    {
      var reply := Head(script);
      script := Tail(script);
      log := log + [Attempt(config.path, config.retry, reply)];
      if reply == Unauthorized && !config.retry {
        config.retry := true;
        var refreshed := RefreshAccessToken();
        if refreshed {
          result := Request(config);
          return;
        }
      }
      result := reply;
    }

    /** `refreshAccesToken`, through this same client with a new config. */
    method RefreshAccessToken() returns (ok: bool)
      modifies this
      ensures var r := Refresh(old(script));
        ok == r.success && log == old(log) + r.log && script == r.rest
      decreases |script|, 1
    {
      var config := new RequestConfig(RefreshPath);
      var result := Request(config);
      ok := result.Ok?;
    }
  }
}
