// WebFSClient: the browser side's reconnecting connection to the tray app,
// trying a small range of local ports in turn.
module Client {
  import opened Endpoints

  const BasePort: nat := 6565
  const MaxPortSpread: int := 4
  /** ushort.MaxValue */
  const UshortMax: int := 65535
  const TicksPerSecond: int := 10_000_000

  /** How many of the ports basePort + 0 .. basePort + spread - 1 lie below ushort.MaxValue. */
  function EndpointCount(basePort: nat, spread: int): nat
  {
    if spread <= 0 || basePort >= UshortMax then 0
    else if basePort + spread <= UshortMax then spread
    else UshortMax - basePort
  }

  /** The i-th endpoint the constructor adds. */
  function InitialEndpoint(basePort: nat, i: nat): WebFSEndpoint
    requires basePort + i < 0x1_0000
  {
    WebFSEndpoint(Unknown, basePort + i, "", MinValue + i * TicksPerSecond, MinValue)
  }

  /**
   * The constructor's loop: one endpoint per port of the spread, stopping at
   * the first port that reaches ushort.MaxValue; each is marked checked one
   * second after the previous one.
   */
  method BuildEndpoints(basePort: nat, spread: int) returns (eps: seq<WebFSEndpoint>)
    ensures |eps| == EndpointCount(basePort, spread)
    ensures forall i :: 0 <= i < |eps| ==> basePort + i < UshortMax && eps[i] == InitialEndpoint(basePort, i)
    ensures forall i, j :: 0 <= i < j < |eps| ==> eps[i].lastChecked < eps[j].lastChecked && eps[i].port < eps[j].port
  {
    eps := [];
    var i := 0;
    while i < spread
      invariant 0 <= i && |eps| == i
      invariant i > 0 ==> i <= spread
      invariant i <= EndpointCount(basePort, spread) || spread <= 0
      invariant i > 0 ==> basePort + i <= UshortMax
      invariant forall j :: 0 <= j < i ==> basePort + j < UshortMax && eps[j] == InitialEndpoint(basePort, j)
    {
      var port := basePort + i;
      if port >= UshortMax {
        break;
      }
      eps := eps + [InitialEndpoint(basePort, i)];
      i := i + 1;
    }
  }

  /** The default client's endpoints are ports 6565 to 6568. */
  lemma DefaultEndpointRange()
    ensures EndpointCount(BasePort, MaxPortSpread) == 4
    ensures forall i :: 0 <= i < 4 ==> InitialEndpoint(BasePort, i).port == 6565 + i && Url(InitialEndpoint(BasePort, i))[..|UrlPrefix|] == UrlPrefix
  {
  }

  // ---- Choosing the endpoint ----

  /** OrderByDescending(LastChecked).First(): the first endpoint with the latest check. */
  function LatestIndex(eps: seq<WebFSEndpoint>): (k: nat)
    requires |eps| > 0
    ensures k < |eps|
    ensures forall j :: 0 <= j < |eps| ==> eps[j].lastChecked <= eps[k].lastChecked
    ensures forall j :: 0 <= j < k ==> eps[j].lastChecked < eps[k].lastChecked
  {
    if |eps| == 1 then 0
    else
      var k := LatestIndex(eps[..|eps| - 1]);
      if eps[|eps| - 1].lastChecked > eps[k].lastChecked then |eps| - 1 else k
  }

  /** OrderBy(LastChecked).First(): the first endpoint with the earliest check. */
  function EarliestIndex(eps: seq<WebFSEndpoint>): (k: nat)
    requires |eps| > 0
    ensures k < |eps|
    ensures forall j :: 0 <= j < |eps| ==> eps[k].lastChecked <= eps[j].lastChecked
    ensures forall j :: 0 <= j < k ==> eps[k].lastChecked < eps[j].lastChecked
  {
    if |eps| == 1 then 0
    else
      var k := EarliestIndex(eps[..|eps| - 1]);
      if eps[|eps| - 1].lastChecked < eps[k].lastChecked then |eps| - 1 else k
  }

  /** GetConnectEndpoint: stay on the most recently checked endpoint if it was verified, else take the stalest. */
  function ConnectIndex(eps: seq<WebFSEndpoint>): (k: nat)
    requires |eps| > 0
    ensures k < |eps|
    ensures eps[LatestIndex(eps)].result == Verified ==> k == LatestIndex(eps)
    ensures eps[LatestIndex(eps)].result != Verified ==>
      (forall j :: 0 <= j < |eps| ==> eps[k].lastChecked <= eps[j].lastChecked)
      && forall j :: 0 <= j < k ==> eps[k].lastChecked < eps[j].lastChecked
  {
    var p := LatestIndex(eps);
    if eps[p].result == Verified then p else EarliestIndex(eps)
  }

  // ---- One pass of the connect loop ----

  /** What the connect attempt came to: the socket did not open; it opened but the peer never became ready; or a full session. */
  datatype Attempt = NotOpened | OpenedNotReady | OpenedReady

  /** The clock readings of one pass: at the start, when the socket opened, when the session ended. */
  datatype AttemptTimes = AttemptTimes(started: DateTime, openedAt: DateTime, closedAt: DateTime)

  datatype LoopAction = Stop | Delay(ms: nat)

  /** The chosen endpoint after one pass. */
  function Attempted(e: WebFSEndpoint, t: AttemptTimes, a: Attempt): WebFSEndpoint
  {
    var checking := e.(lastChecked := t.started, result := Unknown);
    match a
    case NotOpened => checking.(result := Invalid)
    case OpenedNotReady => checking.(result := Verified, lastVerified := t.openedAt)
    case OpenedReady => checking.(result := Verified, lastChecked := t.closedAt, lastVerified := t.closedAt)
  }

  /**
   * An endpoint is marked Invalid exactly when its socket did not open; a
   * socket that opened marks it Verified even if the handshake then failed.
   */
  lemma AttemptMarks(e: WebFSEndpoint, t: AttemptTimes, a: Attempt)
    ensures Attempted(e, t, a).result == Invalid <==> a == NotOpened
    ensures Attempted(e, t, a).result == Verified <==> a != NotOpened
    ensures a != OpenedReady ==> Attempted(e, t, a).lastChecked == t.started
    ensures Attempted(e, t, a).port == e.port && Attempted(e, t, a).path == e.path
    ensures a == NotOpened ==> Attempted(e, t, a).lastVerified == e.lastVerified
  {
  }

  /** The tried counter after a failure: it wraps to 0 once every endpoint has failed. */
  function NextTried(tried: nat, count: nat): nat
  {
    if tried + 1 == count then 0 else tried + 1
  }

  /** The pause before the next pass: 1 s between failing endpoints, 5 s after a full round or after an opened socket. */
  function RetryDelay(tried: nat, count: nat, a: Attempt): nat
  {
    if a == NotOpened then (if tried + 1 == count then 5000 else 1000) else 5000
  }

  /** The counter after m failures in a row. */
  function TriedAfter(tried: nat, m: nat, count: nat): nat
  {
    if m == 0 then tried else NextTried(TriedAfter(tried, m - 1, count), count)
  }

  /** The pauses of m failures in a row. */
  function FailureDelays(tried: nat, m: nat, count: nat): (ds: seq<nat>)
    ensures |ds| == m
  {
    if m == 0 then [] else FailureDelays(tried, m - 1, count) + [RetryDelay(TriedAfter(tried, m - 1, count), count, NotOpened)]
  }

  /** Within a round the counter counts the failures. */
  lemma {:induction false} TriedCountsFailures(tried: nat, m: nat, count: nat)
    requires tried + m < count
    ensures TriedAfter(tried, m, count) == tried + m
  {
    if m > 0 {
      TriedCountsFailures(tried, m - 1, count);
    }
  }

  /** Once every endpoint has failed the counter is back at 0, so the pattern repeats. */
  lemma RoundWraps(tried: nat, count: nat)
    requires tried < count
    ensures TriedAfter(tried, count - tried, count) == 0
  {
    TriedCountsFailures(tried, count - tried - 1, count);
  }

  /**
   * The backoff rule over a run of failures within a round: every pause is
   * 1 s except the one that completes the round of all endpoints, which is 5 s.
   */
  lemma {:induction false} BackoffRound(tried: nat, m: nat, count: nat)
    requires tried + m <= count
    ensures forall j :: 0 <= j < m ==>
      FailureDelays(tried, m, count)[j] == (if tried + j + 1 == count then 5000 else 1000)
  {
    if m > 0 {
      BackoffRound(tried, m - 1, count);
      TriedCountsFailures(tried, m - 1, count);
      assert FailureDelays(tried, m, count) ==
        FailureDelays(tried, m - 1, count) + [RetryDelay(TriedAfter(tried, m - 1, count), count, NotOpened)];
    }
  }

  /** After a failure that is the latest check, a different endpoint is tried next (when there is one). */
  lemma FailedEndpointNotPickedNext(eps: seq<WebFSEndpoint>, k: nat, t: AttemptTimes)
    requires |eps| > 1 && k < |eps|
    requires forall j :: 0 <= j < |eps| ==> eps[j].lastChecked < t.started
    ensures ConnectIndex(eps[k := Attempted(eps[k], t, NotOpened)]) != k
  {
    var eps' := eps[k := Attempted(eps[k], t, NotOpened)];
    var p := LatestIndex(eps');
    assert eps'[k].lastChecked <= eps'[p].lastChecked;
    assert p == k;
    var other := if k == 0 then 1 else 0;
    assert eps'[other].lastChecked < t.started;
  }

  /** After a pass on an opened socket that is the latest check, the same endpoint is tried next. */
  lemma VerifiedEndpointPickedNext(eps: seq<WebFSEndpoint>, k: nat, t: AttemptTimes, a: Attempt)
    requires k < |eps| && a != NotOpened
    requires forall j :: 0 <= j < |eps| && j != k ==> eps[j].lastChecked < Attempted(eps[k], t, a).lastChecked
    ensures ConnectIndex(eps[k := Attempted(eps[k], t, a)]) == k
  {
    var eps' := eps[k := Attempted(eps[k], t, a)];
    var p := LatestIndex(eps');
    assert eps'[k].lastChecked <= eps'[p].lastChecked;
    assert p == k;
  }

  class WebFSClient {
    var endpoints: seq<WebFSEndpoint>
    /** The index of the current Endpoint. */
    var current: nat
    var enabled: bool
    var connected: bool
    /** endpointsTriedCount of the running loop. */
    var tried: nat
    /** Whether the running loop's token has been cancelled (true when no loop runs). */
    var loopCancelled: bool
    const host: string

    ghost predicate Valid()
      reads this
    {
      |endpoints| > 0 && current < |endpoints| && tried < |endpoints| && enabled == !loopCancelled && !connected
    }

    constructor (host: string)
      ensures Valid() && this.host == host
      ensures |endpoints| == EndpointCount(BasePort, MaxPortSpread)
      ensures forall i :: 0 <= i < |endpoints| ==> endpoints[i] == InitialEndpoint(BasePort, i)
      ensures current == 0 && !enabled && !connected && tried == 0
    {
      this.host := host;
      var eps := BuildEndpoints(BasePort, MaxPortSpread);
      endpoints := eps;
      current := 0;
      enabled := false;
      connected := false;
      tried := 0;
      loopCancelled := true;
    }

    /** Connect: enables auto-connect and starts a new loop, unless already enabled. */
    method Connect()
      requires Valid()
      modifies this
      ensures Valid() && enabled && endpoints == old(endpoints) && current == old(current) && connected == old(connected)
      ensures old(enabled) ==> unchanged(this)
      ensures !old(enabled) ==> !loopCancelled && tried == 0
    {
      if enabled {
        return;
      }
      enabled := true;
      loopCancelled := false;
      tried := 0;
    }

    /** Disconnect: disables auto-connect and cancels the loop, unless not enabled. */
    method Disconnect()
      requires Valid()
      modifies this
      ensures Valid() && !enabled && loopCancelled
      ensures !old(enabled) ==> unchanged(this)
      ensures endpoints == old(endpoints) && current == old(current) && tried == old(tried) && connected == old(connected)
    {
      if !enabled {
        return;
      }
      enabled := false;
      loopCancelled := true;
    }

    /**
     * The Enabled setter: nothing happens when the value is unchanged;
     * otherwise true connects (a new loop, the counter reset) and false
     * disconnects (the loop cancelled).
     */
    method SetEnabled(value: bool)
      requires Valid()
      modifies this
      ensures Valid() && enabled == value
      ensures old(enabled) == value ==> unchanged(this)
      ensures endpoints == old(endpoints) && current == old(current) && connected == old(connected)
      ensures old(enabled) != value && value ==> !loopCancelled && tried == 0
      ensures old(enabled) != value && !value ==> loopCancelled && tried == old(tried)
    {
      if enabled == value {
        return;
      }
      if !value {
        Disconnect();
      } else {
        Connect();
      }
    }

    /**
     * One pass of the connect loop. The loop stops if its token is already
     * cancelled; otherwise it picks an endpoint, stamps it, records the
     * attempt, updates the tried counter and pauses, unless a Disconnect came
     * during the attempt, in which case it stops instead of pausing.
     */
    method Step(t: AttemptTimes, attempt: Attempt, disconnectDuringAttempt: bool) returns (action: LoopAction, raisedConnected: bool)
      requires Valid()
      modifies this
      ensures Valid()
      ensures old(loopCancelled) ==> action == Stop && !raisedConnected && unchanged(this)
      ensures !old(loopCancelled) ==>
        var k := ConnectIndex(old(endpoints));
        current == k &&
        endpoints == old(endpoints)[k := Attempted(old(endpoints)[k], t, attempt)] &&
        tried == (if attempt == NotOpened then NextTried(old(tried), |endpoints|) else old(tried)) &&
        raisedConnected == (attempt == OpenedReady) &&
        loopCancelled == disconnectDuringAttempt && enabled == !disconnectDuringAttempt &&
        action == (if disconnectDuringAttempt then Stop else Delay(RetryDelay(old(tried), |endpoints|, attempt)))
    {
      raisedConnected := false;
      if loopCancelled {
        return Stop, false;
      }
      var k := ConnectIndex(endpoints);
      var e := endpoints[k].(lastChecked := t.started, result := Unknown);
      current := k;
      if attempt != NotOpened {
        e := e.(result := Verified, lastVerified := t.openedAt);
        if attempt == OpenedReady {
          e := e.(lastChecked := t.openedAt, lastVerified := t.openedAt);
          connected := true;
          raisedConnected := true;
          connected := false;
          e := e.(lastChecked := t.closedAt, lastVerified := t.closedAt);
        }
      }
      if disconnectDuringAttempt {
        Disconnect();
      }
      var d: nat;
      if e.result == Unknown {
        e := e.(result := Invalid);
        d := if tried + 1 == |endpoints| then 5000 else 1000;
        tried := if tried + 1 == |endpoints| then 0 else tried + 1;
      } else {
        d := 5000;
      }
      endpoints := endpoints[k := e];
      action := if loopCancelled then Stop else Delay(d);
    }
  }
}
