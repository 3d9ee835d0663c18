/**
 * The dashboard's live-data pipeline, as a state machine driven by the events
 * its callbacks react to: the one-shot snapshot fetch, the token fetched before
 * every connection attempt, the socket's message, error and close events, the
 * reconnect timer, and the effect cleanup that runs when the page unmounts.
 *
 * `Step` says what one event does to the state; `Run` applies a sequence of
 * events, in any order the environment produces; class `LiveView` holds the
 * state in fields and has one method per callback, each proved to perform
 * exactly `Step`.
 */
module LiveFeed {
  import opened JsStrings
  import opened Dashboard

  /**
   * A browser socket's `readyState` as far as the pipeline can observe it:
   * `Live` stands for CONNECTING and OPEN, `Closing` is entered by `close()`,
   * and `Closed` follows the close event.
   */
  datatype ReadyState = Live | Closing | Closed

  /** A socket made by `new WebSocket(url, token)`; the token travels as the subprotocol. */
  datatype Socket = Socket(url: string, subprotocol: string, readyState: ReadyState)

  /**
   * Everything the pipeline's callbacks read or write:
   * `records` and `loading` are the component's two pieces of React state;
   * `ws` is the `let ws` slot, empty until the first socket is created and
   * afterwards holding the latest socket, whatever its state;
   * `timers` counts reconnect timers that are armed and have not fired;
   * `connecting` counts connection attempts still waiting for their token;
   * `fetchPending` is true while the snapshot request is outstanding;
   * `mounted` is false once the effect's cleanup has run.
   */
  datatype ViewState = ViewState(
    records: seq<MarketData>,
    loading: bool,
    ws: Option<Socket>,
    timers: nat,
    connecting: nat,
    fetchPending: bool,
    mounted: bool)

  /**
   * What the environment can do next. The HTTP, WebSocket and JSON layers
   * appear only through these: a fetch's outcome, a token (`None` for
   * `null`/`undefined`), the page's protocol and host at connection time,
   * and a message body that failed to parse (`None`) or parsed to `data`.
   */
  datatype Event =
    | FetchSucceeded(body: seq<MarketData>)
    | FetchFailed
    | TokenReceived(token: Option<string>, protocol: string, host: string)
    | MessageReceived(payload: Option<seq<MarketData>>)
    | SocketErrored
    | SocketClosed
    | TimerFired
    | Unmounted

  /**
   * The state right after mounting: no records, `loading` set, no socket yet,
   * and both the snapshot request and the first connection attempt under way.
   */
  function Mount(): ViewState {
    ViewState([], true, None, 0, 1, true, true)
  }

  /** The socket can still deliver messages. */
  predicate SocketLive(s: ViewState) {
    s.ws.Some? && s.ws.value.readyState == Live
  }

  /** The socket has not yet delivered its close event. */
  predicate SocketOpen(s: ViewState) {
    s.ws.Some? && s.ws.value.readyState != Closed
  }

  /** `if (!token) return;`: `null`, `undefined` and `""` are falsy. */
  predicate Truthy(token: Option<string>) {
    token.Some? && token.value != ""
  }

  /** The separator characters of section 2.2 of RFC 2616, which a token may not hold. */
  const TokenSeparators: string := "()<>@,;:\\\"/[]?={} \t"

  /** A printable ASCII character other than a separator. */
  predicate IsTokenChar(c: char) {
    '!' <= c <= '~' && c !in TokenSeparators
  }

  /**
   * `new WebSocket(url, token)` throws a SyntaxError unless the subprotocol is
   * a token in the sense of section 4.1 of RFC 6455: one or more printable
   * ASCII characters, none of them a separator. A padded base64 token such as
   * `abc==` is refused.
   */
  predicate ValidSubprotocol(t: string) {
    |t| > 0 && forall i :: 0 <= i < |t| ==> IsTokenChar(t[i])
  }

  /** The token gets past `if (!token) return;` and the socket constructor accepts it. */
  predicate Accepted(token: Option<string>) {
    Truthy(token) && ValidSubprotocol(token.value)
  }

  /** Whether event `e` can happen in state `s`. */
  predicate Enabled(s: ViewState, e: Event) {
    match e
    case FetchSucceeded(_) => s.fetchPending
    case FetchFailed => s.fetchPending
    case TokenReceived(_, _, _) => s.connecting > 0
    case MessageReceived(_) => SocketLive(s)
    case SocketErrored => SocketOpen(s)
    case SocketClosed => SocketOpen(s)
    case TimerFired => s.timers > 0
    case Unmounted => s.mounted
  }

  /** `setMarketData`: React ignores it once the component has unmounted. */
  function SetRecords(s: ViewState, records: seq<MarketData>): (t: ViewState)
    ensures t.records == (if s.mounted then records else s.records)
    ensures t.(records := s.records) == s
  {
    if s.mounted then s.(records := records) else s
  }

  /** `setLoading(false)`, likewise ignored after unmounting. */
  function ClearLoading(s: ViewState): (t: ViewState)
    ensures t.loading == (s.loading && !s.mounted)
    ensures t.(loading := s.loading) == s
  {
    if s.mounted then s.(loading := false) else s
  }

  /** What one event does. */
  function Step(s: ViewState, e: Event): ViewState
    requires Enabled(s, e)
  {
    match e
    case FetchSucceeded(body) =>
      ClearLoading(SetRecords(s.(fetchPending := false), body))
    case FetchFailed =>
      ClearLoading(s.(fetchPending := false))
    case TokenReceived(token, protocol, host) =>
      var waited := s.(connecting := s.connecting - 1);
      // a falsy token returns early; a refused one makes the constructor throw,
      // which rejects `connectWebSocket`'s promise before `ws` is reassigned
      if !Accepted(token) then waited
      else waited.(ws := Some(Socket(WebSocketUrl(protocol, host), token.value, Live)))
    case MessageReceived(payload) =>
      if payload.Some? then SetRecords(s, payload.value) else s
    case SocketErrored =>
      s
    case SocketClosed =>
      // `onclose` arms a `setTimeout` that runs `connectWebSocket` again
      s.(ws := Some(s.ws.value.(readyState := Closed)), timers := s.timers + 1)
    case TimerFired =>
      s.(timers := s.timers - 1, connecting := s.connecting + 1)
    case Unmounted =>
      // `if (ws) ws.close()`: a no-op on a socket already closing or closed
      var gone := s.(mounted := false);
      if SocketLive(s) then gone.(ws := Some(s.ws.value.(readyState := Closing))) else gone
  }

  /**
   * Connection attempts in progress: an open socket, an armed timer and a
   * token request each stand for one.
   */
  function Attempts(s: ViewState): nat {
    (if SocketOpen(s) then 1 else 0) + s.timers + s.connecting
  }

  /**
   * The invariant every reachable state keeps: at most one connection attempt
   * is in progress, so there is never a second socket and never a second
   * armed timer; and `loading` is still set while the snapshot is outstanding.
   */
  predicate Inv(s: ViewState) {
    Attempts(s) <= 1 && (s.fetchPending ==> s.loading)
  }

  /** No attempt in progress: nothing will ever open a socket again. */
  predicate Stalled(s: ViewState) {
    Attempts(s) == 0
  }

  /** The record list an event carries, if any. */
  function Payload(e: Event): Option<seq<MarketData>> {
    match e
    case FetchSucceeded(body) => Some(body)
    case MessageReceived(payload) => payload
    case _ => None
  }

  /** The record list carried by the last event of `evs` that carries one. */
  function LastPayload(evs: seq<Event>): Option<seq<MarketData>>
    decreases |evs|
  {
    if evs == [] then None
    else
      match LastPayload(evs[1..])
      case Some(p) => Some(p)
      case None => Payload(evs[0])
  }

  /** Every event of `evs` can happen when its turn comes. */
  predicate Admissible(s: ViewState, evs: seq<Event>)
    decreases |evs|
  {
    evs == [] || (Enabled(s, evs[0]) && Admissible(Step(s, evs[0]), evs[1..]))
  }

  /** The state after the events `evs`, in order. */
  function Run(s: ViewState, evs: seq<Event>): ViewState
    requires Admissible(s, evs)
    decreases |evs|
  {
    if evs == [] then s else Run(Step(s, evs[0]), evs[1..])
  }

  /** How many snapshot outcomes `evs` holds. */
  function FetchOutcomes(evs: seq<Event>): nat
    decreases |evs|
  {
    if evs == [] then 0
    else (if evs[0].FetchSucceeded? || evs[0].FetchFailed? then 1 else 0) + FetchOutcomes(evs[1..])
  }

  /** Mounting starts exactly one connection attempt, with `loading` set and no records. */
  lemma MountValid()
    ensures Inv(Mount()) && Attempts(Mount()) == 1
    ensures Mount().loading && Mount().records == [] && Mount().ws == None
  {
  }

  /** Every event keeps the invariant. */
  lemma StepPreservesInv(s: ViewState, e: Event)
    requires Inv(s) && Enabled(s, e)
    ensures Inv(Step(s, e))
  {
  }

  /**
   * Records change only wholesale: after an event that carries a list, while
   * mounted, the records are exactly that list (an empty list empties the
   * view); after any other event they are unchanged.
   */
  lemma StepReplacesRecords(s: ViewState, e: Event)
    requires Enabled(s, e)
    ensures Step(s, e).records == if s.mounted && Payload(e).Some? then Payload(e).value else s.records
  {
  }

  /**
   * `loading` only goes from true to false, and only a snapshot outcome,
   * success or failure, while mounted, changes it; a stream message never does.
   */
  lemma StepLoading(s: ViewState, e: Event)
    requires Inv(s) && Enabled(s, e)
    ensures !s.loading ==> !Step(s, e).loading
    ensures Step(s, e).loading != s.loading <==> s.mounted && (e.FetchSucceeded? || e.FetchFailed?)
  {
  }

  /**
   * The close event, whatever its cause, arms exactly one reconnect timer,
   * and no other event arms one.
   */
  lemma StepArmsTimerOnlyOnClose(s: ViewState, e: Event)
    requires Enabled(s, e)
    ensures Step(s, e).timers > s.timers <==> e.SocketClosed?
    ensures e.SocketClosed? ==> Step(s, e).timers == s.timers + 1
  {
  }

  /**
   * A socket error only logs, and a message that fails to parse is dropped:
   * neither changes anything, and in particular neither closes the socket.
   */
  lemma StepHarmlessEvents(s: ViewState)
    requires SocketLive(s)
    ensures Step(s, SocketErrored) == s
    ensures Step(s, MessageReceived(None)) == s
    ensures SocketLive(Step(s, MessageReceived(None)))
  {
  }

  /**
   * A token decides whether a socket opens: a truthy one that the socket
   * constructor accepts opens a live socket to the page's own host, secure
   * exactly when the page is served over `https:`, presenting the token; a
   * falsy or refused one opens nothing and arms no timer, leaving no attempt
   * in progress at all.
   */
  lemma StepToken(s: ViewState, token: Option<string>, protocol: string, host: string)
    requires Inv(s) && s.connecting > 0
    ensures var t := Step(s, TokenReceived(token, protocol, host));
      SocketLive(t) <==> Truthy(token) && ValidSubprotocol(token.value)
    ensures var t := Step(s, TokenReceived(token, protocol, host));
      Accepted(token) ==>
        t.ws.value.subprotocol == token.value &&
        SocketEndpoint(t.ws.value.url) == Some(Endpoint(protocol == "https:", host))
    ensures var t := Step(s, TokenReceived(token, protocol, host));
      !Accepted(token) ==> Stalled(t) && t.ws == s.ws && t.timers == 0
  {
    WebSocketUrlRoundTrip(protocol, host);
  }

  /**
   * A truthy token holding `=`, as padded base64 does, is refused by the socket
   * constructor: no socket opens, and the stream is down for good.
   */
  lemma PaddedTokenStalls(s: ViewState, v: string, protocol: string, host: string)
    requires Inv(s) && s.connecting > 0
    requires '=' in v
    ensures Truthy(Some(v)) && !ValidSubprotocol(v)
    ensures var t := Step(s, TokenReceived(Some(v), protocol, host));
      !SocketLive(t) && Stalled(t)
  {
    var i :| 0 <= i < |v| && v[i] == '=';
    assert TokenSeparators[14] == '=';
    assert !IsTokenChar(v[i]);
  }

  /**
   * Unmounting cancels neither an armed timer nor a pending token request.
   * Closing a live socket only starts its close; the close event that
   * follows arms one more reconnect timer although the page is gone.
   */
  lemma StepUnmount(s: ViewState)
    requires Inv(s) && s.mounted
    ensures var t := Step(s, Unmounted);
      !t.mounted && t.timers == s.timers && t.connecting == s.connecting &&
      t.records == s.records && t.loading == s.loading
    ensures var t := Step(s, Unmounted);
      !SocketLive(s) ==> t.ws == s.ws
    ensures var t := Step(s, Unmounted);
      SocketLive(s) ==>
        !SocketLive(t) && Enabled(t, SocketClosed) &&
        !Step(t, SocketClosed).mounted && Step(t, SocketClosed).timers == s.timers + 1
  {
  }

  /**
   * After unmounting, an armed timer still fires and an accepted token still
   * opens a fresh live socket: the pipeline keeps reconnecting after the page
   * has gone away.
   */
  lemma ReconnectAfterUnmount(s: ViewState, token: Option<string>, protocol: string, host: string)
    requires Inv(s) && !s.mounted && s.timers > 0 && Accepted(token)
    ensures Admissible(s, [TimerFired, TokenReceived(token, protocol, host)])
    ensures var t := Run(s, [TimerFired, TokenReceived(token, protocol, host)]);
      !t.mounted && SocketLive(t) && t.ws.value.url == WebSocketUrl(protocol, host)
  {
    var connect := TokenReceived(token, protocol, host);
    var evs := [TimerFired, connect];
    var f := Step(s, TimerFired);
    var t := Step(f, connect);
    assert evs[1..] == [connect] && [connect][1..] == [];
    assert Admissible(f, [connect]);
    assert Run(s, evs) == Run(f, [connect]) == Run(t, []) == t;
  }

  /** Every sequence of events keeps the invariant. */
  lemma {:induction false} RunPreservesInv(s: ViewState, evs: seq<Event>)
    requires Inv(s) && Admissible(s, evs)
    ensures Inv(Run(s, evs))
    decreases |evs|
  {
    if evs != [] {
      StepPreservesInv(s, evs[0]);
      RunPreservesInv(Step(s, evs[0]), evs[1..]);
    }
  }

  /**
   * In every state reachable from mounting there is at most one reconnect
   * timer armed, and at most one connection attempt of any kind.
   */
  lemma ReachableAtMostOneAttempt(evs: seq<Event>)
    requires Admissible(Mount(), evs)
    ensures Run(Mount(), evs).timers <= 1
    ensures Attempts(Run(Mount(), evs)) <= 1
  {
    MountValid();
    RunPreservesInv(Mount(), evs);
  }

  /** Once `loading` is false it stays false, whatever happens. */
  lemma {:induction false} LoadingNeverReturns(s: ViewState, evs: seq<Event>)
    requires Inv(s) && Admissible(s, evs) && !s.loading
    ensures !Run(s, evs).loading
    decreases |evs|
  {
    if evs != [] {
      StepLoading(s, evs[0]);
      StepPreservesInv(s, evs[0]);
      LoadingNeverReturns(Step(s, evs[0]), evs[1..]);
    }
  }

  /**
   * While the page stays mounted, the records are always exactly the list
   * carried by the latest arrival, from the fetch or from the stream, never a
   * merge of two; with no arrival they are what they were.
   */
  lemma {:induction false} RunReplacesRecords(s: ViewState, evs: seq<Event>)
    requires s.mounted && Admissible(s, evs)
    requires forall i :: 0 <= i < |evs| ==> !evs[i].Unmounted?
    ensures Run(s, evs).records == LastPayload(evs).GetOr(s.records)
    decreases |evs|
  {
    if evs != [] {
      var t := Step(s, evs[0]);
      StepReplacesRecords(s, evs[0]);
      assert t.mounted by { assert !evs[0].Unmounted?; }
      assert forall i :: 0 <= i < |evs[1..]| ==> !evs[1..][i].Unmounted? by {
        forall i | 0 <= i < |evs[1..]| ensures !evs[1..][i].Unmounted? {
          assert evs[1..][i] == evs[i + 1];
        }
      }
      RunReplacesRecords(t, evs[1..]);
    }
  }

  /** Once unmounted, nothing changes the records or `loading` any more. */
  lemma {:induction false} UnmountedViewFrozen(s: ViewState, evs: seq<Event>)
    requires !s.mounted && Admissible(s, evs)
    ensures Run(s, evs).records == s.records && Run(s, evs).loading == s.loading
    ensures !Run(s, evs).mounted
    decreases |evs|
  {
    if evs != [] {
      var t := Step(s, evs[0]);
      assert !t.mounted && t.records == s.records && t.loading == s.loading;
      UnmountedViewFrozen(t, evs[1..]);
    }
  }

  /**
   * Once no attempt is in progress (after a falsy or refused token), no event can open a
   * socket or arm a timer again: the stream stays down for good.
   */
  lemma {:induction false} StalledStaysStalled(s: ViewState, evs: seq<Event>)
    requires Stalled(s) && Admissible(s, evs)
    ensures Stalled(Run(s, evs)) && Run(s, evs).ws == s.ws
    decreases |evs|
  {
    if evs != [] {
      var t := Step(s, evs[0]);
      assert Stalled(t) && t.ws == s.ws;
      StalledStaysStalled(t, evs[1..]);
    }
  }

  /** The snapshot is fetched once and never retried: at most one outcome ever arrives. */
  lemma {:induction false} FetchAtMostOnce(s: ViewState, evs: seq<Event>)
    requires Admissible(s, evs)
    ensures FetchOutcomes(evs) <= if s.fetchPending then 1 else 0
    decreases |evs|
  {
    if evs != [] {
      var t := Step(s, evs[0]);
      FetchAtMostOnce(t, evs[1..]);
      assert (evs[0].FetchSucceeded? || evs[0].FetchFailed?) ==> s.fetchPending && !t.fetchPending;
      assert t.fetchPending ==> s.fetchPending;
    }
  }

  /**
   * The mounted dashboard page. Its fields are the state of `ViewState`; each
   * method is one callback of the effect and performs exactly `Step`.
   */
  class LiveView {
    var records: seq<MarketData>
    var loading: bool
    var ws: Option<Socket>
    var timers: nat
    var connecting: nat
    var fetchPending: bool
    var mounted: bool

    function State(): ViewState
      reads this
    {
      ViewState(records, loading, ws, timers, connecting, fetchPending, mounted)
    }

    ghost predicate Valid()
      reads this
    {
      Inv(State())
    }

    /** Mounting: state initialised, then `fetchData()` and `connectWebSocket()` start. */
    constructor ()
      ensures Valid() && State() == Mount()
    {
      records, loading := [], true;
      ws, timers := None, 0;
      connecting, fetchPending := 1, true;
      mounted := true;
      MountValid();
    }

    /** `fetchData` resolved: the records become the response body and loading ends. */
    method OnFetchSuccess(body: seq<MarketData>)
      requires Valid() && fetchPending
      modifies this
      ensures Valid() && State() == Step(old(State()), FetchSucceeded(body))
      ensures old(mounted) ==> records == body && !loading
    {
      ghost var before := State();
      fetchPending := false;
      if mounted {
        records := body;
        loading := false;
      }
      StepPreservesInv(before, FetchSucceeded(body));
    }

    /** `fetchData` failed: it is only logged; the records stay and loading ends. */
    method OnFetchError()
      requires Valid() && fetchPending
      modifies this
      ensures Valid() && State() == Step(old(State()), FetchFailed)
      ensures records == old(records) && (old(mounted) ==> !loading)
    {
      ghost var before := State();
      fetchPending := false;
      if mounted {
        loading := false;
      }
      StepPreservesInv(before, FetchFailed);
    }

    /**
     * `connectWebSocket` got its token: a falsy one ends the attempt, and so
     * does one the socket constructor refuses; any other makes a new socket
     * for the page's current protocol and host.
     */
    method OnToken(token: Option<string>, protocol: string, host: string)
      requires Valid() && connecting > 0
      modifies this
      ensures Valid() && State() == Step(old(State()), TokenReceived(token, protocol, host))
      ensures timers == old(timers)
      ensures SocketLive(State()) <==> Accepted(token)
    {
      ghost var before := State();
      connecting := connecting - 1;
      if Truthy(token) && ValidSubprotocol(token.value) {
        var url := WebSocketUrl(protocol, host);
        ws := Some(Socket(url, token.value, Live));
      }
      StepPreservesInv(before, TokenReceived(token, protocol, host));
      StepToken(before, token, protocol, host);
    }

    /** `ws.onmessage`: a parsed body replaces the records; a malformed one is logged and dropped. */
    method OnMessage(payload: Option<seq<MarketData>>)
      requires Valid() && SocketLive(State())
      modifies this
      ensures Valid() && State() == Step(old(State()), MessageReceived(payload))
      ensures loading == old(loading) && ws == old(ws)
    {
      ghost var before := State();
      if payload.Some? && mounted {
        records := payload.value;
      }
      StepPreservesInv(before, MessageReceived(payload));
    }

    /** `ws.onerror`: only logs, so it has nothing to modify. */
    method OnError()
      requires Valid() && SocketOpen(State())
      ensures Valid() && State() == Step(old(State()), SocketErrored)
    {
    }

    /** `ws.onclose`: arms a reconnect timer. */
    method OnClose()
      requires Valid() && SocketOpen(State())
      modifies this
      ensures Valid() && State() == Step(old(State()), SocketClosed)
      ensures timers == old(timers) + 1 && records == old(records) && loading == old(loading)
    {
      ghost var before := State();
      ws := Some(ws.value.(readyState := Closed));
      timers := timers + 1;
      StepPreservesInv(before, SocketClosed);
    }

    /** A reconnect timer fired: `connectWebSocket` runs again and asks for a fresh token. */
    method OnTimer()
      requires Valid() && timers > 0
      modifies this
      ensures Valid() && State() == Step(old(State()), TimerFired)
      ensures timers == old(timers) - 1 && connecting == old(connecting) + 1
    {
      ghost var before := State();
      timers := timers - 1;
      connecting := connecting + 1;
      StepPreservesInv(before, TimerFired);
    }

    /** The effect's cleanup: close the current socket if there is one; no timer is cancelled. */
    method Teardown()
      requires Valid() && mounted
      modifies this
      ensures Valid() && State() == Step(old(State()), Unmounted)
      ensures timers == old(timers) && connecting == old(connecting)
    {
      ghost var before := State();
      mounted := false;
      if ws.Some? && ws.value.readyState == Live {
        ws := Some(ws.value.(readyState := Closing));
      }
      StepPreservesInv(before, Unmounted);
    }
  }
}
