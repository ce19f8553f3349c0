/** The Wi-Fi connection state machine of `NetworkManager`: a four-state
    machine stepped once per main-loop pass, with the link status and the
    clock as inputs. */
module Network {
  import opened Timing

  datatype WifiState = Disconnected | Connecting | Connected | Failed

  /** Both delays are 30 seconds. */
  const CONNECTION_TIMEOUT: U32 := 30000
  const RETRY_DELAY: U32 := 30000

  /** The fields `update` reads and writes. */
  datatype Link = Link(state: WifiState, connectionStartTime: U32, lastRetryTime: U32)

  /** One pass of `update` after `begin`, given the time and whether the
      radio reports `WL_CONNECTED`. */
  function Step(l: Link, now: U32, wifiUp: bool): (r: Link)
    // Connected is entered only from Connecting, when the radio reports the link.
    ensures r.state == Connected && l.state != Connected <==> l.state == Connecting && wifiUp
    // Connecting gives up exactly when the timeout has passed without a link,
    // and stamps the retry time.
    ensures r.state == Failed && l.state != Failed <==>
              l.state == Connecting && !wifiUp && Elapsed(now, l.connectionStartTime) > CONNECTION_TIMEOUT
    ensures r.state == Failed && l.state != Failed ==> r.lastRetryTime == now
    // A dropped link, or an expired retry delay, starts a fresh attempt.
    ensures r.state == Connecting && l.state != Connecting <==>
              (l.state == Connected && !wifiUp) ||
              (l.state == Failed && Elapsed(now, l.lastRetryTime) > RETRY_DELAY)
    ensures r.state == Connecting && l.state != Connecting ==> r.connectionStartTime == now
    // Disconnected is neither left nor entered.
    ensures r.state == Disconnected <==> l.state == Disconnected
    // A step that changes no state changes nothing.
    ensures r.state == l.state ==> r == l
  {
    match l.state
    case Connecting =>
      if wifiUp then l.(state := Connected)
      else if Elapsed(now, l.connectionStartTime) > CONNECTION_TIMEOUT then
        l.(state := Failed, lastRetryTime := now)
      else l
    case Connected =>
      if !wifiUp then l.(state := Connecting, connectionStartTime := now) else l
    case Failed =>
      if Elapsed(now, l.lastRetryTime) > RETRY_DELAY then
        l.(state := Connecting, connectionStartTime := now)
      else l
    case Disconnected => l
  }

  /** A sequence of `update` passes: each observation is (now, radio up). */
  function Run(l: Link, obs: seq<(U32, bool)>): Link
    decreases |obs|
  {
    if obs == [] then l else Run(Step(l, obs[0].0, obs[0].1), obs[1..])
  }

  /** While the radio never reports a link, the machine never reaches
      Connected (unless it started there). */
  lemma {:induction false} NoLinkNeverConnects(l: Link, obs: seq<(U32, bool)>)
    requires l.state != Connected
    requires forall i :: 0 <= i < |obs| ==> !obs[i].1
    ensures Run(l, obs).state != Connected
    decreases |obs|
  {
    if obs != [] {
      NoLinkNeverConnects(Step(l, obs[0].0, obs[0].1), obs[1..]);
    }
  }

  /** After `begin` the machine never falls back to Disconnected, so
      `isInitialized` and "not Disconnected" stay in step. */
  lemma {:induction false} RunStaysStarted(l: Link, obs: seq<(U32, bool)>)
    ensures Run(l, obs).state == Disconnected <==> l.state == Disconnected
    decreases |obs|
  {
    if obs != [] {
      RunStaysStarted(Step(l, obs[0].0, obs[0].1), obs[1..]);
    }
  }

  /** A connection attempt that sees no link for longer than the timeout
      fails, and a retry follows once the retry delay has also passed. */
  lemma TimeoutThenRetry(start: U32, t1: U32, t2: U32)
    requires Elapsed(t1, start) > CONNECTION_TIMEOUT
    requires Elapsed(t2, t1) > RETRY_DELAY
    ensures var l1 := Step(Link(Connecting, start, 0), t1, false);
            l1 == Link(Failed, start, t1) &&
            Step(l1, t2, false) == Link(Connecting, t2, t1)
  {
  }

  class NetworkManager {
    var state: WifiState
    var connectionStartTime: U32
    var lastRetryTime: U32
    var initialized: bool

    ghost predicate Valid()
      reads this
    {
      initialized <==> state != Disconnected
    }

    function CurrentLink(): Link
      reads this
    {
      Link(state, connectionStartTime, lastRetryTime)
    }

    constructor()
      ensures Valid()
      ensures state == Disconnected && connectionStartTime == 0 && lastRetryTime == 0
      ensures !initialized
    {
      state := Disconnected;
      connectionStartTime := 0;
      lastRetryTime := 0;
      initialized := false;
    }

    /** Starts the radio once; later calls do nothing. */
    method Begin(now: U32)
      requires Valid()
      modifies this
      ensures Valid()
      ensures old(initialized) ==> unchanged(this)
      ensures !old(initialized) ==>
                state == Connecting && connectionStartTime == now &&
                lastRetryTime == old(lastRetryTime) && initialized
    {
      if initialized {
        return;
      }
      state := Connecting;
      connectionStartTime := now;
      initialized := true;
    }

    method Update(now: U32, wifiUp: bool)
      requires Valid()
      modifies this
      ensures Valid()
      ensures initialized == old(initialized)
      ensures !initialized ==> unchanged(this)
      ensures initialized ==> CurrentLink() == Step(old(CurrentLink()), now, wifiUp)
    {
      if !initialized {
        return;
      }
      match state
      case Connecting =>
        if wifiUp {
          state := Connected;
        } else if Elapsed(now, connectionStartTime) > CONNECTION_TIMEOUT {
          state := Failed;
          lastRetryTime := now;
        }
      case Connected =>
        if !wifiUp {
          state := Connecting;
          connectionStartTime := now;
        }
      case Failed =>
        if Elapsed(now, lastRetryTime) > RETRY_DELAY {
          state := Connecting;
          connectionStartTime := now;
        }
      case Disconnected =>
    }

    predicate IsConnected()
      reads this
    {
      state == Connected
    }

    /** The address shown to users; the radio's address is an input. */
    function GetIP(localIP: string): (ip: string)
      reads this
      ensures IsConnected() ==> ip == localIP
      ensures !IsConnected() ==> ip == "Not connected"
    {
      if IsConnected() then localIP else "Not connected"
    }

    /** The signal strength; the radio's reading is an input. */
    function GetRSSI(rssi: int): (r: int)
      reads this
      ensures IsConnected() ==> r == rssi
      ensures !IsConnected() ==> r == 0
    {
      if IsConnected() then rssi else 0
    }
  }
}
