/**
 * The Wi-Fi station event handler as the object it is in the firmware: the
 * retry counter and the two event-group bits are mutable state that each
 * handler call updates in place. Every call is proved to perform exactly
 * one `Step` of the value-level model.
 */
module StationHandler {
  import opened StationModel

  class WifiEventHandler {
    /** The configured maximum number of retries (a build-time constant). */
    const maxRetry: nat
    /** Retries issued since start or since the last acquired address. */
    var retryNum: nat
    /** WIFI_CONNECTED_BIT of the event group. */
    var connectedBit: bool
    /** WIFI_FAIL_BIT of the event group. */
    var failBit: bool
    /** How many times `esp_wifi_connect` has been called. */
    ghost var connectCalls: nat

    /** The object invariant: the counter never passes the maximum. */
    ghost predicate Valid()
      reads this
    {
      retryNum <= maxRetry
    }

    /** The abstract value of this handler. */
    ghost function State(): Station
      reads this
    {
      Station(retryNum, connectedBit, failBit, connectCalls)
    }

    /** Counter initialised to 0 and a freshly created, all-clear event group. */
    constructor (maxRetry: nat)
      ensures Valid()
      ensures this.maxRetry == maxRetry
      ensures State() == Fresh
    {
      this.maxRetry := maxRetry;
      retryNum := 0;
      connectedBit := false;
      failBit := false;
      connectCalls := 0;
    }

    /** One delivery of an event to the handler. */
    method Handle(e: Event)
      requires Valid()
      modifies this
      ensures Valid()
      ensures State() == Step(maxRetry, old(State()), e)
      // STA_START: one connect call, nothing else changes.
      ensures e == StaStart ==>
        connectCalls == old(connectCalls) + 1 && retryNum == old(retryNum)
        && connectedBit == old(connectedBit) && failBit == old(failBit)
      // Disconnect below the limit: one connect call, the counter goes up by one, the bits stay.
      ensures e == StaDisconnected && old(retryNum) < maxRetry ==>
        connectCalls == old(connectCalls) + 1 && retryNum == old(retryNum) + 1
        && connectedBit == old(connectedBit) && failBit == old(failBit)
      // Disconnect at the limit: no connect call, FAIL is set, counter and CONNECTED stay.
      ensures e == StaDisconnected && old(retryNum) == maxRetry ==>
        connectCalls == old(connectCalls) && retryNum == old(retryNum)
        && connectedBit == old(connectedBit) && failBit
      // Address acquired: counter back to 0, CONNECTED set, FAIL kept, no connect call.
      ensures e.GotIp? ==>
        connectCalls == old(connectCalls) && retryNum == 0
        && connectedBit && failBit == old(failBit)
      // Any other event: no effect at all.
      ensures e == Other ==> State() == old(State())
      // Bits are only ever set.
      ensures old(connectedBit) ==> connectedBit
      ensures old(failBit) ==> failBit
    {
      match e
      case StaStart =>
        connectCalls := connectCalls + 1;
      case StaDisconnected =>
        if retryNum < maxRetry {
          connectCalls := connectCalls + 1;
          retryNum := retryNum + 1;
        } else {
          failBit := true;
        }
      case GotIp(_) =>
        retryNum := 0;
        connectedBit := true;
      case Other =>
    }

    /**
     * The waiting caller's decision on the bits it reads. The wait does not
     * clear the bits, so reading them changes nothing.
     */
    method ReadOutcome() returns (o: Outcome)
      ensures o == Connected <==> connectedBit
      ensures o == Failed <==> !connectedBit && failBit
      ensures o == Unexpected <==> !connectedBit && !failBit
    {
      var bits := EventBits(connectedBit, failBit);
      o := Decide(bits);
    }
  }

  /**
   * STA_START then four disconnects with a maximum of three retries: the
   * fourth disconnect finds the budget spent and the caller is told the
   * connection failed.
   */
  method FailScenario() returns (o: Outcome, retries: nat)
    ensures o == Failed && retries == 3
  {
    var h := new WifiEventHandler(3);
    h.Handle(StaStart);
    h.Handle(StaDisconnected);
    h.Handle(StaDisconnected);
    h.Handle(StaDisconnected);
    h.Handle(StaDisconnected);
    assert h.connectCalls == 4;
    o := h.ReadOutcome();
    retries := h.retryNum;
  }

  /**
   * STA_START, one disconnect, then an address: the counter is back at 0 and
   * the caller is told it is connected.
   */
  method ConnectScenario(ip: Ipv4) returns (o: Outcome, retries: nat)
    ensures o == Connected && retries == 0
  {
    var h := new WifiEventHandler(3);
    h.Handle(StaStart);
    h.Handle(StaDisconnected);
    h.Handle(GotIp(ip));
    assert h.connectCalls == 2 && !h.failBit;
    o := h.ReadOutcome();
    retries := h.retryNum;
  }
}
