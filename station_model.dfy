/**
 * Value-level model of the Wi-Fi station event handler: the events it
 * receives, the state it keeps (retry counter, the two event-group bits and
 * the number of `esp_wifi_connect` calls it has issued), one handler step,
 * a run over a sequence of events, and the waiting caller's decision on the
 * bits it is woken with.
 */
module StationModel {

  /** An IPv4 address as the stack reports it; the handler only logs it. */
  type Ipv4 = bv32

  /**
   * What the handler can be called with. It is registered for every
   * WIFI_EVENT id and for IP_EVENT_STA_GOT_IP; `Other` stands for every
   * WIFI_EVENT id other than STA_START and STA_DISCONNECTED.
   */
  datatype Event = StaStart | StaDisconnected | GotIp(ip: Ipv4) | Other

  /**
   * The handler's observable state: the retry counter, the CONNECTED and
   * FAIL bits of the event group, and how many connect calls were issued.
   */
  datatype Station = Station(retryNum: nat, connectedBit: bool, failBit: bool, connects: nat)
  {
    /** The event-group word a waiter reads in this state. */
    function Bits(): (b: bv32)
    {
      EventBits(connectedBit, failBit)
    }
  }

  /** State before the first event: counter 0, freshly created event group. */
  const Fresh := Station(0, false, false, 0)

  /** Bit positions in the event group: BIT0 and BIT1. */
  const WifiConnectedBit: bv32 := 1
  const WifiFailBit: bv32 := 2

  /** The event-group word that holds the two flags. */
  function EventBits(connected: bool, fail: bool): (b: bv32)
    ensures ((b & WifiConnectedBit) != 0) == connected
    ensures ((b & WifiFailBit) != 0) == fail
    ensures (b & !(WifiConnectedBit | WifiFailBit)) == 0
  {
    (if connected then WifiConnectedBit else 0) | (if fail then WifiFailBit else 0)
  }

  /**
   * One call of the handler. STA_START issues a connect; a disconnect
   * retries while the counter is below the maximum and latches FAIL
   * otherwise; an acquired address resets the counter and latches
   * CONNECTED; anything else changes nothing.
   */
  function Step(maxRetry: nat, s: Station, e: Event): (r: Station)
    ensures s.retryNum <= maxRetry ==> r.retryNum <= maxRetry
    ensures s.connectedBit ==> r.connectedBit
    ensures s.failBit ==> r.failBit
    ensures s.connects <= r.connects <= s.connects + 1
    ensures !s.failBit && r.failBit ==> e == StaDisconnected && s.retryNum >= maxRetry
    ensures !s.connectedBit && r.connectedBit ==> e.GotIp?
  {
    match e
    case StaStart => s.(connects := s.connects + 1)
    case StaDisconnected =>
      if s.retryNum < maxRetry then s.(retryNum := s.retryNum + 1, connects := s.connects + 1)
      else s.(failBit := true)
    case GotIp(_) => s.(retryNum := 0, connectedBit := true)
    case Other => s
  }

  /**
   * The handler applied to events in delivery order, one at a time. From a
   * counter within the maximum (the fresh state's 0 in particular) the
   * counter stays within it, because it is only incremented while strictly
   * below.
   */
  function Run(maxRetry: nat, s: Station, evs: seq<Event>): (r: Station)
    ensures s.retryNum <= maxRetry ==> r.retryNum <= maxRetry
    ensures s.connectedBit ==> r.connectedBit
    ensures s.failBit ==> r.failBit
    ensures s.connects <= r.connects <= s.connects + |evs|
    decreases |evs|
  {
    if evs == [] then s else Run(maxRetry, Step(maxRetry, s, evs[0]), evs[1..])
  }

  /** `k` disconnect events in a row. */
  function Disconnects(k: nat): (d: seq<Event>)
  {
    seq(k, _ => StaDisconnected)
  }

  /** No event of the sequence carries an acquired address. */
  predicate NoAddress(evs: seq<Event>)
  {
    forall i :: 0 <= i < |evs| ==> !evs[i].GotIp?
  }

  /** What the waiting caller concludes from the bits it was woken with. */
  datatype Outcome = Connected | Failed | Unexpected

  /**
   * CONNECTED decides the outcome whatever else is set; FAIL counts only
   * without it; and the unexpected-event branch is reached exactly when
   * neither bit would have released the wait.
   */
  function Decide(bits: bv32): (r: Outcome)
    ensures (bits & WifiConnectedBit) != 0 ==> r == Connected
    ensures r == Failed <==> (bits & WifiConnectedBit) == 0 && (bits & WifiFailBit) != 0
    ensures r == Unexpected <==> !WaitReleased(bits)
  {
    if (bits & WifiConnectedBit) != 0 then Connected
    else if (bits & WifiFailBit) != 0 then Failed
    else Unexpected
  }

  /**
   * The wait on CONNECTED | FAIL with wait-for-all false is released: one
   * of the two bits is enough, and no other bit of the word matters.
   */
  predicate WaitReleased(bits: bv32): (released: bool)
    ensures released <==> (bits & WifiConnectedBit) != 0 || (bits & WifiFailBit) != 0
  {
    (bits & (WifiConnectedBit | WifiFailBit)) != 0
  }

  // ---------------------------------------------------------------------
  // Lemmas about runs

  lemma {:induction false} RunAppend(m: nat, s: Station, a: seq<Event>, b: seq<Event>)
    ensures Run(m, s, a + b) == Run(m, Run(m, s, a), b)
    decreases |a|
  {
    if a == [] {
      assert a + b == b;
    } else {
      assert (a + b)[0] == a[0];
      assert (a + b)[1..] == a[1..] + b;
      RunAppend(m, Step(m, s, a[0]), a[1..], b);
    }
  }

  /** Helper: lets the last disconnect of a run be split off from the others. */
  lemma DisconnectsSplit(a: nat, b: nat)
    ensures Disconnects(a + b) == Disconnects(a) + Disconnects(b)
  {
  }

  /**
   * Below the limit, every disconnect issues one connect and bumps the
   * counter; neither bit moves.
   */
  lemma {:induction false} RetriesBelowLimit(m: nat, s: Station, k: nat)
    requires s.retryNum + k <= m
    ensures Run(m, s, Disconnects(k)) == s.(retryNum := s.retryNum + k, connects := s.connects + k)
    decreases k
  {
    if k > 0 {
      var d := Disconnects(k);
      assert d[0] == StaDisconnected;
      assert d[1..] == Disconnects(k - 1);
      RetriesBelowLimit(m, Step(m, s, StaDisconnected), k - 1);
    }
  }

  /**
   * At the limit, any number of further disconnects only latch FAIL: no
   * connect is issued and the counter stays where it is.
   */
  lemma {:induction false} DisconnectsAtLimit(m: nat, s: Station, k: nat)
    requires s.retryNum == m && k >= 1
    ensures Run(m, s, Disconnects(k)) == s.(failBit := true)
    decreases k
  {
    var d := Disconnects(k);
    assert d[0] == StaDisconnected;
    assert d[1..] == Disconnects(k - 1);
    if k > 1 {
      DisconnectsAtLimit(m, Step(m, s, StaDisconnected), k - 1);
    }
  }

  /**
   * With maximum `n`: STA_START followed by n + 1 disconnects ends with
   * FAIL alone set, the counter at n, n + 1 connect calls, and the caller
   * told the connection failed.
   */
  lemma ExhaustionFails(n: nat)
    ensures Run(n, Fresh, [StaStart] + Disconnects(n + 1)) == Station(n, false, true, n + 1)
    ensures Decide(Run(n, Fresh, [StaStart] + Disconnects(n + 1)).Bits()) == Failed
  {
    var started := Station(0, false, false, 1);
    RunAppend(n, Fresh, [StaStart], Disconnects(n + 1));
    assert Run(n, Fresh, [StaStart]) == started by {
      assert [StaStart][1..] == [];
    }
    DisconnectsSplit(n, 1);
    RunAppend(n, started, Disconnects(n), Disconnects(1));
    RetriesBelowLimit(n, started, n);
    DisconnectsAtLimit(n, Station(n, false, false, n + 1), 1);
  }

  /**
   * With maximum `n` and `k <= n` disconnects before the address arrives:
   * CONNECTED alone is set, the counter is back at 0, k + 1 connect calls
   * were issued, and the caller is told it is connected.
   */
  lemma ConnectsWithinBudget(n: nat, k: nat, ip: Ipv4)
    requires k <= n
    ensures Run(n, Fresh, [StaStart] + Disconnects(k) + [GotIp(ip)]) == Station(0, true, false, k + 1)
    ensures Decide(Run(n, Fresh, [StaStart] + Disconnects(k) + [GotIp(ip)]).Bits()) == Connected
  {
    var started := Station(0, false, false, 1);
    RunAppend(n, Fresh, [StaStart] + Disconnects(k), [GotIp(ip)]);
    RunAppend(n, Fresh, [StaStart], Disconnects(k));
    assert Run(n, Fresh, [StaStart]) == started by {
      assert [StaStart][1..] == [];
    }
    RetriesBelowLimit(n, started, k);
    assert [GotIp(ip)][1..] == [];
  }

  /**
   * An acquired address gives back the whole retry budget: after it, up to
   * `m` disconnects are retried again, with CONNECTED staying set.
   */
  lemma RetryAfterSuccess(m: nat, s: Station, ip: Ipv4, k: nat)
    requires k <= m
    ensures Run(m, s, [GotIp(ip)] + Disconnects(k))
         == s.(retryNum := k, connectedBit := true, connects := s.connects + k)
  {
    RunAppend(m, s, [GotIp(ip)], Disconnects(k));
    assert [GotIp(ip)][1..] == [];
    RetriesBelowLimit(m, s.(retryNum := 0, connectedBit := true), k);
  }

  /**
   * FAIL is not terminal: an address acquired after FAIL was latched still
   * sets CONNECTED, both bits end up set, and the caller is told it is
   * connected.
   */
  lemma ConnectedAfterFail(m: nat, s: Station, ip: Ipv4)
    requires s.failBit
    ensures Step(m, s, GotIp(ip)).connectedBit && Step(m, s, GotIp(ip)).failBit
    ensures Decide(Step(m, s, GotIp(ip)).Bits()) == Connected
  {
  }

  /**
   * Without an acquired address the counter never goes down, and every
   * connect call is either a STA_START or a retry counted by the counter.
   */
  lemma {:induction false} ConnectAccounting(m: nat, s: Station, evs: seq<Event>)
    requires NoAddress(evs)
    ensures Run(m, s, evs).retryNum >= s.retryNum
    ensures Run(m, s, evs).connects - s.connects
         == multiset(evs)[StaStart] + (Run(m, s, evs).retryNum - s.retryNum)
    decreases |evs|
  {
    if evs != [] {
      assert evs == [evs[0]] + evs[1..];
      assert multiset(evs) == multiset([evs[0]]) + multiset(evs[1..]);
      ConnectAccounting(m, Step(m, s, evs[0]), evs[1..]);
    }
  }

  /**
   * The retry bound turns an endless stream of disconnects into a bounded
   * number of connect calls: one per STA_START plus what is left of the
   * budget.
   */
  lemma ConnectBudget(m: nat, s: Station, evs: seq<Event>)
    requires s.retryNum <= m && NoAddress(evs)
    ensures Run(m, s, evs).connects <= s.connects + multiset(evs)[StaStart] + (m - s.retryNum)
  {
    ConnectAccounting(m, s, evs);
  }

  // ---------------------------------------------------------------------
  // Lemmas about the waiting caller's decision

  /**
   * CONNECTED wins over FAIL; FAIL alone means failure; neither bit means
   * the unexpected-event branch.
   */
  lemma OutcomeOfFlags(c: bool, f: bool)
    ensures Decide(EventBits(c, f)) == Connected <==> c
    ensures Decide(EventBits(c, f)) == Failed <==> !c && f
    ensures Decide(EventBits(c, f)) == Unexpected <==> !c && !f
  {
  }

  /**
   * The bits are never cleared, so once the caller would be told
   * "connected", every later read after any further events says the same.
   */
  lemma ConnectedOutcomeStable(m: nat, s: Station, evs: seq<Event>)
    requires Decide(s.Bits()) == Connected
    ensures Decide(Run(m, s, evs).Bits()) == Connected
  {
  }

  /**
   * Once the waiter has been released, it stays released: each bit that
   * was set, and so may have released it, is still set after any further
   * events.
   */
  lemma ReleaseStable(m: nat, s: Station, evs: seq<Event>)
    requires WaitReleased(s.Bits())
    ensures WaitReleased(Run(m, s, evs).Bits())
    ensures s.connectedBit ==> Run(m, s, evs).connectedBit
    ensures s.failBit ==> Run(m, s, evs).failBit
  {
  }
}
