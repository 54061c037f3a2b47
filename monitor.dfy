/** The IP-change monitor of background.js: the two module-level variables
    `currentIP` and `changeCount`, the periodic check `checkIP`, and the
    `getIP` / `clearBadge` message handler. A tick is one atomic run of
    `checkIP`; its badge and notification calls are recorded in an effect log. */
module Monitor {
  import opened Text
  import opened Errors
  import opened IpValidator
  import opened RetryingFetch

  const DEFAULT_COLOR: string := "#4688F1"
  const ERROR_COLOR: string := "#FF0000"
  const CHANGE_COLOR: string := "#FF4444"
  const CONNECTION_ERROR_TITLE: string := "Connection Error"
  const CONNECTION_ERROR_TEXT: string := "Please check your internet connection"
  const CHANGED_TITLE: string := "IP Address Changed"
  const CHECKING: string := "Checking..."

  /** `currentIP`: null, the no-connection sentinel, or a validated address. */
  datatype CurrentIp = Unset | NoConnection | Ip(addr: string)

  datatype State = State(current: CurrentIp, changeCount: nat)

  const Initial: State := State(Unset, 0)

  /** A stored address always passed the validator. This is what makes the
      three-way datatype faithful: an address is never empty (so it is truthy)
      and never the sentinel text (SentinelIsNotDottedQuad). */
  predicate ValidState(s: State) {
    s.current.Ip? ==> IsDottedQuad(s.current.addr)
  }

  /** The string `currentIP` holds when it is not null. */
  function IpText(c: CurrentIp): string
    requires !c.Unset?
  {
    match c
    case NoConnection => NO_CONNECTION
    case Ip(addr) => addr
  }

  /** A call of updateBadge (background color, then text) or of showNotification. */
  datatype Effect = Badge(text: string, color: string) | Notify(title: string, message: string)

  /** What one tick sees: the browser reports offline, or the settled fetch. */
  datatype Observation = Offline | Online(fetched: FetchResult)

  datatype Tick = Tick(next: State, effects: seq<Effect>)

  /** The observation `checkIP` makes, given `navigator.onLine` and the network. */
  function Observe(online: bool, net: nat -> Attempt): Observation {
    if online then Online(Retry(net, MAX_RETRIES).result) else Offline
  }

  /** background.js:83-95 after the fetch settles: read the body as JSON, take
      its `ip` member and validate it; each failure is the error it throws. */
  function ReadIp(r: FetchResult): Result<string> {
    match r
    case ReturnedUndefined => Err(ReadJsonOfUndefined)
    case Rethrown(e) => Err(e)
    case Returned(response) =>
      match response.body
      case Unparsable(message) => Err(HostError(message))
      case NullJson => Err(ReadIpOfNull)
      case Parsed(field) => Validate(field)
  }

  const ConnectionLost: seq<Effect> :=
    [Badge("!", ERROR_COLOR), Notify(CONNECTION_ERROR_TITLE, CONNECTION_ERROR_TEXT)]

  function ChangeEffects(count: nat, ip: string): seq<Effect> {
    [Badge(NatToDecimal(count), CHANGE_COLOR), Notify(CHANGED_TITLE, "New IP: " + ip)]
  }

  /** Enter the sentinel state unless already there (background.js:64-71). */
  function LoseConnection(s: State): Tick {
    if s.current != NoConnection then Tick(State(NoConnection, s.changeCount), ConnectionLost)
    else Tick(s, [])
  }

  /** What `checkIP` does once the lookup has settled (background.js:97-122).
      The catch block re-enters the sentinel state only for an error whose
      message is the sentinel text, that is, for a host error carrying that
      text (OnlyHostErrorsSignalNoConnection); every other error is swallowed.
      An address counts as new when it differs from `currentIP`, which
      includes the sentinel. */
  function Settle(s: State, read: Result<string>): Tick {
    match read
    case Err(e) => if e == HostError(NO_CONNECTION) then LoseConnection(s) else Tick(s, [])
    case Ok(ip) =>
      if s.current == Unset || s.current != Ip(ip) then
        Tick(State(Ip(ip), s.changeCount + 1), ChangeEffects(s.changeCount + 1, ip))
      else Tick(s, [])
  }

  /** One run of `checkIP`. It keeps the stored address validated and moves
      the count by at most one. */
  function Step(s: State, o: Observation): (t: Tick)
    ensures ValidState(s) ==> ValidState(t.next)
    ensures t.next.changeCount == s.changeCount || t.next.changeCount == s.changeCount + 1
  {
    match o
    case Offline => LoseConnection(s)
    case Online(r) => Settle(s, ReadIp(r))
  }

  /** The ticks `obs` in order, from state `s`, with their effects in order. */
  function Run(s: State, obs: seq<Observation>): (t: Tick)
    ensures ValidState(s) ==> ValidState(t.next)
    ensures s.changeCount <= t.next.changeCount <= s.changeCount + |obs|
    decreases |obs|
  {
    if obs == [] then Tick(s, [])
    else
      var before := Run(s, obs[..|obs| - 1]);
      var last := Step(before.next, obs[|obs| - 1]);
      Tick(last.next, before.effects + last.effects)
  }

  lemma RunSnoc(s: State, obs: seq<Observation>, o: Observation)
    ensures var before := Run(s, obs); var last := Step(before.next, o);
      Run(s, obs + [o]) == Tick(last.next, before.effects + last.effects)
  {
    assert (obs + [o])[..|obs|] == obs;
  }

  /** An offline tick repeated any number of times acts as one: the sentinel
      is stored, the error badge and notification appear only when it was
      not stored already, and the count is never touched. */
  lemma {:induction false} RepeatedOfflineActsOnce(s: State, k: nat)
    requires k >= 1
    ensures Run(s, seq(k, _ => Offline)) ==
      Tick(State(NoConnection, s.changeCount), if s.current == NoConnection then [] else ConnectionLost)
  {
    var obs := seq(k, _ => Offline);
    if k > 1 {
      assert obs[..k - 1] == seq(k - 1, _ => Offline);
      RepeatedOfflineActsOnce(s, k - 1);
      assert Run(s, obs).effects == Run(s, obs[..k - 1]).effects + [];
    } else {
      assert obs[..0] == [];
      assert Run(s, obs).effects == [] + LoseConnection(s).effects;
    }
  }

  /** A failed fetch, an unusable body or an address failing the pattern
      changes nothing and shows nothing, unless the error's message is the
      sentinel text, in which case the tick acts as an offline one. */
  lemma FailuresAreSilent(s: State, r: FetchResult)
    requires ReadIp(r).Err?
    ensures Step(s, Online(r)) ==
      if Message(ReadIp(r).error) == NO_CONNECTION then LoseConnection(s) else Tick(s, [])
  {
    OnlyHostErrorsSignalNoConnection(ReadIp(r).error);
  }

  /** A body whose `ip` member is missing or empty is one such failure. */
  lemma MissingAddressIsSilent(s: State, status: nat, field: IpField)
    requires 200 <= status <= 299 && !Truthy(field)
    ensures Step(s, Online(Returned(Response(status, Parsed(field))))) == Tick(s, [])
  {
    FailuresAreSilent(s, Returned(Response(status, Parsed(field))));
    assert Message(NoIpAddress) != NO_CONNECTION;
  }

  /** A validated address different from the stored value is stored, the
      count goes up by exactly one, the badge shows the new count in decimal
      in the change color, and one notification names the address. */
  lemma NewAddressCounts(s: State, r: FetchResult, ip: string)
    requires ReadIp(r) == Ok(ip) && s.current != Ip(ip)
    ensures var t := Step(s, Online(r));
      && t.next == State(Ip(ip), s.changeCount + 1)
      && |t.effects| == 2
      && t.effects[0].Badge? && t.effects[0].color == CHANGE_COLOR
      && AllDigits(t.effects[0].text) && DecimalValue(t.effects[0].text) == s.changeCount + 1
      && 1 <= |t.effects[0].text| && t.effects[0].text[0] != '0'
      && t.effects[1] == Notify(CHANGED_TITLE, "New IP: " + ip)
  {
    DecimalRoundTrip(s.changeCount + 1);
  }

  /** The same address again changes nothing and shows nothing. */
  lemma SameAddressIsQuiet(s: State, r: FetchResult, ip: string)
    requires ReadIp(r) == Ok(ip) && s.current == Ip(ip)
    ensures Step(s, Online(r)) == Tick(s, [])
  {
  }

  /** An observation whose lookup settles on the address `ip`. */
  predicate Reports(o: Observation, ip: string) {
    o.Online? && ReadIp(o.fetched) == Ok(ip)
  }

  /** A 2xx response whose body carries `ip` reports it, padding trimmed. */
  lemma ResponseReports(status: nat, ip: string)
    requires 200 <= status <= 299 && IsDottedQuad(Trim(ip))
    ensures Reports(Online(Returned(Response(status, Parsed(JString(ip))))), Trim(ip))
  {
    ValidateAcceptsTrimmed(ip);
  }

  /** A tick that reports `ip` stores it, and counts and announces it exactly
      when it differs from what was stored. */
  lemma ReportedStep(s: State, o: Observation, ip: string)
    requires Reports(o, ip)
    ensures Step(s, o) ==
      if s.current == Ip(ip) then Tick(s, [])
      else Tick(State(Ip(ip), s.changeCount + 1), ChangeEffects(s.changeCount + 1, ip))
  {
  }

  lemma RunOne(s: State, o: Observation)
    ensures Run(s, [o]) == Step(s, o)
  {
    RunSnoc(s, [], o);
    assert [] + [o] == [o];
  }

  /** Going offline and coming back with the very same address counts as a
      change: the sentinel differs from every address (background.js:98). */
  lemma ReconnectCountsAsChange(s: State, o: Observation, ip: string)
    requires s.current == Ip(ip) && Reports(o, ip)
    ensures Run(s, [Offline, o]) ==
      Tick(State(Ip(ip), s.changeCount + 1), ConnectionLost + ChangeEffects(s.changeCount + 1, ip))
  {
    var lost := State(NoConnection, s.changeCount);
    var obs := [Offline, o];
    assert obs[..1] == [Offline];
    RunOne(s, Offline);
    var before := Run(s, [Offline]);
    assert before == Tick(lost, ConnectionLost);
    ReportedStep(lost, o, ip);
    var last := Step(lost, o);
    assert Run(s, obs) == Tick(last.next, before.effects + last.effects);
    assert last.next == State(Ip(ip), s.changeCount + 1);
    assert last.effects == ChangeEffects(s.changeCount + 1, ip);
    assert before.effects == ConnectionLost;
  }

  /** The positions of `ips` whose value differs from the one before; the
      first position always counts. */
  function ChangePositions(ips: seq<string>): set<nat> {
    set i: nat | i < |ips| && ChangesAt(ips, i)
  }

  predicate ChangesAt(ips: seq<string>, i: nat)
    requires i < |ips|
  {
    i == 0 || ips[i] != ips[i - 1]
  }

  lemma ChangePositionsOfSnoc(ips: seq<string>)
    requires ips != []
    ensures var n := |ips|; var p := ips[..n - 1];
      |ChangePositions(ips)| ==
        |ChangePositions(p)| + (if n == 1 || ips[n - 1] != ips[n - 2] then 1 else 0)
  {
    var n := |ips|;
    var p := ips[..n - 1];
    var changed := n == 1 || ips[n - 1] != ips[n - 2];
    assert forall i: nat | i < n - 1 :: ChangesAt(ips, i) == ChangesAt(p, i);
    assert ChangePositions(ips) == ChangePositions(p) + (if changed then {n - 1} else {});
    assert n - 1 !in ChangePositions(p);
  }

  /** Every tick of `obs` reports the address at the same position of `ips`. */
  predicate ReportsAll(obs: seq<Observation>, ips: seq<string>) {
    |obs| == |ips| && forall i :: 0 <= i < |obs| ==> Reports(obs[i], ips[i])
  }

  /** The state after the ticks `obs`, each reporting its address. */
  lemma ReportedRunNext(s: State, obs: seq<Observation>, ip: string)
    requires obs != [] && Reports(obs[|obs| - 1], ip)
    ensures var before := Run(s, obs[..|obs| - 1]).next;
      Run(s, obs).next ==
        State(Ip(ip), if before.current == Ip(ip) then before.changeCount else before.changeCount + 1)
  {
    ReportedStep(Run(s, obs[..|obs| - 1]).next, obs[|obs| - 1], ip);
  }

  /** From start-up, over successful lookups only, the count is the number
      of positions whose address differs from the previous one, the first
      lookup counting as one; the stored address is the last one seen. */
  lemma {:induction false} CountsAddressChanges(obs: seq<Observation>, ips: seq<string>)
    requires ReportsAll(obs, ips)
    ensures Run(Initial, obs).next ==
      State(if ips == [] then Unset else Ip(ips[|ips| - 1]), |ChangePositions(ips)|)
    decreases |ips|
  {
    if ips != [] {
      var n := |ips|;
      var p := ips[..n - 1];
      assert ReportsAll(obs[..n - 1], p);
      CountsAddressChanges(obs[..n - 1], p);
      ChangePositionsOfSnoc(ips);
      ReportedRunNext(Initial, obs, ips[n - 1]);
      if n > 1 {
        assert p[|p| - 1] == ips[n - 2];
      }
    } else {
      assert ChangePositions(ips) == {};
    }
  }

  /** The extension's background page: the two variables `checkIP` and the
      message handler update, with the badge and notification calls made so
      far and the number of checks run as ghost state. */
  class IpMonitor {
    var currentIP: CurrentIp
    var changeCount: nat
    ghost var effects: seq<Effect>
    ghost var checks: nat

    function Model(): State
      reads this
    {
      State(currentIP, changeCount)
    }

    ghost predicate Valid()
      reads this
    {
      ValidState(Model())
    }

    /** Start-up values (background.js:8-9). */
    constructor ()
      ensures Valid() && Model() == Initial && effects == [] && checks == 0
    {
      currentIP := Unset;
      changeCount := 0;
      effects := [];
      checks := 0;
    }

    method UpdateBadge(text: string, color: string)
      modifies this`effects
      ensures effects == old(effects) + [Badge(text, color)]
    {
      effects := effects + [Badge(text, color)];
    }

    method ShowNotification(title: string, message: string)
      modifies this`effects
      ensures effects == old(effects) + [Notify(title, message)]
    {
      effects := effects + [Notify(title, message)];
    }

    /** Store the sentinel and report it once (background.js:64-71, 111-118). */
    method ReportConnectionLoss()
      requires Valid()
      modifies this
      ensures Valid() && checks == old(checks)
      ensures Model() == LoseConnection(old(Model())).next
      ensures effects == old(effects) + LoseConnection(old(Model())).effects
    {
      if currentIP != NoConnection {
        currentIP := NoConnection;
        UpdateBadge("!", ERROR_COLOR);
        ShowNotification(CONNECTION_ERROR_TITLE, CONNECTION_ERROR_TEXT);
      }
    }

    /** checkIP (background.js:60-124) with `navigator.onLine` and the network
        as inputs. */
    method CheckIP(online: bool, net: nat -> Attempt)
      requires Valid()
      modifies this
      ensures Valid() && checks == old(checks) + 1
      ensures Model() == Step(old(Model()), Observe(online, net)).next
      ensures effects == old(effects) + Step(old(Model()), Observe(online, net)).effects
    {
      checks := checks + 1;
      if !online {
        ReportConnectionLoss();
        return;
      }
      var run := FetchWithRetry(net, MAX_RETRIES);
      Conclude(ReadIp(run.result));
    }

    /** The rest of the try block and the catch block of checkIP
        (background.js:97-122), once the lookup has settled. */
    method Conclude(read: Result<string>)
      requires Valid()
      requires read.Ok? ==> IsDottedQuad(read.value)
      modifies this
      ensures Valid() && checks == old(checks)
      ensures Model() == Settle(old(Model()), read).next
      ensures effects == old(effects) + Settle(old(Model()), read).effects
    {
      match read
      case Err(e) =>
        OnlyHostErrorsSignalNoConnection(e);
        if Message(e) == NO_CONNECTION {
          ReportConnectionLoss();
        }
      case Ok(ip) =>
        if currentIP == Unset || currentIP != Ip(ip) {
          changeCount := changeCount + 1;
          currentIP := Ip(ip);
          UpdateBadge(NatToDecimal(changeCount), CHANGE_COLOR);
          ShowNotification(CHANGED_TITLE, "New IP: " + ip);
        }
    }

    /** The runtime.onMessage listener (background.js:134-149). `reply` is what
        sendResponse receives; `keepOpen` is the listener's return value. An
        unset address answers the placeholder and then runs exactly one check. */
    method OnMessage(kind: string, online: bool, net: nat -> Attempt) returns (reply: Reply, keepOpen: bool)
      requires Valid()
      modifies this
      ensures Valid()
      ensures kind == "getIP" && old(currentIP) != Unset ==>
        && keepOpen && reply == IpReply(IpText(old(currentIP)))
        && (reply.ip == NO_CONNECTION || IsDottedQuad(reply.ip))
        && Model() == old(Model()) && effects == old(effects) && checks == old(checks)
      ensures kind == "getIP" && old(currentIP) == Unset ==>
        && keepOpen && reply == IpReply(CHECKING)
        && checks == old(checks) + 1
        && Model() == Step(old(Model()), Observe(online, net)).next
        && effects == old(effects) + Step(old(Model()), Observe(online, net)).effects
      ensures kind == "clearBadge" ==>
        && keepOpen && reply == NoReply
        && Model() == State(old(currentIP), 0)
        && effects == old(effects) + [Badge("", DEFAULT_COLOR)] && checks == old(checks)
      ensures kind != "getIP" && kind != "clearBadge" ==>
        !keepOpen && reply == NoReply
        && Model() == old(Model()) && effects == old(effects) && checks == old(checks)
    {
      reply, keepOpen := NoReply, false;
      if kind == "getIP" {
        if currentIP != Unset {
          reply := IpReply(IpText(currentIP));
        } else {
          reply := IpReply(CHECKING);
          CheckIP(online, net);
        }
        keepOpen := true;
      } else if kind == "clearBadge" {
        changeCount := 0;
        UpdateBadge("", DEFAULT_COLOR);
        keepOpen := true;
      }
    }

    /** runtime.onInstalled (background.js:159-162): clear the badge, then check. */
    method OnInstalled(online: bool, net: nat -> Attempt)
      requires Valid()
      modifies this
      ensures Valid() && checks == old(checks) + 1
      ensures Model() == Step(old(Model()), Observe(online, net)).next
      ensures effects == old(effects) + [Badge("", DEFAULT_COLOR)] + Step(old(Model()), Observe(online, net)).effects
    {
      UpdateBadge("", DEFAULT_COLOR);
      CheckIP(online, net);
    }
  }

  /** The payload handed to sendResponse, if any. */
  datatype Reply = NoReply | IpReply(ip: string)
}
