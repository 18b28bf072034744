/** The registry of browser connections (internal/registry/registry.go): which
    connection owns a browser, and whether a command may be routed to it. */
module Registry {
  import opened Text

  /** The fields of a snapshot that the registry computes; the purely descriptive ones
      (version, browser metadata, incognito, remote address) are one opaque text. */
  datatype Browser = Browser(
    browserID: string,
    connectionID: string,
    displayName: string,
    details: string,
    capabilities: seq<string>,
    permissions: seq<string>,
    firstSeen: int,
    connectedAt: int,
    lastSeen: int,
    disconnectedAt: Option<int>,
    disconnectReason: string,
    latencyMS: Option<int>,
    connected: bool)

  /** A connection is represented by its id; `None` is the nil connection. */
  datatype Entry = Entry(browser: Browser, connection: Option<string>)

  type Browsers = map<string, Entry>

  datatype Registration = Registration(
    browserID: string,
    displayName: string,
    details: string,
    capabilities: seq<string>,
    permissions: seq<string>)

  // ---------------------------------------------------------------------
  // Searching a capability list
  // ---------------------------------------------------------------------

  /** `sort.SearchStrings`: the first index whose element is not less than `x`. */
  method SearchStrings(values: seq<string>, x: string) returns (index: nat)
    requires StrictlySorted(values)
    ensures index <= |values|
    ensures forall i :: 0 <= i < index ==> Less(values[i], x)
    ensures forall i :: index <= i < |values| ==> !Less(values[i], x)
  {
    index := 0;
    var high := |values|;
    while index < high
      invariant index <= high <= |values|
      invariant forall i :: 0 <= i < index ==> Less(values[i], x)
      invariant forall i :: high <= i < |values| ==> !Less(values[i], x)
    {
      var middle := (index + high) / 2;
      if Less(values[middle], x) {
        forall i | index <= i < middle
          ensures Less(values[i], x)
        {
          LessIsTransitive(values[i], values[middle], x);
        }
        index := middle + 1;
      } else {
        forall i | middle < i < high
          ensures !Less(values[i], x)
        {
          if Less(values[i], x) { LessIsTransitive(values[middle], values[i], x); }
        }
        high := middle;
      }
    }
  }

  /** `containsString`: binary search agrees with membership. */
  method ContainsString(values: seq<string>, expected: string) returns (found: bool)
    requires StrictlySorted(values)
    ensures found <==> expected in values
  {
    var index := SearchStrings(values, expected);
    found := index < |values| && values[index] == expected;
    LessIsTotal(expected, expected);
    forall i | 0 <= i < |values| && values[i] == expected
      ensures index == i
    {
    }
  }

  // ---------------------------------------------------------------------
  // Specification of the operations
  // ---------------------------------------------------------------------

  /** `connectionID` is the connection the browser is connected through. */
  predicate Owns(browsers: Browsers, browserID: string, connectionID: string) {
    && browserID in browsers
    && browsers[browserID].browser.connected
    && browsers[browserID].browser.connectionID == connectionID
  }

  predicate Acceptable(registration: Registration, connectionID: string) {
    Trim(registration.browserID) != "" && connectionID != ""
  }

  /** The snapshot a registration creates; an earlier snapshot keeps its first-seen
      time, and its name if the new registration has none. */
  function Registered(browsers: Browsers, g: Registration, connectionID: string, now: int): Browser {
    var name := Trim(g.displayName);
    var known := g.browserID in browsers;
    Browser(
      g.browserID,
      connectionID,
      if name != "" then name
      else if known && browsers[g.browserID].browser.displayName != "" then browsers[g.browserID].browser.displayName
      else g.browserID,
      g.details,
      NormalizedStrings(g.capabilities),
      NormalizedStrings(g.permissions),
      if known then browsers[g.browserID].browser.firstSeen else now,
      now, now, None, "", None, true)
  }

  function Register(browsers: Browsers, g: Registration, connectionID: string, now: int): Browsers {
    if !Acceptable(g, connectionID) then browsers
    else browsers[g.browserID := Entry(Registered(browsers, g, connectionID, now), Some(connectionID))]
  }

  function Disconnect(browsers: Browsers, browserID: string, connectionID: string, reason: string, now: int): Browsers {
    if !Owns(browsers, browserID, connectionID) then browsers
    else
      var b := browsers[browserID].browser;
      browsers[browserID := Entry(b.(connected := false, lastSeen := now, disconnectedAt := Some(now),
                                     disconnectReason := Trim(reason)), None)]
  }

  function Touch(browsers: Browsers, browserID: string, connectionID: string, now: int): Browsers {
    if !Owns(browsers, browserID, connectionID) then browsers
    else
      var e := browsers[browserID];
      browsers[browserID := e.(browser := e.browser.(lastSeen := now))]
  }

  function UpdateCapabilities(browsers: Browsers, browserID: string, connectionID: string,
                              capabilities: seq<string>, permissions: seq<string>, now: int): Browsers {
    if !Owns(browsers, browserID, connectionID) then browsers
    else
      var e := browsers[browserID];
      browsers[browserID := e.(browser := e.browser.(capabilities := NormalizedStrings(capabilities),
                                                     permissions := NormalizedStrings(permissions),
                                                     lastSeen := now))]
  }

  /** `latency` in nanoseconds. */
  function RecordLatency(browsers: Browsers, browserID: string, connectionID: string, latency: int, now: int)
    : Browsers
  {
    if latency < 0 || !Owns(browsers, browserID, connectionID) then browsers
    else
      var e := browsers[browserID];
      browsers[browserID := e.(browser := e.browser.(latencyMS := Some(latency / 1_000_000), lastSeen := now))]
  }

  function Rename(browsers: Browsers, browserID: string, displayName: string): Browsers {
    if Trim(displayName) == "" || browserID !in browsers then browsers
    else
      var e := browsers[browserID];
      browsers[browserID := e.(browser := e.browser.(displayName := Trim(displayName)))]
  }

  predicate Prunable(e: Entry, cutoff: int) {
    !e.browser.connected && e.browser.disconnectedAt.Some? && e.browser.disconnectedAt.value < cutoff
  }

  function Prune(browsers: Browsers, cutoff: int): Browsers {
    map id | id in browsers && !Prunable(browsers[id], cutoff) :: browsers[id]
  }

  datatype RouteResult =
    | Granted(connectionID: string)
    | BrowserNotFound
    | BrowserDisconnected
    | CapabilityUnavailable

  function Route(browsers: Browsers, browserID: string, capability: string): RouteResult {
    if browserID !in browsers then BrowserNotFound
    else
      var e := browsers[browserID];
      if !e.browser.connected || e.connection.None? then BrowserDisconnected
      else if capability !in e.browser.capabilities then CapabilityUnavailable
      else Granted(e.connection.value)
  }

  // ---------------------------------------------------------------------
  // Every run
  // ---------------------------------------------------------------------

  datatype Action =
    | DoRegister(registration: Registration, connectionID: string, now: int)
    | DoDisconnect(browserID: string, connectionID: string, reason: string, now: int)
    | DoTouch(browserID: string, connectionID: string, now: int)
    | DoUpdateCapabilities(browserID: string, connectionID: string,
                           capabilities: seq<string>, permissions: seq<string>, now: int)
    | DoRecordLatency(browserID: string, connectionID: string, latency: int, now: int)
    | DoRename(browserID: string, displayName: string)
    | DoPrune(cutoff: int)

  function Step(browsers: Browsers, a: Action): Browsers {
    match a
    case DoRegister(g, connectionID, now) => Register(browsers, g, connectionID, now)
    case DoDisconnect(id, connectionID, reason, now) => Disconnect(browsers, id, connectionID, reason, now)
    case DoTouch(id, connectionID, now) => Touch(browsers, id, connectionID, now)
    case DoUpdateCapabilities(id, connectionID, capabilities, permissions, now) =>
      UpdateCapabilities(browsers, id, connectionID, capabilities, permissions, now)
    case DoRecordLatency(id, connectionID, latency, now) => RecordLatency(browsers, id, connectionID, latency, now)
    case DoRename(id, displayName) => Rename(browsers, id, displayName)
    case DoPrune(cutoff) => Prune(browsers, cutoff)
  }

  function Run(actions: seq<Action>): Browsers {
    if actions == [] then map[]
    else Step(Run(actions[..|actions| - 1]), actions[|actions| - 1])
  }

  /** Connected, having a connection, and having no disconnect time are the same; the
      connection is the one named in the snapshot; capability lists are searchable. */
  predicate EntryOk(id: string, e: Entry) {
    && e.browser.browserID == id
    && e.browser.displayName != ""
    && (e.browser.connected <==> e.connection == Some(e.browser.connectionID))
    && (e.browser.connected <==> e.browser.disconnectedAt.None?)
    && (!e.browser.connected ==> e.connection.None?)
    && StrictlySorted(e.browser.capabilities)
    && StrictlySorted(e.browser.permissions)
  }

  ghost predicate Consistent(browsers: Browsers) {
    forall id :: id in browsers ==> EntryOk(id, browsers[id])
  }

  lemma StepKeepsEntry(browsers: Browsers, a: Action, id: string)
    requires Consistent(browsers) && id in Step(browsers, a)
    ensures EntryOk(id, Step(browsers, a)[id])
  {
    match a
    case DoRegister(g, _, _) =>
      NormalizedStringsAreTheReport(g.capabilities);
      NormalizedStringsAreTheReport(g.permissions);
      assert Trim("") == "";
    case DoUpdateCapabilities(_, _, capabilities, permissions, _) =>
      NormalizedStringsAreTheReport(capabilities);
      NormalizedStringsAreTheReport(permissions);
    case _ =>
  }

  lemma StepIsConsistent(browsers: Browsers, a: Action)
    requires Consistent(browsers)
    ensures Consistent(Step(browsers, a))
  {
    forall id | id in Step(browsers, a)
      ensures EntryOk(id, Step(browsers, a)[id])
    {
      StepKeepsEntry(browsers, a, id);
    }
  }

  /** Only a registration changes which connection a connected browser has. */
  lemma StepKeepsOwner(browsers: Browsers, a: Action, id: string)
    requires id in Step(browsers, a) && Step(browsers, a)[id].browser.connected && !a.DoRegister?
    ensures id in browsers && browsers[id].browser.connected
    ensures Step(browsers, a)[id].browser.connectionID == browsers[id].browser.connectionID
  {
  }

  lemma {:induction false} EveryRunIsConsistent(actions: seq<Action>)
    ensures Consistent(Run(actions))
  {
    if actions != [] {
      EveryRunIsConsistent(actions[..|actions| - 1]);
      StepIsConsistent(Run(actions[..|actions| - 1]), actions[|actions| - 1]);
    }
  }

  /** The updates that carry the id of the connection they come from. */
  predicate Fenced(a: Action) {
    a.DoDisconnect? || a.DoTouch? || a.DoUpdateCapabilities? || a.DoRecordLatency?
  }

  /** A message from a replaced or closed connection changes nothing, for any browser;
      one from the owning connection changes its own browser only. */
  lemma StaleConnectionsAreFenced(actions: seq<Action>, a: Action)
    requires Fenced(a)
    ensures var before := Run(actions);
            var after := Run(actions + [a]);
            && (!Owns(before, a.browserID, a.connectionID) ==> after == before)
            && after - {a.browserID} == before - {a.browserID}
  {
    assert (actions + [a])[..|actions|] == actions;
  }

  /** Replacing a connection takes ownership away from the old one at once. */
  lemma ReplacementTakesOver(browsers: Browsers, g: Registration, previous: string, next: string, now: int)
    requires Owns(browsers, g.browserID, previous) && Acceptable(g, next) && previous != next
    ensures var after := Register(browsers, g, next, now);
            Owns(after, g.browserID, next) && !Owns(after, g.browserID, previous)
  {
  }

  lemma StepKeepsFirstSeen(browsers: Browsers, a: Action, id: string)
    requires id in browsers && id in Step(browsers, a)
    ensures Step(browsers, a)[id].browser.firstSeen == browsers[id].browser.firstSeen
  {
  }

  /** First-seen times survive everything but being pruned. */
  lemma {:induction false} FirstSeenSurvives(actions: seq<Action>, i: nat, j: nat, id: string)
    requires i <= j <= |actions|
    requires forall k :: i <= k <= j ==> id in Run(actions[..k])
    ensures Run(actions[..j])[id].browser.firstSeen == Run(actions[..i])[id].browser.firstSeen
    decreases j
  {
    if i < j {
      FirstSeenSurvives(actions, i, j - 1, id);
      assert actions[..j][..j - 1] == actions[..j - 1];
      StepKeepsFirstSeen(Run(actions[..j - 1]), actions[j - 1], id);
    }
  }

  /** Pruning removes exactly the browsers that went offline before the cutoff, so
      never a connected one. */
  lemma PruneRemovesOnlyOffline(actions: seq<Action>, cutoff: int, id: string)
    requires id in Run(actions)
    ensures var e := Run(actions)[id];
            id !in Prune(Run(actions), cutoff) <==>
              e.connection.None? && e.browser.disconnectedAt.Some? && e.browser.disconnectedAt.value < cutoff
  {
    EveryRunIsConsistent(actions);
  }

  /** The report an action makes for browser `id`, if it makes one. */
  predicate IsReport(browsers: Browsers, a: Action, id: string) {
    || (a.DoRegister? && a.registration.browserID == id && Acceptable(a.registration, a.connectionID))
    || (a.DoUpdateCapabilities? && a.browserID == id && Owns(browsers, id, a.connectionID))
  }

  datatype Report = Report(capabilities: seq<string>, permissions: seq<string>)

  function ReportOf(a: Action): Report
    requires a.DoRegister? || a.DoUpdateCapabilities?
  {
    if a.DoRegister? then Report(a.registration.capabilities, a.registration.permissions)
    else Report(a.capabilities, a.permissions)
  }

  /** What the current connection last reported as its capabilities and permissions. */
  ghost function LastReport(actions: seq<Action>, id: string): Report {
    if actions == [] then Report([], [])
    else
      var init, a := actions[..|actions| - 1], actions[|actions| - 1];
      if IsReport(Run(init), a, id) then ReportOf(a) else LastReport(init, id)
  }

  lemma StepSetsCapabilities(browsers: Browsers, a: Action, id: string)
    requires id in Step(browsers, a)
    ensures IsReport(browsers, a, id) ==>
      Step(browsers, a)[id].browser.capabilities == NormalizedStrings(ReportOf(a).capabilities) &&
      Step(browsers, a)[id].browser.permissions == NormalizedStrings(ReportOf(a).permissions)
    ensures !IsReport(browsers, a, id) ==>
      && id in browsers
      && Step(browsers, a)[id].browser.capabilities == browsers[id].browser.capabilities
      && Step(browsers, a)[id].browser.permissions == browsers[id].browser.permissions
  {
  }

  lemma {:induction false} CapabilitiesAreTheLastReport(actions: seq<Action>, id: string)
    requires id in Run(actions)
    ensures Run(actions)[id].browser.capabilities == NormalizedStrings(LastReport(actions, id).capabilities)
    ensures Run(actions)[id].browser.permissions == NormalizedStrings(LastReport(actions, id).permissions)
  {
    if actions != [] {
      var init := actions[..|actions| - 1];
      StepSetsCapabilities(Run(init), actions[|actions| - 1], id);
      if id in Run(init) {
        CapabilitiesAreTheLastReport(init, id);
      }
    }
  }

  /** `Route` grants exactly when the browser is connected and the capability is among
      those its connection last reported; the connection is then the current one. */
  lemma RouteGrantsIff(actions: seq<Action>, id: string, capability: string)
    ensures var browsers := Run(actions);
            Route(browsers, id, capability).Granted? <==>
              id in browsers && browsers[id].browser.connected &&
              Reports(LastReport(actions, id).capabilities, capability)
    ensures var browsers := Run(actions);
            Route(browsers, id, capability).Granted? ==>
              Owns(browsers, id, Route(browsers, id, capability).connectionID)
  {
    EveryRunIsConsistent(actions);
    if id in Run(actions) {
      CapabilitiesAreTheLastReport(actions, id);
      NormalizedStringsAreTheReport(LastReport(actions, id).capabilities);
    }
  }

  // ---------------------------------------------------------------------
  // What the history of a browser says
  // ---------------------------------------------------------------------

  /** `a` registers browser `id`. */
  predicate Accepted(a: Action, id: string) {
    a.DoRegister? && a.registration.browserID == id && Trim(id) != "" && a.connectionID != ""
  }

  /** Event `i` registered `id` through connection `c`, which was neither replaced nor
      disconnected since. */
  ghost predicate OnlineSince(actions: seq<Action>, id: string, c: string, i: nat) {
    && i < |actions| && Accepted(actions[i], id) && actions[i].connectionID == c
    && forall j :: i < j < |actions| ==>
         && !Accepted(actions[j], id)
         && !(actions[j].DoDisconnect? && actions[j].browserID == id && actions[j].connectionID == c)
  }

  ghost predicate Online(actions: seq<Action>, id: string, c: string) {
    exists i: nat :: OnlineSince(actions, id, c, i)
  }

  lemma OnlineAfter(actions: seq<Action>, a: Action, id: string, c: string)
    ensures Online(actions + [a], id, c) <==>
      || (Accepted(a, id) && a.connectionID == c)
      || (Online(actions, id, c) && !Accepted(a, id) &&
          !(a.DoDisconnect? && a.browserID == id && a.connectionID == c))
  {
    var next := actions + [a];
    if Accepted(a, id) && a.connectionID == c {
      assert OnlineSince(next, id, c, |actions|);
    }
    if i: nat :| OnlineSince(actions, id, c, i) {
      assert forall j :: i < j < |actions| ==> next[j] == actions[j];
      if !Accepted(a, id) && !(a.DoDisconnect? && a.browserID == id && a.connectionID == c) {
        assert OnlineSince(next, id, c, i);
      }
    }
    if i: nat :| OnlineSince(next, id, c, i) {
      if i < |actions| {
        assert forall j :: i <= j < |actions| ==> next[j] == actions[j];
        assert OnlineSince(actions, id, c, i);
        assert next[|actions|] == a;
      }
    }
  }

  lemma OwnsAfterStep(browsers: Browsers, a: Action, id: string, c: string)
    ensures Owns(Step(browsers, a), id, c) <==>
      || (Accepted(a, id) && a.connectionID == c)
      || (Owns(browsers, id, c) && !Accepted(a, id) &&
          !(a.DoDisconnect? && a.browserID == id && a.connectionID == c))
  {
    hide NormalizedStrings, Trim;
  }

  /** A browser is connected through `c` if and only if its last registration was through
      `c` and `c` did not disconnect it since. */
  lemma {:induction false} OwnsIffOnline(actions: seq<Action>, id: string, c: string)
    ensures Owns(Run(actions), id, c) <==> Online(actions, id, c)
  {
    hide Step, Accepted;
    if actions != [] {
      var init, a := actions[..|actions| - 1], actions[|actions| - 1];
      OwnsIffOnline(init, id, c);
      OnlineAfter(init, a, id, c);
      OwnsAfterStep(Run(init), a, id, c);
      assert init + [a] == actions;
    }
  }

  /** Event `k` was heard from the connection of `id`. */
  ghost predicate Contact(actions: seq<Action>, k: nat, id: string) {
    && k < |actions|
    && (Accepted(actions[k], id) ||
        ((actions[k].DoDisconnect? || actions[k].DoTouch? || actions[k].DoUpdateCapabilities? ||
          (actions[k].DoRecordLatency? && actions[k].latency >= 0)) &&
         actions[k].browserID == id && Online(actions[..k], id, actions[k].connectionID)))
  }

  ghost predicate LastContact(actions: seq<Action>, k: nat, id: string) {
    Contact(actions, k, id) && forall m: nat :: k < m < |actions| ==> !Contact(actions, m, id)
  }

  lemma ContactAfter(actions: seq<Action>, a: Action, id: string, k: nat)
    requires k < |actions|
    ensures Contact(actions + [a], k, id) <==> Contact(actions, k, id)
  {
    assert (actions + [a])[..k] == actions[..k];
  }

  lemma LastContactAfter(actions: seq<Action>, a: Action, id: string, k: nat)
    requires LastContact(actions, k, id) && !Contact(actions + [a], |actions|, id)
    ensures LastContact(actions + [a], k, id)
  {
    forall m: nat | k <= m < |actions|
      ensures Contact(actions + [a], m, id) <==> Contact(actions, m, id)
    {
      ContactAfter(actions, a, id, m);
    }
  }

  /** The last-seen time is that of the last contact. */
  lemma {:induction false} LastSeenIsTheLastContact(actions: seq<Action>, id: string)
    requires id in Run(actions)
    ensures exists k: nat :: LastContact(actions, k, id) && Run(actions)[id].browser.lastSeen == actions[k].now
  {
    var init, a := actions[..|actions| - 1], actions[|actions| - 1];
    assert init + [a] == actions;
    if Contact(actions, |init|, id) {
      assert LastContact(actions, |init|, id);
      if !Accepted(a, id) { OwnsIffOnline(init, id, a.connectionID); }
    } else {
      if Fenced(a) { OwnsIffOnline(init, a.browserID, a.connectionID); }
      LastSeenIsTheLastContact(init, id);
      var k: nat :| LastContact(init, k, id) && Run(init)[id].browser.lastSeen == init[k].now;
      LastContactAfter(init, a, id, k);
    }
  }

  /** Disconnect `k` took `id` offline, and nothing registered it since. */
  ghost predicate WentOffline(actions: seq<Action>, id: string, k: nat) {
    && k < |actions| && actions[k].DoDisconnect? && actions[k].browserID == id
    && Online(actions[..k], id, actions[k].connectionID)
    && forall m :: k < m < |actions| ==> !Accepted(actions[m], id)
  }

  lemma OfflineAfter(actions: seq<Action>, a: Action, id: string, k: nat)
    requires k < |actions| && !Accepted(a, id)
    ensures WentOffline(actions + [a], id, k) <==> WentOffline(actions, id, k)
  {
    var next := actions + [a];
    assert next[..k] == actions[..k];
    assert forall m :: 0 <= m < |actions| ==> next[m] == actions[m];
    assert next[|actions|] == a;
  }

  lemma OfflineStep(browsers: Browsers, a: Action, id: string)
    requires id in Step(browsers, a)
    ensures var after := Step(browsers, a)[id].browser;
      if Accepted(a, id) then after.connected
      else
        && id in browsers
        && var b := browsers[id].browser;
           if a.DoDisconnect? && a.browserID == id && Owns(browsers, id, a.connectionID) then
             !after.connected && after.disconnectedAt == Some(a.now) && after.disconnectReason == Trim(a.reason)
           else
             && after.connected == b.connected && after.disconnectedAt == b.disconnectedAt
             && after.disconnectReason == b.disconnectReason
  {
    hide NormalizedStrings, Trim;
  }

  /** A retained browser that went offline shows when and why. */
  lemma {:induction false} OfflineIsRecorded(actions: seq<Action>, id: string, k: nat)
    requires id in Run(actions) && WentOffline(actions, id, k)
    ensures var b := Run(actions)[id].browser;
      !b.connected && b.disconnectedAt == Some(actions[k].now) && b.disconnectReason == Trim(actions[k].reason)
  {
    hide Step, Online, Trim;
    var init, a := actions[..|actions| - 1], actions[|actions| - 1];
    assert init + [a] == actions;
    OfflineStep(Run(init), a, id);
    if k == |init| {
      OwnsIffOnline(init, id, a.connectionID);
    } else {
      OfflineAfter(init, a, id, k);
      OfflineIsRecorded(init, id, k);
    }
  }

  /** A retained browser is offline if and only if a disconnect took it offline. */
  lemma {:induction false} OfflineIff(actions: seq<Action>, id: string)
    requires id in Run(actions)
    ensures !Run(actions)[id].browser.connected <==> exists k: nat :: WentOffline(actions, id, k)
  {
    hide Step, Online, Trim;
    if k: nat :| WentOffline(actions, id, k) {
      OfflineIsRecorded(actions, id, k);
    }
    if !Run(actions)[id].browser.connected {
      var init, a := actions[..|actions| - 1], actions[|actions| - 1];
      assert init + [a] == actions;
      OfflineStep(Run(init), a, id);
      if Run(init)[id].browser.connected {
        OwnsIffOnline(init, id, a.connectionID);
        assert WentOffline(actions, id, |init|);
      } else {
        OfflineIff(init, id);
        var k: nat :| WentOffline(init, id, k);
        OfflineAfter(init, a, id, k);
      }
    }
  }

  /** Event `j` prunes `id`: it went offline before the cutoff. */
  ghost predicate Forgets(actions: seq<Action>, j: nat, id: string) {
    && j < |actions| && actions[j].DoPrune?
    && exists k: nat :: WentOffline(actions[..j], id, k) && actions[k].now < actions[j].cutoff
  }

  /** Event `i` registered `id`, and no pruning removed it since. */
  ghost predicate KnownSince(actions: seq<Action>, id: string, i: nat) {
    && i < |actions| && Accepted(actions[i], id)
    && forall j: nat :: i < j < |actions| ==> !Forgets(actions, j, id)
  }

  lemma KnownAfter(actions: seq<Action>, a: Action, id: string, i: nat)
    requires i < |actions|
    ensures KnownSince(actions + [a], id, i) <==>
      KnownSince(actions, id, i) && !Forgets(actions + [a], |actions|, id)
  {
    var next := actions + [a];
    forall j: nat | j < |actions|
      ensures Forgets(next, j, id) <==> Forgets(actions, j, id)
    {
      assert next[..j] == actions[..j];
      assert forall k: nat :: k < j ==> next[k] == actions[k];
    }
  }

  /** A browser is retained if and only if it registered and no pruning removed it since. */
  lemma {:induction false} KnownIff(actions: seq<Action>, id: string)
    ensures id in Run(actions) <==> exists i: nat :: KnownSince(actions, id, i)
  {
    if actions != [] {
      var init, a := actions[..|actions| - 1], actions[|actions| - 1];
      assert init + [a] == actions && actions[..|init|] == init;
      KnownIff(init, id);
      if id in Run(init) { ForgetsIff(actions, id); }
      if Accepted(a, id) {
        assert KnownSince(actions, id, |init|);
      } else {
        if i: nat :| KnownSince(actions, id, i) {
          KnownAfter(init, a, id, i);
        }
        if id in Run(actions) {
          var i: nat :| KnownSince(init, id, i);
          KnownAfter(init, a, id, i);
        }
      }
    }
  }

  lemma ForgetsIff(actions: seq<Action>, id: string)
    requires actions != [] && id in Run(actions[..|actions| - 1])
    ensures Forgets(actions, |actions| - 1, id) <==> id !in Run(actions)
  {
    hide Online, Consistent, EntryOk, Step, Prune;
    var init, a := actions[..|actions| - 1], actions[|actions| - 1];
    assert forall k :: 0 <= k < |init| ==> init[k] == actions[k];
    OfflineIff(init, id);
    forall k: nat | WentOffline(init, id, k)
      ensures Run(init)[id].browser.disconnectedAt == Some(actions[k].now)
    {
      OfflineIsRecorded(init, id, k);
    }
    PruningForgets(init, a, id);
  }

  lemma PruningForgets(init: seq<Action>, a: Action, id: string)
    requires id in Run(init)
    ensures var b := Run(init)[id].browser;
      id !in Step(Run(init), a) <==>
        a.DoPrune? && !b.connected && b.disconnectedAt.Some? && b.disconnectedAt.value < a.cutoff
    ensures !Run(init)[id].browser.connected ==> Run(init)[id].browser.disconnectedAt.Some?
  {
    EveryRunIsConsistent(init);
  }

  /** Event `k` measured the latency of `id`. */
  ghost predicate Measures(actions: seq<Action>, k: nat, id: string) {
    && k < |actions| && actions[k].DoRecordLatency? && actions[k].browserID == id && actions[k].latency >= 0
    && Online(actions[..k], id, actions[k].connectionID)
  }

  /** No other measurement and no registration followed. */
  ghost predicate LastMeasures(actions: seq<Action>, k: nat, id: string) {
    && Measures(actions, k, id)
    && forall m: nat :: k < m < |actions| ==> !Measures(actions, m, id) && !Accepted(actions[m], id)
  }

  lemma MeasuresAfter(actions: seq<Action>, a: Action, id: string, k: nat)
    requires k < |actions|
    ensures LastMeasures(actions + [a], k, id) <==>
      LastMeasures(actions, k, id) && !Measures(actions + [a], |actions|, id) && !Accepted(a, id)
  {
    var next := actions + [a];
    assert next[|actions|] == a;
    forall m: nat | m < |actions|
      ensures Measures(next, m, id) <==> Measures(actions, m, id)
    {
      assert next[..m] == actions[..m];
    }
  }

  lemma LatencyOfStep(browsers: Browsers, a: Action, id: string)
    requires id in Step(browsers, a)
    ensures var after := Step(browsers, a)[id].browser.latencyMS;
      if Accepted(a, id) then after == None
      else
        && id in browsers
        && after == if a.DoRecordLatency? && a.browserID == id && a.latency >= 0 && Owns(browsers, id, a.connectionID)
                    then Some(a.latency / 1_000_000)
                    else browsers[id].browser.latencyMS
  {
    hide NormalizedStrings, Trim;
  }

  lemma LatencyStep(init: seq<Action>, a: Action, id: string)
    requires id in Run(init + [a])
    ensures var before, after := Run(init), Run(init + [a])[id].browser.latencyMS;
      if Accepted(a, id) then after == None
      else
        && id in before
        && after == if Measures(init + [a], |init|, id) then Some(a.latency / 1_000_000)
                    else before[id].browser.latencyMS
  {
    hide Step, Online, Trim;
    assert (init + [a])[..|init|] == init;
    LatencyOfStep(Run(init), a, id);
    if a.DoRecordLatency? { OwnsIffOnline(init, id, a.connectionID); }
  }

  lemma MeasuresNow(init: seq<Action>, a: Action, id: string)
    ensures LastMeasures(init + [a], |init|, id) <==> Measures(init + [a], |init|, id)
    ensures Accepted(a, id) ==> !Measures(init + [a], |init|, id)
    ensures forall k: nat :: LastMeasures(init, k, id) ==> k < |init|
    ensures forall k: nat :: LastMeasures(init + [a], k, id) ==> k <= |init|
  {
  }

  /** The latency shown is the one measured last through the current connection, in
      milliseconds, if there is one. */
  lemma {:induction false} LatencyIsTheLastMeasured(actions: seq<Action>, id: string)
    requires id in Run(actions)
    ensures Run(actions)[id].browser.latencyMS.Some? <==> exists k: nat :: LastMeasures(actions, k, id)
    ensures forall k: nat :: LastMeasures(actions, k, id) ==>
      actions[k].DoRecordLatency? && Run(actions)[id].browser.latencyMS == Some(actions[k].latency / 1_000_000)
  {
    assert actions != [];
    hide *;
    var init, a := actions[..|actions| - 1], actions[|actions| - 1];
    assert init + [a] == actions;
    LatencyStep(init, a, id);
    MeasuresNow(init, a, id);
    if !Accepted(a, id) { LatencyIsTheLastMeasured(init, id); }
    forall k: nat | k < |init|
      ensures LastMeasures(actions, k, id) <==>
        LastMeasures(init, k, id) && !Measures(actions, |init|, id) && !Accepted(a, id)
    {
      MeasuresAfter(init, a, id, k);
    }
    MeasuresSomething(actions, id);
  }

  lemma MeasuresSomething(actions: seq<Action>, id: string)
    ensures forall k: nat :: Measures(actions, k, id) ==> k < |actions| && actions[k].DoRecordLatency?
    ensures forall k: nat :: LastMeasures(actions, k, id) ==> k < |actions| && actions[k].DoRecordLatency?
  {
  }

  /** Event `k` gives `id` a name. */
  ghost predicate Names(actions: seq<Action>, k: nat, id: string) {
    && k < |actions|
    && ((Accepted(actions[k], id) && Trim(actions[k].registration.displayName) != "") ||
        (actions[k].DoRename? && actions[k].browserID == id && Trim(actions[k].displayName) != "" &&
         id in Run(actions[..k])))
  }

  function NameGiven(a: Action): string
    requires a.DoRegister? || a.DoRename?
  {
    Trim(if a.DoRegister? then a.registration.displayName else a.displayName)
  }

  /** No other name was given since, and `id` was not forgotten. */
  ghost predicate LastNames(actions: seq<Action>, k: nat, id: string) {
    && Names(actions, k, id)
    && forall m: nat :: k < m < |actions| ==> !Names(actions, m, id) && id in Run(actions[..m])
  }

  lemma NamesAfter(actions: seq<Action>, a: Action, id: string, k: nat)
    requires k < |actions|
    ensures LastNames(actions + [a], k, id) <==>
      LastNames(actions, k, id) && !Names(actions + [a], |actions|, id) && id in Run(actions)
  {
    var next := actions + [a];
    assert next[|actions|] == a && next[..|actions|] == actions;
    forall m: nat | m < |actions|
      ensures Names(next, m, id) <==> Names(actions, m, id)
      ensures next[..m] == actions[..m]
    {
      assert next[..m] == actions[..m];
    }
  }

  lemma NameOfStep(browsers: Browsers, a: Action, id: string)
    requires id in Step(browsers, a) && (id in browsers ==> browsers[id].browser.displayName != "")
    ensures var after := Step(browsers, a)[id].browser.displayName;
      if Accepted(a, id) && Trim(a.registration.displayName) != "" then after == Trim(a.registration.displayName)
      else if a.DoRename? && a.browserID == id && Trim(a.displayName) != "" then
        id in browsers && after == Trim(a.displayName)
      else if id in browsers then after == browsers[id].browser.displayName
      else after == id
  {
    hide NormalizedStrings, Trim;
  }

  lemma NameStep(init: seq<Action>, a: Action, id: string)
    requires id in Run(init + [a])
    ensures var before, after := Run(init), Run(init + [a])[id].browser.displayName;
      if Names(init + [a], |init|, id) then (a.DoRegister? || a.DoRename?) && after == NameGiven(a)
      else if id in before then after == before[id].browser.displayName
      else after == id
  {
    hide NormalizedStrings, Trim, Step;
    assert (init + [a])[..|init|] == init;
    assert Run(init + [a]) == Step(Run(init), a);
    NamesAreNotEmpty(init, id);
    NameOfStep(Run(init), a, id);
  }

  lemma NamesAreNotEmpty(actions: seq<Action>, id: string)
    ensures id in Run(actions) ==> Run(actions)[id].browser.displayName != ""
  {
    EveryRunIsConsistent(actions);
  }

  lemma NamesNow(init: seq<Action>, a: Action, id: string)
    ensures LastNames(init + [a], |init|, id) <==> Names(init + [a], |init|, id)
    ensures forall k: nat :: LastNames(init + [a], k, id) ==>
      k < |init + [a]| && ((init + [a])[k].DoRegister? || (init + [a])[k].DoRename?)
    ensures forall k: nat :: LastNames(init, k, id) ==> k < |init| && (init[k].DoRegister? || init[k].DoRename?)
  {
  }

  /** A browser has the name it was given last, by a registration or a renaming, or else
      its id for a name. */
  lemma {:induction false} NameIsTheLastGiven(actions: seq<Action>, id: string)
    requires id in Run(actions)
    ensures forall k: nat :: LastNames(actions, k, id) ==>
      (actions[k].DoRegister? || actions[k].DoRename?) && Run(actions)[id].browser.displayName == NameGiven(actions[k])
    ensures Run(actions)[id].browser.displayName == id || exists k: nat :: LastNames(actions, k, id)
  {
    assert actions != [];
    hide *;
    var init, a := actions[..|actions| - 1], actions[|actions| - 1];
    assert init + [a] == actions;
    NameStep(init, a, id);
    NamesNow(init, a, id);
    if id in Run(init) { NameIsTheLastGiven(init, id); }
    forall k: nat | k < |init|
      ensures LastNames(actions, k, id) <==>
        LastNames(init, k, id) && !Names(actions, |init|, id) && id in Run(init)
    {
      NamesAfter(init, a, id, k);
    }
  }

  /** A registration starts a new snapshot; the first one sets the first-seen time. */
  lemma RegistrationIsRecorded(actions: seq<Action>, g: Registration, c: string, now: int)
    requires Trim(g.browserID) != "" && c != ""
    ensures var before, after := Run(actions), Run(actions + [DoRegister(g, c, now)]);
      && g.browserID in after && after[g.browserID].connection == Some(c)
      && var b := after[g.browserID].browser;
         && b.connectionID == c && b.details == g.details && b.connectedAt == now && b.latencyMS == None
         && b.disconnectReason == "" && (g.browserID !in before ==> b.firstSeen == now)
  {
    assert (actions + [DoRegister(g, c, now)])[..|actions|] == actions;
  }

  // ---------------------------------------------------------------------
  // The registry object
  // ---------------------------------------------------------------------

  /** Each method is one critical section. */
  class Registry {
    var browsers: Browsers

    constructor ()
      ensures browsers == map[]
    {
      browsers := map[];
    }

    /** Also returns the connection that was replaced, for the caller to close. */
    method RegisterBrowser(g: Registration, connectionID: string, now: int) returns (ok: bool, replaced: Option<string>)
      modifies this
      ensures browsers == Register(old(browsers), g, connectionID, now)
      ensures ok == Acceptable(g, connectionID)
      ensures replaced == if ok && g.browserID in old(browsers) then old(browsers)[g.browserID].connection else None
    {
      if Trim(g.browserID) == "" || connectionID == "" { return false, None; }
      var capabilities := Normalize(g.capabilities);
      var permissions := Normalize(g.permissions);
      var browser := Browser(g.browserID, connectionID, Trim(g.displayName), g.details, capabilities, permissions,
                             now, now, now, None, "", None, true);
      replaced := None;
      if g.browserID in browsers {
        var previous := browsers[g.browserID];
        browser := browser.(firstSeen := previous.browser.firstSeen);
        if browser.displayName == "" {
          browser := browser.(displayName := previous.browser.displayName);
        }
        replaced := previous.connection;
      }
      if browser.displayName == "" {
        browser := browser.(displayName := g.browserID);
      }
      browsers := browsers[g.browserID := Entry(browser, Some(connectionID))];
      ok := true;
    }

    method DisconnectBrowser(browserID: string, connectionID: string, reason: string, now: int) returns (ok: bool)
      modifies this
      ensures browsers == Disconnect(old(browsers), browserID, connectionID, reason, now)
      ensures ok == Owns(old(browsers), browserID, connectionID)
    {
      if !Owns(browsers, browserID, connectionID) { return false; }
      var b := browsers[browserID].browser;
      b := b.(connected := false, lastSeen := now, disconnectedAt := Some(now), disconnectReason := Trim(reason));
      browsers := browsers[browserID := Entry(b, None)];
      ok := true;
    }

    method TouchBrowser(browserID: string, connectionID: string, now: int) returns (ok: bool)
      modifies this
      ensures browsers == Touch(old(browsers), browserID, connectionID, now)
      ensures ok == Owns(old(browsers), browserID, connectionID)
    {
      if !Owns(browsers, browserID, connectionID) { return false; }
      var e := browsers[browserID];
      browsers := browsers[browserID := e.(browser := e.browser.(lastSeen := now))];
      ok := true;
    }

    method UpdateBrowserCapabilities(browserID: string, connectionID: string,
                                     capabilities: seq<string>, permissions: seq<string>, now: int) returns (ok: bool)
      modifies this
      ensures browsers == UpdateCapabilities(old(browsers), browserID, connectionID, capabilities, permissions, now)
      ensures ok == Owns(old(browsers), browserID, connectionID)
    {
      if !Owns(browsers, browserID, connectionID) { return false; }
      var e := browsers[browserID];
      var newCapabilities := Normalize(capabilities);
      var newPermissions := Normalize(permissions);
      browsers := browsers[browserID := e.(browser := e.browser.(capabilities := newCapabilities,
                                                                 permissions := newPermissions, lastSeen := now))];
      ok := true;
    }

    method RecordBrowserLatency(browserID: string, connectionID: string, latency: int, now: int) returns (ok: bool)
      modifies this
      ensures browsers == RecordLatency(old(browsers), browserID, connectionID, latency, now)
      ensures ok == (latency >= 0 && Owns(old(browsers), browserID, connectionID))
    {
      if latency < 0 { return false; }
      if !Owns(browsers, browserID, connectionID) { return false; }
      var e := browsers[browserID];
      var b := e.browser.(latencyMS := Some(latency / 1_000_000), lastSeen := now);
      browsers := browsers[browserID := e.(browser := b)];
      ok := true;
    }

    method PruneDisconnected(cutoff: int) returns (removed: nat)
      modifies this
      ensures browsers == Prune(old(browsers), cutoff)
      ensures removed == |old(browsers)| - |browsers|
    {
      removed := 0;
      var todo := browsers.Keys;
      while todo != {}
        invariant todo <= old(browsers).Keys
        invariant forall id :: id in browsers <==>
          id in old(browsers) && (id in todo || !Prunable(old(browsers)[id], cutoff))
        invariant forall id :: id in browsers ==> browsers[id] == old(browsers)[id]
        invariant removed == |old(browsers)| - |browsers|
        decreases todo
      {
        var id :| id in todo;
        todo := todo - {id};
        var e := browsers[id];
        if !e.browser.connected && e.browser.disconnectedAt.Some? && e.browser.disconnectedAt.value < cutoff {
          assert (browsers - {id}).Keys == browsers.Keys - {id};
          browsers := browsers - {id};
          removed := removed + 1;
        }
      }
    }

    method RouteCommand(browserID: string, capability: string) returns (result: RouteResult)
      requires Consistent(browsers)
      ensures result == Route(browsers, browserID, capability)
    {
      if browserID !in browsers { return BrowserNotFound; }
      var current := browsers[browserID];
      if !current.browser.connected || current.connection.None? { return BrowserDisconnected; }
      assert EntryOk(browserID, current);
      var advertised := ContainsString(current.browser.capabilities, capability);
      if !advertised { return CapabilityUnavailable; }
      result := Granted(current.connection.value);
    }
  }
}
