/**
  Starting play. The entry points that load a level, host or join a session request
  `Playing` only when no other request is waiting, so that an error raised on the way
  (which queues its own state) is not overwritten. Others, such as the offline host path,
  `TravelToSession` and `BeginHostingQuickMatch`, request `Playing` unconditionally; a
  travel that fails can still replace that request with a message.
 */
module Launch {
  import opened FlowState
  import opened StateMachine

  /** The guard shared by `LoadMissionLevel`, `HostGame` (online), `HostQuickSession`,
      `JoinSession` and `OnJoinRTSession`: nothing other than the current state is pending. */
  predicate NothingPending(m: Machine)
  {
    m.pending == m.current || m.pending == None
  }

  /** The machine after a call, and the call's boolean result. */
  datatype Outcome = Outcome(machine: Machine, ok: bool)

  /** The guarded launch: request `Playing` if nothing else is pending. */
  function LaunchPlaying(m: Machine): (r: Outcome)
    ensures r.ok <==> NothingPending(m)
    ensures r.ok ==> r.machine.pending == Playing
    ensures r.machine.current == m.current && r.machine.msg == m.msg
    ensures !r.ok ==> r.machine == m
  {
    if NothingPending(m) then Outcome(GotoState(m, Playing), true) else Outcome(m, false)
  }

  /** A launch never replaces a real request: when it changes `pending`, the old value
      was `None` or the current state, neither of which a tick would act on. */
  lemma LaunchKeepsRealRequests(m: Machine, env: Env)
    ensures LaunchPlaying(m).machine.pending != m.pending ==> MaybeChangeState(m, env) == m
  {
  }

  /** After a successful launch from outside `Playing`, the next tick enters `Playing`. */
  lemma LaunchThenTickPlays(m: Machine, env: Env)
    requires NothingPending(m) && m.current != Playing
    ensures MaybeChangeState(LaunchPlaying(m).machine, env).current == Playing
    ensures MaybeChangeState(LaunchPlaying(m).machine, env).pending == None
  {
  }

  /** `LoadMissionLevel`: if nothing is pending, request `Playing` and return whether the
      map loaded (`mapLoads`); otherwise do nothing and return false. */
  function LoadMissionLevel(m: Machine, mapLoads: bool): (r: Outcome)
    ensures NothingPending(m) ==> r.machine.pending == Playing && r.ok == mapLoads
    ensures !NothingPending(m) ==> r.machine == m && !r.ok
    ensures r.machine.current == m.current && r.machine.msg == m.msg
  {
    var l := LaunchPlaying(m);
    if l.ok then Outcome(l.machine, mapLoads) else l
  }

  /** The engine call that hosts or joins a session: there may be no game session; if
      there is one, the call reports whether it started, and `after` is the machine once
      it returned (its failure callbacks may already have queued a state). */
  datatype SessionCall = NoGameSession | Called(started: bool, after: Machine)

  /** The guarded tail shared by the online `HostGame` path, `HostQuickSession` and `JoinSession`. */
  function LaunchAfterSessionCall(m: Machine, call: SessionCall): (r: Outcome)
    ensures call.NoGameSession? ==> r == Outcome(m, false)
    ensures r.ok <==> call.Called? && call.started && NothingPending(call.after)
    ensures r.ok ==> r.machine == GotoState(call.after, Playing)
    ensures call.Called? && !r.ok ==> r.machine == call.after
  {
    match call
    case NoGameSession => Outcome(m, false)
    case Called(started, after) =>
      if started then LaunchPlaying(after) else Outcome(after, false)
  }

  /** `HostGame`: offline, go straight to `Playing` WITHOUT the guard; online, host a
      session and launch through the guard. */
  function HostGame(m: Machine, offline: bool, host: SessionCall): (r: Outcome)
    ensures offline ==> r.ok && r.machine == GotoState(m, Playing)
    ensures !offline && host.NoGameSession? ==> r == Outcome(m, false)
    ensures !offline ==> (r.ok <==> host.Called? && host.started && NothingPending(host.after))
    ensures !offline && r.ok ==> r.machine == GotoState(host.after, Playing)
    ensures !offline && host.Called? && !r.ok ==> r.machine == host.after
  {
    if offline then Outcome(GotoState(m, Playing), true)
    else LaunchAfterSessionCall(m, host)
  }

  /** `HostQuickSession`: create a session for a quick match and launch through the guard. */
  function HostQuickSession(m: Machine, host: SessionCall): (r: Outcome)
    ensures host.NoGameSession? ==> r == Outcome(m, false)
    ensures r.ok <==> host.Called? && host.started && NothingPending(host.after)
    ensures r.ok ==> r.machine == GotoState(host.after, Playing)
    ensures host.Called? && !r.ok ==> r.machine == host.after
  {
    LaunchAfterSessionCall(m, host)
  }

  /** `BeginHostingQuickMatch`: requests `Playing` unconditionally, then travels. */
  function BeginHostingQuickMatch(m: Machine): (r: Machine)
    ensures r.pending == Playing
    ensures r.current == m.current && r.msg == m.msg
  {
    GotoState(m, Playing)
  }

  /** The offline host path overwrites whatever was pending, unlike every guarded path. */
  lemma OfflineHostIgnoresGuard(m: Machine, host: SessionCall)
    requires !NothingPending(m)
    ensures HostGame(m, true, host).machine.pending == Playing
    ensures LaunchPlaying(m).machine.pending == m.pending
  {
  }

  /** `JoinSession` (both overloads, by search-result index or by search result). */
  function JoinSession(m: Machine, join: SessionCall): (r: Outcome)
    ensures join.NoGameSession? ==> r == Outcome(m, false)
    ensures r.ok <==> join.Called? && join.started && NothingPending(join.after)
    ensures r.ok ==> r.machine == GotoState(join.after, Playing)
    ensures join.Called? && !r.ok ==> r.machine == join.after
  {
    LaunchAfterSessionCall(m, join)
  }

  /** The text shown when there is no local player controller. */
  const InvalidPlayerControllerText: string := "Invalid Player Controller"

  /** The text shown when there is no online subsystem. */
  const OssMissingText: string := "OSS missing"

  /** `TravelToSession`: requests `Playing` unconditionally, then travels
      (`InternalTravelToSession`). With no local player controller, or else with no
      online subsystem, the travel fails with a message leading to the main menu, which
      passes through the priority rules like any other. */
  function TravelToSession(
    m: Machine, hasController: bool, hasOnlineSubsystem: bool,
    overrideExisting: bool, env: Env): (r: Machine)
    ensures hasController && hasOnlineSubsystem ==> r == GotoState(m, Playing)
    // The failure message is dropped by a priority rule: `Playing` stays pending.
    ensures !(hasController && hasOnlineSubsystem)
            && Suppressed(GotoState(m, Playing), MainMenu, overrideExisting) ==>
              r == GotoState(m, Playing)
    // The failure message is queued: the message menu replaces `Playing` as the request.
    ensures !(hasController && hasOnlineSubsystem) && m.current != MessageMenu
            && !Suppressed(GotoState(m, Playing), MainMenu, overrideExisting) ==>
              && r.pending == MessageMenu && r.current == m.current
              && r.msg == Message(if hasController then OssMissingText else InvalidPlayerControllerText,
                                  "OK", "", MainMenu, NoPlayer)
    // The message menu is current: the message is shown at once and `Playing` stays pending.
    ensures !(hasController && hasOnlineSubsystem) && m.current == MessageMenu
            && !Suppressed(GotoState(m, Playing), MainMenu, overrideExisting) ==>
              && r.pending == Playing && r.current == MessageMenu
              && r.msg == Message([], "OK", "", MainMenu, NoPlayer)
  {
    var p := GotoState(m, Playing);
    if !hasController then
      ShowMessageThenGoMain(p, InvalidPlayerControllerText, "OK", "", overrideExisting, NoPlayer, env)
    else if !hasOnlineSubsystem then
      ShowMessageThenGoMain(p, OssMissingText, "OK", "", overrideExisting, NoPlayer, env)
    else
      p
  }

  /** A failed travel outside the message menu and the login screen, with nothing queued,
      ends with the failure message requested instead of `Playing`. */
  lemma FailedTravelReplacesPlaying(m: Machine, hasOnlineSubsystem: bool, overrideExisting: bool, env: Env)
    requires m.current != MessageMenu && m.current != LoginScreen && m.current != MainMenu
    requires m.pending != LoginScreen && m.pending != MessageMenu && m.pending != MainMenu
    ensures TravelToSession(m, false, hasOnlineSubsystem, overrideExisting, env).pending == MessageMenu
    ensures TravelToSession(m, false, hasOnlineSubsystem, overrideExisting, env).msg.display
            == InvalidPlayerControllerText
  {
  }

  /** `OnJoinRTSession`: if nothing is pending, request `Playing`; then, if there is no
      local player controller, show a message and go to the main menu (the message
      passes through the priority rules like any other). */
  function OnJoinRTSession(m: Machine, hasController: bool, overrideExisting: bool, env: Env): (r: Machine)
    ensures !NothingPending(m) ==> r == m
    ensures NothingPending(m) && hasController ==> r == GotoState(m, Playing)
    // The failure message is dropped by a priority rule: `Playing` stays pending.
    ensures NothingPending(m) && !hasController
            && Suppressed(GotoState(m, Playing), MainMenu, overrideExisting) ==>
              r == GotoState(m, Playing)
    // The failure message is queued: the message menu replaces `Playing` as the request.
    ensures NothingPending(m) && !hasController && m.current != MessageMenu
            && !Suppressed(GotoState(m, Playing), MainMenu, overrideExisting) ==>
              && r.pending == MessageMenu && r.current == m.current
              && r.msg == Message(InvalidPlayerControllerText, "OK", "", MainMenu, NoPlayer)
    // The message menu is current: the message is shown at once and `Playing` stays pending.
    ensures NothingPending(m) && !hasController && m.current == MessageMenu
            && !Suppressed(GotoState(m, Playing), MainMenu, overrideExisting) ==>
              && r.pending == Playing && r.current == MessageMenu
              && r.msg == Message([], "OK", "", MainMenu, NoPlayer)
  {
    var l := LaunchPlaying(m);
    if !l.ok then m
    else if hasController then l.machine
    else ShowMessageThenGoMain(l.machine, InvalidPlayerControllerText, "OK", "", overrideExisting, NoPlayer, env)
  }
}
