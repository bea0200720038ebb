# ShooterGame front-end flow state machine, in Dafny

`UShooterGameInstance` drives the game's front end: login screen, main menu, message
boxes, pending invites and play. Its one piece of real logic is a small state machine:

- six named states (`None`, `LoginScreen` (named "Login"), `PendingInvite`, `MainMenu`,
  `MessageMenu`, `Playing`);
- a current state, a single pending-request slot, and a queued message (text, two button
  captions, the state to go to afterwards, the owning player);
- `GotoState` only records a request. `MaybeChangeState` runs once per `Tick`. It applies
  the request by running the current state's exit hook and then the new state's enter
  hook, and then it clears the request;
- `ShowMessageThenGotoState` queues "show this message, then go to state X". Four priority
  rules decide whether the request may replace what is already queued. Once the message
  is shown, only its text is cleared. The button captions, next state and owner stay, and
  the second and third rules read the next state.

This project models that machine as an immutable record `Machine(current, pending, msg)`
with pure transition functions, and proves what each transition promises. It also models
the "launch" guard, which starts play only when nothing else is pending. It covers every
call site of that guard: `LoadMissionLevel`, online `HostGame`, `HostQuickSession`, both
`JoinSession` overloads and `OnJoinRTSession`. It also models two entry points that
request `Playing` without the guard, `TravelToSession` and `BeginHostingQuickMatch`, and
the peer-id lookup over the real-time session's player list.

Files and modules:

- `flow_state.dfy` (`FlowState`): states, message, machine record, `GotoState`, initial state.
- `state_machine.dfy` (`StateMachine`): exit and enter hooks, `MaybeChangeState`,
  `ShowMessageThenGotoState`, `Tick`.
- `launch.dfy` (`Launch`): `LoadMissionLevel`, `HostGame`, `HostQuickSession`, `JoinSession`,
  `OnJoinRTSession`, `TravelToSession`, `BeginHostingQuickMatch`.
- `rt_players.dfy` (`RtPlayers`): `GetRTPlayerFromPeerId`.
- `wrappers.dfy` (`Wrappers`): `Option`, which stands for a possibly-null shared pointer.

Inputs from the engine are parameters:

- `Env.loggedIn` means the identity interface is valid and user 0 is logged in.
- `Env.mainMenuMapLoads` is the result of `LoadFrontEndMap(MainMenuMap)`.
- `TickEnv` adds whether this is a dedicated server and whether the game is licensed.
- `SessionCall` stands for the host or join call into the game session. There may be
  no game session. If there is one, the call reports whether it started and gives the
  machine as it is after the call returns.

A subtlety the model makes explicit: two enter hooks can request a state themselves.
`BeginMessageMenuState` requests the initial state when the message is empty, and
`BeginPendingInviteState` requests the login screen when the main-menu map fails to load.
During a tick, `MaybeChangeState` clears the pending slot *after* the enter hook returns,
so such a request is discarded (`TickDiscardsMessageMenuRedirect`,
`TickDiscardsPendingInviteRedirect`). When `ShowMessageThenGotoState` re-enters the message
menu directly, the request survives (`DirectReentryKeepsRedirect`).

## Model

| member | source | states |
|---|---|---|
| FlowState.NameInjective | Source/ShooterGame/Private/ShooterGameInstance.cpp:87-95 | the six state names ("Login" for the login screen) stay pairwise distinct after folding case, so the case-insensitive `FName` comparison is comparing the states |
| FlowState.GetInitialState | Source/ShooterGame/Private/ShooterGameInstance.cpp:935-950 | the initial state is the main menu exactly when user 0 is logged in and the login screen otherwise; it is never `None`, the message menu, a pending invite or play |
| FlowState.GotoState | Source/ShooterGame/Private/ShooterGameInstance.cpp:1132-1137 | a request sets the pending slot to the requested state and changes neither the current state nor the message |
| FlowState.LastRequestWins | Source/ShooterGame/Private/ShooterGameInstance.cpp:1132-1137 | requests are not queued: a second request before a tick overwrites the first |
| FlowState.GotoInitialState | Source/ShooterGame/Private/ShooterGameInstance.cpp:952-955 | requests the main menu when logged in, else the login screen, touching nothing else |
| StateMachine.EndCurrentState | Source/ShooterGame/Private/ShooterGameInstance.cpp:1156-1181 | after the exit hook the current state is `None`; no exit hook changes the pending slot or the message |
| StateMachine.BeginPendingInviteState | Source/ShooterGame/Private/ShooterGameInstance.cpp:1211-1221 | if the main-menu map fails to load, the login screen is requested; otherwise the pending slot is untouched; the current state and the message never change |
| StateMachine.BeginMessageMenuState | Source/ShooterGame/Private/ShooterGameInstance.cpp:1356-1373 | an empty message requests the initial state; a non-empty one keeps the pending slot; either way the text ends up empty, so it is consumed, and the other message fields are kept |
| StateMachine.MessageShownAtMostOnce | Source/ShooterGame/Private/ShooterGameInstance.cpp:1356-1373 | entering the message menu twice with no new message makes the second entry request the initial state |
| StateMachine.BeginNewState | Source/ShooterGame/Private/ShooterGameInstance.cpp:1183-1209 | the new state becomes current. Other states' hooks leave the pending slot and message alone. Pending invite: the message is kept, and the login screen is requested exactly when the main-menu map fails to load. Message menu: only the text is cleared, and the initial state is requested exactly when the text was empty |
| StateMachine.MaybeChangeState | Source/ShooterGame/Private/ShooterGameInstance.cpp:1139-1154 | with no request waiting (pending is `None` or equal to current) nothing changes; otherwise the old pending state becomes current and the slot is cleared, even if the enter hook made a request; entering the message menu clears only the message text, and every other transition leaves the message alone |
| StateMachine.MaybeChangeStateIdempotent | Source/ShooterGame/Private/ShooterGameInstance.cpp:1139-1154 | two ticks with no new request in between are the same as one |
| StateMachine.TicksSettleAfterOne | Source/ShooterGame/Private/ShooterGameInstance.cpp:1139-1154 | any number (one or more) of ticks with no new request in between equals a single tick |
| StateMachine.TickDiscardsMessageMenuRedirect | Source/ShooterGame/Private/ShooterGameInstance.cpp:1139-1154 | entering the message menu with an empty message requests the initial state, but the tick clears that request and the machine stays in the message menu with nothing pending |
| StateMachine.TickDiscardsPendingInviteRedirect | Source/ShooterGame/Private/ShooterGameInstance.cpp:1211-1221 | the pending-invite hook's fallback to the login screen is likewise cleared by the tick, leaving the machine in the pending-invite state |
| StateMachine.ShowMessageThenGotoState | Source/ShooterGame/Private/ShooterGameInstance.cpp:957-1010 | each of the four priority rules makes the call a no-op: login screen pending or current; a queued message already going to the same state, unless overriding; a queued message going to the login screen; destination already pending or current, unless overriding. Otherwise the buttons, next state and owner are recorded, and the message menu is requested (text kept) or, if it is current, re-entered at once (text consumed, initial state requested if the text was empty) |
| StateMachine.ShowMessageThenGoMain | Source/ShooterGame/Private/ShooterGameInstance.cpp:1122-1125 | a message that leads to the main menu, under the same four priority rules: when a rule applies nothing changes. Otherwise, outside the message menu, the message menu is requested with the full message recorded and the current state kept. In the message menu, the message is shown at once: its text is consumed, the buttons, next state and owner are recorded, and the initial state is requested only if the text was empty |
| StateMachine.DirectReentryKeepsRedirect | Source/ShooterGame/Private/ShooterGameInstance.cpp:994-1005 | when the message menu is current, an accepted empty message leaves the initial state pending, and the request is not cleared |
| StateMachine.LoginTargetIgnoresOverride | Source/ShooterGame/Private/ShooterGameInstance.cpp:961-992 | for a message that leads to the login screen, the override flag makes no difference |
| StateMachine.LoginScreenIsNeverOverridden | Source/ShooterGame/Private/ShooterGameInstance.cpp:961-968 | once the login screen is pending or current, no sequence of message requests changes the machine |
| StateMachine.LoginMessageIsNeverReplaced | Source/ShooterGame/Private/ShooterGameInstance.cpp:980-985 | once a message leading to the login screen is queued or shown, no sequence of message requests changes the machine |
| StateMachine.Tick | Source/ShooterGame/Private/ShooterGameInstance.cpp:1870-1897 | a dedicated server does nothing. A licensed tick, or one that settles at the login screen or `None`, is exactly `MaybeChangeState`. An unlicensed tick that settles anywhere else always ends with a message whose next state is the login screen. Outside the message menu that message is the licence text with an OK button, the message menu is requested, and the settled state stays current. In the message menu, a message already leading to the login screen is kept; otherwise the licence text is shown at once, leaving an empty text, an OK button and the login screen as next state, and the pending slot is untouched |
| StateMachine.StartFromInitial | Source/ShooterGame/Private/ShooterGameInstance.cpp:97-103 | from the freshly constructed machine, requesting the initial state and ticking once makes it current, with nothing pending and no message |
| Launch.LaunchPlaying | Source/ShooterGame/Private/ShooterGameInstance.cpp:1578-1583 | `Playing` is requested exactly when nothing other than the current state is pending; otherwise nothing changes |
| Launch.LaunchKeepsRealRequests | Source/ShooterGame/Private/ShooterGameInstance.cpp:1576-1587 | a launch only overwrites a pending slot that a tick would have ignored anyway |
| Launch.LaunchThenTickPlays | Source/ShooterGame/Private/ShooterGameInstance.cpp:1576-1587 | after a successful launch from outside play, the next tick makes `Playing` current with nothing pending |
| Launch.LoadMissionLevel | Source/ShooterGame/Private/ShooterGameInstance.cpp:1576-1587 | with nothing pending, `Playing` is requested and the map load's result is returned; otherwise nothing changes and the result is false |
| Launch.LaunchAfterSessionCall | Source/ShooterGame/Private/ShooterGameInstance.cpp:1610-1638 | with no game session nothing changes and the result is false; otherwise success means the call started and nothing was pending afterwards, and then `Playing` is requested on the post-call machine |
| Launch.HostGame | Source/ShooterGame/Private/ShooterGameInstance.cpp:1589-1639 | offline: `Playing` is requested unconditionally and the result is true. Online, with no game session: nothing changes and the result is false. Otherwise the result is true exactly when hosting started and nothing was pending afterwards. On success the machine is the post-call one with `Playing` requested; on failure it is the post-call machine unchanged |
| Launch.HostQuickSession | Source/ShooterGame/Private/ShooterGameInstance.cpp:1534-1574 | with no game session nothing changes and the result is false. Otherwise the result is true exactly when hosting started and nothing was pending afterwards. On success the machine is the post-call one with `Playing` requested; on failure it is the post-call machine unchanged |
| Launch.TravelToSession | Source/ShooterGame/Private/ShooterGameInstance.cpp:1763-1809 | `Playing` is requested whatever is pending (lines 2257-2264), and with a controller and an online subsystem nothing else changes. Without a controller, or else without an online subsystem, the failure message ("Invalid Player Controller", "OSS missing") to the main menu goes through the priority rules. If a rule drops it, `Playing` stays pending. If the message menu is current, the message is shown at once and `Playing` stays pending. Otherwise the message is recorded in full and the message menu replaces `Playing` as the request |
| Launch.FailedTravelReplacesPlaying | Source/ShooterGame/Private/ShooterGameInstance.cpp:1767-1774 | without a controller, from a machine where no priority rule applies, the travel ends with the message menu requested and the "Invalid Player Controller" text queued, in place of `Playing` |
| Launch.BeginHostingQuickMatch | Source/ShooterGame/Private/ShooterGameInstance.cpp:2465-2472 | requests `Playing` whatever is pending; nothing else changes |
| Launch.OfflineHostIgnoresGuard | Source/ShooterGame/Private/ShooterGameInstance.cpp:1591-1603 | the offline host path overwrites a real pending request, which every guarded path would keep |
| Launch.JoinSession | Source/ShooterGame/Private/ShooterGameInstance.cpp:1641-1693 | with no game session nothing changes and the result is false. Otherwise the result is true exactly when the join started and nothing was pending afterwards. On success the machine is the post-call one with `Playing` requested; on failure it is the post-call machine unchanged |
| Launch.OnJoinRTSession | Source/ShooterGame/Private/ShooterGameInstance.cpp:558-580 | with a request pending nothing changes; with a controller, `Playing` is requested; without one, the failure message to the main menu goes through the priority rules. If a rule drops it (for example at the login screen, or with the main menu already current and no override), `Playing` stays pending. If the message menu is current, the message is shown at once and `Playing` stays pending. Otherwise the message is recorded in full and the message menu replaces `Playing` as the request |
| RtPlayers.FirstIndexOfPeer | Source/ShooterGame/Private/ShooterGameInstance.cpp:702-710 | the index found is the first whose peer id matches: no earlier entry matches, and the list length means there is no match |
| RtPlayers.GetRTPlayerFromPeerId | Source/ShooterGame/Private/ShooterGameInstance.cpp:698-712 | null exactly when the session is invalid or no player has the peer id; otherwise the first player in list order with that peer id |

## Left out

- Engine side effects of every enter and exit hook are left out: split-screen, viewport,
  presence, loading and login widgets, round-end events, online mode and map loading.
  Only the hooks' effect on the pending slot and the message is modelled. `EndPlayingState`
  calls `RequestFinishAndExitToMainMenu`, which lives in game-state code that is not part of
  this model and is taken to make no state request during the tick. It also calls
  `CleanupSessionOnReturnToMenu` (ShooterGameInstance.cpp lines 1454-1500), whose body is
  entirely commented out, so it has no effect.
- BeginPendingInviteState: the branch where the main-menu map fails to load models the code
  as written. In the source, `LoadFrontEndMap` reports failure only after a `Fatal` log
  (ShooterGameInstance.cpp lines 1082-1085), which aborts the process, so the login-screen
  fallback is never reached in practice. `TickDiscardsPendingInviteRedirect` is about that
  same unreachable branch.
- LoadMissionLevel: `mapLoads = false` likewise models the code as written. A failed load
  goes through the same `Fatal` log and does not return in practice.
- TravelToSession: the travel itself (`ClientTravel`), the loading screen and the network
  failure handlers are engine calls and are left out; only the state request and the two
  failure messages are modelled.
- The default value of `OverrideExisting` and the initial contents of `PendingMessage` are
  declared in ShooterGameInstance.h, which is not part of this model. Every modelled caller
  takes `OverrideExisting` as a parameter. `Tick` passes `true`, which is sound because the
  flag is irrelevant for a message that leads to the login screen
  (`LoginTargetIgnoresOverride`). The initial message is taken to be empty.
- FText and FName are modelled as plain strings and state values. Localisation, case-insensitive
  name comparison and log output are left out.
- `GetRTPlayerFromPeerId` returns the player as a value, not a shared pointer into the list.
  The source dereferences each list entry without a null check; the model has no null
  entries. The callers `OnPlayerConnect` and `OnPlayerDisconnect` only forward to chat,
  which is out of scope.
- GameSparks matchmaking, challenge, chat and packet callbacks, and the real-time session
  build: these are asynchronous SDK calls whose behaviour lives in code that is not part of
  this model.
- Online-subsystem login, logout, friends, presence and privilege tasks, including
  `OnUserCanPlayInvite`'s request of the login screen: these are engine services.
- The `PlayerOwner` argument: `Tick`, `OnJoinRTSession` and `ShowMessageThenGoMain` rely on
  its default value, which is declared in ShooterGameInstance.h and is not part of this model.
  The model passes `NoPlayer`. The owner is only recorded, never read by the state machine.
- `RTSession->Update()` runs at the start of every tick, dedicated server included. Its
  listener callbacks are GameSparks code that is not part of this model. The model takes
  them to make no state request during the tick, so a dedicated server's tick leaves the
  machine unchanged.
- `OnPostDemoPlay`, `HandleOpenCommand` and `StartGameInstance` also request `Playing`
  without the guard. They are engine callbacks around demo playback, console commands and
  command-line URLs, and are not modelled. `TravelToSession` and `BeginHostingQuickMatch`
  stand for this unguarded pattern.
- Map loading, travel, URL browsing, `StartGameInstance`, `HandleOpenCommand`,
  `HandleSignInChangeMessaging`, demo playback and session-completion callbacks: engine
  plumbing. Only the launch guard is kept, with the engine calls as parameters.
- The pending-invite branch of `Tick`: its body is commented out in the source and has no effect.
- The Slate wait dialog and its colour curve: UI with floating point.
- Platform-specific `#if` branches (console, Xbox, PS4) and the debug encryption key: demo code.
- `RTSessionPlayerInfo` and the rest of `RTPlayer` (ID, online flag, constructors): plain
  field records. Only the peer id and display name are used.
- `ShooterDamageType`: a constructor that sets one flag, with no behaviour.
