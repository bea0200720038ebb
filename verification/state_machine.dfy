/**
  The transitions of the flow state machine: the per-state exit and enter hooks (only
  their effect on the pending slot and the message), the per-tick `MaybeChangeState`,
  the prioritised `ShowMessageThenGotoState`, and `Tick`.
 */
module StateMachine {
  import opened FlowState

  /** The engine facts the hooks consult. `loggedIn`: local user 0 is logged in (read by
      `GetInitialState`); `mainMenuMapLoads`: `LoadFrontEndMap(MainMenuMap)` succeeds. */
  datatype Env = Env(loggedIn: bool, mainMenuMapLoads: bool)

  // ---------------------------------------------------------------------------
  // Exit and enter hooks
  // ---------------------------------------------------------------------------

  /** `EndCurrentState`: runs the exit hook of the current state and leaves `current`
      at `None`. No exit hook requests a state or touches the message. */
  function EndCurrentState(m: Machine): (r: Machine)
    ensures r.current == None
    ensures r.pending == m.pending && r.msg == m.msg
  {
    m.(current := None)
  }

  /** `BeginPendingInviteState`: if the main-menu map cannot be loaded, fall back to the
      login screen; otherwise the privilege check is started (outside the model). */
  function BeginPendingInviteState(m: Machine, env: Env): (r: Machine)
    ensures r.current == m.current && r.msg == m.msg
    ensures env.mainMenuMapLoads ==> r.pending == m.pending
    ensures !env.mainMenuMapLoads ==> r.pending == LoginScreen
  {
    if env.mainMenuMapLoads then m else GotoState(m, LoginScreen)
  }

  /** `BeginMessageMenuState`: an empty message is not shown and the initial state is
      requested instead; a non-empty one is shown and its text is consumed. */
  function BeginMessageMenuState(m: Machine, env: Env): (r: Machine)
    ensures r.current == m.current
    ensures r.msg.display == []
    ensures r.msg.okButton == m.msg.okButton && r.msg.cancelButton == m.msg.cancelButton
    ensures r.msg.nextState == m.msg.nextState && r.msg.owner == m.msg.owner
    ensures m.msg.display == [] ==> r.pending == GetInitialState(env.loggedIn)
    ensures m.msg.display != [] ==> r.pending == m.pending
  {
    if |m.msg.display| == 0 then
      GotoInitialState(m, env.loggedIn)
    else
      m.(msg := m.msg.(display := []))
  }

  /** A message is shown at most once: entering the message menu a second time without
      a new message finds nothing to show and asks for the initial state. */
  lemma MessageShownAtMostOnce(m: Machine, env: Env)
    ensures BeginMessageMenuState(BeginMessageMenuState(m, env), env).pending
            == GetInitialState(env.loggedIn)
  {
  }

  /** The enter hook of `s` (the `if`/`else if` chain of `BeginNewState`), without the
      final assignment of `current`. */
  function EnterHook(m: Machine, s: State, env: Env): Machine
  {
    match s
    case PendingInvite => BeginPendingInviteState(m, env)
    case MessageMenu => BeginMessageMenuState(m, env)
    case _ => m
  }

  /** `BeginNewState`: runs the enter hook of `s`, then makes `s` current. Only the
      pending-invite and message-menu hooks can change `pending` or the message. */
  function BeginNewState(m: Machine, s: State, env: Env): (r: Machine)
    ensures r.current == s
    ensures s != PendingInvite && s != MessageMenu ==> r.pending == m.pending && r.msg == m.msg
    ensures s == PendingInvite ==> r.msg == m.msg
    ensures s == PendingInvite ==>
              r.pending == (if env.mainMenuMapLoads then m.pending else LoginScreen)
    ensures s == MessageMenu ==> r.msg == m.msg.(display := [])
    ensures s == MessageMenu ==>
              r.pending == (if m.msg.display == [] then GetInitialState(env.loggedIn) else m.pending)
  {
    EnterHook(m, s, env).(current := s)
  }

  // ---------------------------------------------------------------------------
  // The per-tick transition
  // ---------------------------------------------------------------------------

  /** A request is waiting to be applied by the next tick. */
  predicate HasRequest(m: Machine)
  {
    m.pending != m.current && m.pending != None
  }

  /** `MaybeChangeState`: if a request is waiting, end the current state, begin the
      pending one (read after the exit hook ran), then clear the request. */
  function MaybeChangeState(m: Machine, env: Env): (r: Machine)
    ensures m.pending == m.current || m.pending == None ==> r == m
    ensures m.pending != m.current && m.pending != None ==> r.current == m.pending && r.pending == None
    ensures m.pending != MessageMenu ==> r.msg == m.msg
    ensures HasRequest(m) && m.pending == MessageMenu ==> r.msg == m.msg.(display := [])
  {
    if m.pending != m.current && m.pending != None then
      var ended := EndCurrentState(m);
      var begun := BeginNewState(ended, ended.pending, env);
      begun.(pending := None)
    else
      m
  }

  /** A second tick with no new request in between does nothing. */
  lemma MaybeChangeStateIdempotent(m: Machine, env: Env)
    ensures MaybeChangeState(MaybeChangeState(m, env), env) == MaybeChangeState(m, env)
  {
  }

  /** `n` ticks with no other request in between. */
  function Ticks(m: Machine, env: Env, n: nat): Machine
    decreases n
  {
    if n == 0 then m else Ticks(MaybeChangeState(m, env), env, n - 1)
  }

  /** However many ticks pass without a new request, at most one transition happens. */
  lemma {:induction false} TicksSettleAfterOne(m: Machine, env: Env, n: nat)
    requires n >= 1
    ensures Ticks(m, env, n) == MaybeChangeState(m, env)
    decreases n
  {
    if n > 1 {
      TicksSettleAfterOne(MaybeChangeState(m, env), env, n - 1);
      MaybeChangeStateIdempotent(m, env);
    }
  }

  /** An enter hook's request made during a tick is discarded: entering the message
      menu with nothing to show asks for the initial state, but the tick then clears the
      request and the machine stays in the message menu with nothing pending. */
  lemma TickDiscardsMessageMenuRedirect(m: Machine, env: Env)
    requires m.pending == MessageMenu && m.current != MessageMenu && m.msg.display == []
    ensures BeginNewState(EndCurrentState(m), MessageMenu, env).pending == GetInitialState(env.loggedIn)
    ensures MaybeChangeState(m, env).current == MessageMenu
    ensures MaybeChangeState(m, env).pending == None
  {
  }

  /** Likewise, the pending-invite hook's fallback to the login screen is discarded. */
  lemma TickDiscardsPendingInviteRedirect(m: Machine, env: Env)
    requires m.pending == PendingInvite && m.current != PendingInvite && !env.mainMenuMapLoads
    ensures BeginNewState(EndCurrentState(m), PendingInvite, env).pending == LoginScreen
    ensures MaybeChangeState(m, env).current == PendingInvite
    ensures MaybeChangeState(m, env).pending == None
  {
  }

  /** Starting over from the freshly constructed machine: requesting the initial state
      and ticking once makes it current with nothing pending and no message. */
  lemma StartFromInitial(env: Env)
    ensures MaybeChangeState(GotoInitialState(Initial, env.loggedIn), env)
            == Machine(GetInitialState(env.loggedIn), None, EmptyMessage)
  {
  }

  // ---------------------------------------------------------------------------
  // Showing a message
  // ---------------------------------------------------------------------------

  /** The login screen is pending or current. */
  predicate AtLoginScreen(m: Machine)
  {
    m.pending == LoginScreen || m.current == LoginScreen
  }

  /** The message menu is pending or current. */
  predicate AtMessageMenu(m: Machine)
  {
    m.pending == MessageMenu || m.current == MessageMenu
  }

  /** The four rules under which a new "message, then go to `newState`" request is ignored. */
  predicate Suppressed(m: Machine, newState: State, overrideExisting: bool)
  {
    || AtLoginScreen(m)
    || (AtMessageMenu(m) && m.msg.nextState == newState && !overrideExisting)
    || (AtMessageMenu(m) && m.msg.nextState == LoginScreen)
    || ((m.pending == newState || m.current == newState) && !overrideExisting)
  }

  /** `ShowMessageThenGotoState`: unless a higher-priority request is in the way, record
      the message and go to the message menu; if the message menu is already current,
      leave it and enter it again directly, outside any tick. */
  function ShowMessageThenGotoState(
    m: Machine, message: string, okButton: string, cancelButton: string,
    newState: State, overrideExisting: bool, owner: PlayerOwner, env: Env): (r: Machine)
    // Never override the login screen.
    ensures AtLoginScreen(m) ==> r == m
    // Do not replace a queued message that goes to the same place, unless asked to.
    ensures AtMessageMenu(m) && m.msg.nextState == newState && !overrideExisting ==> r == m
    // Never replace a queued message that goes to the login screen.
    ensures AtMessageMenu(m) && m.msg.nextState == LoginScreen ==> r == m
    // Do not go where the machine is already going or already is, unless asked to.
    ensures (m.pending == newState || m.current == newState) && !overrideExisting ==> r == m
    // Otherwise the message is recorded in full ...
    ensures !Suppressed(m, newState, overrideExisting) ==>
              && r.msg.okButton == okButton && r.msg.cancelButton == cancelButton
              && r.msg.nextState == newState && r.msg.owner == owner
              && r.current == m.current
    // ... and the message menu is requested ...
    ensures !Suppressed(m, newState, overrideExisting) && m.current != MessageMenu ==>
              r.pending == MessageMenu && r.msg.display == message
    // ... or, when it is already current, entered again at once (which consumes the text,
    // and requests the initial state if the text is empty: this request survives).
    ensures !Suppressed(m, newState, overrideExisting) && m.current == MessageMenu ==>
              && r.msg.display == []
              && r.pending == (if message == [] then GetInitialState(env.loggedIn) else m.pending)
  {
    if Suppressed(m, newState, overrideExisting) then
      m
    else
      var queued := m.(msg := Message(message, okButton, cancelButton, newState, owner));
      if m.current == MessageMenu then
        // EndMessageMenuState has no effect on the model; BeginMessageMenuState runs directly.
        BeginMessageMenuState(queued, env)
      else
        GotoState(queued, MessageMenu)
  }

  /** `ShowMessageThenGoMain`: a message followed by the main menu. */
  function ShowMessageThenGoMain(
    m: Machine, message: string, okButton: string, cancelButton: string,
    overrideExisting: bool, owner: PlayerOwner, env: Env): (r: Machine)
    ensures AtLoginScreen(m) ==> r == m
    ensures Suppressed(m, MainMenu, overrideExisting) ==> r == m
    ensures !Suppressed(m, MainMenu, overrideExisting) && m.current != MessageMenu ==>
              r == Machine(m.current, MessageMenu, Message(message, okButton, cancelButton, MainMenu, owner))
    ensures !Suppressed(m, MainMenu, overrideExisting) && m.current == MessageMenu ==>
              && r.current == MessageMenu
              && r.msg == Message([], okButton, cancelButton, MainMenu, owner)
              && r.pending == (if message == [] then GetInitialState(env.loggedIn) else m.pending)
  {
    ShowMessageThenGotoState(m, message, okButton, cancelButton, MainMenu, overrideExisting, owner, env)
  }

  /** When the message menu is already current, a new non-empty message is shown directly
      and an empty one requests the initial state, and that request is NOT discarded
      (compare `TickDiscardsMessageMenuRedirect`). */
  lemma DirectReentryKeepsRedirect(
    m: Machine, okButton: string, cancelButton: string,
    newState: State, overrideExisting: bool, owner: PlayerOwner, env: Env)
    requires m.current == MessageMenu && !Suppressed(m, newState, overrideExisting)
    ensures ShowMessageThenGotoState(m, [], okButton, cancelButton, newState, overrideExisting, owner, env).pending
            == GetInitialState(env.loggedIn)
    ensures ShowMessageThenGotoState(m, [], okButton, cancelButton, newState, overrideExisting, owner, env).current
            == MessageMenu
  {
  }

  /** For a message that leads to the login screen, `overrideExisting` makes no difference:
      the rules it switches off are already covered by the two login rules. */
  lemma LoginTargetIgnoresOverride(
    m: Machine, message: string, okButton: string, cancelButton: string,
    owner: PlayerOwner, env: Env)
    ensures ShowMessageThenGotoState(m, message, okButton, cancelButton, LoginScreen, true, owner, env)
            == ShowMessageThenGotoState(m, message, okButton, cancelButton, LoginScreen, false, owner, env)
  {
  }

  /** One "message, then go to state" request. */
  datatype MessageRequest = MessageRequest(
    message: string, okButton: string, cancelButton: string,
    newState: State, overrideExisting: bool, owner: PlayerOwner)

  /** A run of message requests with no tick in between. */
  function ShowAll(m: Machine, reqs: seq<MessageRequest>, env: Env): Machine
    decreases |reqs|
  {
    if |reqs| == 0 then m
    else
      var q := reqs[0];
      ShowAll(ShowMessageThenGotoState(m, q.message, q.okButton, q.cancelButton,
                                       q.newState, q.overrideExisting, q.owner, env),
              reqs[1..], env)
  }

  /** Once the login screen is pending or current, no run of message requests can change
      anything: only a plain `GotoState` (or a tick) can move away from it. */
  lemma {:induction false} LoginScreenIsNeverOverridden(m: Machine, reqs: seq<MessageRequest>, env: Env)
    requires AtLoginScreen(m)
    ensures ShowAll(m, reqs, env) == m
    decreases |reqs|
  {
    if |reqs| > 0 {
      LoginScreenIsNeverOverridden(m, reqs[1..], env);
    }
  }

  /** Likewise a queued message that leads to the login screen is never replaced. */
  lemma {:induction false} LoginMessageIsNeverReplaced(m: Machine, reqs: seq<MessageRequest>, env: Env)
    requires AtMessageMenu(m) && m.msg.nextState == LoginScreen
    ensures ShowAll(m, reqs, env) == m
    decreases |reqs|
  {
    if |reqs| > 0 {
      LoginMessageIsNeverReplaced(m, reqs[1..], env);
    }
  }

  // ---------------------------------------------------------------------------
  // The tick
  // ---------------------------------------------------------------------------

  /** The engine facts `Tick` reads besides those of the hooks. */
  datatype TickEnv = TickEnv(dedicatedServer: bool, licensed: bool, hooks: Env)

  /** The text shown to an unlicensed user. */
  const NeedLicenseText: string :=
    "The signed in users do not have a license for this game. Please purchase ShooterGame"
    + " from the Xbox Marketplace or sign in a user with a valid license."

  /** `Tick`: a dedicated server skips the state machine; otherwise apply the pending
      request, then, outside the login screen, bounce an unlicensed user back to it
      through a message. The `OverrideExisting` argument takes its default, which does not
      matter here (`LoginTargetIgnoresOverride`). */
  function Tick(m: Machine, t: TickEnv): (r: Machine)
    ensures t.dedicatedServer ==> r == m
    ensures !t.dedicatedServer && t.licensed ==> r == MaybeChangeState(m, t.hooks)
    ensures !t.dedicatedServer && !t.licensed
            && MaybeChangeState(m, t.hooks).current != LoginScreen
            && MaybeChangeState(m, t.hooks).current != None
            ==> r.msg.nextState == LoginScreen
    // Settling at the login screen or at `None`, nothing happens after the transition.
    ensures !t.dedicatedServer
            && (MaybeChangeState(m, t.hooks).current == LoginScreen
                || MaybeChangeState(m, t.hooks).current == None)
            ==> r == MaybeChangeState(m, t.hooks)
    // Anywhere else, an unlicensed user is sent to the message menu with the licence text.
    ensures !t.dedicatedServer && !t.licensed
            && MaybeChangeState(m, t.hooks).current != LoginScreen
            && MaybeChangeState(m, t.hooks).current != None
            && MaybeChangeState(m, t.hooks).current != MessageMenu
            ==> && r.pending == MessageMenu
                && r.current == MaybeChangeState(m, t.hooks).current
                && r.msg == Message(NeedLicenseText, "OK", "", LoginScreen, NoPlayer)
    // In the message menu, a login-bound message already there is kept; otherwise the
    // licence text is shown at once (and consumed) and the pending slot is untouched.
    ensures !t.dedicatedServer && !t.licensed
            && MaybeChangeState(m, t.hooks).current == MessageMenu
            ==> && r.current == MessageMenu
                && r.pending == MaybeChangeState(m, t.hooks).pending
                && r.msg == (if MaybeChangeState(m, t.hooks).msg.nextState == LoginScreen
                             then MaybeChangeState(m, t.hooks).msg
                             else Message([], "OK", "", LoginScreen, NoPlayer))
  {
    if t.dedicatedServer then
      m
    else
      var s := MaybeChangeState(m, t.hooks);
      if s.current != LoginScreen && !t.licensed && s.current != None then
        ShowMessageThenGotoState(s, NeedLicenseText, "OK", "", LoginScreen, true, NoPlayer, t.hooks)
      else
        s
  }
}
