/**
  The data of the front-end flow state machine of `UShooterGameInstance`: the six named
  states, the queued "message, then go to state X" record, and the record
  `(current, pending, msg)` that every transition reads and writes.
 */
module FlowState {

  /** The six states of `ShooterGameInstanceState`. `None` is both the start state and
      the "nothing requested" value of the pending slot. */
  datatype State = None | LoginScreen | PendingInvite | MainMenu | MessageMenu | Playing

  /** The `FName` text each state constant is built from; note that `LoginScreen` is "Login". */
  function Name(s: State): string
  {
    match s
    case None => "None"
    case LoginScreen => "Login"
    case PendingInvite => "PendingInvite"
    case MainMenu => "MainMenu"
    case MessageMenu => "MessageMenu"
    case Playing => "Playing"
  }

  /** ASCII lower-casing of one character. */
  function Lower(c: char): char
  {
    if 'A' <= c <= 'Z' then (c as int + 32) as char else c
  }

  /** ASCII lower-casing of a name, the folding under which `FName`s compare equal. */
  function Fold(s: string): (f: string)
    ensures |f| == |s|
    ensures forall i :: 0 <= i < |s| ==> f[i] == Lower(s[i])
  {
    seq(|s|, i requires 0 <= i < |s| => Lower(s[i]))
  }

  /** `FName` comparison ignores case; distinct states have names that differ even after
      folding case, so comparing `FName`s is comparing states. */
  lemma NameInjective(a: State, b: State)
    ensures Fold(Name(a)) == Fold(Name(b)) <==> a == b
  {
    if a != b {
      assert |Fold(Name(a))| != |Fold(Name(b))|;
    }
  }

  /** The weak pointer to the local player that owns a message box; it may be null. */
  datatype PlayerOwner = NoPlayer | Player(id: nat)

  /** `PendingMessage`: the text to show, the two button captions, the state to go to
      once the message is dismissed, and the owning player. */
  datatype Message = Message(
    display: string,
    okButton: string,
    cancelButton: string,
    nextState: State,
    owner: PlayerOwner)

  /** A default-constructed message: empty texts, next state `None`, no owner. */
  const EmptyMessage := Message("", "", "", None, NoPlayer)

  /** The state-machine part of the game instance. */
  datatype Machine = Machine(current: State, pending: State, msg: Message)

  /** After construction: `CurrentState` is `None`, `PendingState` is the default
      name (which is `None`), and no message is queued. */
  const Initial := Machine(None, None, EmptyMessage)

  /** `GetInitialState`: where to go when starting over. `loggedIn` stands for "the
      identity interface is valid and local user 0 is logged in". */
  function GetInitialState(loggedIn: bool): (s: State)
    ensures s != None && s != MessageMenu && s != PendingInvite && s != Playing
    ensures s == MainMenu <==> loggedIn
    ensures s == LoginScreen <==> !loggedIn
  {
    if loggedIn then MainMenu else LoginScreen
  }

  /** `GotoState` only records a request; it is applied by the next tick. */
  function GotoState(m: Machine, s: State): (r: Machine)
    ensures r.pending == s
    ensures r.current == m.current
    ensures r.msg == m.msg
  {
    m.(pending := s)
  }

  /** There is no queue of requests: an unapplied request is overwritten by the next one. */
  lemma LastRequestWins(m: Machine, a: State, b: State)
    ensures GotoState(GotoState(m, a), b) == GotoState(m, b)
  {
  }

  /** `GotoInitialState`: request the initial state. */
  function GotoInitialState(m: Machine, loggedIn: bool): (r: Machine)
    ensures r.pending == (if loggedIn then MainMenu else LoginScreen)
    ensures r.current == m.current && r.msg == m.msg
  {
    GotoState(m, GetInitialState(loggedIn))
  }
}
