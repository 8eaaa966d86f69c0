/** The session gate (`context/auth-context.tsx`): a role that is null, 'CEO' or
    'TEAM' after a login, its copy in the `sessionStorage` slot `nerozarb_role`,
    and the init effect that restores it on reload. The role is a string option
    because the init effect restores whatever non-empty text the slot holds. */
module Auth {
  import opened Optional

  const CeoPassphrase := "platinumceo"
  const TeamPassphrase := "platinumteam"
  const CeoRole := "CEO"
  const TeamRole := "TEAM"

  /** The provider's `role` and `isInitialized` state and the session slot. */
  datatype Gate = Gate(role: Option<string>, isInitialized: bool, slot: Option<string>)

  /** Before the init effect: no role, not initialised, the slot as the session left it. */
  function Fresh(slot: Option<string>): Gate {
    Gate(None, false, slot)
  }

  /** The role the views treat as privileged. */
  predicate IsCeo(role: Option<string>) {
    role == Some(CeoRole)
  }

  /** The init effect: a non-empty slot value becomes the role as it stands, without
      checking that it names a role; otherwise the role is left alone. */
  function Init(g: Gate): (r: Gate)
    ensures r.isInitialized && r.slot == g.slot
    ensures g.slot.Some? && g.slot.value != "" ==> r.role == g.slot
    ensures g.slot.None? || g.slot.value == "" ==> r.role == g.role
  {
    match g.slot
    case Some(saved) => if saved != "" then Gate(Some(saved), true, g.slot) else g.(isInitialized := true)
    case None => g.(isInitialized := true)
  }

  datatype LoginResult = LoginResult(accepted: bool, gate: Gate)

  /** `login(passphrase)`: the CEO passphrase sets and saves 'CEO', the team passphrase
      sets and saves 'TEAM', anything else is refused and changes nothing. */
  function Login(g: Gate, passphrase: string): (r: LoginResult)
    ensures r.accepted <==> passphrase == CeoPassphrase || passphrase == TeamPassphrase
    ensures passphrase == CeoPassphrase ==> r.gate.role == Some(CeoRole) && r.gate.slot == Some(CeoRole)
    ensures passphrase == TeamPassphrase ==> r.gate.role == Some(TeamRole) && r.gate.slot == Some(TeamRole)
    ensures !r.accepted ==> r.gate == g
    ensures r.gate.isInitialized == g.isInitialized
  {
    if passphrase == CeoPassphrase then
      LoginResult(true, g.(role := Some(CeoRole), slot := Some(CeoRole)))
    else if passphrase == TeamPassphrase then
      LoginResult(true, g.(role := Some(TeamRole), slot := Some(TeamRole)))
    else
      LoginResult(false, g)
  }

  /** `logout()`: no role and no saved slot. */
  function Logout(g: Gate): (r: Gate)
    ensures r.role == None && r.slot == None && r.isInitialized == g.isInitialized
  {
    g.(role := None, slot := None)
  }

  /** After a successful login, reloading within the same session restores the role
      without asking for the passphrase again. */
  lemma LoginSurvivesReload(g: Gate, passphrase: string)
    requires Login(g, passphrase).accepted
    ensures var after := Login(g, passphrase).gate;
            Init(Fresh(after.slot)).role == after.role && after.role != None
  {
  }

  /** After logout, reloading comes back with no role. */
  lemma LogoutSurvivesReload(g: Gate)
    ensures Init(Fresh(Logout(g).slot)).role == None
  {
  }

  /** The init effect trusts the slot: any non-empty text becomes the role, and only
      the exact text 'CEO' is privileged. */
  lemma RestoreIsUnvalidated(saved: string)
    requires saved != ""
    ensures Init(Fresh(Some(saved))).role == Some(saved)
    ensures IsCeo(Init(Fresh(Some(saved))).role) <==> saved == CeoRole
  {
  }
}
