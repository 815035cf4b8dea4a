/** The admin panel that grants and revokes the auditor and government roles. */
module RoleManager {
  import opened Wrappers
  import opened JsValues
  import Session
  import ContractHook

  datatype Action = Assign | Revoke
  datatype RoleType = Auditor | Government

  /** The contract's role identifiers (their hash values live in the contract configuration). */
  datatype RoleHash = AuditorRole | GovernmentRole

  /** The contract call the panel makes. */
  datatype RoleCall =
    | AddAuditor(account: string)
    | AddGovernmentOfficial(account: string)
    | RevokeRole(role: RoleHash, account: string)

  function ActionText(action: Action): string {
    match action
    case Assign => "assign"
    case Revoke => "revoke"
  }

  function RoleText(roleType: RoleType): string {
    match roleType
    case Auditor => "auditor"
    case Government => "government"
  }

  /** Which contract call the chosen action and role type make, for the entered address. */
  function Dispatch(action: Action, roleType: RoleType, address: string): (c: RoleCall)
    ensures action == Assign && roleType == Auditor ==> c == AddAuditor(address)
    ensures action == Assign && roleType == Government ==> c == AddGovernmentOfficial(address)
    ensures action == Revoke ==> c.RevokeRole? && c.account == address
    ensures action == Revoke ==> (c.role == AuditorRole <==> roleType == Auditor)
  {
    match action
    case Assign =>
      (match roleType
       case Auditor => AddAuditor(address)
       case Government => AddGovernmentOfficial(address))
    case Revoke =>
      RevokeRole(if roleType == Auditor then AuditorRole else GovernmentRole, address)
  }

  /** Reads back which action, role and address a call stands for. */
  function Intent(c: RoleCall): (Action, RoleType, string) {
    match c
    case AddAuditor(a) => (Assign, Auditor, a)
    case AddGovernmentOfficial(a) => (Assign, Government, a)
    case RevokeRole(h, a) => (Revoke, if h == AuditorRole then Auditor else Government, a)
  }

  /** Every choice reaches its own call: no two choices share one. */
  lemma DispatchFaithful(action: Action, roleType: RoleType, address: string)
    ensures Intent(Dispatch(action, roleType, address)) == (action, roleType, address)
  {
  }

  /** `${Assigned|Revoked} ${roleType} role successfully!` */
  function SuccessMessage(action: Action, roleType: RoleType): string {
    (if action == Assign then "Assigned" else "Revoked") + " " + RoleText(roleType) + " role successfully!"
  }

  /** The panel renders only for an admin. */
  function Visible(roles: Session.Roles): (v: bool)
    ensures v <==> roles.isAdmin
  {
    roles.isAdmin
  }

  class RoleManagerView {
    var address: string
    var isLoading: bool
    var error: Option<string>
    var success: Option<string>
    var action: Action

    constructor ()
      ensures address == "" && !isLoading && error == None && success == None && action == Assign
    {
      address := "";
      isLoading := false;
      error := None;
      success := None;
      action := Assign;
    }

    /**
     * handleRoleAction. hasContract says whether a contract handle exists; tx
     * is what sending and mining the call yields. Returns the call made.
     */
    method HandleRoleAction(roleType: RoleType, hasContract: bool, tx: ContractHook.TxOutcome)
      returns (call: Option<RoleCall>)
      modifies this
      // nothing happens without a contract or an address
      ensures !hasContract || old(address) == "" ==>
        call == None && address == old(address) && isLoading == old(isLoading)
        && error == old(error) && success == old(success)
      ensures hasContract && old(address) != "" ==>
        && call == Some(Dispatch(old(action), roleType, old(address)))
        && !isLoading
        && (if tx.sent.Success? && tx.mined.Success? then
              success == Some(SuccessMessage(old(action), roleType)) && error == None && address == ""
            else
              var e := if tx.sent.Failure? then tx.sent.error else tx.mined.error;
              success == None && address == old(address)
              && error == Some(ErrorMessageOr(e, "Failed to " + ActionText(old(action)) + " role")))
      ensures action == old(action)
    {
      call := None;
      if !hasContract || address == "" {
        return;
      }
      isLoading := true;
      error := None;
      success := None;

      call := Some(Dispatch(action, roleType, address));
      if tx.sent.Failure? {
        error := Some(ErrorMessageOr(tx.sent.error, "Failed to " + ActionText(action) + " role"));
      } else if tx.mined.Failure? {
        error := Some(ErrorMessageOr(tx.mined.error, "Failed to " + ActionText(action) + " role"));
      } else {
        success := Some(SuccessMessage(action, roleType));
        address := "";
      }
      isLoading := false;
    }
  }
}
