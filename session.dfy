/**
 * The wallet session store: account, provider, signer, contract handle, the
 * four role flags, the connecting flag and error, and the browser's
 * localStorage, driven by connect, the restore-on-mount effect and the
 * wallet's accountsChanged / chainChanged / disconnect events.
 * Wallet replies and checkRoles answers are parameters.
 */
module Session {
  import opened Wrappers
  import opened Text
  import opened JsValues

  datatype Roles = Roles(isAdmin: bool, isDefaultAdmin: bool, isGovernment: bool, isAuditor: bool)

  const NO_ROLES: Roles := Roles(false, false, false, false)

  /** The array contract.checkRoles(address) returns, read at indices 0..3. */
  type RoleResults = (bool, bool, bool, bool)

  /** checkRoles' answer for the queried address, or what it threw. */
  type RoleAnswer = Result<RoleResults, JsError>

  const WALLET_CONNECTED: string := "walletConnected"
  const USER_ACCOUNT: string := "userAccount"
  const USER_ROLES: string := "userRoles"
  const SESSION_KEYS: set<string> := {WALLET_CONNECTED, USER_ACCOUNT, USER_ROLES}

  const INSTALL_METAMASK: string := "Please install MetaMask!"
  const CONNECT_FALLBACK: string := "Failed to connect wallet"
  const NO_ACCOUNTS: JsError := JsError(true, "No accounts found", "")

  /** results[0..3] become isAdmin, isDefaultAdmin, isGovernment, isAuditor, in that order. */
  function RolesOf(results: RoleResults): (r: Roles)
    ensures r.isAdmin == results.0 && r.isDefaultAdmin == results.1
    ensures r.isGovernment == results.2 && r.isAuditor == results.3
  {
    Roles(results.0, results.1, results.2, results.3)
  }

  function BoolText(b: bool): string {
    if b then "true" else "false"
  }

  const ADMIN_KEY: string := "{\"isAdmin\":"
  const DEFAULT_ADMIN_KEY: string := ",\"isDefaultAdmin\":"
  const GOVERNMENT_KEY: string := ",\"isGovernment\":"
  const AUDITOR_KEY: string := ",\"isAuditor\":"

  /** One `key` + JSON boolean, followed by the rest of the text. */
  function Field(key: string, b: bool, rest: string): string {
    key + BoolText(b) + rest
  }

  /** JSON.stringify of the roles record, keys in declaration order. */
  function EncodeRoles(r: Roles): string {
    Field(ADMIN_KEY, r.isAdmin,
      Field(DEFAULT_ADMIN_KEY, r.isDefaultAdmin,
        Field(GOVERNMENT_KEY, r.isGovernment,
          Field(AUDITOR_KEY, r.isAuditor, "}"))))
  }

  /** Reads `key` then a JSON boolean at the front of s; returns the flag and the rest. */
  function ReadFlag(s: string, key: string): Option<(bool, string)> {
    if !StartsWith(s, key) then None
    else
      var t := s[|key|..];
      if StartsWith(t, "true") then Some((true, t[4..]))
      else if StartsWith(t, "false") then Some((false, t[5..]))
      else None
  }

  /**
   * JSON.parse of a saved roles record, in the form EncodeRoles writes it;
   * any other text counts as unparseable.
   */
  function DecodeRoles(s: string): Option<Roles> {
    match ReadFlag(s, ADMIN_KEY)
    case None => None
    case Some((a, s1)) =>
      match ReadFlag(s1, DEFAULT_ADMIN_KEY)
      case None => None
      case Some((d, s2)) =>
        match ReadFlag(s2, GOVERNMENT_KEY)
        case None => None
        case Some((g, s3)) =>
          match ReadFlag(s3, AUDITOR_KEY)
          case None => None
          case Some((u, s4)) => if s4 == "}" then Some(Roles(a, d, g, u)) else None
  }

  lemma ReadFlagOf(key: string, b: bool, rest: string)
    ensures ReadFlag(Field(key, b, rest), key) == Some((b, rest))
  {
    var s := Field(key, b, rest);
    assert s[..|key|] == key;
    var t := s[|key|..];
    assert t == BoolText(b) + rest;
    if b {
      assert t[..4] == "true";
      assert t[4..] == rest;
    } else {
      assert t[..4] != "true" by { assert t[3] == 's'; }
      assert t[..5] == "false";
      assert t[5..] == rest;
    }
  }

  /** Saved roles read back as the roles that were saved. */
  lemma DecodeEncodeRoles(r: Roles)
    ensures DecodeRoles(EncodeRoles(r)) == Some(r)
  {
    var s3 := Field(AUDITOR_KEY, r.isAuditor, "}");
    var s2 := Field(GOVERNMENT_KEY, r.isGovernment, s3);
    var s1 := Field(DEFAULT_ADMIN_KEY, r.isDefaultAdmin, s2);
    ReadFlagOf(ADMIN_KEY, r.isAdmin, s1);
    ReadFlagOf(DEFAULT_ADMIN_KEY, r.isDefaultAdmin, s2);
    ReadFlagOf(GOVERNMENT_KEY, r.isGovernment, s3);
    ReadFlagOf(AUDITOR_KEY, r.isAuditor, "}");
  }

  /** A contract object bound to the signer it was built from. */
  datatype ContractHandle = ContractHandle(signer: nat)

  /** Requests sent to the wallet, in order. */
  datatype WalletRequest = EthAccounts | RequestPermissions | EthRequestAccounts

  /** What the wallet answers during connect; permissions is None when granted. */
  datatype ConnectReplies = ConnectReplies(
    current: Result<seq<string>, JsError>,
    permissions: Option<JsError>,
    requested: Result<seq<string>, JsError>,
    roleAnswer: RoleAnswer)

  /** What the wallet answers during the restore effect. */
  datatype RestoreReplies = RestoreReplies(accounts: Result<seq<string>, JsError>, roleAnswer: RoleAnswer)

  datatype SessionState = SessionState(
    account: Option<string>,
    provider: Option<nat>,
    signer: Option<nat>,
    contract: Option<ContractHandle>,
    roles: Roles,
    isConnecting: bool,
    connectionError: Option<string>,
    storage: map<string, string>,
    built: nat)

  /** Whether the wallet grants connect a first account, given its replies. */
  predicate Granted(w: ConnectReplies) {
    && w.current.Success?
    && (|w.current.value| > 0 ==> w.permissions.None?)
    && w.requested.Success?
    && |w.requested.value| > 0
    && w.requested.value[0] != ""
  }

  /**
   * Whether connect would finish without throwing, given the wallet's replies
   * and what `new ethers.Contract` threw (None when it built the contract).
   */
  predicate ConnectSucceeds(w: ConnectReplies, contractError: Option<JsError>) {
    Granted(w) && contractError.None?
  }

  /**
   * connect's wallet requests: eth_accounts, a permissions prompt when some
   * account is already authorised, then eth_requestAccounts. Returns the first
   * account granted, or what was thrown, and the requests sent in order.
   */
  method RequestAccounts(w: ConnectReplies) returns (granted: Result<string, JsError>, requests: seq<WalletRequest>)
    ensures granted.Success? <==> Granted(w)
    ensures granted.Success? ==> granted.value == w.requested.value[0]
    ensures |requests| >= 1 && requests[0] == EthAccounts
    ensures w.current.Failure? ==> granted == Failure(w.current.error) && requests == [EthAccounts]
    ensures w.current.Success? && |w.current.value| > 0 && w.permissions.Some? ==>
      granted == Failure(w.permissions.value) && requests == [EthAccounts, RequestPermissions]
    ensures w.current.Success? && |w.current.value| > 0 && w.permissions.None? ==>
      requests == [EthAccounts, RequestPermissions, EthRequestAccounts]
    ensures w.current.Success? && |w.current.value| == 0 ==>
      requests == [EthAccounts, EthRequestAccounts]
    ensures EthRequestAccounts in requests && w.requested.Failure? ==> granted == Failure(w.requested.error)
    ensures EthRequestAccounts in requests && w.requested.Success? && (|w.requested.value| == 0 || w.requested.value[0] == "") ==>
      granted == Failure(NO_ACCOUNTS)
  {
    requests := [EthAccounts];
    if w.current.Failure? {
      return Failure(w.current.error), requests;
    }
    if |w.current.value| > 0 {
      requests := requests + [RequestPermissions];
      if w.permissions.Some? {
        return Failure(w.permissions.value), requests;
      }
    }
    requests := requests + [EthRequestAccounts];
    if w.requested.Failure? {
      granted := Failure(w.requested.error);
    } else if |w.requested.value| == 0 || w.requested.value[0] == "" {
      granted := Failure(NO_ACCOUNTS);
    } else {
      granted := Success(w.requested.value[0]);
    }
  }

  /** The roles a refresh leaves: the answer's flags, or all false when the query threw. */
  function RolesAfter(answer: RoleAnswer): Roles {
    if answer.Success? then RolesOf(answer.value) else NO_ROLES
  }

  /** The storage a refresh leaves: the serialised roles on success, untouched on failure. */
  function StorageAfter(storage: map<string, string>, answer: RoleAnswer): map<string, string> {
    if answer.Success? then storage[USER_ROLES := EncodeRoles(RolesOf(answer.value))] else storage
  }

  class Web3Session {
    var account: Option<string>
    var provider: Option<nat>
    var signer: Option<nat>
    var contract: Option<ContractHandle>
    var roles: Roles
    var isConnecting: bool
    var connectionError: Option<string>
    /** localStorage: survives reloads. */
    var storage: map<string, string>
    /** How many providers have been built: the next provider's (and its signer's) identity. */
    var built: nat

    ghost function State(): SessionState
      reads this
    {
      SessionState(account, provider, signer, contract, roles, isConnecting, connectionError, storage, built)
    }

    /** Provider and signer are built together; every handle names something already built. */
    ghost predicate Valid()
      reads this
    {
      && provider == signer
      && (signer.Some? ==> signer.value < built)
      && (contract.Some? ==> contract.value.signer < built)
    }

    /** The contract handle exists exactly when a signer does, and is bound to that signer. */
    ghost predicate Bound()
      reads this
    {
      contract == if signer.Some? then Some(ContractHandle(signer.value)) else None
    }

    /** A page load: nothing connected yet; localStorage is what was persisted. */
    constructor (persisted: map<string, string>, built: nat)
      ensures Valid() && Bound()
      ensures State() == SessionState(None, None, None, None, NO_ROLES, false, None, persisted, built)
    {
      account, provider, signer, contract := None, None, None, None;
      roles := NO_ROLES;
      isConnecting := false;
      connectionError := None;
      storage := persisted;
      this.built := built;
    }

    /**
     * initializeContract on the signer with identity id: the contract state is
     * set unless `new ethers.Contract` throws, and then the error is rethrown.
     */
    method InitializeContract(id: nat, contractError: Option<JsError>) returns (ok: bool)
      requires Valid() && id < built
      modifies this
      ensures Valid()
      ensures ok <==> contractError.None?
      ensures ok ==> State() == old(State()).(contract := Some(ContractHandle(id)))
      ensures !ok ==> State() == old(State())
    {
      if contractError.Some? {
        return false;
      }
      contract := Some(ContractHandle(id));
      return true;
    }

    /**
     * A new provider and signer, then a contract built on them; the provider
     * and signer are only adopted, and only count as built, once the contract was built.
     */
    method Rebind(contractError: Option<JsError>) returns (ok: bool)
      requires Valid()
      modifies this
      ensures Valid()
      ensures ok <==> contractError.None?
      ensures ok ==> State() == old(State()).(provider := Some(old(built)), signer := Some(old(built)),
                                              contract := Some(ContractHandle(old(built))), built := old(built) + 1)
      ensures ok ==> Bound()
      ensures !ok ==> State() == old(State())
    {
      var id := built;
      built := built + 1;
      ok := InitializeContract(id, contractError);
      if ok {
        provider := Some(id);
        signer := Some(id);
      } else {
        built := id;
      }
    }

    /** checkRoles: stores the answer's flags and their JSON; on failure all flags false, storage untouched, nothing rethrown. */
    method CheckRoles(answer: RoleAnswer)
      requires Valid()
      modifies this
      ensures Valid()
      ensures State() == old(State()).(roles := RolesAfter(answer), storage := StorageAfter(old(storage), answer))
    {
      if answer.Success? {
        var newRoles := RolesOf(answer.value);
        roles := newRoles;
        storage := storage[USER_ROLES := EncodeRoles(newRoles)];
      } else {
        roles := NO_ROLES;
      }
    }

    /** Clears what the error and disconnect paths clear: account, roles and the three keys. */
    method ClearSession()
      requires Valid()
      modifies this
      ensures Valid()
      ensures State() == old(State()).(account := None, roles := NO_ROLES, storage := old(storage) - SESSION_KEYS)
    {
      account := None;
      roles := NO_ROLES;
      storage := storage - SESSION_KEYS;
    }

    /** connect once an account is granted: rebinds, persists the flag and the account, and refreshes its roles. */
    method SignIn(first: string, contractError: Option<JsError>, answer: RoleAnswer) returns (ok: bool)
      requires Valid()
      modifies this
      ensures Valid()
      ensures ok <==> contractError.None?
      ensures ok ==> Bound()
      ensures ok ==> State() == old(State()).(
                       account := Some(first),
                       provider := Some(old(built)), signer := Some(old(built)),
                       contract := Some(ContractHandle(old(built))), built := old(built) + 1,
                       roles := RolesAfter(answer),
                       storage := StorageAfter(old(storage)[WALLET_CONNECTED := "true"][USER_ACCOUNT := first], answer))
      ensures !ok ==> State() == old(State())
    {
      ok := Rebind(contractError);
      if ok {
        account := Some(first);
        storage := storage[WALLET_CONNECTED := "true"][USER_ACCOUNT := first];
        CheckRoles(answer);
      }
    }

    /**
     * connectWallet. wallet is None when no wallet extension is present;
     * contractError is what `new ethers.Contract` throws, if anything.
     * Returns the error message it throws, the wallet requests it sent in
     * order, and the addresses whose roles it queried.
     */
    method ConnectWallet(wallet: Option<ConnectReplies>, contractError: Option<JsError>)
      returns (outcome: Result<(), string>, requests: seq<WalletRequest>, roleQueries: seq<string>)
      requires Valid()
      modifies this
      ensures Valid()
      ensures old(Bound()) ==> Bound()
      // no wallet: only the error is set, and connect throws
      ensures wallet.None? ==>
        && outcome == Failure(INSTALL_METAMASK) && requests == [] && roleQueries == []
        && State() == old(State()).(connectionError := Some(INSTALL_METAMASK))
      // the requests, in order: a permissions prompt comes first when accounts were already authorised
      ensures wallet.Some? ==> |requests| >= 1 && requests[0] == EthAccounts
      ensures wallet.Some? && wallet.value.current.Success? && |wallet.value.current.value| > 0 && wallet.value.permissions.None? ==>
        requests == [EthAccounts, RequestPermissions, EthRequestAccounts]
      ensures wallet.Some? && wallet.value.current.Success? && |wallet.value.current.value| == 0 ==>
        requests == [EthAccounts, EthRequestAccounts]
      ensures wallet.Some? ==> (outcome.Success? <==> ConnectSucceeds(wallet.value, contractError))
      // success: account is the first address, persisted, with one role refresh for it
      ensures wallet.Some? && ConnectSucceeds(wallet.value, contractError) ==>
        var w := wallet.value;
        var first := w.requested.value[0];
        && roleQueries == [first]
        && State() == old(State()).(
             account := Some(first),
             provider := Some(old(built)), signer := Some(old(built)),
             contract := Some(ContractHandle(old(built))), built := old(built) + 1,
             roles := RolesAfter(w.roleAnswer),
             storage := StorageAfter(old(storage)[WALLET_CONNECTED := "true"][USER_ACCOUNT := first], w.roleAnswer),
             isConnecting := false, connectionError := None)
      // the contract could not be built: its error is the message recorded and rethrown
      ensures wallet.Some? && ConnectSucceeds(wallet.value, None) && contractError.Some? ==>
        outcome == Failure(ErrorMessageOr(contractError.value, CONNECT_FALLBACK))
      // any failure: the three keys removed, the error recorded and rethrown, no handle or account adopted
      ensures wallet.Some? && !ConnectSucceeds(wallet.value, contractError) ==>
        && roleQueries == []
        && outcome.Failure?
        && State() == old(State()).(storage := old(storage) - SESSION_KEYS,
                                    connectionError := Some(outcome.error), isConnecting := false)
    {
      requests, roleQueries := [], [];
      if wallet.None? {
        connectionError := Some(INSTALL_METAMASK);
        outcome := Failure(INSTALL_METAMASK);
        return;
      }
      var w := wallet.value;
      isConnecting := true;
      connectionError := None;

      var granted;
      granted, requests := RequestAccounts(w);
      var thrown: Option<JsError> := None;
      if granted.Failure? {
        thrown := Some(granted.error);
      } else {
        var ok := SignIn(granted.value, contractError, w.roleAnswer);
        if !ok {
          thrown := contractError;
        } else {
          roleQueries := [granted.value];
        }
      }

      if thrown.Some? {
        var message := ErrorMessageOr(thrown.value, CONNECT_FALLBACK);
        connectionError := Some(message);
        storage := storage - SESSION_KEYS;
        outcome := Failure(message);
      } else {
        outcome := Success(());
      }
      isConnecting := false;
    }

    /** The restore effect's guard: flag 'true', a saved account, and a wallet present. */
    predicate RestoreAttempted(walletPresent: bool)
      reads this
    {
      && WALLET_CONNECTED in storage && storage[WALLET_CONNECTED] == "true"
      && USER_ACCOUNT in storage && storage[USER_ACCOUNT] != ""
      && walletPresent
    }

    /**
     * The auto-restore effect on mount. wallet is None when no wallet
     * extension is present; contractError is what `new ethers.Contract`
     * throws, if anything. Returns the addresses whose roles it queried.
     */
    method Restore(wallet: Option<RestoreReplies>, contractError: Option<JsError>) returns (roleQueries: seq<string>)
      requires Valid()
      modifies this
      ensures Valid()
      ensures old(Bound()) ==> Bound()
      ensures !old(RestoreAttempted(wallet.Some?)) ==> State() == old(State()) && roleQueries == []
      // accounts still authorised and the contract built: account restored, saved roles reused when they parse
      ensures old(RestoreAttempted(wallet.Some?)) && wallet.value.accounts.Success? && |wallet.value.accounts.value| > 0
              && contractError.None? ==>
        var first := wallet.value.accounts.value[0];
        var saved := if USER_ROLES in old(storage) && old(storage)[USER_ROLES] != "" then DecodeRoles(old(storage)[USER_ROLES]) else None;
        var bound := old(State()).(account := Some(first), provider := Some(old(built)), signer := Some(old(built)),
                                   contract := Some(ContractHandle(old(built))), built := old(built) + 1);
        if saved.Some? then
          State() == bound.(roles := saved.value) && roleQueries == []
        else
          State() == bound.(roles := RolesAfter(wallet.value.roleAnswer),
                            storage := StorageAfter(old(storage), wallet.value.roleAnswer))
          && roleQueries == [first]
      // no authorised account, a failed request, or a contract that could not be built: an implicit disconnect
      ensures old(RestoreAttempted(wallet.Some?)) && !(wallet.value.accounts.Success? && |wallet.value.accounts.value| > 0
                                                      && contractError.None?) ==>
        && roleQueries == []
        && State() == old(State()).(account := None, provider := None, signer := None, contract := None,
                                    roles := NO_ROLES, storage := old(storage) - SESSION_KEYS)
    {
      roleQueries := [];
      if !RestoreAttempted(wallet.Some?) {
        return;
      }
      var w := wallet.value;
      var ok := false;
      if w.accounts.Success? && |w.accounts.value| > 0 {
        var saved := if USER_ROLES in storage && storage[USER_ROLES] != "" then DecodeRoles(storage[USER_ROLES]) else None;
        ok := Rebind(contractError);
        if ok {
          roleQueries := Resume(w.accounts.value[0], saved, w.roleAnswer);
        }
      }
      if !ok {
        // the else branch and the promise's catch clear the same things
        Forget();
      }
    }

    /** Restore's implicit disconnect: the three keys, account, handles and roles all cleared. */
    method Forget()
      requires Valid()
      modifies this
      ensures Valid() && Bound()
      ensures State() == old(State()).(account := None, provider := None, signer := None, contract := None,
                                       roles := NO_ROLES, storage := old(storage) - SESSION_KEYS)
    {
      storage := storage - SESSION_KEYS;
      account, provider, signer, contract := None, None, None, None;
      roles := NO_ROLES;
    }

    /** Restore's path once the contract is built: binds the first account, then reuses the saved roles or queries them. */
    method Resume(first: string, saved: Option<Roles>, answer: RoleAnswer) returns (roleQueries: seq<string>)
      requires Valid()
      modifies this
      ensures Valid()
      ensures if saved.Some? then
          State() == old(State()).(account := Some(first), roles := saved.value) && roleQueries == []
        else
          State() == old(State()).(account := Some(first), roles := RolesAfter(answer), storage := StorageAfter(old(storage), answer))
          && roleQueries == [first]
    {
      account := Some(first);
      if saved.Some? {
        roles := saved.value;
        roleQueries := [];
      } else {
        roleQueries := [first];
        CheckRoles(answer);
      }
    }

    /**
     * accountsChanged once the account is set: a new provider and signer are
     * adopted first, then the contract is rebuilt on them and roles refreshed.
     */
    method Reinitialize(contractError: Option<JsError>, answer: RoleAnswer) returns (ok: bool)
      requires Valid()
      modifies this
      ensures Valid()
      ensures ok <==> contractError.None?
      ensures ok ==> Bound()
      ensures ok ==> State() == old(State()).(provider := Some(old(built)), signer := Some(old(built)),
                                              contract := Some(ContractHandle(old(built))), built := old(built) + 1,
                                              roles := RolesAfter(answer), storage := StorageAfter(old(storage), answer))
      ensures !ok ==> State() == old(State()).(provider := Some(old(built)), signer := Some(old(built)), built := old(built) + 1)
      ensures !ok ==> !Bound()
    {
      var id := built;
      built := built + 1;
      provider := Some(id);
      signer := Some(id);
      ok := InitializeContract(id, contractError);
      if ok {
        CheckRoles(answer);
      }
    }

    /**
     * The accountsChanged handler. walletPresent is whether window.ethereum
     * still exists when the handler rebuilds the provider; contractError is
     * what `new ethers.Contract` throws, if anything. Returns the addresses
     * whose roles it queried.
     */
    method HandleAccountsChanged(accounts: seq<string>, walletPresent: bool, contractError: Option<JsError>, answer: RoleAnswer)
      returns (roleQueries: seq<string>)
      requires Valid()
      modifies this
      ensures Valid()
      ensures old(Bound()) && !(|accounts| > 0 && accounts[0] != "" && walletPresent && contractError.Some?) ==> Bound()
      ensures |accounts| > 0 && accounts[0] != "" && walletPresent && contractError.None? ==>
        var first := accounts[0];
        && roleQueries == [first]
        && State() == old(State()).(
             account := Some(first),
             provider := Some(old(built)), signer := Some(old(built)),
             contract := Some(ContractHandle(old(built))), built := old(built) + 1,
             roles := RolesAfter(answer),
             storage := StorageAfter(old(storage)[USER_ACCOUNT := first], answer))
      // the contract could not be built: the new provider and signer stay, beside the old contract
      ensures |accounts| > 0 && accounts[0] != "" && walletPresent && contractError.Some? ==>
        && roleQueries == []
        && State() == old(State()).(provider := Some(old(built)), signer := Some(old(built)), built := old(built) + 1,
                                    account := None, roles := NO_ROLES, storage := old(storage) - SESSION_KEYS)
        && !Bound()
      ensures !(|accounts| > 0 && accounts[0] != "" && walletPresent) ==>
        && roleQueries == []
        && State() == old(State()).(account := None, roles := NO_ROLES, storage := old(storage) - SESSION_KEYS)
    {
      roleQueries := [];
      if |accounts| > 0 && accounts[0] != "" {
        var first := accounts[0];
        account := Some(first);
        storage := storage[USER_ACCOUNT := first];
        if !walletPresent {
          // 'No ethereum provider found' is thrown and caught: reset
          ClearSession();
        } else {
          var ok := Reinitialize(contractError, answer);
          if ok {
            roleQueries := [first];
          } else {
            ClearSession();
          }
        }
      } else {
        ClearSession();
      }
    }

    /** window.location.reload: in-memory state starts over; localStorage stays. */
    method Reload()
      modifies this
      ensures Valid() && Bound()
      ensures State() == SessionState(None, None, None, None, NO_ROLES, false, None, old(storage), old(built))
    {
      account, provider, signer, contract := None, None, None, None;
      roles := NO_ROLES;
      isConnecting := false;
      connectionError := None;
    }

    /** The chainChanged handler: only a reload. */
    method HandleChainChanged()
      modifies this
      ensures Valid() && Bound()
      ensures State() == SessionState(None, None, None, None, NO_ROLES, false, None, old(storage), old(built))
    {
      Reload();
    }

    /** The wallet's disconnect event: account and roles cleared, the three keys removed. */
    method HandleDisconnect()
      requires Valid()
      modifies this
      ensures Valid()
      ensures old(Bound()) ==> Bound()
      ensures State() == old(State()).(account := None, roles := NO_ROLES, storage := old(storage) - SESSION_KEYS)
    {
      ClearSession();
    }
  }
}
