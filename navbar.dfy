/** The navigation bar: disconnect, the abbreviated account and the role badges. */
module Navbar {
  import opened Wrappers
  import Session

  /** handleDisconnect: remove the three session keys one by one, then reload. */
  method HandleDisconnect(session: Session.Web3Session)
    modifies session
    ensures session.Valid()
    ensures session.State() == Session.SessionState(None, None, None, None, Session.NO_ROLES, false, None,
                                                    old(session.storage) - Session.SESSION_KEYS, old(session.built))
  {
    session.storage := session.storage - {Session.WALLET_CONNECTED};
    session.storage := session.storage - {Session.USER_ACCOUNT};
    session.storage := session.storage - {Session.USER_ROLES};
    session.Reload();
  }

  /** Removing the three keys leaves every other stored entry as it was. */
  lemma DisconnectKeepsOtherKeys(storage: map<string, string>, key: string)
    requires key in storage && key !in Session.SESSION_KEYS
    ensures key in storage - Session.SESSION_KEYS && (storage - Session.SESSION_KEYS)[key] == storage[key]
  {
  }

  function Min(a: nat, b: nat): nat {
    if a < b then a else b
  }

  /** `account.slice(0, 6) + '...' + account.slice(-4)`, with slice's clamping on short text. */
  function Abbreviate(account: string): (r: string)
    ensures |r| == Min(6, |account|) + 3 + Min(4, |account|)
    ensures r[..Min(6, |account|)] == account[..Min(6, |account|)]
    ensures r[Min(6, |account|)..Min(6, |account|) + 3] == "..."
    ensures r[|r| - Min(4, |account|)..] == account[|account| - Min(4, |account|)..]
  {
    account[..Min(6, |account|)] + "..." + account[|account| - Min(4, |account|)..]
  }

  /** A 42-character address shows as its 0x-prefix and four digits, an ellipsis and its last four digits. */
  lemma AbbreviateAddress(account: string)
    requires |account| == 42
    ensures |Abbreviate(account)| == 13
    ensures Abbreviate(account) == account[..6] + "..." + account[38..]
  {
  }

  /** The badges shown, in display order. */
  function Badges(roles: Session.Roles): (b: seq<string>)
    ensures "Admin" in b <==> roles.isAdmin
    ensures "Government" in b <==> roles.isGovernment
    ensures "Auditor" in b <==> roles.isAuditor
    ensures forall x :: x in b ==> x in {"Admin", "Government", "Auditor"}
    ensures |b| == (if roles.isAdmin then 1 else 0) + (if roles.isGovernment then 1 else 0) + (if roles.isAuditor then 1 else 0)
  {
    (if roles.isAdmin then ["Admin"] else [])
    + (if roles.isGovernment then ["Government"] else [])
    + (if roles.isAuditor then ["Auditor"] else [])
  }

  /** isDefaultAdmin never changes what is shown. */
  lemma DefaultAdminHasNoBadge(roles: Session.Roles, flag: bool)
    ensures Badges(roles.(isDefaultAdmin := flag)) == Badges(roles)
  {
  }

  /** The navigation links, shown only while an account is connected. */
  function NavLinks(account: Option<string>): (links: seq<string>)
    ensures |links| > 0 <==> account.Some? && account.value != ""
    ensures |links| > 0 ==> links == ["/projects", "/milestones", "/expenses"]
  {
    if account.Some? && account.value != "" then ["/projects", "/milestones", "/expenses"] else []
  }
}
