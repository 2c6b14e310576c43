/** The shell around every dashboard: the role label and avatar initial in
    the header, and the logout button. */
module Layout {
  import opened Types
  import Text
  import Queries

  /** `getRoleLabel` */
  function RoleLabel(r: Role): (text: string)
    ensures r == Admin <==> text == "Admin"
    ensures r == Ustadz <==> text == "Ustadz"
    ensures r == Santri <==> text == "Santri"
  {
    match r
    case Admin => "Admin"
    case Ustadz => "Ustadz"
    case Santri => "Santri"
  }

  /** Distinct roles get distinct labels. */
  lemma RoleLabelInjective(r: Role, s: Role)
    ensures RoleLabel(r) == RoleLabel(s) <==> r == s
  {
  }

  /** `name.charAt(0).toUpperCase()`: one upper-cased character, or nothing for an empty name. */
  function AvatarInitial(name: string): (initial: string)
    ensures name == "" <==> initial == ""
    ensures name != "" ==> initial == [Text.UpperChar(name[0])]
    ensures forall i :: 0 <= i < |initial| ==> !('a' <= initial[i] <= 'z')
  {
    if name == "" then "" else [Text.UpperChar(name[0])]
  }

  /** The identity provider's session, as far as logout is concerned. */
  class Session {
    var identity: Option<Principal>

    constructor (identity: Option<Principal>)
      ensures this.identity == identity
    {
      this.identity := identity;
    }
  }

  /** `handleLogout`: `await clear()` on the identity provider, whose outcome
      is `cleared`; only once it resolves is every cached query dropped. A
      rejection propagates out of the handler and leaves the cache as it was. */
  method Logout(session: Session, client: Queries.QueryClient, cleared: Result<()>) returns (r: Result<()>)
    modifies session, client
    ensures r == cleared
    ensures cleared.Ok? ==> session.identity == None && client.cache == map[]
    ensures cleared.Err? ==> session.identity == old(session.identity) && client.cache == old(client.cache)
    ensures client.calls == old(client.calls)
  {
    if cleared.Err? {
      return cleared;
    }
    session.identity := None;
    client.Clear();
    r := cleared;
  }
}
