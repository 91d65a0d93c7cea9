/**
 * The user table (app/dashboard/_components/UserList.tsx): the role label shown in each row,
 * and the choice between the loading view, the empty view and the table.
 */
module UserList {
  import opened Api
  import Text

  /** `s.replace(/_/g, " ")`. */
  function UnderscoresToSpaces(s: string): (r: string)
    ensures |r| == |s|
    ensures forall k :: 0 <= k < |s| ==> r[k] == if s[k] == '_' then ' ' else s[k]
  {
    if s == [] then [] else [if s[0] == '_' then ' ' else s[0]] + UnderscoresToSpaces(s[1..])
  }

  /** `role.replace(/_/g, " ").toUpperCase()`. */
  function RoleLabel(role: string): string {
    Text.ToUpper(UnderscoresToSpaces(role))
  }

  /**
   * The label has one character per character of the role: a space for each underscore and the
   * upper-case form of every other character, so no underscore is left.
   */
  lemma RoleLabelShape(role: string)
    ensures |RoleLabel(role)| == |role|
    ensures forall k :: 0 <= k < |role| ==>
              RoleLabel(role)[k] == if role[k] == '_' then ' ' else Text.UpperChar(role[k])
    ensures '_' !in RoleLabel(role)
  {
    var shown := RoleLabel(role);
    forall k | 0 <= k < |shown| ensures shown[k] != '_' {
    }
  }

  /** The four roles get four different labels. */
  lemma RoleLabelsDistinct(a: UserRole, b: UserRole)
    requires a != b
    ensures RoleLabel(RoleName(a)) != RoleLabel(RoleName(b))
  {
    RoleLabelShape(RoleName(a));
    RoleLabelShape(RoleName(b));
    // the four role names have four different lengths, and a label is as long as its role
  }

  /** One table row. The date cell's locale formatting is not modelled: the raw timestamp is kept. */
  datatype UserRow = UserRow(key: string, name: string, username: string, email: string, role: string, createdAt: string)

  function RowOf(u: User): UserRow {
    UserRow(u.id, u.firstName + " " + u.lastName, u.username, u.email, RoleLabel(RoleName(u.role)), u.createdAt)
  }

  /** `users.map(...)`: one row per user, in order. */
  function Rows(users: seq<User>): (r: seq<UserRow>)
    ensures |r| == |users|
    ensures forall i :: 0 <= i < |users| ==> r[i] == RowOf(users[i])
  {
    if users == [] then [] else [RowOf(users[0])] + Rows(users[1..])
  }

  datatype View = LoadingView | EmptyView | TableView(rows: seq<UserRow>)

  /** The view UserList renders; an absent isLoading prop counts as false. */
  function SelectView(users: seq<User>, isLoading: bool): (v: View)
    ensures isLoading ==> v == LoadingView
    ensures !isLoading && users == [] ==> v == EmptyView
    ensures !isLoading && users != [] ==> v.TableView? && |v.rows| == |users|
    ensures v.TableView? ==> forall i :: 0 <= i < |users| ==> v.rows[i] == RowOf(users[i])
  {
    if isLoading then LoadingView
    else if |users| == 0 then EmptyView
    else TableView(Rows(users))
  }
}
