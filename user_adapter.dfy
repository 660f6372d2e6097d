/** The directory's rows (UserAdapter.kt): one row per user, bound from an immutable list. */
module UserList {
  import opened Strings
  import opened Records

  const DISPLAY_LIMIT: nat := 15

  /** The row's name: unchanged up to fifteen characters, otherwise its first
      fifteen and "...", eighteen in all. */
  function DisplayName(first: string): (name: string)
    ensures |first| <= DISPLAY_LIMIT ==> name == first
    ensures |first| > DISPLAY_LIMIT ==> |name| == DISPLAY_LIMIT + 3 && name[DISPLAY_LIMIT..] == "..."
    ensures |name| <= DISPLAY_LIMIT + 3
    ensures var k := Min(DISPLAY_LIMIT, |first|); |name| >= k && name[..k] == first[..k]
  {
    Truncate(first, DISPLAY_LIMIT, "...")
  }

  /** A bound row: the texts it shows and the user that a tap on the row and
      a tap on its chat icon pass to the click callback. */
  datatype UserRow = UserRow(name: string, email: string, rowTapUser: User, iconTapUser: User)

  /** `UserViewHolder.bind`. */
  function Bind(user: User): (row: UserRow)
    ensures row.rowTapUser == user && row.iconTapUser == user
    ensures row.name == DisplayName(user.first) && row.email == user.email
  {
    UserRow(DisplayName(user.first), user.email, user, user)
  }

  function ItemCount(users: seq<User>): (n: nat)
    ensures n == |users|
  {
    |users|
  }

  /** Row `position` is bound from `users[position]`; both taps report that user. */
  function OnBindViewHolder(users: seq<User>, position: nat): (row: UserRow)
    requires position < ItemCount(users)
    ensures row.rowTapUser == users[position] && row.iconTapUser == users[position]
    ensures row.name == DisplayName(users[position].first) && row.email == users[position].email
  {
    Bind(users[position])
  }
}
