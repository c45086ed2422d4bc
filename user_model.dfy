/** The `users` table as the core services see it: one `User` object per id, updated in place. */
module UserModel {
  import opened Wrappers

  /** The values of the user columns the services read and write. */
  datatype UserRow = UserRow(
    totalXp: int,
    totalGems: int,
    currentStreak: int,
    maxStreak: int,
    lastActivityDate: Option<int>,   // a calendar day; `null` is None
    avatarUrl: Option<string>)

  /** A loaded `User` entity; services change its fields and then save it. */
  class User {
    const id: int
    var totalXp: int
    var totalGems: int
    var currentStreak: int
    var maxStreak: int
    var lastActivityDate: Option<int>
    var avatarUrl: Option<string>

    constructor (id: int, row: UserRow)
      ensures this.id == id && Row() == row
    {
      this.id := id;
      totalXp, totalGems := row.totalXp, row.totalGems;
      currentStreak, maxStreak := row.currentStreak, row.maxStreak;
      lastActivityDate, avatarUrl := row.lastActivityDate, row.avatarUrl;
    }

    /** The current column values of this user. */
    function Row(): UserRow
      reads this
    {
      UserRow(totalXp, totalGems, currentStreak, maxStreak, lastActivityDate, avatarUrl)
    }
  }

  /** Every key of the table maps to the user with that primary key, so distinct keys are distinct objects. */
  predicate TableValid(users: map<int, User>) {
    forall id :: id in users ==> users[id].id == id
  }

  /** The objects a write to user `userId` may touch: that user, when the table has it. */
  function UserFrame(users: map<int, User>, userId: int): set<User> {
    if userId in users then {users[userId]} else {}
  }
}
