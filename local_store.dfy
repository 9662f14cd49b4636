/**
 * The device-local state the core writes: the SQLite database behind GRDB
 * (only the `users` table is modelled row by row; the other tables the
 * account deletion empties are row counts) and the keychain token store.
 */
module LocalStore {
  import opened Wrappers
  import opened UserModel

  /**
   * A row of the `users` table: the columns `User` maps, plus the
   * `subscriptionExpiresAt` column that the subscription update writes and
   * `User` does not read.
   */
  datatype UserRow = UserRow(user: User, subscriptionExpiresAt: Option<int>)

  /** `id` is the table's primary key. */
  ghost predicate DistinctIds(rows: seq<UserRow>) {
    forall i, j :: 0 <= i < j < |rows| ==> rows[i].user.id != rows[j].user.id
  }

  class AppDatabase {
    var users: seq<UserRow>
    var workouts: nat
    var bodyMetrics: nat
    var syncQueue: nat
    var settings: nat

    ghost predicate Valid()
      reads this
    {
      DistinctIds(users)
    }

    constructor ()
      ensures Valid() && users == [] && workouts == 0 && bodyMetrics == 0 && syncQueue == 0 && settings == 0
    {
      users, workouts, bodyMetrics, syncQueue, settings := [], 0, 0, 0, 0;
    }
  }

  /** The keychain-backed token store. */
  class TokenStore {
    var accessToken: Option<string>
    var refreshToken: Option<string>

    constructor ()
      ensures accessToken == None && refreshToken == None
    {
      accessToken, refreshToken := None, None;
    }

    method SetAccessToken(token: string)
      modifies this`accessToken
      ensures accessToken == Some(token)
    {
      accessToken := Some(token);
    }

    method SetRefreshToken(token: string)
      modifies this`refreshToken
      ensures refreshToken == Some(token)
    {
      refreshToken := Some(token);
    }

    method ClearAll()
      modifies this
      ensures accessToken == None && refreshToken == None
    {
      accessToken, refreshToken := None, None;
    }
  }
}
