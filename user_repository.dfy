/**
 * The client's user repository (ios/KinexFit/Services/UserRepository.swift):
 * single-statement reads and writes of the local `users` table, and the
 * account deletion that orders the backend call before any local deletion.
 */
module UserRepository {
  import opened Wrappers
  import opened UserModel
  import opened ApiModel
  import opened LocalStore

  const DeleteAccountEndpoint: Endpoint := Endpoint(Delete, "/api/mobile/user/delete")

  predicate HasId(rows: seq<UserRow>, id: string) {
    exists i :: 0 <= i < |rows| && rows[i].user.id == id
  }

  /**
   * GRDB `save`: updates the mapped columns of the row whose primary key is the
   * user's id, or inserts a new row (expiry NULL) when there is none.
   */
  function SavedRows(rows: seq<UserRow>, u: User): (r: seq<UserRow>)
    ensures HasId(rows, u.id) ==> |r| == |rows|
    ensures !HasId(rows, u.id) ==> r == rows + [UserRow(u, None)]
  {
    if HasId(rows, u.id) then
      seq(|rows|, i requires 0 <= i < |rows| =>
        if rows[i].user.id == u.id then UserRow(u, rows[i].subscriptionExpiresAt) else rows[i])
    else rows + [UserRow(u, None)]
  }

  /** The rows after the subscription UPDATE (no WHERE clause: every row). */
  function WithSubscription(rows: seq<UserRow>, tier: SubscriptionTier, status: SubscriptionStatus,
                            expiresAt: Option<int>, now: int): (r: seq<UserRow>)
    ensures |r| == |rows|
    ensures DistinctIds(rows) ==> DistinctIds(r)
  {
    seq(|rows|, i requires 0 <= i < |rows| =>
      UserRow(rows[i].user.(subscriptionTier := tier, subscriptionStatus := Some(status), updatedAt := now), expiresAt))
  }

  class UserRepository {
    const database: AppDatabase
    const tokenStore: TokenStore
    /** The requests this repository sent through the API client, oldest first. */
    var sent: seq<Endpoint>

    constructor (database: AppDatabase, tokenStore: TokenStore)
      ensures this.database == database && this.tokenStore == tokenStore && sent == []
    {
      this.database := database;
      this.tokenStore := tokenStore;
      sent := [];
    }

    /** `getCurrentUser`: `User.fetchOne`, the first row of the table if there is one. */
    method GetCurrentUser() returns (u: Option<User>)
      ensures u.None? <==> database.users == []
      ensures u.Some? ==> u.value == database.users[0].user
    {
      if database.users == [] {
        u := None;
      } else {
        u := Some(database.users[0].user);
      }
    }

    /** `save(_:)`. */
    method Save(u: User)
      requires database.Valid()
      modifies database`users
      ensures database.users == SavedRows(old(database.users), u)
      ensures database.Valid()
    {
      SaveProperties(database.users, u);
      database.users := SavedRows(database.users, u);
    }

    /** `UPDATE users SET scanQuotaUsed = scanQuotaUsed + 1, updatedAt = ?` on every row. */
    method IncrementScanQuota(now: int)
      requires database.Valid()
      modifies database`users
      ensures database.Valid()
      ensures |database.users| == |old(database.users)|
      ensures forall i :: 0 <= i < |database.users| ==>
                database.users[i] == old(database.users[i]).(user := old(database.users[i].user).(
                  scanQuotaUsed := old(database.users[i].user.scanQuotaUsed) + 1, updatedAt := now))
    {
      var rows := database.users;
      database.users := seq(|rows|, i requires 0 <= i < |rows| =>
        rows[i].(user := rows[i].user.(scanQuotaUsed := rows[i].user.scanQuotaUsed + 1, updatedAt := now)));
    }

    /** `updateSubscription(tier:status:expiresAt:)`: overwrites the subscription columns of every row. */
    method UpdateSubscription(tier: SubscriptionTier, status: SubscriptionStatus, expiresAt: Option<int>, now: int)
      requires database.Valid()
      modifies database`users
      ensures database.users == WithSubscription(old(database.users), tier, status, expiresAt, now)
      ensures database.Valid()
    {
      database.users := WithSubscription(database.users, tier, status, expiresAt, now);
    }

    /** `clear()`: `User.deleteAll`. */
    method Clear()
      requires database.Valid()
      modifies database`users
      ensures database.users == [] && database.Valid()
    {
      database.users := [];
    }

    /**
     * `deleteAccount()`: the backend DELETE first; only when it succeeds, one
     * write transaction empties the local tables; only when that commits are the
     * tokens cleared. `reply` is the backend's answer, `localWrite` the outcome
     * of the local transaction (which rolls back as a whole on failure).
     */
    method DeleteAccount(reply: Result<Unit, SendError>, localWrite: Result<Unit, string>)
      returns (r: Result<Unit, DeleteAccountError>)
      requires database.Valid()
      modifies this`sent, database, tokenStore
      ensures database.Valid()
      ensures sent == old(sent) + [DeleteAccountEndpoint]
      ensures reply.Failure? ==> r == Failure(Backend(reply.error))
      ensures reply.Failure? || localWrite.Failure? ==>
                unchanged(database) && unchanged(tokenStore)
      ensures reply.Success? && localWrite.Failure? ==> r == Failure(Storage(localWrite.error))
      ensures reply.Success? && localWrite.Success? ==>
                && r.Success?
                && database.users == [] && database.workouts == 0 && database.bodyMetrics == 0
                && database.syncQueue == 0 && database.settings == 0
                && tokenStore.accessToken.None? && tokenStore.refreshToken.None?
    {
      sent := sent + [DeleteAccountEndpoint];
      if reply.Failure? {
        return Failure(Backend(reply.error));
      }
      if localWrite.Failure? {
        return Failure(Storage(localWrite.error));
      }
      database.workouts := 0;
      database.bodyMetrics := 0;
      database.syncQueue := 0;
      database.users := [];
      database.settings := 0;
      tokenStore.ClearAll();
      r := Success(Unit);
    }
  }

  datatype DeleteAccountError = Backend(cause: SendError) | Storage(description: string)

  // ---------------------------------------------------------------------------
  // Properties

  /**
   * `save` keeps the primary key unique, stores exactly `u` under its id, and
   * leaves every row with another id as it was; saving twice is saving once.
   */
  lemma SaveProperties(rows: seq<UserRow>, u: User)
    requires DistinctIds(rows)
    ensures DistinctIds(SavedRows(rows, u))
    ensures exists i :: 0 <= i < |SavedRows(rows, u)| && SavedRows(rows, u)[i].user == u
    ensures forall row :: row in rows && row.user.id != u.id ==> row in SavedRows(rows, u)
    ensures forall row :: row in SavedRows(rows, u) && row.user.id != u.id ==> row in rows
    ensures SavedRows(SavedRows(rows, u), u) == SavedRows(rows, u)
  {
    var r := SavedRows(rows, u);
    if HasId(rows, u.id) {
      var k :| 0 <= k < |rows| && rows[k].user.id == u.id;
      assert r[k].user == u;
      assert HasId(r, u.id);
      forall row | row in rows && row.user.id != u.id ensures row in r {
        var j :| 0 <= j < |rows| && rows[j] == row;
        assert r[j] == row;
      }
      var r2 := SavedRows(r, u);
      assert |r2| == |r|;
      forall i | 0 <= i < |r| ensures r2[i] == r[i] {
      }
    } else {
      assert r[|rows|].user == u;
      assert HasId(r, u.id);
      var r2 := SavedRows(r, u);
      forall i | 0 <= i < |r| ensures r2[i] == r[i] {
      }
    }
  }

  /**
   * The subscription update is an overwrite: applying a second one erases every
   * trace of the first, so applying the same one twice equals applying it once.
   */
  lemma SubscriptionLastWriteWins(rows: seq<UserRow>,
                                  tier1: SubscriptionTier, status1: SubscriptionStatus, expires1: Option<int>, now1: int,
                                  tier2: SubscriptionTier, status2: SubscriptionStatus, expires2: Option<int>, now2: int)
    ensures WithSubscription(WithSubscription(rows, tier1, status1, expires1, now1), tier2, status2, expires2, now2)
         == WithSubscription(rows, tier2, status2, expires2, now2)
  {
    var once := WithSubscription(rows, tier2, status2, expires2, now2);
    var twice := WithSubscription(WithSubscription(rows, tier1, status1, expires1, now1), tier2, status2, expires2, now2);
    forall i | 0 <= i < |rows| ensures twice[i] == once[i] {
    }
  }

  /** The subscription update sets the subscription columns and changes nothing else of a row. */
  lemma SubscriptionUpdateFrame(rows: seq<UserRow>, tier: SubscriptionTier, status: SubscriptionStatus,
                                expiresAt: Option<int>, now: int, i: int)
    requires 0 <= i < |rows|
    ensures var row := WithSubscription(rows, tier, status, expiresAt, now)[i];
            && row.user.subscriptionTier == tier && row.user.subscriptionStatus == Some(status)
            && row.subscriptionExpiresAt == expiresAt && row.user.updatedAt == now
            && row.user.scanQuotaUsed == rows[i].user.scanQuotaUsed
            && row.user.aiQuotaUsed == rows[i].user.aiQuotaUsed
            && row.user.(subscriptionTier := rows[i].user.subscriptionTier,
                         subscriptionStatus := rows[i].user.subscriptionStatus,
                         updatedAt := rows[i].user.updatedAt) == rows[i].user
  {
  }
}
