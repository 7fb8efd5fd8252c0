/** The admin-approval endpoint: `GET ?uid=...` promotes a user to admin. */
module ApproveAdmin {
  import opened Store
  import opened Signup

  const MISSING_UID_BODY: string := "Missing user ID"
  const APPROVED_BODY: string := "User has been approved as admin."
  const APPROVE_FAILED_BODY: string := "Failed to approve admin"

  /** The record after `updateDoc(..., { admin: true, role: 'admin' })`. */
  function Approved(u: User): (r: User)
    ensures r.admin && r.role == ROLE_ADMIN && RoleConsistent(r)
    ensures r.(admin := u.admin, role := u.role) == u
  {
    u.(admin := true, role := ROLE_ADMIN)
  }

  /** Approving an approved user changes nothing. */
  lemma ApprovedIdempotent(u: User)
    ensures Approved(Approved(u)) == Approved(u)
  {
  }

  /** Approval makes the record one an admin sign-up would have written. */
  lemma ApprovedAsAdminSignup(u: User)
    requires u.teams == None
    ensures Approved(u) == NewUserRecord(u.uid, u.email, u.name, true)
  {
  }

  /** The handler. `uid` is the query parameter, absent when not given; an empty one is
      rejected like an absent one. A missing user document makes the update fail. */
  method Get(db: Db, uid: Option<string>, writeFails: bool) returns (status: int, body: string)
    modifies db`users
    ensures uid.None? || uid == Some("") ==>
      status == 400 && body == MISSING_UID_BODY && db.users == old(db.users)
    ensures uid.Some? && uid.value != "" && (writeFails || uid.value !in old(db.users)) ==>
      status == 500 && body == APPROVE_FAILED_BODY && db.users == old(db.users)
    ensures uid.Some? && uid.value != "" && !writeFails && uid.value in old(db.users) ==>
      && status == 200 && body == APPROVED_BODY
      && db.users == old(db.users)[uid.value := Approved(old(db.users)[uid.value])]
    ensures AllRolesConsistent(old(db.users)) ==> AllRolesConsistent(db.users)
    ensures KnownRoles(old(db.users)) ==> KnownRoles(db.users)
  {
    if uid.None? || uid.value == "" {
      return 400, MISSING_UID_BODY;
    }
    if writeFails || uid.value !in db.users {
      return 500, APPROVE_FAILED_BODY;
    }
    db.users := db.users[uid.value := Approved(db.users[uid.value])];
    return 200, APPROVED_BODY;
  }
}
