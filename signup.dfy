/** The sign-up page: the user record both sign-up paths write, and their error messages. */
module Signup {
  import opened Store

  const EMAIL_IN_USE_CODE: string := "auth/email-already-in-use"
  const EMAIL_IN_USE_ERROR: string := "Email already in use"
  const GENERIC_ERROR: string := "Something went wrong please try again"
  const USER_EXISTS_ERROR: string := "User already exists. Please log in instead."
  const GOOGLE_FAILED_ERROR: string := "Failed to sign in with Google. Please try again."

  /** What the authentication provider answers: the new account, or an error with its code
      (absent for errors that carry none). */
  datatype AuthResult = Authenticated(uid: string, email: string, displayName: string)
                      | AuthError(code: Option<string>)

  /** The `users` document both paths write: role and flag both follow the one choice. */
  function NewUserRecord(uid: string, email: string, name: string, isAdmin: bool): (u: User)
    ensures RoleConsistent(u)
    ensures u.role == ROLE_ADMIN <==> isAdmin
    ensures u.role == ROLE_ADMIN || u.role == ROLE_EMPLOYEE
    ensures u.uid == uid && u.email == email && u.name == name && u.teams == None
  {
    User(uid, email, name, isAdmin, if isAdmin then ROLE_ADMIN else ROLE_EMPLOYEE, None)
  }

  /** Every stored role is one the sign-up paths or the approval write. */
  ghost predicate KnownRoles(users: map<string, User>) {
    forall id :: id in users ==> users[id].role in {ROLE_ADMIN, ROLE_EMPLOYEE}
  }

  /** The email sign-up's error mapping: the one recognised code, else the generic message. */
  function SignupErrorMessage(code: Option<string>): (msg: string)
    ensures msg == EMAIL_IN_USE_ERROR <==> code == Some(EMAIL_IN_USE_CODE)
    ensures msg == EMAIL_IN_USE_ERROR || msg == GENERIC_ERROR
  {
    if code == Some(EMAIL_IN_USE_CODE) then EMAIL_IN_USE_ERROR else GENERIC_ERROR
  }

  class SignUp {
    var fullName: string
    var isAdmin: bool
    var error: string

    constructor ()
      ensures fullName == "" && !isAdmin && error == ""
    {
      fullName, isAdmin, error := "", false, "";
    }

    /** `handleSignup`. `auth` is the answer to the account creation; a failed record write
        has no recognised code. `redirected` says whether the page moved to the dashboard. */
    method HandleSignup(db: Db, auth: AuthResult, writeFails: bool) returns (redirected: bool)
      modifies this`error, db`users
      ensures auth.AuthError? ==>
        error == SignupErrorMessage(auth.code) && !redirected && db.users == old(db.users)
      ensures auth.Authenticated? && writeFails ==>
        error == GENERIC_ERROR && !redirected && db.users == old(db.users)
      ensures auth.Authenticated? && !writeFails ==>
        && db.users == old(db.users)[auth.uid := NewUserRecord(auth.uid, auth.email, fullName, isAdmin)]
        && error == "" && redirected
      ensures AllRolesConsistent(old(db.users)) ==> AllRolesConsistent(db.users)
      ensures KnownRoles(old(db.users)) ==> KnownRoles(db.users)
    {
      error := "";
      redirected := false;
      match auth
      case AuthError(code) =>
        error := SignupErrorMessage(code);
      case Authenticated(uid, email, _) =>
        if writeFails {
          error := SignupErrorMessage(None);
        } else {
          db.users := db.users[uid := NewUserRecord(uid, email, fullName, isAdmin)];
          redirected := true;
        }
    }

    /** `handleGoogleSignIn`. `popup` is the sign-in answer, `confirmsAdmin` the answer to
        the confirmation dialog. The error is not cleared first, so success keeps the old one. */
    method HandleGoogleSignIn(db: Db, popup: AuthResult, readFails: bool, confirmsAdmin: bool, writeFails: bool)
      returns (redirected: bool)
      modifies this`error, db`users
      ensures popup.AuthError? || readFails ==>
        error == GOOGLE_FAILED_ERROR && !redirected && db.users == old(db.users)
      ensures popup.Authenticated? && !readFails && popup.uid in old(db.users) ==>
        error == USER_EXISTS_ERROR && !redirected && db.users == old(db.users)
      ensures popup.Authenticated? && !readFails && popup.uid !in old(db.users) && writeFails ==>
        error == GOOGLE_FAILED_ERROR && !redirected && db.users == old(db.users)
      ensures popup.Authenticated? && !readFails && popup.uid !in old(db.users) && !writeFails ==>
        && db.users == old(db.users)[popup.uid := NewUserRecord(popup.uid, popup.email, popup.displayName, confirmsAdmin)]
        && error == old(error) && redirected
      ensures AllRolesConsistent(old(db.users)) ==> AllRolesConsistent(db.users)
      ensures KnownRoles(old(db.users)) ==> KnownRoles(db.users)
    {
      redirected := false;
      if popup.AuthError? || readFails {
        error := GOOGLE_FAILED_ERROR;
        return;
      }
      if popup.uid in db.users {
        error := USER_EXISTS_ERROR;
        return;
      }
      if writeFails {
        error := GOOGLE_FAILED_ERROR;
        return;
      }
      db.users := db.users[popup.uid := NewUserRecord(popup.uid, popup.email, popup.displayName, confirmsAdmin)];
      redirected := true;
    }
  }
}
