/// The lender's profile editor: saving the form writes the profile under
/// `userinfo/<username>`, and a changed username moves the profile to the
/// new key, refusing a key that is already taken.
module EditProfile {
  import opened Wrappers
  import opened Text
  import opened Values

  /** `'userinfo/' + user.displayName`: the key of the user's profile (a
      user with no display name yet reads as the key "null"). */
  function ProfileKey(displayName: Option<string>): (key: string)
    ensures displayName.Some? ==> key == displayName.value
  {
    if displayName.Some? then displayName.value else "null"
  }

  /** `username !== user.displayName`: the save moves the profile. */
  predicate Renaming(username: string, displayName: Option<string>) {
    displayName != Some(username)
  }

  /** `updatedData`: the username, the entered e-mail or else the account's,
      the picture, the account's uid and its creation time or else now. */
  function ProfileData(username: string, email: string, profilePicture: string, user: AuthUser, now: string): Record
  {
    map["username" := Str(username),
        "email" := if email != "" then Str(email) else EmailValue(user.email),
        "profilePicture" := Str(profilePicture),
        "uid" := Str(user.uid),
        "joinDate" := Str(if user.creationTime.Some? && user.creationTime.value != "" then user.creationTime.value else now)]
  }

  /** `update(ref(db, 'userinfo/' + key), data)` on the profile tree. */
  function UpdateProfile(userinfo: map<string, Record>, key: string, data: Record): map<string, Record>
  {
    userinfo[key := Merge(if key in userinfo then userinfo[key] else map[], data)]
  }

  /** The written record has exactly the five fields, with the account's uid
      and the entered e-mail or else the account's. */
  lemma ProfileDataShape(username: string, email: string, profilePicture: string, user: AuthUser, now: string)
    ensures var r := ProfileData(username, email, profilePicture, user, now);
            && r.Keys == {"username", "email", "profilePicture", "uid", "joinDate"}
            && r["username"] == Str(username) && r["uid"] == Str(user.uid)
            && r["email"] == (if email != "" then Str(email) else EmailValue(user.email))
            && r["joinDate"] == Str(if user.creationTime.Some? && user.creationTime.value != "" then user.creationTime.value else now)
  {
  }

  /** An update writes only its own key, merging into what is there. */
  lemma UpdateProfileFrame(userinfo: map<string, Record>, key: string, data: Record)
    ensures var r := UpdateProfile(userinfo, key, data);
            && r.Keys == userinfo.Keys + {key}
            && (forall k :: k in userinfo && k != key ==> r[k] == userinfo[k])
            && r[key] == Merge(if key in userinfo then userinfo[key] else map[], data)
  {
  }

  /** The step at which the store or the authentication service fails, if any. */
  datatype FailurePoint = NoFailure | LookupFails | WriteFails | RenameFails | RemoveFails

  /** How a save attempt ends. */
  datatype SaveOutcome = BlankUsername | NotSignedIn | UsernameTaken | Saved | SaveFailed

  /** What a save attempt leaves behind: its outcome, the profile tree and
      the signed-in account. */
  datatype SaveEffect = SaveEffect(outcome: SaveOutcome, userinfo: map<string, Record>, currentUser: Option<AuthUser>)

  /** The steps of `handleUpdateProfile`: validation, the sign-in check, the
      taken-key check when renaming, the write, and for a rename the account
      rename and the removal of the old key; a failing step ends the attempt
      with the earlier steps done. */
  function SaveAttempt(userinfo: map<string, Record>, currentUser: Option<AuthUser>, username: string,
                       email: string, profilePicture: string, failAt: FailurePoint, now: string): (e: SaveEffect)
    ensures e.outcome == BlankUsername <==> Trim(username) == ""
    ensures e.outcome == NotSignedIn <==> Trim(username) != "" && currentUser.None?
  {
    if Trim(username) == "" then SaveEffect(BlankUsername, userinfo, currentUser)
    else if currentUser.None? then SaveEffect(NotSignedIn, userinfo, currentUser)
    else
      var user := currentUser.value;
      var renaming := Renaming(username, user.displayName);
      if renaming && failAt == LookupFails then SaveEffect(SaveFailed, userinfo, currentUser)
      else if renaming && username in userinfo then SaveEffect(UsernameTaken, userinfo, currentUser)
      else if failAt == WriteFails then SaveEffect(SaveFailed, userinfo, currentUser)
      else
        var written := UpdateProfile(userinfo, username, ProfileData(username, email, profilePicture, user, now));
        if !renaming then SaveEffect(Saved, written, currentUser)
        else if failAt == RenameFails then SaveEffect(SaveFailed, written, currentUser)
        else
          var renamed := Some(user.(displayName := Some(username)));
          if failAt == RemoveFails then SaveEffect(SaveFailed, written, renamed)
          else SaveEffect(Saved, written - {ProfileKey(user.displayName)}, renamed)
  }

  /** The form's state slots. */
  class EditProfileScreen {
    var username: string
    var email: string
    var profilePicture: string
    var uploading: bool

    constructor (username: string, email: string, profilePicture: string)
      ensures this.username == username && this.email == email && this.profilePicture == profilePicture
      ensures !uploading
    {
      this.username := username;
      this.email := email;
      this.profilePicture := profilePicture;
      uploading := false;
    }

    /** `handleUpdateProfile`, with `now` standing for the current time and
        `failAt` for the step at which a call to the services fails. The
        spinner flag is cleared after every attempt that passed validation. */
    method HandleUpdateProfile(db: Database, auth: Auth, failAt: FailurePoint, now: string)
      returns (outcome: SaveOutcome)
      modifies this, db, auth
      ensures SaveEffect(outcome, db.userinfo, auth.currentUser)
              == SaveAttempt(old(db.userinfo), old(auth.currentUser), username, email, profilePicture, failAt, now)
      ensures db.listings == old(db.listings)
      ensures username == old(username) && email == old(email) && profilePicture == old(profilePicture)
      ensures outcome == BlankUsername ==> uploading == old(uploading)
      ensures outcome != BlankUsername ==> !uploading
    {
      ghost var e := SaveAttempt(db.userinfo, auth.currentUser, username, email, profilePicture, failAt, now);
      if Trim(username) == "" {
        return BlankUsername;
      }
      uploading := true;
      var user := auth.currentUser;
      if user.None? {
        uploading := false;
        return NotSignedIn;
      }
      var oldUsername := user.value.displayName;
      if Renaming(username, oldUsername) {
        if failAt == LookupFails {
          uploading := false;
          return SaveFailed;
        }
        var usernameExists := username in db.userinfo;
        if usernameExists {
          uploading := false;
          return UsernameTaken;
        }
      }
      var updatedData := ProfileData(username, email, profilePicture, user.value, now);
      if failAt == WriteFails {
        uploading := false;
        return SaveFailed;
      }
      db.userinfo := UpdateProfile(db.userinfo, username, updatedData);
      if Renaming(username, oldUsername) {
        if failAt == RenameFails {
          uploading := false;
          return SaveFailed;
        }
        auth.currentUser := Some(user.value.(displayName := Some(username)));
        if failAt == RemoveFails {
          uploading := false;
          return SaveFailed;
        }
        db.userinfo := db.userinfo - {ProfileKey(oldUsername)};
      }
      uploading := false;
      return Saved;
    }
  }

  /** A refused save (blank username, nobody signed in, taken username)
      writes nothing and leaves the account as it was; a taken username is
      refused exactly when the save renames onto an existing key. */
  lemma RefusalsWriteNothing(userinfo: map<string, Record>, currentUser: Option<AuthUser>, username: string,
                             email: string, profilePicture: string, failAt: FailurePoint, now: string)
    ensures var e := SaveAttempt(userinfo, currentUser, username, email, profilePicture, failAt, now);
            && (e.outcome in {BlankUsername, NotSignedIn, UsernameTaken} ==>
                  e.userinfo == userinfo && e.currentUser == currentUser)
            && (e.outcome == UsernameTaken <==>
                  Trim(username) != "" && currentUser.Some? && Renaming(username, currentUser.value.displayName)
                  && failAt != LookupFails && username in userinfo)
  {
  }

  /** A save succeeds exactly when it passes validation and sign-in, and
      either renames onto a free key with every step succeeding or saves in
      place with the write succeeding. */
  lemma SavedExactly(userinfo: map<string, Record>, currentUser: Option<AuthUser>, username: string,
                     email: string, profilePicture: string, failAt: FailurePoint, now: string)
    ensures SaveAttempt(userinfo, currentUser, username, email, profilePicture, failAt, now).outcome == Saved
            <==> && Trim(username) != "" && currentUser.Some?
                 && (Renaming(username, currentUser.value.displayName) ==> username !in userinfo && failAt == NoFailure)
                 && (!Renaming(username, currentUser.value.displayName) ==> failAt != WriteFails)
  {
  }

  /** A completed rename moves the profile: the new key holds the written
      record, the old key is gone, every other profile is as it was, and the
      account's display name is the new username. (When the old key and the
      new one coincide, see `NullUsernameLosesProfile`.) */
  lemma RenameMovesProfile(userinfo: map<string, Record>, user: AuthUser, username: string,
                           email: string, profilePicture: string, now: string)
    requires Trim(username) != "" && Renaming(username, user.displayName) && username !in userinfo
    requires ProfileKey(user.displayName) != username
    ensures var e := SaveAttempt(userinfo, Some(user), username, email, profilePicture, NoFailure, now);
            var data := ProfileData(username, email, profilePicture, user, now);
            var oldKey := ProfileKey(user.displayName);
            && e.outcome == Saved
            && username in e.userinfo && oldKey !in e.userinfo
            && (forall f :: f in e.userinfo[username] <==> f in data && data[f] != Null)
            && (forall f :: f in e.userinfo[username] ==> e.userinfo[username][f] == data[f])
            && (forall k :: k != oldKey && k != username ==>
                  (k in e.userinfo <==> k in userinfo) && (k in e.userinfo ==> e.userinfo[k] == userinfo[k]))
            && e.currentUser == Some(user.(displayName := Some(username)))
  {
    UpdateProfileFrame(userinfo, username, ProfileData(username, email, profilePicture, user, now));
  }

  /** Taking one key out of a set and putting a new one in keeps its size. */
  lemma SwapKeyKeepsSize(keys: set<string>, oldKey: string, newKey: string)
    requires oldKey in keys && newKey !in keys
    ensures |keys - {oldKey} + {newKey}| == |keys|
  {
    assert |keys - {oldKey}| == |keys| - 1;
  }

  /** Moving an existing profile to a free key keeps the number of profiles. */
  lemma RenameKeepsProfileCount(userinfo: map<string, Record>, user: AuthUser, username: string,
                                email: string, profilePicture: string, now: string)
    requires Trim(username) != "" && Renaming(username, user.displayName) && username !in userinfo
    requires ProfileKey(user.displayName) in userinfo
    ensures |SaveAttempt(userinfo, Some(user), username, email, profilePicture, NoFailure, now).userinfo.Keys|
            == |userinfo.Keys|
  {
    var oldKey := ProfileKey(user.displayName);
    UpdateProfileFrame(userinfo, username, ProfileData(username, email, profilePicture, user, now));
    var r := SaveAttempt(userinfo, Some(user), username, email, profilePicture, NoFailure, now).userinfo;
    assert r.Keys == userinfo.Keys - {oldKey} + {username};
    SwapKeyKeepsSize(userinfo.Keys, oldKey, username);
  }

  /** Saving in place touches only the user's key, whose other fields are
      kept while the written ones are added or replaced; the account is
      unchanged. */
  lemma SaveInPlaceMerges(userinfo: map<string, Record>, user: AuthUser, username: string,
                          email: string, profilePicture: string, failAt: FailurePoint, now: string, f: string)
    requires Trim(username) != "" && !Renaming(username, user.displayName) && failAt != WriteFails
    requires username in userinfo
    ensures var e := SaveAttempt(userinfo, Some(user), username, email, profilePicture, failAt, now);
            var data := ProfileData(username, email, profilePicture, user, now);
            && e.outcome == Saved && e.currentUser == Some(user)
            && e.userinfo.Keys == userinfo.Keys
            && (forall k :: k in userinfo && k != username ==> e.userinfo[k] == userinfo[k])
            && (f !in data ==> (f in e.userinfo[username] <==> f in userinfo[username])
                               && (f in e.userinfo[username] ==> e.userinfo[username][f] == userinfo[username][f]))
            && (f in data && data[f] != Null ==> f in e.userinfo[username] && e.userinfo[username][f] == data[f])
  {
  }

  /** As written, an account with no display name that saves the username
      "null" writes `userinfo/null` and then removes `'userinfo/' + null`,
      the same key: the save reports success, the account is renamed, and
      its profile is gone. */
  lemma NullUsernameLosesProfile(userinfo: map<string, Record>, user: AuthUser,
                                 email: string, profilePicture: string, now: string)
    requires user.displayName.None? && "null" !in userinfo
    ensures var e := SaveAttempt(userinfo, Some(user), "null", email, profilePicture, NoFailure, now);
            && e.outcome == Saved
            && e.currentUser == Some(user.(displayName := Some("null")))
            && "null" !in e.userinfo
  {
  }

  /** The intended save: an account with no display name has no old profile
      to remove, so nothing is removed after the write. */
  function CorrectedSaveAttempt(userinfo: map<string, Record>, currentUser: Option<AuthUser>, username: string,
                                email: string, profilePicture: string, failAt: FailurePoint, now: string): (e: SaveEffect)
    ensures currentUser.Some? && currentUser.value.displayName.Some? ==>
              e == SaveAttempt(userinfo, currentUser, username, email, profilePicture, failAt, now)
  {
    var e := SaveAttempt(userinfo, currentUser, username, email, profilePicture, failAt, now);
    if e.outcome == Saved && currentUser.Some? && currentUser.value.displayName.None? then
      SaveEffect(Saved, UpdateProfile(userinfo, username, ProfileData(username, email, profilePicture, currentUser.value, now)),
                 e.currentUser)
    else e
  }

  /** With the correction, after a successful save the account's display
      name always names its stored profile, so the profile screen finds it. */
  lemma CorrectedSavedProfileIsFound(userinfo: map<string, Record>, currentUser: Option<AuthUser>, username: string,
                                     email: string, profilePicture: string, failAt: FailurePoint, now: string)
    ensures var e := CorrectedSaveAttempt(userinfo, currentUser, username, email, profilePicture, failAt, now);
            e.outcome == Saved ==> e.currentUser.Some? && ProfileKey(e.currentUser.value.displayName) in e.userinfo
  {
    var e := CorrectedSaveAttempt(userinfo, currentUser, username, email, profilePicture, failAt, now);
    if e.outcome == Saved {
      UpdateProfileFrame(userinfo, username, ProfileData(username, email, profilePicture, currentUser.value, now));
    }
  }

  /** A rename that fails after the new key is written leaves the profile
      under both keys. */
  lemma InterruptedRenameDuplicates(userinfo: map<string, Record>, user: AuthUser, username: string,
                                    email: string, profilePicture: string, failAt: FailurePoint, now: string)
    requires Trim(username) != "" && Renaming(username, user.displayName) && username !in userinfo
    requires failAt in {RenameFails, RemoveFails} && ProfileKey(user.displayName) in userinfo
    ensures var e := SaveAttempt(userinfo, Some(user), username, email, profilePicture, failAt, now);
            e.outcome == SaveFailed && username in e.userinfo && ProfileKey(user.displayName) in e.userinfo
  {
  }
}
