/**
 * Sign-up: creating an account and, for it, a campaign document keyed by the
 * chosen display name (email sign-up) or by the account's uid (Google
 * sign-up). A campaign document that already exists is never overwritten, and
 * an email sign-up under a taken name is refused before any account is made.
 */
module SignUp {
  import opened Records
  import Gateway

  /** The signed-in account the auth service hands back. A null photo URL is "". */
  datatype User = User(uid: string, email: string, photoURL: string)

  /** An error shown under the form: only its `code` is displayed. */
  datatype SignUpError = SignUpError(code: string)

  /** What the auth service answered: an account, or the error it threw. */
  datatype AuthOutcome = Signed(user: User) | Rejected(reason: SignUpError)

  /** What sign-up does outside its own state, in the order it does it. */
  datatype Effect =
    | CreateAccount(email: string, password: string)
    | GoogleSignIn
    | AddCampaign(user: User, key: string)
    | LogIn(user: User)
    | Navigate(path: string)

  const UsernameTaken := "That username already exists"
  const SettingsPath := "../settings"

  /** The document a new campaign starts as (the creation timestamp aside). */
  function NewCampaignDoc(user: User): (d: CampaignDoc)
    ensures d.donations == [] && d.followers == [] && d.posts == [] && d.supporters == []
    ensures d.about == "" && d.bannerImage == "" && d.name == "" && d.summary == ""
    ensures d.currentGoal == None
    ensures d.avatar == user.photoURL && d.email == user.email
  {
    CampaignDoc(
      about := "",
      avatar := user.photoURL,
      bannerImage := "",
      currentGoal := None,
      donations := [],
      email := user.email,
      followers := [],
      name := "",
      posts := [],
      summary := "",
      supporters := [])
  }

  /**
   * The collection after adding the user's campaign under `key`: the key is
   * present afterwards, no other key appears, no existing document changes,
   * and the document is the default one exactly when the key was absent.
   */
  function InsertIfAbsent(docs: map<string, CampaignDoc>, key: string, user: User): (r: map<string, CampaignDoc>)
    ensures r.Keys == docs.Keys + {key}
    ensures forall k :: k in docs ==> r[k] == docs[k]
    ensures key !in docs ==> r[key] == NewCampaignDoc(user)
  {
    if key in docs then docs else docs[key := NewCampaignDoc(user)]
  }

  /** Adding is idempotent: a second sign-up with the same key changes nothing. */
  lemma InsertIfAbsentTwice(docs: map<string, CampaignDoc>, key: string, user: User, other: User)
    ensures InsertIfAbsent(InsertIfAbsent(docs, key, user), key, other) == InsertIfAbsent(docs, key, user)
  {
  }

  /** The `campaigns` collection, keyed by document id. */
  class CampaignStore {
    var docs: map<string, CampaignDoc>

    constructor (initial: map<string, CampaignDoc>)
      ensures docs == initial
    {
      docs := initial;
    }

    /** `getDoc(...).exists()`. */
    method Exists(key: string) returns (found: bool)
      ensures found <==> key in docs
    {
      found := key in docs;
    }

    /** `setDoc`: writes the document under `key`, replacing whatever was there. */
    method Set(key: string, doc: CampaignDoc)
      modifies this
      ensures docs == old(docs)[key := doc]
    {
      docs := docs[key := doc];
    }
  }

  class SignUpView {
    var displayName: string
    var email: string
    var password: string
    var error: Option<SignUpError>

    /** An empty form with no error. */
    constructor ()
      ensures displayName == "" && email == "" && password == "" && error == None
    {
      displayName := "";
      email := "";
      password := "";
      error := None;
    }

    /**
     * `checkForExistingCampaign`. `read` is how the awaited `getDoc` settled:
     * a rejection propagates to the caller instead of an answer.
     */
    static method CheckForExistingCampaign(store: CampaignStore, userDisplayName: string, read: Gateway.Answer<()>)
      returns (campaignExists: Gateway.Answer<bool>)
      ensures read.Rejected? ==> campaignExists.Rejected?
      ensures read.Answered? ==> campaignExists.Answered? && (campaignExists.value <==> userDisplayName in store.docs)
    {
      if read.Rejected? {
        return Gateway.Rejected;
      }
      var found := store.Exists(userDisplayName);
      campaignExists := Gateway.Answered(found);
    }

    /**
     * `addUserToCampaignCollection`: writes the default document only when
     * `key` is free. `read` is how its existence check settled and `write`
     * how the `setDoc` settled; when either rejects nothing is written.
     */
    static method AddUserToCampaignCollection(store: CampaignStore, user: User, key: string,
                                              read: Gateway.Answer<()>, write: Gateway.Answer<()>)
      modifies store
      ensures read.Answered? && write.Answered? ==> store.docs == InsertIfAbsent(old(store.docs), key, user)
      ensures read.Rejected? || write.Rejected? ==> store.docs == old(store.docs)
    {
      var campaignExists := CheckForExistingCampaign(store, key, read);
      if campaignExists.Rejected? {
        return;
      }
      if !campaignExists.value && write.Answered? {
        store.Set(key, NewCampaignDoc(user));
      }
    }

    /**
     * `createUser`, submitted with the form's email and password. `read` is
     * how the awaited existence check settled: when it rejects the function
     * stops there, with no account request and no error shown. `auth` is
     * what account creation answers when it is asked. Under a taken display
     * name nothing is asked and nothing is written; a refused account leaves
     * the auth error on the form. A new account is logged in and sent to the
     * settings page; its campaign is added under the display name only when
     * the add's own check (`addRead`) and write (`addWrite`) settle, since
     * nothing waits for them.
     */
    method CreateUser(store: CampaignStore, read: Gateway.Answer<()>, auth: AuthOutcome,
                      addRead: Gateway.Answer<()>, addWrite: Gateway.Answer<()>) returns (effects: seq<Effect>)
      modifies this, store
      ensures displayName == old(displayName) && email == old(email) && password == old(password)
      ensures read.Rejected? ==>
                error == old(error) && effects == [] && store.docs == old(store.docs)
      ensures read.Answered? && old(displayName) in old(store.docs) ==>
                error == Some(SignUpError(UsernameTaken)) && effects == [] && store.docs == old(store.docs)
      ensures read.Answered? && old(displayName) !in old(store.docs) && auth.Rejected? ==>
                error == Some(auth.reason) && effects == [CreateAccount(email, password)] &&
                store.docs == old(store.docs)
      ensures read.Answered? && old(displayName) !in old(store.docs) && auth.Signed? ==>
                && error == old(error)
                && store.docs == (if addRead.Answered? && addWrite.Answered?
                                  then old(store.docs)[displayName := NewCampaignDoc(auth.user)]
                                  else old(store.docs))
                && effects == [CreateAccount(email, password), AddCampaign(auth.user, displayName),
                               LogIn(auth.user), Navigate(SettingsPath)]
    {
      var campaignExists := CheckForExistingCampaign(store, displayName, read);
      if campaignExists.Rejected? {
        effects := [];
        return;
      }
      if !campaignExists.value {
        effects := [CreateAccount(email, password)];
        match auth
        case Signed(user) =>
          AddUserToCampaignCollection(store, user, displayName, addRead, addWrite);
          effects := effects + [AddCampaign(user, displayName), LogIn(user), Navigate(SettingsPath)];
        case Rejected(reason) =>
          error := Some(reason);
      } else {
        effects := [];
        error := Some(SignUpError(UsernameTaken));
      }
    }

    /**
     * `signInGoogleUser`: the campaign is keyed by the account's uid and is
     * added only if no document has that key, and only when the add's check
     * (`addRead`) and write (`addWrite`) settle; log-in and navigation follow
     * either way. A failed sign-in sets the error and writes nothing.
     */
    method SignInGoogleUser(store: CampaignStore, auth: AuthOutcome,
                            addRead: Gateway.Answer<()>, addWrite: Gateway.Answer<()>) returns (effects: seq<Effect>)
      modifies this, store
      ensures displayName == old(displayName) && email == old(email) && password == old(password)
      ensures auth.Rejected? ==>
                error == Some(auth.reason) && effects == [GoogleSignIn] && store.docs == old(store.docs)
      ensures auth.Signed? ==>
                && error == old(error)
                && store.docs == (if addRead.Answered? && addWrite.Answered?
                                  then InsertIfAbsent(old(store.docs), auth.user.uid, auth.user)
                                  else old(store.docs))
                && effects == [GoogleSignIn, AddCampaign(auth.user, auth.user.uid),
                               LogIn(auth.user), Navigate(SettingsPath)]
    {
      effects := [GoogleSignIn];
      match auth
      case Signed(user) =>
        AddUserToCampaignCollection(store, user, user.uid, addRead, addWrite);
        effects := effects + [AddCampaign(user, user.uid), LogIn(user), Navigate(SettingsPath)];
      case Rejected(reason) =>
        error := Some(reason);
    }

    /** Editing the display name clears the error. */
    method ChangeDisplayName(value: string)
      modifies this
      ensures displayName == value && error == None
      ensures email == old(email) && password == old(password)
    {
      displayName := value;
      error := None;
    }

    /** Editing the email clears the error. */
    method ChangeEmail(value: string)
      modifies this
      ensures email == value && error == None
      ensures displayName == old(displayName) && password == old(password)
    {
      email := value;
      error := None;
    }

    /** Editing the password clears the error. */
    method ChangePassword(value: string)
      modifies this
      ensures password == value && error == None
      ensures displayName == old(displayName) && email == old(email)
    {
      password := value;
      error := None;
    }
  }
}
