/**
 * The user store: who is signed in, kept across page loads in the browser's
 * local storage under one key, and the user id a page should show.
 * `JSON.parse` and `JSON.stringify` are parameters; the storage is a map.
 */
module UserStore {

  import opened Wrappers
  import opened JsonValues
  import opened StoreCommon

  const StorageKey := "blogger-user"

  datatype User = User(id: string, name: string, avatarUrl: Option<string>)

  const DemoUser := User("demo-user", "Demo User", Some("https://i.pravatar.cc/150?img=3"))

  /** The value of a string-typed member, reading the last occurrence as `JSON.parse` does. */
  function StringMember(members: seq<(string, Json)>, key: string): (s: Option<string>)
    ensures s.Some? <==> LastValue(members, key).Some? && LastValue(members, key).value.JString?
    ensures s.Some? ==> LastValue(members, key) == Some(JString(s.value))
  {
    match LastValue(members, key)
    case Some(JString(text)) => Some(text)
    case _ => None
  }

  /** The structure check: an object whose `id` and `name` are strings. */
  function AsUser(parsed: Json): (u: Option<User>)
    ensures u.Some? <==>
      parsed.JObject? && StringMember(parsed.members, "id").Some? && StringMember(parsed.members, "name").Some?
    ensures u.Some? ==>
      u.value.id == StringMember(parsed.members, "id").value &&
      u.value.name == StringMember(parsed.members, "name").value &&
      u.value.avatarUrl == StringMember(parsed.members, "avatarUrl")
  {
    match parsed
    case JObject(members) =>
      (match (StringMember(members, "id"), StringMember(members, "name"))
       case (Some(id), Some(name)) => Some(User(id, name, StringMember(members, "avatarUrl")))
       case _ => None)
    case _ => None
  }

  /** The user found at start-up, and whether the stored entry is then removed. */
  datatype Initial = Initial(user: Option<User>, clearStored: bool)

  /**
   * `getInitialUser`: an absent or empty entry gives no user and is left
   * alone; an entry that does not parse, or parses to something that is not
   * a user, gives no user and is removed.
   */
  function InitialUser(stored: Option<string>, parse: string -> Option<Json>): (r: Initial)
    ensures !NonEmpty(stored) ==> r == Initial(None, false)
    ensures NonEmpty(stored) ==> (r.clearStored <==> r.user.None?)
    ensures NonEmpty(stored) && parse(stored.value).None? ==> r == Initial(None, true)
    ensures r.user.Some? ==> NonEmpty(stored) && parse(stored.value).Some? && AsUser(parse(stored.value).value) == r.user
  {
    if !NonEmpty(stored) then Initial(None, false)
    else
      match parse(stored.value)
      case None => Initial(None, true)
      case Some(parsed) =>
        var user := AsUser(parsed);
        Initial(user, user.None?)
  }

  /** The object `JSON.stringify` is given; an absent avatar is left out. */
  function UserToJson(user: User): Json {
    JObject([("id", JString(user.id)), ("name", JString(user.name))] +
            (if user.avatarUrl.Some? then [("avatarUrl", JString(user.avatarUrl.value))] else []))
  }

  /** A serialized user passes the structure check and reads back as the same user. */
  lemma AsUserOfUserToJson(user: User)
    ensures AsUser(UserToJson(user)) == Some(user)
  {
    var members := UserToJson(user).members;
    if user.avatarUrl.Some? {
      assert members[..2][..1] == [("id", JString(user.id))];
      assert LastValue(members, "name") == Some(JString(user.name));
      assert LastValue(members, "id") == Some(JString(user.id));
    } else {
      assert members[..1] == [("id", JString(user.id))];
      assert LastValue(members, "avatarUrl") == None;
    }
  }

  class UserStore {
    var currentUser: Option<User>
    var storage: map<string, string>
    const stringify: Json -> string

    /** The store as created: the user read from storage, and the entry removed when it was invalid. */
    constructor (stored: map<string, string>, parse: string -> Option<Json>, stringify: Json -> string)
      ensures this.stringify == stringify
      ensures var init := InitialUser(if StorageKey in stored then Some(stored[StorageKey]) else None, parse);
        currentUser == init.user &&
        storage == if init.clearStored then stored - {StorageKey} else stored
    {
      var init := InitialUser(if StorageKey in stored then Some(stored[StorageKey]) else None, parse);
      currentUser := init.user;
      storage := if init.clearStored then stored - {StorageKey} else stored;
      this.stringify := stringify;
    }

    /** `isLoggedIn`. */
    function IsLoggedIn(): (signedIn: bool)
      reads this
      ensures signedIn <==> currentUser.Some?
    {
      currentUser != None
    }

    /** `login` followed by the watcher: the new user object is a change, so it is written to storage. */
    method Login(user: User)
      modifies this
      ensures currentUser == Some(user)
      ensures storage == old(storage)[StorageKey := stringify(UserToJson(user))]
    {
      currentUser := Some(user);
      storage := storage[StorageKey := stringify(UserToJson(user))];
    }

    /** `logout` followed by the watcher, which runs only if someone was signed in. */
    method Logout()
      modifies this
      ensures currentUser == None
      ensures storage == if old(currentUser).Some? then old(storage) - {StorageKey} else old(storage)
    {
      if currentUser.Some? {
        currentUser := None;
        storage := storage - {StorageKey};
      }
    }

    /** `getEffectiveUserId`: a non-empty route id wins, then a non-empty signed-in id; never an empty id. */
    function EffectiveUserId(routeUserId: Option<string>): (id: Option<string>)
      reads this
      ensures NonEmpty(routeUserId) ==> id == routeUserId
      ensures !NonEmpty(routeUserId) && currentUser.Some? && currentUser.value.id != "" ==> id == Some(currentUser.value.id)
      ensures !NonEmpty(routeUserId) && (currentUser.None? || currentUser.value.id == "") ==> id == None
      ensures id != Some("")
    {
      if NonEmpty(routeUserId) then routeUserId
      else if currentUser.Some? && currentUser.value.id != "" then Some(currentUser.value.id)
      else None
    }

    /** `mockLogin`. */
    method MockLogin()
      modifies this
      ensures currentUser == Some(DemoUser)
      ensures storage == old(storage)[StorageKey := stringify(UserToJson(DemoUser))]
    {
      Login(DemoUser);
    }
  }

  /**
   * A sign-in survives a reload, given that parsing what `JSON.stringify`
   * wrote gives back the same value.
   */
  method LoginSurvivesReload(stored: map<string, string>, parse: string -> Option<Json>, stringify: Json -> string, user: User)
    returns (reloaded: UserStore)
    requires stringify(UserToJson(user)) != ""
    requires parse(stringify(UserToJson(user))) == Some(UserToJson(user))
    ensures reloaded.currentUser == Some(user)
    ensures StorageKey in reloaded.storage && reloaded.storage[StorageKey] == stringify(UserToJson(user))
  {
    var store := new UserStore(stored, parse, stringify);
    store.Login(user);
    AsUserOfUserToJson(user);
    reloaded := new UserStore(store.storage, parse, stringify);
  }

  /** A sign-out survives a reload: the next start finds no user. */
  method LogoutSurvivesReload(stored: map<string, string>, parse: string -> Option<Json>, stringify: Json -> string, user: User)
    returns (reloaded: UserStore)
    ensures reloaded.currentUser == None
    ensures StorageKey !in reloaded.storage
  {
    var store := new UserStore(stored, parse, stringify);
    store.Login(user);
    store.Logout();
    reloaded := new UserStore(store.storage, parse, stringify);
  }
}
