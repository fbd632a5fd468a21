/**
 * `AuthService` of the home application: the locally signed-in user, held
 * in `currentUser` and kept under `bytebank_auth_user` in the home
 * application's storage.  The React state setter each operation calls is
 * modelled by the value the operation hands to it, returned as `notified`.
 */
module HomeAuth {
  import opened Wrappers
  import opened Json
  import opened Browser
  import HomeStorage

  /** `User`: a name and an e-mail. */
  datatype User = User(name: string, email: string)

  /** The object `login` stores and holds for a user. */
  function UserValue(u: User): (j: Json)
    ensures Truthy(j)
    ensures Member(j, "name") == JStr(u.name) && Member(j, "email") == JStr(u.email)
  {
    JObj(map["name" := JStr(u.name), "email" := JStr(u.email)])
  }

  class AuthService {
    const storage: HomeStorage.StorageService
    /** `currentUser`; `JNull` is `null`. */
    var currentUser: Json

    /** `new AuthService()`: the user is whatever is stored under the key, `null` when nothing readable is. */
    constructor(storage: HomeStorage.StorageService)
      ensures this.storage == storage
      ensures currentUser == storage.GetItem(HomeStorage.AuthKey)
      ensures storage.store == null ==> !IsLoggedIn()
      ensures storage.store != null && HomeStorage.AuthKey !in storage.store.items ==> !IsLoggedIn()
    {
      this.storage := storage;
      currentUser := storage.GetItem(HomeStorage.AuthKey);
    }

    /** `isLoggedIn`: `currentUser !== null`. */
    predicate IsLoggedIn()
      reads this
    {
      currentUser != JNull
    }

    /** `login(user, setter)`: the user is held, stored, and handed to the setter. */
    method Login(user: User) returns (notified: Json)
      modifies this, storage.store
      ensures currentUser == UserValue(user) && notified == currentUser && IsLoggedIn()
      ensures storage.store != null ==>
        storage.store.items == old(storage.store.items)[HomeStorage.AuthKey := storage.codec.stringify(UserValue(user))]
      ensures storage.store != null && Lawful(storage.codec) ==> storage.GetItem(HomeStorage.AuthKey) == currentUser
    {
      currentUser := UserValue(user);
      storage.SetItem(HomeStorage.AuthKey, currentUser);
      notified := currentUser;
    }

    /** `logout(setter)`: the user is dropped, the key removed, and `null` handed to the setter. */
    method Logout() returns (notified: Json)
      modifies this, storage.store
      ensures currentUser == JNull && notified == JNull && !IsLoggedIn()
      ensures storage.store != null ==> storage.store.items == old(storage.store.items) - {HomeStorage.AuthKey}
      ensures storage.GetItem(HomeStorage.AuthKey) == JNull
    {
      currentUser := JNull;
      storage.RemoveItem(HomeStorage.AuthKey);
      notified := currentUser;
    }
  }

  /* ---------------------------------- properties ---------------------------------- */

  /**
   * What a later `new AuthService()` on the same storage finds: after a
   * login, that user; after a logout, nobody.  Other keys play no part.
   */
  lemma ReloadSeesLastLogin(codec: JsonCodec, items: map<string, string>, u: User)
    requires Lawful(codec)
    ensures ParsedItem(codec, items[HomeStorage.AuthKey := codec.stringify(UserValue(u))], HomeStorage.AuthKey) == UserValue(u)
    ensures ParsedItem(codec, items - {HomeStorage.AuthKey}, HomeStorage.AuthKey) == JNull
  {
    var written := items[HomeStorage.AuthKey := codec.stringify(UserValue(u))];
    assert written[HomeStorage.AuthKey] == codec.stringify(UserValue(u));
    assert codec.parse(codec.stringify(UserValue(u))) == Some(UserValue(u));
  }

  /** A stored user that parses to an object makes the rebuilt service logged in. */
  lemma StoredObjectMeansLoggedIn(codec: JsonCodec, items: map<string, string>, members: map<string, Json>)
    requires HomeStorage.AuthKey in items && codec.parse(items[HomeStorage.AuthKey]) == Some(JObj(members))
    ensures ParsedItem(codec, items, HomeStorage.AuthKey) != JNull
  {
  }
}
