/**
 * The home application's own `StorageService`: the same JSON-in-
 * `localStorage` access as the shared one, with the key of the locally
 * signed-in user.
 */
module HomeStorage {
  import opened Wrappers
  import opened Json
  import opened Browser

  const AuthKey := "bytebank_auth_user"
  const UsersKey := "bytebank_users_list"

  class StorageService {
    /** The origin's storage; `null` when there is no window. */
    const store: LocalStorage?
    const codec: JsonCodec

    constructor(store: LocalStorage?, codec: JsonCodec)
      ensures this.store == store && this.codec == codec
    {
      this.store := store;
      this.codec := codec;
    }

    /** `setItem`: stores `JSON.stringify(value)`; nothing without a window. */
    method SetItem(key: string, value: Json)
      modifies store
      ensures store != null ==> store.items == old(store.items)[key := codec.stringify(value)]
      ensures store != null && Lawful(codec) ==> GetItem(key) == value
    {
      if store == null {
        return;
      }
      store.SetItem(key, codec.stringify(value));
      if Lawful(codec) {
        ParsedItemWritten(codec, old(store.items), key, value);
      }
    }

    /** `getItem`: the parsed value, `null` when absent, unparsable or without a window. */
    function GetItem(key: string): (j: Json)
      reads store
      ensures store == null ==> j == JNull
      ensures store != null && key !in store.items ==> j == JNull
      ensures store != null && key in store.items && codec.parse(store.items[key]).None? ==> j == JNull
      ensures store != null && key in store.items && codec.parse(store.items[key]).Some? ==>
        j == codec.parse(store.items[key]).value
    {
      if store == null then JNull else ParsedItem(codec, store.items, key)
    }

    /** `removeItem`: afterwards the key reads as `null`. */
    method RemoveItem(key: string)
      modifies store
      ensures store != null ==> store.items == old(store.items) - {key}
      ensures GetItem(key) == JNull
    {
      if store == null {
        return;
      }
      store.RemoveItem(key);
    }
  }
}
