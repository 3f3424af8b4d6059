/**
 * The device's secure key-value store (expo-secure-store), which the auth
 * service and the theme slice write. Values are plain strings; a missing
 * key reads as `None`.
 */
module SecureStorage {
  import opened Wrappers

  class SecureStore {
    var items: map<string, string>

    constructor (initial: map<string, string>)
      ensures items == initial
    {
      items := initial;
    }

    /** `getItemAsync`. */
    method GetItem(key: string) returns (value: Option<string>)
      ensures key in items ==> value == Some(items[key])
      ensures key !in items ==> value == None
    {
      value := if key in items then Some(items[key]) else None;
    }

    /** `setItemAsync`: only `key` changes. */
    method SetItem(key: string, value: string)
      modifies this
      ensures items == old(items)[key := value]
    {
      items := items[key := value];
    }

    /** `deleteItemAsync`: only `key` goes; deleting a missing key changes nothing. */
    method DeleteItem(key: string)
      modifies this
      ensures items == old(items) - {key}
    {
      items := items - {key};
    }
  }
}
