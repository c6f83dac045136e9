/**
 * The namespaced `localStorage` keys of the seller dashboard and the
 * `StorageService` wrapper around the browser's key/value store.
 *
 * The browser store is a `LocalStorage` object whose entries are a map.
 * Any call into it may throw (storage disabled, quota exceeded): each
 * operation takes a `fault` flag saying whether that call threw.
 * `JSON.parse` and `JSON.stringify` are parameters: `parse` yields `None`
 * where the real parser throws.
 */
module Storage {
  import opened Js

  const Prefix: string := "bstock_seller_"

  // STORAGE_KEYS
  const TokenKey: string := "bstock_seller_token"
  const UserKey: string := "bstock_seller_user"
  const UserIdKey: string := "bstock_seller_userId"
  const UserTypeKey: string := "bstock_seller_userType"
  const ThemeKey: string := "bstock_seller_theme"
  const AuthTokenKey: string := "bstock_seller_auth_token"

  /** `Object.values(STORAGE_KEYS)`, in declaration order. */
  const SellerKeys: seq<string> := [TokenKey, UserKey, UserIdKey, UserTypeKey, ThemeKey, AuthTokenKey]

  /** The six keys are pairwise distinct and all carry the project prefix. */
  lemma SellerKeysDistinctAndPrefixed()
    ensures |SellerKeys| == 6
    ensures forall i, j :: 0 <= i < j < |SellerKeys| ==> SellerKeys[i] != SellerKeys[j]
    ensures forall i :: 0 <= i < |SellerKeys| ==> |Prefix| < |SellerKeys[i]| && SellerKeys[i][..|Prefix|] == Prefix
  {
  }

  /** The browser's `localStorage`. */
  class LocalStorage {
    var entries: map<string, string>

    constructor (entries: map<string, string>)
      ensures this.entries == entries
    {
      this.entries := entries;
    }
  }

  /**
   * What `StorageService.getItem` returns for the stored entries when the
   * store does not throw: `null` for a missing key or an empty string, the
   * parsed JSON value when parsing succeeds, else the raw string.
   */
  function ReadItem(entries: map<string, string>, key: string, parse: string -> Option<Value>): (r: Value)
    ensures (key !in entries || entries[key] == "") ==> r == Null
    ensures key in entries && entries[key] != "" && parse(entries[key]).Some? ==> r == parse(entries[key]).value
    ensures key in entries && entries[key] != "" && parse(entries[key]).None? ==> r == Str(entries[key])
  {
    if key !in entries || entries[key] == "" then Null
    else match parse(entries[key])
      case Some(v) => v
      case None => Str(entries[key])
  }

  /** The string `StorageService.setItem` hands to the store: strings verbatim, anything else serialised. */
  function Serialize(value: Value, stringify: Value -> string): (s: string)
    ensures value.Str? ==> s == value.s
    ensures !value.Str? ==> s == stringify(value)
  {
    if value.Str? then value.s else stringify(value)
  }

  /** `StorageService.getItem(key)`; a throwing store yields `null`. */
  method GetItem(ls: LocalStorage, key: string, parse: string -> Option<Value>, fault: bool) returns (r: Value)
    ensures fault ==> r == Null
    ensures !fault ==> r == ReadItem(ls.entries, key, parse)
  {
    if fault {
      return Null;
    }
    if key !in ls.entries || ls.entries[key] == "" {
      return Null;
    }
    var item := ls.entries[key];
    match parse(item) {
      case Some(v) => r := v;
      case None => r := Str(item);
    }
  }

  /** `StorageService.setItem(key, value)`: true when the store accepted the write. */
  method SetItem(ls: LocalStorage, key: string, value: Value, stringify: Value -> string, fault: bool) returns (ok: bool)
    modifies ls
    ensures ok == !fault
    ensures ls.entries == if fault then old(ls.entries) else old(ls.entries)[key := Serialize(value, stringify)]
  {
    var serialized := if value.Str? then value.s else stringify(value);
    if fault {
      return false;
    }
    ls.entries := ls.entries[key := serialized];
    ok := true;
  }

  /** `StorageService.removeItem(key)`: true when the store accepted the removal. */
  method RemoveItem(ls: LocalStorage, key: string, fault: bool) returns (ok: bool)
    modifies ls
    ensures ok == !fault
    ensures ls.entries == if fault then old(ls.entries) else old(ls.entries) - {key}
  {
    if fault {
      return false;
    }
    ls.entries := ls.entries - {key};
    ok := true;
  }

  /** After a successful `removeItem(k)`, `getItem(k)` is `null`. */
  lemma ReadAfterRemove(entries: map<string, string>, key: string, parse: string -> Option<Value>)
    ensures ReadItem(entries - {key}, key, parse) == Null
  {
  }

  /**
   * After a successful `setItem(k, v)`, `getItem(k)` gives back `v` when `v`
   * is a non-empty string that is not JSON text, and whatever the parser
   * makes of the serialised text otherwise.
   */
  lemma ReadAfterWrite(entries: map<string, string>, key: string, value: Value,
                       parse: string -> Option<Value>, stringify: Value -> string)
    ensures var s := Serialize(value, stringify);
      ReadItem(entries[key := s], key, parse) == (if s == "" then Null else if parse(s).Some? then parse(s).value else Str(s))
    ensures value.Str? && value.s != "" && parse(value.s).None? ==> ReadItem(entries[key := value.s], key, parse) == value
  {
  }

  /** A write or removal at one key leaves what `getItem` sees at every other key unchanged. */
  lemma OtherKeysUnaffected(entries: map<string, string>, key: string, other: string, s: string, parse: string -> Option<Value>)
    requires other != key
    ensures ReadItem(entries[key := s], other, parse) == ReadItem(entries, other, parse)
    ensures ReadItem(entries - {key}, other, parse) == ReadItem(entries, other, parse)
  {
  }

  /**
   * The entries left after removing each key of `keys` in turn, where the
   * removal of a key `k` for which `fails(k)` holds throws and is skipped.
   */
  function RemoveEach(entries: map<string, string>, keys: seq<string>, fails: string -> bool): map<string, string>
    decreases |keys|
  {
    if keys == [] then entries
    else
      var before := RemoveEach(entries, keys[..|keys| - 1], fails);
      var k := keys[|keys| - 1];
      if fails(k) then before else before - {k}
  }

  /** Removing keys one by one removes exactly the keys whose removal did not throw. */
  lemma {:induction false} RemoveEachRemovesSet(entries: map<string, string>, keys: seq<string>, fails: string -> bool)
    ensures RemoveEach(entries, keys, fails) == entries - (set k | k in keys && !fails(k))
    decreases |keys|
  {
    if keys != [] {
      var init := keys[..|keys| - 1];
      var last := keys[|keys| - 1];
      RemoveEachRemovesSet(entries, init, fails);
      assert keys == init + [last];
      var dropped := set k | k in init && !fails(k);
      if fails(last) {
        assert (set k | k in keys && !fails(k)) == dropped;
      } else {
        assert (set k | k in keys && !fails(k)) == dropped + {last};
      }
    }
  }

  /**
   * `StorageService.clearSellerData()`: removes every `STORAGE_KEYS` value,
   * swallowing a failed removal; every other entry is left as it was.
   */
  method ClearSellerData(ls: LocalStorage, fails: string -> bool)
    modifies ls
    ensures ls.entries == old(ls.entries) - (set k | k in SellerKeys && !fails(k))
    ensures forall k :: k in old(ls.entries) && k !in SellerKeys ==> k in ls.entries && ls.entries[k] == old(ls.entries)[k]
    ensures forall k :: k in SellerKeys && !fails(k) ==> k !in ls.entries
  {
    var i := 0;
    while i < |SellerKeys|
      invariant 0 <= i <= |SellerKeys|
      invariant ls.entries == RemoveEach(old(ls.entries), SellerKeys[..i], fails)
    {
      var key := SellerKeys[i];
      var _ := RemoveItem(ls, key, fails(key));
      assert SellerKeys[..i + 1][..i] == SellerKeys[..i];
      i := i + 1;
    }
    assert SellerKeys[..i] == SellerKeys;
    RemoveEachRemovesSet(old(ls.entries), SellerKeys, fails);
  }
}
