/** The persisted history store: the two browsing logs kept in local
    storage under keys scoped by the store-view code, read with self-repair
    (a value that does not parse is deleted and read as empty). */
module History {
  import opened Wrappers
  import opened JsonValues

  /** Local storage: string keys to string values. */
  type Storage = map<string, string>

  const ViewSuffix: string := ":productViewHistory"
  const PurchaseSuffix: string := ":purchaseHistory"

  function ViewKey(storeViewCode: string): string
  {
    storeViewCode + ViewSuffix
  }

  function PurchaseKey(storeViewCode: string): string
  {
    storeViewCode + PurchaseSuffix
  }

  /** `getItem(key) || '[]'`: a missing key (`null`) and the empty string are
      both falsy and read as the text `[]`. */
  function RawValue(storage: Storage, key: string): string
  {
    if key in storage && storage[key] != "" then storage[key] else "[]"
  }

  /** What one history read returns, and local storage after it. */
  datatype Loaded = Loaded(value: Json, storage: Storage)

  /** One history read under `key`: parse the raw value; when parsing throws,
      remove the key and return `[]`. */
  function Load(storage: Storage, key: string, parse: Parser): (r: Loaded)
    ensures r.storage.Keys <= storage.Keys
    ensures forall k :: k in r.storage ==> r.storage[k] == storage[k]
    ensures forall k :: k in storage && k != key ==> k in r.storage
  {
    match parse(RawValue(storage, key))
    case Some(v) => Loaded(v, storage)
    case None => Loaded(EmptyArray, storage - {key})
  }

  /** A missing or empty stored value reads as the empty array and leaves
      storage unchanged. */
  lemma LoadMissingOrEmpty(storage: Storage, key: string, parse: Parser)
    requires ParsesEmptyArray(parse)
    requires key !in storage || storage[key] == ""
    ensures Load(storage, key, parse) == Loaded(EmptyArray, storage)
  {
  }

  /** A stored value that fails to parse reads as the empty array, and that
      one key is removed; every other key keeps its value. */
  lemma LoadCorrupt(storage: Storage, key: string, parse: Parser)
    requires key in storage && storage[key] != ""
    requires parse(storage[key]).None?
    ensures Load(storage, key, parse).value == EmptyArray
    ensures Load(storage, key, parse).storage.Keys == storage.Keys - {key}
    ensures forall k :: k in storage && k != key ==> Load(storage, key, parse).storage[k] == storage[k]
  {
  }

  /** A stored value that parses is returned as parsed, and storage is
      unchanged. */
  lemma LoadParsed(storage: Storage, key: string, parse: Parser, v: Json)
    requires key in storage && storage[key] != ""
    requires parse(storage[key]) == Some(v)
    ensures Load(storage, key, parse) == Loaded(v, storage)
  {
  }

  /** With a parser that reads `[]` as the empty array, only a non-empty
      value that fails to parse changes storage, and then only by removing
      `key`. */
  lemma LoadRepairsOnlyCorruption(storage: Storage, key: string, parse: Parser)
    requires ParsesEmptyArray(parse)
    ensures Load(storage, key, parse).storage != storage
      <==> key in storage && storage[key] != "" && parse(storage[key]).None?
    ensures Load(storage, key, parse).storage == storage
      || Load(storage, key, parse).storage == storage - {key}
  {
    if key in storage && storage[key] != "" && parse(storage[key]).None? {
      assert key !in Load(storage, key, parse).storage;
    }
  }

  /** The two history keys of one store view differ (they part at the third
      character of the suffix, 'r' against 'u'). */
  lemma KeysDistinct(storeViewCode: string)
    ensures ViewKey(storeViewCode) != PurchaseKey(storeViewCode)
  {
    var n := |storeViewCode|;
    assert ViewKey(storeViewCode)[n + 2] == 'r';
    assert PurchaseKey(storeViewCode)[n + 2] == 'u';
  }

  /** Reading one history never changes what the other history reads: the
      purchase read after a view read sees the same raw value as before it,
      and vice versa. */
  lemma LoadsIndependent(storage: Storage, storeViewCode: string, parse: Parser)
    ensures Load(Load(storage, ViewKey(storeViewCode), parse).storage, PurchaseKey(storeViewCode), parse).value
         == Load(storage, PurchaseKey(storeViewCode), parse).value
    ensures Load(Load(storage, PurchaseKey(storeViewCode), parse).storage, ViewKey(storeViewCode), parse).value
         == Load(storage, ViewKey(storeViewCode), parse).value
  {
    KeysDistinct(storeViewCode);
    var v, p := ViewKey(storeViewCode), PurchaseKey(storeViewCode);
    assert RawValue(Load(storage, v, parse).storage, p) == RawValue(storage, p);
    assert RawValue(Load(storage, p, parse).storage, v) == RawValue(storage, v);
  }
}
