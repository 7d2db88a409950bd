/**
 * lib/storage.ts: a thin wrapper over the browser's `localStorage` that
 * prefixes every key with "habitTracker_" and stores values as JSON text.
 *
 * The browser is a class: whether `window` exists, whether writes succeed
 * (a full or disabled storage makes `setItem` throw) and the string map
 * itself. JSON is an uninterpreted codec passed in as functions: `decode`/`parse`
 * return None where `JSON.parse` throws, `encode` returns None where
 * `JSON.stringify` throws.
 */
module Storage {
  import opened Wrappers
  import opened Text

  const STORAGE_PREFIX: string := "habitTracker_"

  /** The shapes of a parsed JSON value that `importData` tells apart. */
  datatype Json =
    | JNull
    | JString(str: string)
    | JObject(fields: map<string, Json>)
      /** numbers, booleans and arrays: their entries carry no prefixed key */
    | JOther

  predicate IsPrefixed(key: string)
  {
    StartsWith(key, STORAGE_PREFIX)
  }

  /** The entries that belong to the tracker. */
  function Prefixed(m: map<string, string>): (r: map<string, string>)
    ensures forall k :: k in r <==> k in m && IsPrefixed(k)
    ensures forall k :: k in r ==> r[k] == m[k]
  {
    map k | k in m && IsPrefixed(k) :: m[k]
  }

  /** The entries of other applications. */
  function Unprefixed(m: map<string, string>): (r: map<string, string>)
    ensures forall k :: k in r <==> k in m && !IsPrefixed(k)
    ensures forall k :: k in r ==> r[k] == m[k]
  {
    map k | k in m && !IsPrefixed(k) :: m[k]
  }

  /** The two parts share no key and together give back the whole storage. */
  lemma PrefixSplit(m: map<string, string>)
    ensures Prefixed(m).Keys !! Unprefixed(m).Keys
    ensures Unprefixed(m) + Prefixed(m) == m
  {
    assert (Unprefixed(m) + Prefixed(m)).Keys == m.Keys;
  }

  /** Distinct keys get distinct prefixed keys. */
  lemma {:induction false} PrefixInjective(a: string, b: string)
    requires STORAGE_PREFIX + a == STORAGE_PREFIX + b
    ensures a == b
  {
    assert a == (STORAGE_PREFIX + a)[|STORAGE_PREFIX|..];
    assert b == (STORAGE_PREFIX + b)[|STORAGE_PREFIX|..];
  }

  /** Every key the wrapper writes is a tracker key. */
  lemma {:induction false} KeyIsPrefixed(key: string)
    ensures IsPrefixed(STORAGE_PREFIX + key)
  {
    assert (STORAGE_PREFIX + key)[..|STORAGE_PREFIX|] == STORAGE_PREFIX;
  }

  /**
   * What `getStorageItem(key)` returns: null without a window, for a
   * missing or empty item, and where parsing throws.
   */
  function Get<T>(hasWindow: bool, m: map<string, string>, key: string, decode: string -> Option<T>): (r: Option<T>)
    ensures r.None? <==>
      || !hasWindow
      || STORAGE_PREFIX + key !in m
      || m[STORAGE_PREFIX + key] == ""
      || decode(m[STORAGE_PREFIX + key]).None?
    ensures r.Some? ==> r == decode(m[STORAGE_PREFIX + key])
  {
    if !hasWindow then None
    else
      var k := STORAGE_PREFIX + key;
      if k !in m || m[k] == "" then None
      else decode(m[k])
  }

  /**
   * Writing the encoding of `value` under `key` and reading the key back
   * gives `value`, provided the codec round-trips and the text is non-empty.
   */
  lemma SetThenGet<T>(m: map<string, string>, key: string, value: T,
                      encode: T -> Option<string>, decode: string -> Option<T>)
    requires encode(value).Some? && encode(value).value != ""
    requires decode(encode(value).value) == Some(value)
    ensures Get(true, m[STORAGE_PREFIX + key := encode(value).value], key, decode) == Some(value)
  {
  }

  /** Writing one key leaves what every other key reads. */
  lemma SetLeavesOtherKeys<T>(m: map<string, string>, key: string, other: string, text: string,
                              decode: string -> Option<T>)
    requires key != other
    ensures Get(true, m[STORAGE_PREFIX + key := text], other, decode) == Get(true, m, other, decode)
  {
    if STORAGE_PREFIX + key == STORAGE_PREFIX + other {
      PrefixInjective(key, other);
    }
  }

  /** A read sees only tracker keys: it reads the same from the exported part alone. */
  lemma GetReadsPrefixed<T>(hasWindow: bool, m: map<string, string>, key: string, decode: string -> Option<T>)
    ensures Get(hasWindow, m, key, decode) == Get(hasWindow, Prefixed(m), key, decode)
  {
    KeyIsPrefixed(key);
  }

  /** After clearing, every read finds nothing. */
  lemma GetAfterClear<T>(hasWindow: bool, m: map<string, string>, key: string, decode: string -> Option<T>)
    ensures Get(hasWindow, Unprefixed(m), key, decode) == None
  {
    KeyIsPrefixed(key);
  }

  /** `Object.entries`: None where it throws (on null), the fields of an object, else no tracker key. */
  function Entries(data: Json): (r: Option<map<string, Json>>)
    ensures r.None? <==> data.JNull?
    ensures data.JObject? ==> r == Some(data.fields)
  {
    match data
    case JNull => None
    case JObject(fields) => Some(fields)
    case _ => Some(map[])
  }

  /** The writes `importData` makes: prefixed keys whose values are strings. */
  function Imports(fields: map<string, Json>): (r: map<string, string>)
    ensures forall k :: k in r <==> k in fields && IsPrefixed(k) && fields[k].JString?
    ensures forall k :: k in r ==> r[k] == fields[k].str
  {
    map k | k in fields && IsPrefixed(k) && fields[k].JString? :: fields[k].str
  }

  /** `Object.entries(JSON.parse(jsonString))`, None where either throws. */
  function ParsedEntries(jsonString: string, parse: string -> Option<Json>): (r: Option<map<string, Json>>)
    ensures r.Some? <==> parse(jsonString).Some? && !parse(jsonString).value.JNull?
  {
    if parse(jsonString).None? then None else Entries(parse(jsonString).value)
  }

  /** The writes of the entries already visited: those outside `pending`. */
  function ImportedSoFar(fields: map<string, Json>, pending: set<string>): map<string, string>
  {
    map k | k in fields && k !in pending && IsPrefixed(k) && fields[k].JString? :: fields[k].str
  }

  lemma ImportedSoFarStart(fields: map<string, Json>)
    ensures ImportedSoFar(fields, fields.Keys) == map[]
  {
  }

  lemma ImportedSoFarStep(fields: map<string, Json>, pending: set<string>, key: string)
    requires key in pending && key in fields
    ensures ImportedSoFar(fields, pending - {key}) ==
      if IsPrefixed(key) && fields[key].JString? then ImportedSoFar(fields, pending)[key := fields[key].str]
      else ImportedSoFar(fields, pending)
  {
  }

  lemma ImportedSoFarEnd(fields: map<string, Json>)
    ensures ImportedSoFar(fields, {}) == Imports(fields)
  {
  }

  /** The object `exportData` stringifies, as a JSON value. */
  function AsObject(data: map<string, string>): (r: Json)
    ensures r.JObject? && r.fields.Keys == data.Keys
    ensures forall k :: k in data ==> r.fields[k] == JString(data[k])
  {
    JObject(map k | k in data :: JString(data[k]))
  }

  /**
   * Clearing the tracker's keys and then importing the exported object (as
   * its JSON text parses back) restores the storage.
   */
  lemma ClearExportImport(m: map<string, string>)
    ensures Entries(AsObject(Prefixed(m))).Some?
    ensures Unprefixed(m) + Imports(Entries(AsObject(Prefixed(m))).value) == m
  {
    var fields := AsObject(Prefixed(m)).fields;
    assert Imports(fields) == Prefixed(m);
    PrefixSplit(m);
  }

  /** The browser storage the wrapper talks to. */
  class Browser {
    var hasWindow: bool
    var writable: bool
    var items: map<string, string>

    constructor (hasWindow: bool, writable: bool, items: map<string, string>)
      ensures this.hasWindow == hasWindow && this.writable == writable && this.items == items
    {
      this.hasWindow := hasWindow;
      this.writable := writable;
      this.items := items;
    }

    /** getStorageItem. */
    method GetStorageItem<T>(key: string, decode: string -> Option<T>) returns (r: Option<T>)
      ensures r == Get(hasWindow, items, key, decode)
    {
      if !hasWindow {
        return None;
      }
      var k := STORAGE_PREFIX + key;
      if k !in items || items[k] == "" {
        return None;
      }
      r := decode(items[k]);
    }

    /** setStorageItem: false without a window, when encoding throws, or when the write throws. */
    method SetStorageItem<T>(key: string, value: T, encode: T -> Option<string>) returns (ok: bool)
      modifies this
      ensures hasWindow == old(hasWindow) && writable == old(writable)
      ensures ok <==> hasWindow && encode(value).Some? && writable
      ensures items == if ok then old(items)[STORAGE_PREFIX + key := encode(value).value] else old(items)
    {
      if !hasWindow {
        return false;
      }
      var text := encode(value);
      if text.None? || !writable {
        return false;
      }
      items := items[STORAGE_PREFIX + key := text.value];
      ok := true;
    }

    /** removeStorageItem: true with a window, whether or not the key was there. */
    method RemoveStorageItem(key: string) returns (ok: bool)
      modifies this
      ensures hasWindow == old(hasWindow) && writable == old(writable)
      ensures ok == hasWindow
      ensures items == if ok then old(items) - {STORAGE_PREFIX + key} else old(items)
    {
      if !hasWindow {
        return false;
      }
      items := items - {STORAGE_PREFIX + key};
      ok := true;
    }

    /** clearAllStorage: removes each prefixed key of the snapshot `Object.keys`, in any order. */
    method ClearAllStorage() returns (ok: bool)
      modifies this
      ensures hasWindow == old(hasWindow) && writable == old(writable)
      ensures ok == hasWindow
      ensures items == if ok then Unprefixed(old(items)) else old(items)
    {
      if !hasWindow {
        return false;
      }
      var keys := items.Keys;
      while keys != {}
        invariant hasWindow == old(hasWindow) && writable == old(writable)
        invariant keys <= old(items).Keys
        invariant items == map k | k in old(items) && (k in keys || !IsPrefixed(k)) :: old(items)[k]
        decreases keys
      {
        var key :| key in keys;
        if IsPrefixed(key) {
          items := items - {key};
        }
        keys := keys - {key};
      }
      ok := true;
    }

    /** exportData's object, before `JSON.stringify`: the tracker's keys and their stored text. */
    method ExportData() returns (data: map<string, string>)
      ensures data == if hasWindow then Prefixed(items) else map[]
    {
      data := map[];
      if hasWindow {
        var keys := items.Keys;
        while keys != {}
          invariant keys <= items.Keys
          invariant data == map k | k in items && k !in keys && IsPrefixed(k) :: items[k]
          decreases keys
        {
          var key :| key in keys;
          if IsPrefixed(key) {
            data := data[key := items[key]];
          }
          keys := keys - {key};
        }
      }
    }

    /**
     * importData: false when parsing or `Object.entries` throws, and when the
     * first write throws (no window, or storage not writable), which leaves
     * the storage as it was; otherwise every prefixed string entry is written.
     */
    method ImportData(jsonString: string, parse: string -> Option<Json>) returns (ok: bool)
      modifies this
      ensures hasWindow == old(hasWindow) && writable == old(writable)
      ensures ok <==> (ParsedEntries(jsonString, parse).Some?
        && (Imports(ParsedEntries(jsonString, parse).value) == map[] || (hasWindow && writable)))
      ensures items == if ok then old(items) + Imports(ParsedEntries(jsonString, parse).value) else old(items)
    {
      var entries := ParsedEntries(jsonString, parse);
      if entries.None? {
        return false;
      }
      var fields := entries.value;
      var keys := fields.Keys;
      ImportedSoFarStart(fields);
      while keys != {}
        invariant hasWindow == old(hasWindow) && writable == old(writable)
        invariant keys <= fields.Keys
        invariant items == old(items) + ImportedSoFar(fields, keys)
        invariant !(hasWindow && writable) ==> ImportedSoFar(fields, keys) == map[]
        decreases keys
      {
        var key :| key in keys;
        ImportedSoFarStep(fields, keys, key);
        if IsPrefixed(key) && fields[key].JString? {
          if !hasWindow || !writable {
            assert key in Imports(fields);
            assert items == old(items) + map[];
            return false;
          }
          ghost var done := ImportedSoFar(fields, keys);
          assert (old(items) + done)[key := fields[key].str] == old(items) + done[key := fields[key].str];
          items := items[key := fields[key].str];
        }
        keys := keys - {key};
      }
      ImportedSoFarEnd(fields);
      ok := true;
    }
  }
}
