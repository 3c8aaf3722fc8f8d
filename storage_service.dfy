/**
 * The key-value layer over the browser's localStorage. Every key the game uses
 * is stored under a fixed prefix, so that `Clear` can leave other entries alone.
 */
module StorageService {
  import opened Wrappers
  import Text

  const Prefix: string := "pokemon_lockes_"

  /**
   * What localStorage holds under a key: the serialized text of a value, a
   * text that JSON.parse rejects, or the empty string.
   */
  datatype Item<V> = Serialized(value: V) | Malformed | Blank

  /** getKey: the stored key for a caller's key. */
  function Key(key: string): (k: string)
    ensures Text.StartsWith(k, Prefix)
    ensures k[|Prefix|..] == key
  {
    Prefix + key
  }

  /** The prefix is stripped by dropping its length; `replace` of the first occurrence does the same. */
  function Strip(k: string): string
    requires Text.StartsWith(k, Prefix)
  {
    k[|Prefix|..]
  }

  /** Two caller keys address the same stored key only when they are equal. */
  lemma KeyInjective(a: string, b: string)
    ensures Key(a) == Key(b) <==> a == b
  {
    if Key(a) == Key(b) {
      assert a == Key(a)[|Prefix|..] && b == Key(b)[|Prefix|..];
    }
  }

  /** Every prefixed stored key is the stored key of its stripped form. */
  lemma KeyOfStrip(k: string)
    requires Text.StartsWith(k, Prefix)
    ensures Key(Strip(k)) == k
  {
    assert k == k[..|Prefix|] + k[|Prefix|..];
  }

  /** get(key, defaultValue) against the stored items. */
  function Lookup<V>(items: map<string, Item<V>>, key: string, default: Option<V>): (r: Option<V>)
    ensures Key(key) !in items ==> r == default
    ensures Key(key) in items && items[Key(key)] == Blank ==> r == default
    ensures Key(key) in items && items[Key(key)] == Malformed ==> r == None
    ensures Key(key) in items && items[Key(key)].Serialized? ==> r == Some(items[Key(key)].value)
  {
    if Key(key) !in items then default
    else match items[Key(key)]
      case Blank => default
      case Malformed => None
      case Serialized(v) => Some(v)
  }

  /** After set(k, v), get(k, d) yields v whatever d is. */
  lemma SetThenGet<V>(items: map<string, Item<V>>, key: string, value: V, default: Option<V>)
    ensures Lookup(items[Key(key) := Serialized(value)], key, default) == Some(value)
  {
  }

  /** set(k, v) does not change what get returns for any other key. */
  lemma SetKeepsOthers<V>(items: map<string, Item<V>>, key: string, value: V, other: string, default: Option<V>)
    requires other != key
    ensures Lookup(items[Key(key) := Serialized(value)], other, default) == Lookup(items, other, default)
  {
    KeyInjective(key, other);
  }

  /** After remove(k), get(k, d) yields d. */
  lemma RemoveThenGet<V>(items: map<string, Item<V>>, key: string, default: Option<V>)
    ensures Lookup(items - {Key(key)}, key, default) == default
  {
  }

  /** The items left by clear: exactly the entries without the prefix. */
  function Foreign<V>(items: map<string, Item<V>>): (r: map<string, Item<V>>)
    ensures forall k :: k in r <==> k in items && !Text.StartsWith(k, Prefix)
    ensures forall k :: k in r ==> r[k] == items[k]
  {
    map k | k in items && !Text.StartsWith(k, Prefix) :: items[k]
  }

  /** After clear, get answers the default for every caller key. */
  lemma ClearThenGet<V>(items: map<string, Item<V>>, key: string, default: Option<V>)
    ensures Lookup(Foreign(items), key, default) == default
  {
  }

  /** The localStorage of the page, including the entries of other applications. */
  class Store<V> {
    var items: map<string, Item<V>>

    constructor (initial: map<string, Item<V>>)
      ensures items == initial
    {
      items := initial;
    }

    /** get(key, defaultValue). */
    function Get(key: string, default: Option<V>): (r: Option<V>)
      reads this
      ensures Key(key) !in items ==> r == default
      ensures Key(key) in items && items[Key(key)].Blank? ==> r == default
      ensures Key(key) in items && items[Key(key)].Malformed? ==> r == None
      ensures Key(key) in items && items[Key(key)].Serialized? ==> r == Some(items[Key(key)].value)
    {
      Lookup(items, key, default)
    }

    /** exists(key): localStorage.getItem(...) !== null, so a blank or malformed item exists too. */
    function Exists(key: string): (r: bool)
      reads this
      ensures !r ==> Get(key, None) == None
      ensures Get(key, None).Some? ==> r
      ensures r <==> Key(key) in items
    {
      Key(key) in items
    }

    /** set(key, value): every value here serializes, so the write always happens. */
    method Set(key: string, value: V) returns (ok: bool)
      modifies this
      ensures ok
      ensures items == old(items)[Key(key) := Serialized(value)]
      ensures Get(key, None) == Some(value)
    {
      items := items[Key(key) := Serialized(value)];
      ok := true;
    }

    /** remove(key). */
    method Remove(key: string) returns (ok: bool)
      modifies this
      ensures ok
      ensures items == old(items) - {Key(key)}
      ensures !Exists(key)
      ensures forall d: Option<V> {:trigger Get(key, d)} :: Get(key, d) == d
    {
      items := items - {Key(key)};
      ok := true;
    }

    /** clear(): removes every prefixed entry one by one and nothing else. */
    method Clear() returns (ok: bool)
      modifies this
      ensures ok
      ensures items == Foreign(old(items))
    {
      var keys := set k | k in items && Text.StartsWith(k, Prefix);
      ghost var done: set<string> := {};
      while keys != {}
        invariant keys * done == {}
        invariant keys + done == set k | k in old(items) && Text.StartsWith(k, Prefix)
        invariant items == old(items) - done
        decreases keys
      {
        var k :| k in keys;
        items := items - {k};
        keys := keys - {k};
        done := done + {k};
      }
      ok := true;
    }

    /** getAllKeys(): the caller keys of every prefixed entry, each once. */
    method GetAllKeys() returns (keys: seq<string>)
      ensures forall key :: key in keys <==> Key(key) in items
      ensures forall i, j :: 0 <= i < j < |keys| ==> keys[i] != keys[j]
    {
      var todo := set k | k in items && Text.StartsWith(k, Prefix);
      keys := [];
      while todo != {}
        invariant todo <= items.Keys
        invariant forall k :: k in todo ==> Text.StartsWith(k, Prefix)
        invariant forall key :: key in keys ==> Key(key) in items && Key(key) !in todo
        invariant forall k :: k in items && Text.StartsWith(k, Prefix) ==> k in todo || Strip(k) in keys
        invariant forall i, j :: 0 <= i < j < |keys| ==> keys[i] != keys[j]
        decreases todo
      {
        var k :| k in todo;
        KeyOfStrip(k);
        keys := keys + [Strip(k)];
        todo := todo - {k};
      }
      forall key | Key(key) in items
        ensures key in keys
      {
        assert Strip(Key(key)) == key;
      }
    }
  }
}
