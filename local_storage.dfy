/**
 * The persistence adapter of the shop's state: `loadState` and `saveState`
 * over the browser's key-value store, under one key, failing soft.
 *
 * The store is a map from keys to strings. `JSON.stringify` and `JSON.parse`
 * are the two functions of a `Codec`, with None standing for a thrown error;
 * that parsing undoes stringifying is a hypothesis (`RoundTrips`) of the
 * lemmas that need it, not a property of every codec.
 */
module LocalState {
  import opened Wrappers

  const StorageKey: string := "amadeus-cart"

  datatype Codec<!S> = Codec(stringify: S -> Option<string>, parse: string -> Option<S>)

  /** `s` survives the JSON round trip: it serialises, and parsing the text gives `s` back. */
  predicate RoundTrips<S(==)>(codec: Codec<S>, s: S) {
    codec.stringify(s).Some? && codec.parse(codec.stringify(s).value) == Some(s)
  }

  /** The browser's storage for the page's origin. */
  class Storage {
    var items: map<string, string>
    /** False when the storage is unavailable: every access to it throws. */
    var enabled: bool

    constructor (items: map<string, string>, enabled: bool)
      ensures this.items == items && this.enabled == enabled
    {
      this.items := items;
      this.enabled := enabled;
    }
  }

  /** `loadState()`: the parsed state stored under the key, or None (`undefined`)
      when the storage cannot be read, nothing is stored, or parsing fails. */
  method LoadState<S>(store: Storage, codec: Codec<S>) returns (r: Option<S>)
    ensures !store.enabled ==> r == None
    ensures StorageKey !in store.items ==> r == None
    ensures store.enabled && StorageKey in store.items ==> r == codec.parse(store.items[StorageKey])
  {
    if !store.enabled {
      // getItem threw; the catch returns undefined
      return None;
    }
    if StorageKey !in store.items {
      return None;
    }
    var serialized := store.items[StorageKey];
    r := codec.parse(serialized);
  }

  /** `saveState(state)`: stores the serialised state under the key and nothing
      else; when serialising throws or the store refuses the write (storage
      unavailable, `writeRefused` for an exceeded quota), nothing changes. */
  method SaveState<S>(store: Storage, codec: Codec<S>, state: S, writeRefused: bool)
    modifies store`items
    ensures var text := codec.stringify(state);
      if text.Some? && store.enabled && !writeRefused
      then store.items == old(store.items)[StorageKey := text.value]
      else store.items == old(store.items)
    ensures forall k :: k != StorageKey ==> (k in store.items <==> k in old(store.items))
    ensures forall k :: k != StorageKey && k in store.items ==> store.items[k] == old(store.items)[k]
  {
    var serialized := codec.stringify(state);
    if serialized.None? {
      // JSON.stringify threw
      return;
    }
    if !store.enabled || writeRefused {
      // setItem threw and left the stored value as it was
      return;
    }
    store.items := store.items[StorageKey := serialized.value];
  }

  /** After a successful save, a load returns `parse(stringify(state))`, which is
      the state itself when the state survives the JSON round trip. */
  method SaveThenLoad<S(==)>(store: Storage, codec: Codec<S>, state: S) returns (r: Option<S>)
    requires store.enabled && codec.stringify(state).Some?
    modifies store`items
    ensures r == codec.parse(codec.stringify(state).value)
    ensures RoundTrips(codec, state) ==> r == Some(state)
  {
    SaveState(store, codec, state, false);
    r := LoadState(store, codec);
  }
}
