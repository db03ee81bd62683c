/**
 * The generic key-value store: small values kept as JSON text under string
 * keys in the configuration's generic storage map, with the whole
 * configuration persisted after every change.
 *
 * JSON encoding and decoding are collaborators, given to each call as
 * functions that may fail with a message; persisting the configuration is a
 * counter.
 */
module GenericStorage {
  import opened Wrappers

  /** A `RuntimeException` with its message and the message of its cause. */
  datatype StorageError = StorageError(message: string, cause: string)

  const WriteErrorMessage := "Error writing data as JSON"
  const ReadErrorPrefix := "Error reading data from "

  class Store {
    /** The configuration's generic storage map: key to JSON text. */
    var genericStorage: map<string, string>
    /** How often the configuration has been persisted (`save(true)`). */
    var persistCount: nat

    constructor (initial: map<string, string>)
      ensures genericStorage == initial && persistCount == 0
    {
      genericStorage := initial;
      persistCount := 0;
    }

    /** Persists the whole configuration. */
    method Persist()
      modifies this`persistCount
      ensures persistCount == old(persistCount) + 1
    {
      persistCount := persistCount + 1;
    }

    /**
     * Stores the value's encoding under the key, replacing what was there,
     * and persists once. An encoding failure is thrown before the map is
     * touched, so the map is unchanged and nothing is persisted.
     */
    method Save<T>(key: string, value: T, encode: T -> Result<string, string>) returns (r: Outcome<StorageError>)
      modifies this
      ensures r.Pass? <==> encode(value).Success?
      ensures encode(value).Success? ==>
                && genericStorage == old(genericStorage)[key := encode(value).value]
                && persistCount == old(persistCount) + 1
      ensures encode(value).Failure? ==>
                && r == Fail(StorageError(WriteErrorMessage, encode(value).error))
                && genericStorage == old(genericStorage)
                && persistCount == old(persistCount)
    {
      var json := encode(value);
      if json.Failure? {
        return Fail(StorageError(WriteErrorMessage, json.error));
      }
      genericStorage := genericStorage[key := json.value];
      Persist();
      r := Pass;
    }

    /** Drops the key if present (an absent key is no error) and persists once either way. */
    method Remove(key: string)
      modifies this
      ensures genericStorage == old(genericStorage) - {key}
      ensures persistCount == old(persistCount) + 1
    {
      genericStorage := genericStorage - {key};
      Persist();
    }

    /**
     * Empty for an absent key; for a present key its decoded value, or an
     * error quoting the stored text when decoding fails.
     */
    method Get<T>(key: string, decode: string -> Result<T, string>) returns (r: Result<Option<T>, StorageError>)
      ensures r == Success(None) <==> key !in genericStorage
      ensures key in genericStorage ==>
                match decode(genericStorage[key])
                case Success(v) => r == Success(Some(v))
                case Failure(cause) => r == Failure(StorageError(ReadErrorPrefix + genericStorage[key], cause))
    {
      if key in genericStorage {
        var json := genericStorage[key];
        var decoded := decode(json);
        if decoded.Failure? {
          return Failure(StorageError(ReadErrorPrefix + json, decoded.error));
        }
        return Success(Some(decoded.value));
      }
      r := Success(None);
    }
  }

  /** A value whose encoding decodes back to it is read back after it is saved. */
  method SaveThenGet<T>(s: Store, key: string, value: T, encode: T -> Result<string, string>,
                        decode: string -> Result<T, string>) returns (saved: Outcome<StorageError>, got: Result<Option<T>, StorageError>)
    requires encode(value).Success? && decode(encode(value).value) == Success(value)
    modifies s
    ensures saved == Pass && got == Success(Some(value))
    ensures s.persistCount == old(s.persistCount) + 1
  {
    saved := s.Save(key, value, encode);
    got := s.Get(key, decode);
  }

  /** After a key is removed, reading it gives empty. */
  method RemoveThenGet<T>(s: Store, key: string, decode: string -> Result<T, string>) returns (got: Result<Option<T>, StorageError>)
    modifies s
    ensures got == Success(None)
    ensures s.persistCount == old(s.persistCount) + 1
  {
    s.Remove(key);
    got := s.Get(key, decode);
  }

  /** Saving or removing one key does not change what another key reads. */
  method OtherKeyUnaffected<T>(s: Store, key: string, other: string, value: T, save: bool,
                               encode: T -> Result<string, string>, decode: string -> Result<T, string>)
    returns (before: Result<Option<T>, StorageError>, after: Result<Option<T>, StorageError>)
    requires key != other
    modifies s
    ensures before == after
  {
    before := s.Get(other, decode);
    if save {
      var _ := s.Save(key, value, encode);
    } else {
      s.Remove(key);
    }
    after := s.Get(other, decode);
  }
}
