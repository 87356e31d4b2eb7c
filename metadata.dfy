/**
 * The PUT /metadata/:key route of umpack.js: decode the caller's token, read
 * the caller's stored metadata through getUserMetaDataByRequest (which decodes
 * the token a second time), treat a missing object as `{}`, set one key and
 * write the object back. The user interactor that stores metadata is not part
 * of this model; here it is a map from user name to the stored metadata
 * object, where an absent entry or None reads as null, and each of its calls
 * may be made to reject by the caller.
 */
module Metadata {
  import opened Wrappers
  import opened Http
  import opened Tokens

  /**
   * The one key a JavaScript assignment `obj[key] = value` may not store as an
   * own property: on an object without an own `__proto__` it goes to the
   * inherited prototype setter instead.
   */
  const ProtoKey := "__proto__"

  /**
   * Whether `metadata[key] = value` stores `key` as an own property: always,
   * except for `__proto__` on an object that has no own `__proto__` yet (an
   * object parsed from JSON text such as `{"__proto__": 1}` has one).
   */
  predicate SetsOwnKey<V>(metadata: map<string, V>, key: string) {
    key != ProtoKey || ProtoKey in metadata
  }

  function Base<V>(stored: Option<map<string, V>>): map<string, V> {
    if stored.None? then map[] else stored.value
  }

  /**
   * The object written back: the stored metadata (or `{}` when there is none)
   * with `key` set to `value`, except that `__proto__` adds no own key to an
   * object that lacks one.
   */
  function WithKey<V>(stored: Option<map<string, V>>, key: string, value: V): (r: map<string, V>)
    ensures SetsOwnKey(Base(stored), key) ==> r.Keys == Base(stored).Keys + {key} && r[key] == value
    ensures !SetsOwnKey(Base(stored), key) ==> r == Base(stored)
    ensures forall k :: k in r && k != key ==> stored.Some? && k in stored.value && r[k] == stored.value[k]
  {
    var metadata := Base(stored);
    if SetsOwnKey(metadata, key) then metadata[key := value] else metadata
  }

  /**
   * `__proto__` is overwritten in an object that already has it as an own key
   * (`{"__proto__": 1}` becomes `{"__proto__": 2}`), and leaves an object
   * without one unchanged.
   */
  lemma WithKeyProto(stored: map<string, int>)
    ensures WithKey(Some(map[ProtoKey := 1]), ProtoKey, 2) == map[ProtoKey := 2]
    ensures ProtoKey !in stored ==> WithKey(Some(stored), ProtoKey, 2) == stored
  {
  }

  /** Setting a key twice keeps only the second value; setting it again with the same value changes nothing. */
  lemma WithKeyLastWriteWins<V>(stored: Option<map<string, V>>, key: string, first: V, second: V)
    ensures WithKey(Some(WithKey(stored, key, first)), key, second) == WithKey(stored, key, second)
    ensures WithKey(Some(WithKey(stored, key, second)), key, second) == WithKey(stored, key, second)
  {
    var once := WithKey(stored, key, second);
    var twice := WithKey(Some(WithKey(stored, key, first)), key, second);
    assert twice.Keys == once.Keys;
    assert forall k :: k in twice ==> twice[k] == once[k];
  }

  /** Why the route rejected: a token that did not decode, or a rejection from the user interactor. */
  datatype RouteError = TokenRejected(name: ApiErrorName) | StoreRejected(error: Error)

  class UserMetadataStore<V> {
    /** Stored metadata objects, by user name. */
    var metaData: map<string, Option<map<string, V>>>

    constructor (initial: map<string, Option<map<string, V>>>)
      ensures metaData == initial
    {
      metaData := initial;
    }

    /** The metadata object stored for `userName`, None standing for null. */
    function Stored(userName: string): Option<map<string, V>>
      reads this
    {
      if userName in metaData then metaData[userName] else None
    }

    /** getUserMetaDataByUserName: rejects with `failure` when given one, otherwise reads the stored object. */
    method GetUserMetaData(userName: string, failure: Option<Error>)
      returns (r: Result<Option<map<string, V>>, Error>)
      ensures failure.Some? ==> r == Err(failure.value)
      ensures failure.None? ==> r == Ok(Stored(userName))
    {
      if failure.Some? {
        return Err(failure.value);
      }
      r := Ok(Stored(userName));
    }

    /** updateUserMetaData: rejects with `failure` and changes nothing, or replaces one user's object. */
    method UpdateUserMetaData(userName: string, metadata: map<string, V>, failure: Option<Error>)
      returns (r: Result<(), Error>)
      modifies this
      ensures failure.Some? ==> r == Err(failure.value) && metaData == old(metaData)
      ensures failure.None? ==> r == Ok(()) && metaData == old(metaData)[userName := Some(metadata)]
    {
      if failure.Some? {
        return Err(failure.value);
      }
      metaData := metaData[userName := Some(metadata)];
      r := Ok(());
    }

    /**
     * PUT /metadata/:key. `verify` is the verifier at the route's own decode,
     * `verifyAgain` the verifier at the later decode inside
     * getUserMetaDataByRequest (the clock may have moved on in between);
     * `readFailure` and `writeFailure` are the interactor's rejections, if any.
     * Any rejection leaves every user's metadata as it was and is reported.
     * Otherwise the caller's object gains `key` mapped to `value`, its other
     * keys keep their values, and no other user changes.
     */
    method PutMetadataKey(req: Request, cookieName: string,
                          verify: string -> Verification, verifyAgain: string -> Verification,
                          key: string, value: V, readFailure: Option<Error>, writeFailure: Option<Error>)
      returns (r: Result<string, RouteError>)
      modifies this
      ensures r.Err? ==> metaData == old(metaData)
      ensures var first := DecodeRequestToken(req, cookieName, verify);
        var second := DecodeRequestToken(req, cookieName, verifyAgain);
        if first.Err? then r == Err(TokenRejected(first.error))
        else if second.Err? then r == Err(TokenRejected(second.error))
        else if readFailure.Some? then r == Err(StoreRejected(readFailure.value))
        else if writeFailure.Some? then r == Err(StoreRejected(writeFailure.value))
        else
          && r == Ok("metadata key: " + key + " updated")
          && metaData == old(metaData)[first.value.user :=
               Some(WithKey(old(Stored(second.value.user)), key, value))]
    {
      var decoded := DecodeRequestToken(req, cookieName, verify);
      if decoded.Err? {
        return Err(TokenRejected(decoded.error));
      }
      var again := DecodeRequestToken(req, cookieName, verifyAgain);
      if again.Err? {
        return Err(TokenRejected(again.error));
      }
      var fetched := GetUserMetaData(again.value.user, readFailure);
      if fetched.Err? {
        return Err(StoreRejected(fetched.error));
      }
      var metadata := Base(fetched.value);
      if SetsOwnKey(metadata, key) {
        metadata := metadata[key := value];
      }
      var written := UpdateUserMetaData(decoded.value.user, metadata, writeFailure);
      if written.Err? {
        return Err(StoreRejected(written.error));
      }
      r := Ok("metadata key: " + key + " updated");
    }
  }

  /**
   * After an update that nobody rejected, the caller's metadata holds the new
   * value under `key` (or is unchanged for `__proto__` when it had no own
   * `__proto__`), and another user's metadata is as it was.
   */
  method PutThenRead<V>(store: UserMetadataStore<V>, req: Request, cookieName: string,
                        verify: string -> Verification, key: string, value: V, otherUser: string)
    returns (readBack: Option<map<string, V>>, otherAfter: Option<map<string, V>>)
    modifies store
    requires DecodeRequestToken(req, cookieName, verify).Ok?
    requires otherUser != DecodeRequestToken(req, cookieName, verify).value.user
    ensures var before := Base(old(store.Stored(DecodeRequestToken(req, cookieName, verify).value.user)));
      if SetsOwnKey(before, key) then readBack.Some? && key in readBack.value && readBack.value[key] == value
      else readBack == Some(before)
    ensures otherAfter == old(store.Stored(otherUser))
  {
    var user := DecodeRequestToken(req, cookieName, verify).value.user;
    var _ := store.PutMetadataKey(req, cookieName, verify, verify, key, value, None, None);
    var mine := store.GetUserMetaData(user, None);
    var theirs := store.GetUserMetaData(otherUser, None);
    readBack, otherAfter := mine.value, theirs.value;
  }
}
