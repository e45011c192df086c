/**
 * The browser implementation of the store interface libsignal calls: a
 * layer over localStorage that keeps the own identity key pair and
 * registration id, the identity keys of peers, pre-keys, signed pre-keys and
 * session records, each kind under its own key prefix.
 */
module SignalStore {
  import opened Wrappers
  import opened JsValues
  import opened Platform
  import opened StoreCodec

  /** The `Direction` constants libsignal passes to isTrustedIdentity (which ignores them). */
  const SENDING: int := 1
  const RECEIVING: int := 2

  class SignalProtocolStore {
    /** The helpers and built-ins the store calls. */
    const env: Env
    /** The items of localStorage. */
    var store: map<string, string>

    /** `this.store = localStorage`: the store starts from whatever localStorage already holds. */
    constructor (env: Env, items: map<string, string>)
      ensures this.env == env && store == items
    {
      this.env := env;
      store := items;
    }

    /**
     * put(key, value). A bare ArrayBuffer is stored as its base64 text; a
     * plain object first has its ArrayBuffer properties replaced by their
     * base64 text, in place, and is stored as JSON; anything else is stored
     * as `String(value)`. Returns the caller's `value` as the call leaves it.
     */
    method Put(key: JsValue, value: JsValue) returns (r: Result<JsValue, Error>)
      modifies this
      ensures IsNullish(key) || IsNullish(value) ==> r == Err(StoreNullish) && store == old(store)
      ensures !IsNullish(key) && !IsNullish(value) ==>
        && r == Ok(CallerValueAfterPut(env, value))
        && store == old(store)[JsString(key) := StoredText(env, value)]
    {
      if IsNullish(key) || IsNullish(value) {
        return Err(StoreNullish);
      }
      var caller := value;
      var text: string;
      match value {
        case Buffer(bytes) =>
          text := env.toBase64(bytes);
        case Record(fs) =>
          var encoded := EncodeBufferFields(env, fs);
          caller := Record(encoded);
          text := env.stringify(caller);
        case _ =>
          text := JsString(value);
      }
      store := store[JsString(key) := text];
      r := Ok(caller);
    }

    /** get(key, defaultValue) */
    method Get(key: JsValue, default: JsValue) returns (r: Result<JsValue, Error>)
      ensures IsNullish(key) ==> r == Err(GetNullishKey)
      ensures !IsNullish(key) && JsString(key) !in store ==> r == Ok(default)
      ensures !IsNullish(key) && JsString(key) in store ==> r == Ok(Retrieved(env, store[JsString(key)]))
    {
      if IsNullish(key) {
        return Err(GetNullishKey);
      }
      var v := Fetch(JsString(key), default);
      r := Ok(v);
    }

    /**
     * The lookup `get` performs once its key has passed the null check: the
     * stored text parsed as JSON when it is JSON, with the properties of a
     * parsed object decoded from base64 until the first that fails.
     */
    method Fetch(k: string, default: JsValue) returns (v: JsValue)
      ensures k !in store ==> v == default
      ensures k in store ==> v == Retrieved(env, store[k])
    {
      if k in store {
        var item := store[k];
        match env.parse(item) {
          case None =>
            v := Str(item);
          case Some(parsed) =>
            if parsed.Record? {
              var decoded := DecodeBufferFields(env, parsed.fields);
              v := Record(decoded);
            } else {
              v := parsed;
            }
        }
      } else {
        v := default;
      }
    }

    /** remove(key) */
    method Remove(key: JsValue) returns (r: Outcome<Error>)
      modifies this
      ensures IsNullish(key) ==> r == Fail(RemoveNullishKey) && store == old(store)
      ensures !IsNullish(key) ==> r == Pass && store == old(store) - {JsString(key)}
    {
      if IsNullish(key) {
        return Fail(RemoveNullishKey);
      }
      store := store - {JsString(key)};
      r := Pass;
    }

    /** getIdentityKeyPair() */
    method GetIdentityKeyPair() returns (v: JsValue)
      ensures SlotKey(OwnIdentityKeyPair) !in store ==> v == Undefined
      ensures SlotKey(OwnIdentityKeyPair) in store ==> v == Retrieved(env, store[SlotKey(OwnIdentityKeyPair)])
    {
      v := Fetch(SlotKey(OwnIdentityKeyPair), Undefined);
    }

    /** getLocalRegistrationId() */
    method GetLocalRegistrationId() returns (v: JsValue)
      ensures SlotKey(OwnRegistrationId) !in store ==> v == Undefined
      ensures SlotKey(OwnRegistrationId) in store ==> v == Retrieved(env, store[SlotKey(OwnRegistrationId)])
    {
      v := Fetch(SlotKey(OwnRegistrationId), Undefined);
    }

    /**
     * isTrustedIdentity(identifier, identityKey, direction): trust on first
     * use. With no record for the identifier the key is trusted; otherwise
     * it is trusted exactly when its string form equals the record's.
     */
    method IsTrustedIdentity(identifier: JsValue, identityKey: JsValue, direction: JsValue) returns (r: Result<bool, Error>)
      ensures IsNullish(identifier) ==> r == Err(CheckIdentityNullish)
      ensures !IsNullish(identifier) && !identityKey.Buffer? ==> r == Err(IdentityKeyNotBuffer)
      ensures !IsNullish(identifier) && identityKey.Buffer? ==>
        var k := SlotKey(Identity(JsString(identifier)));
        r == Ok(TrustDecision(env, identityKey, if k in store then Retrieved(env, store[k]) else Undefined))
    {
      if IsNullish(identifier) {
        return Err(CheckIdentityNullish);
      }
      if !identityKey.Buffer? {
        return Err(IdentityKeyNotBuffer);
      }
      var trusted := Fetch(SlotKey(Identity(JsString(identifier))), Undefined);
      r := Ok(TrustDecision(env, identityKey, trusted));
    }

    /** loadIdentityKey(identifier) */
    method LoadIdentityKey(identifier: JsValue) returns (r: Result<JsValue, Error>)
      ensures IsNullish(identifier) ==> r == Err(LoadIdentityNullish)
      ensures !IsNullish(identifier) ==>
        var k := SlotKey(Identity(JsString(identifier)));
        r == Ok(if k in store then Retrieved(env, store[k]) else Undefined)
    {
      if IsNullish(identifier) {
        return Err(LoadIdentityNullish);
      }
      var v := Fetch(SlotKey(Identity(JsString(identifier))), Undefined);
      r := Ok(v);
    }

    /**
     * saveIdentity(identifier, identityKey): stores the key under the name
     * part of the address, whatever was there, and answers whether a truthy
     * earlier record had a different string form.
     */
    method SaveIdentity(identifier: JsValue, identityKey: JsValue) returns (r: Result<bool, Error>)
      modifies this
      ensures IsNullish(identifier) ==> r == Err(SaveIdentityNullish) && store == old(store)
      ensures !IsNullish(identifier) && env.addressName(identifier).None? ==>
        r == Err(InvalidAddress) && store == old(store)
      ensures !IsNullish(identifier) && env.addressName(identifier).Some? && IsNullish(identityKey) ==>
        r == Err(StoreNullish) && store == old(store)
      ensures !IsNullish(identifier) && env.addressName(identifier).Some? && !IsNullish(identityKey) ==>
        var k := SlotKey(Identity(env.addressName(identifier).value));
        && store == old(store)[k := StoredText(env, identityKey)]
        && r == Ok(k in old(store)
                   && IdentityChanged(env, CallerValueAfterPut(env, identityKey), Retrieved(env, old(store)[k])))
    {
      if IsNullish(identifier) {
        return Err(SaveIdentityNullish);
      }
      var name := env.addressName(identifier);
      if name.None? {
        return Err(InvalidAddress);
      }
      var k := SlotKey(Identity(name.value));
      var existing := Fetch(k, Undefined);
      var written := Put(Str(k), identityKey);
      if written.Err? {
        return Err(written.error);
      }
      r := Ok(IdentityChanged(env, written.value, existing));
    }

    /** loadPreKey(keyId): the `{pubKey, privKey}` of the record, or undefined when there is none. */
    method LoadPreKey(keyId: JsValue) returns (r: Result<JsValue, Error>)
      ensures var k := SlotKey(PreKey(JsString(keyId)));
        && (k !in store ==> r == Ok(Undefined))
        && (k in store ==> r == KeyPairView(Retrieved(env, store[k])))
    {
      var res := Fetch(SlotKey(PreKey(JsString(keyId))), Undefined);
      if res != Undefined {
        r := KeyPairView(res);
      } else {
        r := Ok(Undefined);
      }
    }

    /** storePreKey(keyId, keyPair) */
    method StorePreKey(keyId: JsValue, keyPair: JsValue) returns (r: Result<JsValue, Error>)
      modifies this
      ensures IsNullish(keyPair) ==> r == Err(StoreNullish) && store == old(store)
      ensures !IsNullish(keyPair) ==>
        && r == Ok(CallerValueAfterPut(env, keyPair))
        && store == old(store)[SlotKey(PreKey(JsString(keyId))) := StoredText(env, keyPair)]
    {
      r := Put(Str(SlotKey(PreKey(JsString(keyId)))), keyPair);
    }

    /** removePreKey(keyId) */
    method RemovePreKey(keyId: JsValue)
      modifies this
      ensures store == old(store) - {SlotKey(PreKey(JsString(keyId)))}
    {
      var _ := Remove(Str(SlotKey(PreKey(JsString(keyId)))));
    }

    /** loadSignedPreKey(keyId): the `{pubKey, privKey}` of the record, or undefined when there is none. */
    method LoadSignedPreKey(keyId: JsValue) returns (r: Result<JsValue, Error>)
      ensures var k := SlotKey(SignedPreKey(JsString(keyId)));
        && (k !in store ==> r == Ok(Undefined))
        && (k in store ==> r == KeyPairView(Retrieved(env, store[k])))
    {
      var res := Fetch(SlotKey(SignedPreKey(JsString(keyId))), Undefined);
      if res != Undefined {
        r := KeyPairView(res);
      } else {
        r := Ok(Undefined);
      }
    }

    /** storeSignedPreKey(keyId, keyPair) */
    method StoreSignedPreKey(keyId: JsValue, keyPair: JsValue) returns (r: Result<JsValue, Error>)
      modifies this
      ensures IsNullish(keyPair) ==> r == Err(StoreNullish) && store == old(store)
      ensures !IsNullish(keyPair) ==>
        && r == Ok(CallerValueAfterPut(env, keyPair))
        && store == old(store)[SlotKey(SignedPreKey(JsString(keyId))) := StoredText(env, keyPair)]
    {
      r := Put(Str(SlotKey(SignedPreKey(JsString(keyId)))), keyPair);
    }

    /** removeSignedPreKey(keyId) */
    method RemoveSignedPreKey(keyId: JsValue)
      modifies this
      ensures store == old(store) - {SlotKey(SignedPreKey(JsString(keyId)))}
    {
      var _ := Remove(Str(SlotKey(SignedPreKey(JsString(keyId)))));
    }

    /** loadSession(identifier) */
    method LoadSession(identifier: JsValue) returns (v: JsValue)
      ensures var k := SlotKey(Session(JsString(identifier)));
        && (k !in store ==> v == Undefined)
        && (k in store ==> v == Retrieved(env, store[k]))
    {
      v := Fetch(SlotKey(Session(JsString(identifier))), Undefined);
    }

    /** storeSession(identifier, record) */
    method StoreSession(identifier: JsValue, record: JsValue) returns (r: Result<JsValue, Error>)
      modifies this
      ensures IsNullish(record) ==> r == Err(StoreNullish) && store == old(store)
      ensures !IsNullish(record) ==>
        && r == Ok(CallerValueAfterPut(env, record))
        && store == old(store)[SlotKey(Session(JsString(identifier))) := StoredText(env, record)]
    {
      r := Put(Str(SlotKey(Session(JsString(identifier)))), record);
    }

    /** removeSession(identifier) */
    method RemoveSession(identifier: JsValue)
      modifies this
      ensures store == old(store) - {SlotKey(Session(JsString(identifier)))}
    {
      var _ := Remove(Str(SlotKey(Session(JsString(identifier)))));
    }

    /**
     * removeAllSessions(identifier): deletes every key that starts with
     * `'session' + identifier` and leaves every other item as it was.
     */
    method RemoveAllSessions(identifier: JsValue)
      modifies this
      ensures store == WithoutPrefix(old(store), SessionPrefix(identifier))
      ensures forall k :: k in store ==> !(SessionPrefix(identifier) <= k)
      ensures forall k :: k in old(store) && !(SessionPrefix(identifier) <= k) ==> k in store && store[k] == old(store)[k]
    {
      RemoveKeysWithPrefix(SessionPrefix(identifier));
    }

    /**
     * removeAllSessions as its callers mean it: deletes the sessions of every
     * device of name `identifier`, that is the keys starting with
     * `'session' + identifier + '.'`, and no other item.
     */
    method RemoveDeviceSessions(identifier: JsValue)
      modifies this
      ensures store == WithoutPrefix(old(store), DeviceSessionPrefix(identifier))
      ensures forall k :: k in store ==> !(DeviceSessionPrefix(identifier) <= k)
      ensures forall k :: k in old(store) && !(DeviceSessionPrefix(identifier) <= k) ==> k in store && store[k] == old(store)[k]
    {
      RemoveKeysWithPrefix(DeviceSessionPrefix(identifier));
    }

    /** The `for (var id in this.store)` loop of removeAllSessions. */
    method RemoveKeysWithPrefix(prefix: string)
      modifies this
      ensures store == WithoutPrefix(old(store), prefix)
    {
      var pending := store.Keys;
      while pending != {}
        invariant pending <= old(store).Keys
        invariant forall k :: k in store <==> k in old(store) && (k in pending || !(prefix <= k))
        invariant forall k :: k in store ==> store[k] == old(store)[k]
        decreases |pending|
      {
        var id :| id in pending;
        if prefix <= id {
          store := store - {id};
        }
        pending := pending - {id};
      }
    }
  }
}
