/**
 * Sequences of store calls as libsignal makes them, and what the contracts
 * of the single calls let a caller conclude about them.
 */
module StoreScenarios {
  import opened Wrappers
  import opened JsValues
  import opened Platform
  import opened StoreCodec
  import opened StoreFacts
  import opened SignalStore

  /** storePreKey then loadPreKey of the same id gives back the key pair; nothing else is written. */
  method PreKeyRoundTrip(s: SignalProtocolStore, keyId: JsValue, pub: seq<byte>, priv: seq<byte>)
    returns (loaded: Result<JsValue, Error>)
    requires Base64RoundTrips(s.env) && JsonRoundTrips(s.env)
    modifies s
    ensures loaded == Ok(KeyPairRecord(Buffer(pub), Buffer(priv)))
    ensures s.store == old(s.store)[SlotKey(PreKey(JsString(keyId))) := StoredText(s.env, KeyPairRecord(Buffer(pub), Buffer(priv)))]
  {
    var kp := KeyPairRecord(Buffer(pub), Buffer(priv));
    var _ := s.StorePreKey(keyId, kp);
    loaded := s.LoadPreKey(keyId);
    KeyPairRoundTrip(s.env, pub, priv);
  }

  /** storeSignedPreKey then loadSignedPreKey of the same id gives back the key pair. */
  method SignedPreKeyRoundTrip(s: SignalProtocolStore, keyId: JsValue, pub: seq<byte>, priv: seq<byte>)
    returns (loaded: Result<JsValue, Error>)
    requires Base64RoundTrips(s.env) && JsonRoundTrips(s.env)
    modifies s
    ensures loaded == Ok(KeyPairRecord(Buffer(pub), Buffer(priv)))
    ensures s.store == old(s.store)[SlotKey(SignedPreKey(JsString(keyId))) := StoredText(s.env, KeyPairRecord(Buffer(pub), Buffer(priv)))]
  {
    var kp := KeyPairRecord(Buffer(pub), Buffer(priv));
    var _ := s.StoreSignedPreKey(keyId, kp);
    loaded := s.LoadSignedPreKey(keyId);
    KeyPairRoundTrip(s.env, pub, priv);
  }

  /** Storing a pre-key and removing it again leaves localStorage without that record and otherwise as it was. */
  method StoreThenRemovePreKey(s: SignalProtocolStore, keyId: JsValue, keyPair: JsValue)
    modifies s
    ensures s.store == old(s.store) - {SlotKey(PreKey(JsString(keyId)))}
  {
    var _ := s.StorePreKey(keyId, keyPair);
    s.RemovePreKey(keyId);
  }

  /**
   * Trust on first use: an unknown peer's identity key is trusted, saving
   * it reports no change, and the next check compares the key with what
   * localStorage gives back for it, which is its base64 text whenever that
   * text is not JSON.
   */
  method TrustOnFirstUse(s: SignalProtocolStore, address: JsValue, key: seq<byte>)
    returns (first: Result<bool, Error>, changed: Result<bool, Error>, second: Result<bool, Error>)
    requires !IsNullish(address) && s.env.addressName(address).Some?
    requires SlotKey(Identity(s.env.addressName(address).value)) !in s.store
    modifies s
    ensures first == Ok(true)
    ensures changed == Ok(false)
    ensures second == Ok(s.env.show(Buffer(key)) == s.env.show(Retrieved(s.env, s.env.toBase64(key))))
    ensures s.env.parse(s.env.toBase64(key)).None? ==>
      second == Ok(s.env.show(Buffer(key)) == s.env.show(Str(s.env.toBase64(key))))
  {
    var name := Str(s.env.addressName(address).value);
    first := s.IsTrustedIdentity(name, Buffer(key), Num(RECEIVING));
    changed := s.SaveIdentity(address, Buffer(key));
    second := s.IsTrustedIdentity(name, Buffer(key), Num(SENDING));
  }

  /** removeAllSessions leaves every record that is not a session as it was. */
  method RemoveAllSessionsKeepsOtherRecords(s: SignalProtocolStore, identifier: JsValue, t: Slot)
    requires !t.Session?
    modifies s
    ensures SlotKey(t) in s.store <==> SlotKey(t) in old(s.store)
    ensures SlotKey(t) in old(s.store) ==> s.store[SlotKey(t)] == old(s.store)[SlotKey(t)]
  {
    if SessionPrefix(identifier) <= SlotKey(t) {
      SessionPrefixOnlyMatchesSessions(JsString(identifier), t);
    }
    s.RemoveAllSessions(identifier);
  }

  /**
   * The corrected removal deletes the session of every device of `name` and
   * keeps the sessions of every other dot-free name.
   */
  method RemoveDeviceSessionsOfOnePeer(s: SignalProtocolStore, name: string, peer: string, device: string)
    requires '.' !in name && '.' !in peer
    modifies s
    ensures var k := SlotKey(Session(peer + "." + device));
      && (name == peer ==> k !in s.store)
      && (name != peer && k in old(s.store) ==> k in s.store && s.store[k] == old(s.store)[k])
  {
    DeviceSessionPrefixSeparatesPeers(name, peer, device);
    s.RemoveDeviceSessions(Str(name));
  }
}
