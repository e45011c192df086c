/**
 * Properties of the encoding: what `get` gives back for what `put` wrote,
 * and how the record names of the different kinds keep apart.
 */
module StoreFacts {
  import opened Wrappers
  import opened JsValues
  import opened Platform
  import opened StoreCodec

  /** Decoding undoes the base64 encoding of an object whose properties are all ArrayBuffers. */
  lemma DecodeEncodeFields(e: Env, fs: seq<Field>)
    requires Base64RoundTrips(e)
    requires AllBuffers(fs)
    ensures DecodeFields(e, EncodeFields(e, fs)) == fs
  {
    var gs := EncodeFields(e, fs);
    forall i | 0 <= i < |gs|
      ensures e.fromBase64(gs[i].value) == Some(fs[i].value.bytes)
    {
      assert gs[i].value == Str(e.toBase64(fs[i].value.bytes));
    }
    assert FirstUndecodable(e, gs) == |gs|;
  }

  /** `put` turns an object of ArrayBuffers into an object of strings with the same property names. */
  lemma EncodedBuffersAreText(e: Env, fs: seq<Field>)
    requires AllBuffers(fs) && DistinctNames(fs)
    ensures AllText(EncodeFields(e, fs)) && DistinctNames(EncodeFields(e, fs))
    ensures NoIndexNames(fs) ==> NoIndexNames(EncodeFields(e, fs))
  {
    var gs := EncodeFields(e, fs);
    forall i, j | 0 <= i < j < |gs| ensures gs[i].name != gs[j].name {
      assert gs[i].name == fs[i].name && gs[j].name == fs[j].name;
    }
  }

  /**
   * An object whose properties are all ArrayBuffers (a key pair) comes back
   * from `get` exactly as it was given to `put`.
   */
  lemma RecordOfBuffersRoundTrips(e: Env, fs: seq<Field>)
    requires Base64RoundTrips(e) && JsonRoundTrips(e)
    requires AllBuffers(fs) && DistinctNames(fs) && NoIndexNames(fs)
    ensures Retrieved(e, StoredText(e, Record(fs))) == Record(fs)
  {
    var gs := EncodeFields(e, fs);
    EncodedBuffersAreText(e, fs);
    assert e.parse(e.stringify(Record(gs))) == Some(Record(gs));
    DecodeEncodeFields(e, fs);
  }

  /** `loadPreKey` after `storePreKey` of `{pubKey, privKey}` gives back the same two buffers. */
  lemma KeyPairRoundTrip(e: Env, pub: seq<byte>, priv: seq<byte>)
    requires Base64RoundTrips(e) && JsonRoundTrips(e)
    ensures var kp := KeyPairRecord(Buffer(pub), Buffer(priv));
      KeyPairView(Retrieved(e, StoredText(e, kp))) == Ok(kp)
  {
    var kp := KeyPairRecord(Buffer(pub), Buffer(priv));
    assert "pubKey" != "privKey" by { assert "pubKey"[1] != "privKey"[1]; }
    assert !IsArrayIndexName("pubKey") by { assert !('0' <= "pubKey"[0] <= '9'); }
    assert !IsArrayIndexName("privKey") by { assert !('0' <= "privKey"[0] <= '9'); }
    RecordOfBuffersRoundTrips(e, kp.fields);
    KeyPairProps(Buffer(pub), Buffer(priv));
  }

  /**
   * isTrustedIdentity and saveIdentity judge a key against a record the same
   * way: with no record the key is trusted and saving it reports no change;
   * against a truthy record, saving reports a change exactly when isTrustedIdentity
   * would have refused the key; a falsy record (such as an empty string)
   * never counts as a change, whatever isTrustedIdentity says.
   */
  lemma TrustAndChangeAgree(e: Env, identityKey: JsValue, existing: JsValue)
    ensures TrustDecision(e, identityKey, Undefined) && !IdentityChanged(e, identityKey, Undefined)
    ensures Truthy(existing) ==> (IdentityChanged(e, identityKey, existing) <==> !TrustDecision(e, identityKey, existing))
    ensures !Truthy(existing) ==> !IdentityChanged(e, identityKey, existing)
    ensures TrustDecision(e, identityKey, identityKey)
  {
  }

  /** Encoding an already encoded property list changes nothing: no ArrayBuffer is left in it. */
  lemma {:induction false} EncodeFieldsIdempotent(e: Env, fs: seq<Field>)
    ensures EncodeFields(e, EncodeFields(e, fs)) == EncodeFields(e, fs)
    ensures forall i :: 0 <= i < |fs| ==> !EncodeFields(e, fs)[i].value.Buffer?
  {
    var gs := EncodeFields(e, fs);
    forall i | 0 <= i < |gs| ensures EncodeField(e, gs[i]) == gs[i] {
      assert gs[i] == EncodeField(e, fs[i]);
    }
  }

  /**
   * What `put` leaves in the caller's hands is what it stored: the JSON of a
   * plain object is the JSON of the object as rewritten, any other value is
   * left alone, and storing the rewritten value again writes the same text.
   */
  lemma PutLeavesStoredForm(e: Env, v: JsValue)
    requires !IsNullish(v)
    ensures v.Record? ==> StoredText(e, v) == e.stringify(CallerValueAfterPut(e, v))
    ensures !v.Record? ==> CallerValueAfterPut(e, v) == v
    ensures CallerValueAfterPut(e, CallerValueAfterPut(e, v)) == CallerValueAfterPut(e, v)
    ensures StoredText(e, CallerValueAfterPut(e, v)) == StoredText(e, v)
  {
    if v.Record? {
      EncodeFieldsIdempotent(e, v.fields);
    }
  }

  /**
   * A bare ArrayBuffer is stored as its base64 text; unless that text happens
   * to be JSON, `get` returns the text and not an ArrayBuffer.
   */
  lemma BufferComesBackAsText(e: Env, bytes: seq<byte>)
    requires e.parse(e.toBase64(bytes)).None?
    ensures Retrieved(e, StoredText(e, Buffer(bytes))) == Str(e.toBase64(bytes))
  {
  }

  lemma {:induction false} CancelPrefix(pre: string, a: string, b: string)
    requires pre + a == pre + b
    ensures a == b
  {
    assert a == (pre + a)[|pre|..];
    assert b == (pre + b)[|pre|..];
  }

  lemma {:induction false} CharApart(p: string, q: string, j: nat, a: string, b: string)
    requires j < |p| && j < |q| && p[j] != q[j]
    ensures p + a != q + b
  {
    assert (p + a)[j] == p[j];
    assert (q + b)[j] == q[j];
  }

  /**
   * Two records share a localStorage key only when they are the same record,
   * with one exception: the identity of a peer whose name is empty is stored
   * under the key of the local identity key pair.
   */
  lemma {:induction false} SlotKeysDistinct(s: Slot, t: Slot)
    requires SlotKey(s) == SlotKey(t)
    ensures s == t
      || (s == OwnIdentityKeyPair && t == Identity(""))
      || (s == Identity("") && t == OwnIdentityKeyPair)
  {
    var p, q := SlotPrefix(s), SlotPrefix(t);
    if p == q {
      CancelPrefix(p, SlotId(s), SlotId(t));
    } else if p[0] != q[0] {
      CharApart(p, q, 0, SlotId(s), SlotId(t));
    } else {
      CharApart(p, q, 8, SlotId(s), SlotId(t));
    }
  }

  /**
   * Writing one record leaves the item of any other record as it was (the
   * empty peer name, which shares the own identity key, excepted).
   */
  lemma WriteKeepsOtherSlots(m: map<string, string>, s: Slot, t: Slot, text: string)
    requires s != t
    requires !(s == OwnIdentityKeyPair && t == Identity("")) && !(s == Identity("") && t == OwnIdentityKeyPair)
    ensures SlotKey(t) in m[SlotKey(s) := text] <==> SlotKey(t) in m
    ensures SlotKey(t) in m ==> m[SlotKey(s) := text][SlotKey(t)] == m[SlotKey(t)]
  {
    if SlotKey(s) == SlotKey(t) {
      SlotKeysDistinct(s, t);
    }
  }

  /** A key that starts with `'session' + x` belongs to a session record. */
  lemma SessionPrefixOnlyMatchesSessions(x: string, s: Slot)
    requires "session" + x <= SlotKey(s)
    ensures s.Session?
  {
    var k := SlotKey(s);
    assert k[0] == SlotPrefix(s)[0];
    assert ("session" + x)[0] == 's';
    assert k[0] == ("session" + x)[0];
  }

  /**
   * libsignal keeps a session per address `name.deviceId`, and
   * removeAllSessions is handed a name. Matching on `'session' + name` alone,
   * removeAllSessions("bob") also deletes the session of the peer "bobby".
   */
  lemma RemoveAllSessionsReachesOtherPeers()
    ensures var m := map[SlotKey(Session("bobby.1")) := "record"];
      && SlotKey(Session("bobby.1")) in m
      && SlotKey(Session("bobby.1")) !in WithoutPrefix(m, SessionPrefix(Str("bob")))
  {
    var k := SlotKey(Session("bobby.1"));
    assert k[..|SessionPrefix(Str("bob"))|] == SessionPrefix(Str("bob"));
  }

  /**
   * For names without a dot, the corrected prefix matches the session of
   * address `peer.device` exactly when `peer` is the name asked for.
   */
  lemma {:induction false} DeviceSessionPrefixSeparatesPeers(name: string, peer: string, device: string)
    requires '.' !in name && '.' !in peer
    ensures DeviceSessionPrefix(Str(name)) <= SlotKey(Session(peer + "." + device)) <==> name == peer
  {
    var p := DeviceSessionPrefix(Str(name));
    var k := SlotKey(Session(peer + "." + device));
    assert p == "session" + name + ".";
    assert k == "session" + peer + "." + device;
    if name == peer {
      assert k == p + device;
    } else {
      var _ := MismatchIn(name, peer, device);
    }
  }

  /** Where the corrected prefix for `name` and the key of a session of another name `peer` part. */
  lemma {:induction false} MismatchIn(name: string, peer: string, device: string) returns (i: nat)
    requires '.' !in name && '.' !in peer && name != peer
    ensures var p, k := "session" + name + ".", "session" + peer + "." + device;
      i < |p| && i < |k| && p[i] != k[i] && !(p <= k)
  {
    var p, k := "session" + name + ".", "session" + peer + "." + device;
    if |name| < |peer| {
      i := 7 + |name|;
      assert p[i] == '.';
      assert k[i] == peer[|name|];
      assert peer[|name|] in peer;
    } else if |name| > |peer| {
      i := 7 + |peer|;
      assert p[i] == name[|peer|];
      assert name[|peer|] in name;
      assert k[i] == '.';
    } else {
      var j :| 0 <= j < |name| && name[j] != peer[j];
      i := 7 + j;
      assert p[i] == name[j];
      assert k[i] == peer[j];
    }
  }
}
