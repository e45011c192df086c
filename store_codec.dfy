/**
 * What the store writes into localStorage and what it reads back: the
 * encoding `put` applies, the decoding `get` applies, the record names the
 * protocol methods use, and the facts that connect them.
 */
module StoreCodec {
  import opened Wrappers
  import opened JsValues
  import opened Platform

  /** One constructor per place the store throws. */
  datatype Error =
    | StoreNullish          // put: key or value is null/undefined
    | GetNullishKey         // get: key is null/undefined
    | RemoveNullishKey      // remove: key is null/undefined
    | CheckIdentityNullish  // isTrustedIdentity: identifier is null/undefined
    | IdentityKeyNotBuffer  // isTrustedIdentity: identityKey is not an ArrayBuffer
    | LoadIdentityNullish   // loadIdentityKey: identifier is null/undefined
    | SaveIdentityNullish   // saveIdentity: identifier is null/undefined
    | InvalidAddress        // SignalProtocolAddress.fromString rejected the identifier
    | NullPropertyAccess    // TypeError: a property of null was read

  // ---------------------------------------------------------------- put

  /** One step of `put`'s forEach: an ArrayBuffer property becomes its base64 text. */
  function EncodeField(e: Env, f: Field): Field {
    if f.value.Buffer? then Field(f.name, Str(e.toBase64(f.value.bytes))) else f
  }

  function EncodeFields(e: Env, fs: seq<Field>): seq<Field> {
    seq(|fs|, i requires 0 <= i < |fs| => EncodeField(e, fs[i]))
  }

  /** The caller's `value` once `put` returns: a plain object has been rewritten in place. */
  function CallerValueAfterPut(e: Env, v: JsValue): JsValue {
    if v.Record? then Record(EncodeFields(e, v.fields)) else v
  }

  /** The text `put` hands to `localStorage.setItem`, which coerces non-strings with `String`. */
  function StoredText(e: Env, v: JsValue): string
    requires !IsNullish(v)
  {
    match v
    case Buffer(b) => e.toBase64(b)
    case Record(fs) => e.stringify(Record(EncodeFields(e, fs)))
    case _ => JsString(v)
  }

  /**
   * The forEach loop of `put`, on the property list of a plain object: every
   * ArrayBuffer-valued property is replaced by its base64 text.
   */
  method EncodeBufferFields(e: Env, fs: seq<Field>) returns (out: seq<Field>)
    ensures |out| == |fs|
    ensures forall i :: 0 <= i < |fs| ==> out[i].name == fs[i].name
    ensures forall i :: 0 <= i < |fs| && fs[i].value.Buffer? ==> out[i].value == Str(e.toBase64(fs[i].value.bytes))
    ensures forall i :: 0 <= i < |fs| && !fs[i].value.Buffer? ==> out[i].value == fs[i].value
    ensures out == EncodeFields(e, fs)
  {
    out := fs;
    var i := 0;
    while i < |out|
      invariant 0 <= i <= |out| == |fs|
      invariant forall j :: 0 <= j < i ==> out[j] == EncodeField(e, fs[j])
      invariant forall j :: i <= j < |out| ==> out[j] == fs[j]
    {
      if out[i].value.Buffer? {
        out := out[i := Field(out[i].name, Str(e.toBase64(out[i].value.bytes)))];
      }
      i := i + 1;
    }
  }

  // ---------------------------------------------------------------- get

  /**
   * The index of the first property whose `base64ToArrayBuffer` throws, or the
   * number of properties when none does. `get`'s forEach stops there: the
   * exception is caught and the half-converted object is returned.
   */
  function FirstUndecodable(e: Env, fs: seq<Field>): (k: nat)
    ensures k <= |fs|
    ensures forall i :: 0 <= i < k ==> e.fromBase64(fs[i].value).Some?
    ensures k < |fs| ==> e.fromBase64(fs[k].value).None?
    decreases |fs|
  {
    if fs == [] then 0
    else if e.fromBase64(fs[0].value).None? then 0
    else 1 + FirstUndecodable(e, fs[1..])
  }

  /** The properties after `get`'s forEach: those before the first failure are ArrayBuffers. */
  function DecodeFields(e: Env, fs: seq<Field>): seq<Field> {
    var k := FirstUndecodable(e, fs);
    seq(|fs|, i requires 0 <= i < |fs| =>
      if i < k then Field(fs[i].name, Buffer(e.fromBase64(fs[i].value).value)) else fs[i])
  }

  /**
   * What `get` returns for a stored text: the text itself when it is not
   * JSON; a parsed plain object with its properties decoded; any other parsed
   * value unchanged (its `Object.keys` is empty, or throws for null).
   */
  function Retrieved(e: Env, text: string): (v: JsValue)
    ensures v != Undefined
    ensures e.parse(text).None? ==> v == Str(text)
    ensures e.parse(text).Some? && !e.parse(text).value.Record? ==> v == e.parse(text).value
  {
    match e.parse(text)
    case None => Str(text)
    case Some(parsed) =>
      if parsed.Record? then Record(DecodeFields(e, parsed.fields)) else parsed
  }

  /** The forEach loop of `get`, on the property list of a parsed plain object. */
  method DecodeBufferFields(e: Env, fs: seq<Field>) returns (out: seq<Field>)
    ensures out == DecodeFields(e, fs)
  {
    ghost var k := FirstUndecodable(e, fs);
    out := fs;
    var i := 0;
    while i < |out|
      invariant 0 <= i <= |out| == |fs|
      invariant i <= k
      invariant forall j :: 0 <= j < i ==> out[j] == Field(fs[j].name, Buffer(e.fromBase64(fs[j].value).value))
      invariant forall j :: i <= j < |out| ==> out[j] == fs[j]
    {
      match e.fromBase64(out[i].value) {
        case None =>
          break;
        case Some(b) =>
          out := out[i := Field(out[i].name, Buffer(b))];
      }
      i := i + 1;
    }
    assert i == k;
  }

  // ------------------------------------------------------- key pair records

  function KeyPairRecord(pub: JsValue, priv: JsValue): JsValue {
    Record([Field("pubKey", pub), Field("privKey", priv)])
  }

  /** Reading `pubKey` and `privKey` of a key pair object gives back its two parts. */
  lemma {:induction false} KeyPairProps(pub: JsValue, priv: JsValue)
    ensures Prop(KeyPairRecord(pub, priv), "pubKey") == pub
    ensures Prop(KeyPairRecord(pub, priv), "privKey") == priv
  {
    var fs := KeyPairRecord(pub, priv).fields;
    assert "pubKey" != "privKey" by { assert "pubKey"[1] != "privKey"[1]; }
    assert fs[1..] == [Field("privKey", priv)];
    assert FieldValue(fs[1..], "privKey") == priv;
  }

  /**
   * `{pubKey: res.pubKey, privKey: res.privKey}` of a present record: a
   * TypeError exactly when the record is null; otherwise a fresh object with
   * just those two properties, holding what the record holds under them
   * (undefined for a record that is not an object).
   */
  function KeyPairView(res: JsValue): (r: Result<JsValue, Error>)
    requires res != Undefined
    ensures res.Null? <==> r.Err?
    ensures r.Err? ==> r.error == NullPropertyAccess
    ensures r.Ok? ==> r.value.Record? && |r.value.fields| == 2
    ensures r.Ok? ==> Prop(r.value, "pubKey") == Prop(res, "pubKey") && Prop(r.value, "privKey") == Prop(res, "privKey")
    ensures r.Ok? && !res.Record? ==> Prop(r.value, "pubKey") == Undefined && Prop(r.value, "privKey") == Undefined
  {
    if res.Null? then Err(NullPropertyAccess)
    else
      KeyPairProps(Prop(res, "pubKey"), Prop(res, "privKey"));
      Ok(KeyPairRecord(Prop(res, "pubKey"), Prop(res, "privKey")))
  }

  // ------------------------------------------------------------ identities

  /** isTrustedIdentity's rule: trust on first use, otherwise equal string forms. */
  function TrustDecision(e: Env, identityKey: JsValue, trusted: JsValue): bool {
    trusted == Undefined || e.show(identityKey) == e.show(trusted)
  }

  /** saveIdentity's answer: a truthy earlier record whose string form differs. */
  function IdentityChanged(e: Env, identityKey: JsValue, existing: JsValue): bool {
    Truthy(existing) && e.show(identityKey) != e.show(existing)
  }

  // ---------------------------------------------------------- record names

  /** The records of the store, one name space per kind. */
  datatype Slot =
    | OwnIdentityKeyPair
    | OwnRegistrationId
    | Identity(peer: string)
    | PreKey(keyId: string)
    | SignedPreKey(keyId: string)
    | Session(address: string)

  /** The fixed part of a record's key; the local records have no identifier after it. */
  function SlotPrefix(s: Slot): string {
    match s
    case OwnIdentityKeyPair => "identityKey"
    case OwnRegistrationId => "registrationId"
    case Identity(_) => "identityKey"
    case PreKey(_) => "25519KeypreKey"
    case SignedPreKey(_) => "25519KeysignedKey"
    case Session(_) => "session"
  }

  function SlotId(s: Slot): string {
    match s
    case OwnIdentityKeyPair => ""
    case OwnRegistrationId => ""
    case Identity(peer) => peer
    case PreKey(id) => id
    case SignedPreKey(id) => id
    case Session(address) => address
  }

  /** The localStorage key of a record: its prefix, then the identifier the caller passed. */
  function SlotKey(s: Slot): string {
    SlotPrefix(s) + SlotId(s)
  }

  /** The prefix `removeAllSessions(identifier)` matches keys against. */
  function SessionPrefix(identifier: JsValue): string {
    "session" + JsString(identifier)
  }

  /** The prefix that matches exactly the sessions of name `identifier`: `'session' + name + '.'`. */
  function DeviceSessionPrefix(identifier: JsValue): string {
    SessionPrefix(identifier) + "."
  }

  /** localStorage after deleting every key that starts with `prefix`. */
  function WithoutPrefix(m: map<string, string>, prefix: string): map<string, string> {
    map k | k in m && !(prefix <= k) :: m[k]
  }
}
