# BrowserSignalProtocolStore in Dafny

A model of the browser key-value store that the signal-poc client hands to
libsignal. libsignal keeps its long-term material and its per-peer state
there:
- the own identity key pair and registration id;
- the identity keys of peers;
- one-time pre-keys and signed pre-keys;
- session records.

All of it lives in `localStorage`, one string-to-string map. Each kind of record
has its own key prefix: `identityKey`, `registrationId`, `identityKey<name>`,
`25519KeypreKey<id>`, `25519KeysignedKey<id>` and `session<address>`.

## Modules

- `Wrappers` (wrappers.dfy) defines `Option`, `Result` and `Outcome`. A JavaScript `throw` becomes `Err`/`Fail`.
- `JsValues` (js_values.dfy) defines the JavaScript values the store sees: undefined, null, booleans, integer numbers, strings, ArrayBuffers and plain objects. It also holds the built-ins the store relies on: `String(v)`, truthiness, the null/undefined test and property reads.
- `Platform` (platform.dfy) holds, as parameters, the code the store calls but does not define:
  - `signalUtil.arrayBufferToBase64`, `signalUtil.base64ToArrayBuffer` and `signalUtil.toString`;
  - `JSON.stringify` and `JSON.parse`;
  - libsignal's `SignalProtocolAddress.fromString(..).getName()`.

  Its type `Env` demands only that `JSON.parse` never yields `undefined`. `Base64RoundTrips` and `JsonRoundTrips` are hypotheses that lemmas state when they need them. `JsonRoundTrips` covers only objects none of whose property names is an array index (`"0"`, `"17"`, …). For such names a property list can be in an order that no object has, since `Object.keys` always lists them first and in ascending order, and `JSON.parse` would then give back a different list.
- `StoreCodec` (store_codec.dfy) covers what `put` writes and what `get` reads back:
  - the two forEach loops, as methods checked against the functions `EncodeFields` and `DecodeFields`;
  - `Retrieved`, which is what `get` returns for a stored text;
  - the key-pair projection of `loadPreKey` and `loadSignedPreKey`;
  - the trust rule;
  - the record names (`Slot`, `SlotKey`).
- `StoreFacts` (store_facts.dfy) holds the lemmas:
  - a key pair stored with `put` comes back from `get` unchanged;
  - record names of different kinds never collide, except that a peer with an empty name shares the own identity key's record;
  - the session-prefix finding below.
- `SignalStore` (signal_store.dfy) holds the class `SignalProtocolStore`. Its field `store: map<string, string>` is localStorage. Each method of the JavaScript prototype has a method of the same name. There are three more:
  - `Fetch` is the lookup half of `get`, once the key has passed the null check;
  - `RemoveKeysWithPrefix` is the deletion loop inside `removeAllSessions`;
  - `RemoveDeviceSessions` is the corrected session removal of the finding below, and the JavaScript has no counterpart to it.
- `StoreScenarios` (scenarios.dfy) holds call sequences as libsignal makes them: store-then-load round trips, trust on first use, and what removing sessions keeps.

Behaviour of the code that the contracts make visible:
- `get` never changes localStorage (`Get` and `Fetch` have no `modifies` clause).
- `put` rewrites the caller's plain object in place. After `storePreKey(id, keyPair)`, the caller's `keyPair` holds base64 strings where it held ArrayBuffers.
- A bare ArrayBuffer is stored as bare base64 text. That text is normally not JSON, so `get` returns the base64 *string* and not an ArrayBuffer (`BufferComesBackAsText`).
  - So after `saveIdentity`, `isTrustedIdentity` compares `toString` of the ArrayBuffer with `toString` of its base64 text (`TrustOnFirstUse`).
  - Whether those are equal depends on `signalUtil.toString`, which is not part of this model.
- If the base64 text happens to be JSON (`null`, `true`, a run of digits), `get` returns the parsed value instead.
- `get`'s decoding loop stops at the first property whose base64 decoding throws. The half-converted object is returned (`FirstUndecodable`).
- `isTrustedIdentity` and `loadIdentityKey` use the identifier as given. `saveIdentity` uses the name part of the address.

## Model

| member | source | states |
|---|---|---|
| `SignalStore.SignalProtocolStore.constructor` | public/store/BrowserSignalProtocolStore.js:1-3 | the store starts from whatever localStorage already holds |
| `SignalStore.SignalProtocolStore.Put` | public/store/BrowserSignalProtocolStore.js:17-36 | null/undefined key or value: error, localStorage unchanged; otherwise only the entry `String(key)` changes, and it becomes the base64 text of a buffer, the JSON of an object with its buffer properties encoded, or `String(value)`; the caller's object is rewritten the same way |
| `StoreCodec.EncodeBufferFields` | public/store/BrowserSignalProtocolStore.js:24-28 | same number of properties and same names; each ArrayBuffer property becomes its base64 text; every other property is kept |
| `SignalStore.SignalProtocolStore.Get` | public/store/BrowserSignalProtocolStore.js:37-56 | null/undefined key: error; absent key: the default; present key: the decoded stored text; the store is not modified |
| `SignalStore.SignalProtocolStore.Fetch` | public/store/BrowserSignalProtocolStore.js:40-55 | absent key gives the default; present key gives `Retrieved` of the stored text |
| `StoreCodec.Retrieved` | public/store/BrowserSignalProtocolStore.js:42-52 | never undefined; text that is not JSON comes back as that text; a parsed non-object comes back as parsed; a parsed object comes back with its properties decoded |
| `StoreCodec.FirstUndecodable` | public/store/BrowserSignalProtocolStore.js:44-51 | every property before the returned index decodes from base64; the property at the index does not (the forEach stops there and the exception is swallowed) |
| `StoreCodec.DecodeBufferFields` | public/store/BrowserSignalProtocolStore.js:46-48 | the loop yields exactly `DecodeFields`: the properties before the first failure decoded to buffers, the rest untouched |
| `SignalStore.SignalProtocolStore.Remove` | public/store/BrowserSignalProtocolStore.js:57-61 | null/undefined key: error, store unchanged; otherwise exactly the entry `String(key)` is deleted |
| `SignalStore.SignalProtocolStore.GetIdentityKeyPair` | public/store/BrowserSignalProtocolStore.js:11-13 | the decoded `identityKey` entry, or undefined when there is none |
| `SignalStore.SignalProtocolStore.GetLocalRegistrationId` | public/store/BrowserSignalProtocolStore.js:14-16 | the decoded `registrationId` entry, or undefined when there is none |
| `SignalStore.SignalProtocolStore.IsTrustedIdentity` | public/store/BrowserSignalProtocolStore.js:63-75 | error on a null/undefined identifier, then error on a non-ArrayBuffer key; otherwise `TrustDecision`: true iff no `identityKey<identifier>` record exists or the string forms of the key and the record are equal |
| `SignalStore.SignalProtocolStore.LoadIdentityKey` | public/store/BrowserSignalProtocolStore.js:76-80 | error on a null/undefined identifier; otherwise the decoded record or undefined |
| `SignalStore.SignalProtocolStore.SaveIdentity` | public/store/BrowserSignalProtocolStore.js:81-96 | errors, with the store unchanged, for a null/undefined identifier, an address libsignal rejects, or a null/undefined key; otherwise `identityKey<name>` is overwritten, and the result is true iff a truthy earlier record existed whose string form differs from the key's |
| `SignalStore.SignalProtocolStore.LoadPreKey` | public/store/BrowserSignalProtocolStore.js:99-105 | undefined when there is no record; otherwise `{pubKey, privKey}` of the decoded record, and an error when that record is null |
| `SignalStore.SignalProtocolStore.StorePreKey` | public/store/BrowserSignalProtocolStore.js:106-108 | only `25519KeypreKey<id>` changes, to the encoded key pair; a null/undefined key pair is an error and changes nothing |
| `SignalStore.SignalProtocolStore.RemovePreKey` | public/store/BrowserSignalProtocolStore.js:109-111 | exactly `25519KeypreKey<id>` is deleted, every other entry is unchanged |
| `SignalStore.SignalProtocolStore.LoadSignedPreKey` | public/store/BrowserSignalProtocolStore.js:114-120 | as for pre-keys, under `25519KeysignedKey<id>` |
| `SignalStore.SignalProtocolStore.StoreSignedPreKey` | public/store/BrowserSignalProtocolStore.js:121-123 | only `25519KeysignedKey<id>` changes |
| `SignalStore.SignalProtocolStore.RemoveSignedPreKey` | public/store/BrowserSignalProtocolStore.js:124-126 | exactly `25519KeysignedKey<id>` is deleted |
| `SignalStore.SignalProtocolStore.LoadSession` | public/store/BrowserSignalProtocolStore.js:128-130 | the decoded `session<identifier>` record, or undefined |
| `SignalStore.SignalProtocolStore.StoreSession` | public/store/BrowserSignalProtocolStore.js:131-133 | only `session<identifier>` changes |
| `SignalStore.SignalProtocolStore.RemoveSession` | public/store/BrowserSignalProtocolStore.js:134-136 | exactly `session<identifier>` is deleted |
| `SignalStore.SignalProtocolStore.RemoveAllSessions` | public/store/BrowserSignalProtocolStore.js:137-144 | afterwards no key starting with `'session' + identifier` remains, and every key without that prefix keeps its value |
| `SignalStore.SignalProtocolStore.RemoveKeysWithPrefix` | public/store/BrowserSignalProtocolStore.js:138-142 | the loop leaves exactly the entries whose key does not start with the prefix |
| `StoreCodec.KeyPairView` | public/store/BrowserSignalProtocolStore.js:101-103 | a TypeError exactly when the record is null; otherwise an object of two properties whose `pubKey` and `privKey` are the record's (both undefined when the record is not an object) |
| `StoreCodec.KeyPairProps` | public/store/BrowserSignalProtocolStore.js:102 | reading `pubKey` and `privKey` of `{pubKey: a, privKey: b}` gives `a` and `b` |
| `StoreFacts.DecodeEncodeFields` | public/store/BrowserSignalProtocolStore.js:24-48 | if base64 decoding inverts encoding, decoding after `put`'s encoding gives back an object of ArrayBuffers |
| `StoreFacts.EncodedBuffersAreText` | public/store/BrowserSignalProtocolStore.js:24-30 | encoding turns an object of ArrayBuffers into an object of strings with the same distinct names |
| `StoreFacts.RecordOfBuffersRoundTrips` | public/store/BrowserSignalProtocolStore.js:20-52 | if base64 and JSON round-trip, an object of ArrayBuffers with distinct names, none of them an array index, comes back from `get` exactly as it went into `put` |
| `StoreFacts.KeyPairRoundTrip` | public/store/BrowserSignalProtocolStore.js:99-107 | under the same hypotheses, loading a stored `{pubKey, privKey}` gives back exactly the two buffers |
| `StoreFacts.TrustAndChangeAgree` | public/store/BrowserSignalProtocolStore.js:70-90 | for `TrustDecision` (the rule of isTrustedIdentity) and `IdentityChanged` (the answer of saveIdentity): with no record the key is trusted and no change is reported; against a truthy record a change is reported exactly when the key would not be trusted; a falsy record never counts as a change; a key is trusted against itself |
| `StoreFacts.EncodeFieldsIdempotent` | public/store/BrowserSignalProtocolStore.js:24-28 | encoding an encoded property list again changes nothing, because no ArrayBuffer is left in it |
| `StoreFacts.PutLeavesStoredForm` | public/store/BrowserSignalProtocolStore.js:20-35 | for `StoredText` (what `setItem` receives) and `CallerValueAfterPut` (the caller's value afterwards): an object is stored as the JSON of the object as rewritten, other values are left alone, rewriting is idempotent, and storing the rewritten value again writes the same text |
| `StoreFacts.BufferComesBackAsText` | public/store/BrowserSignalProtocolStore.js:21-52 | a stored ArrayBuffer whose base64 text is not JSON is returned by `get` as that text |
| `StoreFacts.SlotKeysDistinct` | public/store/BrowserSignalProtocolStore.js:12-136 | two records share a key only if they are the same record, or one is the own identity key pair and the other the identity of a peer named "" |
| `StoreFacts.WriteKeepsOtherSlots` | public/store/BrowserSignalProtocolStore.js:35 | writing one record leaves every other record's entry as it was (save for that one collision) |
| `StoreFacts.SessionPrefixOnlyMatchesSessions` | public/store/BrowserSignalProtocolStore.js:139 | only session records have keys that start with `'session' + x` |
| `StoreFacts.RemoveAllSessionsReachesOtherPeers` | public/store/BrowserSignalProtocolStore.js:139 | removeAllSessions("bob") deletes the session of address `bobby.1` |
| `StoreFacts.DeviceSessionPrefixSeparatesPeers` | public/store/BrowserSignalProtocolStore.js:137-144 | for names without a dot, `'session' + name + '.'` prefixes the session key of `peer.device` iff `peer` is `name` |
| `SignalStore.SignalProtocolStore.RemoveDeviceSessions` | public/store/BrowserSignalProtocolStore.js:137-144 | the corrected removal deletes exactly the keys starting with `'session' + identifier + '.'` and keeps every other entry |
| `StoreScenarios.PreKeyRoundTrip` | public/store/BrowserSignalProtocolStore.js:99-108 | storePreKey then loadPreKey returns the key pair, and only the one entry was written |
| `StoreScenarios.SignedPreKeyRoundTrip` | public/store/BrowserSignalProtocolStore.js:114-123 | storeSignedPreKey then loadSignedPreKey returns the key pair |
| `StoreScenarios.StoreThenRemovePreKey` | public/store/BrowserSignalProtocolStore.js:106-111 | store then remove leaves localStorage as before minus that record |
| `StoreScenarios.TrustOnFirstUse` | public/store/BrowserSignalProtocolStore.js:63-95 | an unknown peer's key is trusted, saving it reports no change, and the next check compares the key with its stored form read back |
| `StoreScenarios.RemoveAllSessionsKeepsOtherRecords` | public/store/BrowserSignalProtocolStore.js:137-144 | removeAllSessions leaves identity, pre-key, signed pre-key and own records untouched |
| `StoreScenarios.RemoveDeviceSessionsOfOnePeer` | public/store/BrowserSignalProtocolStore.js:137-144 | the corrected removal deletes `name.device` sessions and keeps those of other dot-free names |

## Findings

| source | as written | input that shows it | evidently intended | confidence | as-written member | corrected member |
|---|---|---|---|---|---|---|
| public/store/BrowserSignalProtocolStore.js:139 | removeAllSessions deletes every key starting with `'session' + identifier` | localStorage holds `sessionbobby.1`; call `removeAllSessions("bob")`; the session of peer `bobby` is deleted | delete only the sessions of addresses `bob.<deviceId>`, i.e. keys starting with `'session' + identifier + '.'` | medium, not executed | `StoreFacts.RemoveAllSessionsReachesOtherPeers` | `SignalStore.SignalProtocolStore.RemoveDeviceSessions` |

The as-written `RemoveAllSessions` is kept as the model of the code. `RemoveDeviceSessions` is the corrected operation, and `DeviceSessionPrefixSeparatesPeers` proves it separates peers.

## Left out

- Cryptography is left out: key generation, X3DH, the Double Ratchet and signatures belong to libsignal.
  - The store only keeps what libsignal hands it.
  - Session records are opaque values.
- The external helpers are parameters of `Platform.Externals` and are not specified: `signalUtil` (base64 both ways, `toString`), `JSON.stringify`, `JSON.parse` and `SignalProtocolAddress.fromString(..).getName()`.
  - Round trips are proved under the stated hypotheses `Base64RoundTrips` and `JsonRoundTrips`.
- Platform.Externals: `toBase64`, `show` and `stringify` are total functions. The model therefore assumes that `arrayBufferToBase64`, `signalUtil.toString` and `JSON.stringify` never throw. The field types also fix what the helpers return:
  - `toBase64`, `show` and `stringify` always yield a string;
  - `fromBase64`, whenever it does not throw, yields an ArrayBuffer;
  - `addressName`, whenever it does not throw, yields a string.
  - So `put` never throws at its encoding steps.
  - `isTrustedIdentity` and `saveIdentity` never throw when comparing string forms, even against a stored `null`.
  - A throw partway through `put`'s forEach would leave the caller's object half rewritten. The model cannot show that.
- StoreFacts.RecordOfBuffersRoundTrips: does not cover objects with an array-index property name. A real object of that kind round-trips as well, because `JSON.stringify` writes the properties in `Object.keys` order and `JSON.parse` recreates that order. A `Record` value, though, can list such names in an order no object has, and for that list the round trip fails. The lemma excludes the names rather than stating the `Object.keys` order. A key pair's names `pubKey` and `privKey` are not array indices.
- `Promise.resolve(...)` wrapping is left out: every method returns its value directly.
- `console.log` output is left out.
- `Direction` is modelled as two constants only. isTrustedIdentity ignores the direction: `TrustOnFirstUse` checks once receiving and once sending.
- Strings are Dafny strings, which are sequences of Unicode scalar values. JavaScript strings, and so localStorage keys, are sequences of UTF-16 code units and may hold lone surrogates. An identifier containing one has no value in the model. On well-formed strings, concatenation and `startsWith` agree with the model's `+` and `<=`.
- Aliasing of the caller's object in `put` is not modelled. The rewritten object is returned as the result instead. Another reference to the same object would see the rewrite in JavaScript, which the model cannot show.
- `key in this.store` is treated as "the key is stored". In the browser, Storage's own member names (`length`, `getItem`, …) also satisfy `in`, and `for … in` lists them too.
  - No key the store builds can be one of them, because every key starts with `identityKey`, `registrationId`, `25519Key` or `session`.
- `localStorage.setItem` may throw a quota error. That is not modelled.
- JavaScript numbers are integers in the model. No floating point.
- JsValues.JsString: writes every integer in plain decimal (`NumberText`). JavaScript writes magnitudes from 10^21 upward in exponent form (`"1e+21"`) and rounds integers beyond 2^53, so a key `'prefix' + id` built from such an id differs from the model's.
- JSON arrays are not in the value domain. Nothing the store writes is an array.
- String properties: `get`'s loop writes into the index properties of a parsed string. That has no effect in sloppy-mode scripts, which this file is, and the model returns the string unchanged.
- In `remove`, the `delete` operator is applied to the result of `removeItem`. It has no effect beyond the call, which is what the model keeps.
- public/Client.js is not part of this model: DOM wiring, HTTP calls and calls into libsignal's SessionBuilder/SessionCipher.
- public/store/ForageSignalProtocolStore.js is not part of this model: its operations delegate to localforage promises.
- database.js, server.js and MessageManager.js are not part of this model: SQL storage, HTTP routes and socket plumbing.
