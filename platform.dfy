/**
 * The code the store calls but does not define: the `signalUtil` helpers,
 * the JSON built-ins and libsignal's address parser. Each is a parameter of
 * the model; nothing is assumed about them except what a lemma states as its
 * hypothesis.
 */
module Platform {
  import opened Wrappers
  import opened JsValues

  datatype Externals = Externals(
    /** signalUtil.arrayBufferToBase64 */
    toBase64: seq<byte> -> string,
    /** signalUtil.base64ToArrayBuffer; `None` when it throws */
    fromBase64: JsValue -> Option<seq<byte>>,
    /** signalUtil.toString */
    show: JsValue -> string,
    /** JSON.stringify */
    stringify: JsValue -> string,
    /** JSON.parse; `None` when it throws a SyntaxError */
    parse: string -> Option<JsValue>,
    /** libsignal.SignalProtocolAddress.fromString(x).getName(); `None` when it throws */
    addressName: JsValue -> Option<string>)

  /** JSON text never denotes `undefined`. */
  ghost predicate ParseNeverUndefined(e: Externals) {
    forall text :: e.parse(text) != Some(Undefined)
  }

  /** The environment the store runs in. */
  type Env = e: Externals | ParseNeverUndefined(e)
    witness Externals(b => "", v => None, v => "", v => "", text => None, v => None)

  /** `base64ToArrayBuffer` inverts `arrayBufferToBase64`. */
  ghost predicate Base64RoundTrips(e: Env) {
    forall b :: e.fromBase64(Str(e.toBase64(b))) == Some(b)
  }

  /**
   * `JSON.parse(JSON.stringify(o))` rebuilds a plain object whose properties
   * are all strings and none of whose names is an array index. With index
   * names a `Record` may list its properties in an order no object has
   * (`Object.keys` puts those names first, ascending), and `JSON.parse` would
   * then give back the object's own order instead.
   */
  ghost predicate JsonRoundTrips(e: Env) {
    forall fs :: DistinctNames(fs) && AllText(fs) && NoIndexNames(fs) ==>
      e.parse(e.stringify(Record(fs))) == Some(Record(fs))
  }
}
