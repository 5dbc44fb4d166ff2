/** Compression and persistence of cache values (src/core/cache.py), over abstract base codecs. */
module CacheCodec {

  type Blob = seq<int>

  /** Stands for any object that is neither text nor bytes. */
  type Json = int

  datatype Option<T> = None | Some(value: T)

  datatype Data = Text(text: string) | Bytes(blob: Blob) | Object(json: Json)

  datatype Compression = NoCompression | Gzip | Msgpack

  /** How an entry is stored. */
  datatype Kind = Plain | AsGzip | AsMsgpack

  /** The foreign codecs; None is an exception. */
  datatype Codec = Codec(
    encode: string -> Option<Blob>,
    decode: Blob -> Option<string>,
    zip: Blob -> Blob,
    unzip: Blob -> Option<Blob>,
    dumps: Data -> Option<Blob>,
    loads: Blob -> Option<Data>,
    pack: Data -> Option<Blob>,
    unpack: Blob -> Option<Data>,
    base64: Blob -> string,
    unbase64: string -> Option<Blob>)

  /** Each decoder undoes its encoder, though msgpack may read a value back as another or, except for
      bytes, not at all.  JSON never yields bytes and preserves the text of base64. */
  ghost predicate Inverse(k: Codec) {
    && (forall s :: k.encode(s).Some? ==> k.decode(k.encode(s).value) == Some(s))
    && (forall b :: k.unzip(k.zip(b)) == Some(b))
    && (forall b :: k.pack(Bytes(b)).Some? ==> k.unpack(k.pack(Bytes(b)).value).Some?)
    && (forall b :: k.unbase64(k.base64(b)) == Some(b))
    && (forall b :: k.loads(b).Some? ==> !k.loads(b).value.Bytes?)
    && (forall b :: JsonNormal(k, Text(k.base64(b))))
  }

  /** A value that survives a trip through JSON unchanged. */
  predicate JsonNormal(k: Codec, v: Data) {
    k.dumps(v).Some? && k.loads(k.dumps(v).value) == Some(v)
  }

  datatype Stored = Stored(data: Data, kind: Kind)

  /** Compression pays if it saves more than a tenth. */
  predicate Saves(compressed: Blob, raw: Blob) {
    10 * |compressed| < 9 * |raw|
  }

  function ZipIfBetter(k: Codec, v: Data, raw: Blob, kind: Kind, threshold: int): Stored {
    if |raw| < threshold then Stored(v, Plain)
    else if Saves(k.zip(raw), raw) then Stored(Bytes(k.zip(raw)), kind)
    else Stored(v, Plain)
  }

  /** The bytes whose length decides; None when serializing raises. */
  function Raw(k: Codec, c: Compression, v: Data): Option<Blob> {
    match v
    case Text(s) => k.encode(s)
    case Bytes(b) => Some(b)
    case Object(_) => if c.Msgpack? then k.pack(v) else k.dumps(v)
  }

  /** `_compress_data`: any exception leaves the value as it is. */
  function Compress(k: Codec, c: Compression, threshold: int, v: Data): Stored {
    if c.NoCompression? then Stored(v, Plain)
    else
      var raw := Raw(k, c, v);
      if raw.None? then
        if v.Object? && c.Gzip? && k.pack(v).Some? then ZipIfBetter(k, v, k.pack(v).value, AsMsgpack, threshold)
        else Stored(v, Plain)
      else if |raw.value| < threshold then Stored(v, Plain)
      else if c.Gzip? then ZipIfBetter(k, v, raw.value, AsGzip, threshold)
      else if k.pack(v).Some? then Stored(Bytes(k.zip(k.pack(v).value)), AsMsgpack)
      else Stored(v, Plain)
  }

  /** `_decompress_data`: text that is not JSON is decoded, and any exception hands back the stored data. */
  function Decompress(k: Codec, stored: Stored): Data {
    if stored.kind.Plain? || !stored.data.Bytes? then stored.data
    else
      match k.unzip(stored.data.blob)
      case None => stored.data
      case Some(raw) =>
        if stored.kind.AsGzip? then
          if k.loads(raw).Some? then k.loads(raw).value
          else if k.decode(raw).Some? then Text(k.decode(raw).value)
          else stored.data
        else if k.unpack(raw).Some? then k.unpack(raw).value
        else stored.data
  }

  /** When a value comes back unchanged, by how it is stored: always uncompressed; under gzip a text that
      is not itself JSON text, or a JSON-normal object, but never bytes; under msgpack what that
      serializer preserves. */
  predicate Survives(k: Codec, c: Compression, threshold: int, v: Data) {
    match Compress(k, c, threshold, v).kind
    case Plain => true
    case AsGzip =>
      (match v
       case Text(s) => k.encode(s).Some? && (k.loads(k.encode(s).value).None? || k.loads(k.encode(s).value) == Some(v))
       case Bytes(_) => false
       case Object(_) => JsonNormal(k, v))
    case AsMsgpack => k.pack(v).Some? && k.unpack(k.pack(v).value) == Some(v)
  }

  /** How a value is stored, from the lengths alone.  Its bytes are those of the text, of the bytes
      themselves, or of the object's serialization (JSON, or msgpack under that setting).  Under gzip they
      are zipped exactly if there are at least as many as the threshold and this saves more than a tenth; an
      object without JSON form falls back to msgpack.  Under msgpack everything of that length that msgpack
      takes is packed and zipped.  All else is stored as it is. */
  lemma StoredIff(k: Codec, c: Compression, threshold: int, v: Data)
    ensures var stored := Compress(k, c, threshold, v);
            var raw := match v
                       case Text(s) => k.encode(s)
                       case Bytes(b) => Some(b)
                       case Object(_) => if c.Msgpack? then k.pack(v) else k.dumps(v);
            var fallBack := c.Gzip? && v.Object? && raw.None?;
            && (stored == Stored(v, Plain) || stored.kind == AsGzip || stored.kind == AsMsgpack)
            && (stored.kind == AsGzip <==>
                  c.Gzip? && raw.Some? && |raw.value| >= threshold && 10 * |k.zip(raw.value)| < 9 * |raw.value|)
            && (stored.kind == AsMsgpack <==>
                  || (c.Msgpack? && raw.Some? && |raw.value| >= threshold && k.pack(v).Some?)
                  || (fallBack && k.pack(v).Some? && |k.pack(v).value| >= threshold
                      && 10 * |k.zip(k.pack(v).value)| < 9 * |k.pack(v).value|))
            && (stored.kind == AsGzip ==> stored.data == Bytes(k.zip(raw.value)))
            && (stored.kind == AsMsgpack ==> stored.data == Bytes(k.zip(k.pack(v).value)))
  {
  }

  lemma TextUnderGzip(k: Codec, threshold: int, s: string)
    requires Inverse(k) && Compress(k, Gzip, threshold, Text(s)).kind.AsGzip?
    ensures Decompress(k, Compress(k, Gzip, threshold, Text(s))) == Text(s) <==> Survives(k, Gzip, threshold, Text(s))
  {
    var raw := k.encode(s).value;
    assert k.unzip(k.zip(raw)) == Some(raw);
    assert k.decode(raw) == Some(s);
  }

  lemma BytesUnderGzip(k: Codec, threshold: int, b: Blob)
    requires Inverse(k) && Compress(k, Gzip, threshold, Bytes(b)).kind.AsGzip?
    ensures Decompress(k, Compress(k, Gzip, threshold, Bytes(b))) != Bytes(b)
  {
    assert k.unzip(k.zip(b)) == Some(b);
    assert |k.zip(b)| != |b|;
  }

  /** An object is never read back as bytes or text, so under gzip only JSON-normality brings it back. */
  lemma ObjectUnderGzip(k: Codec, threshold: int, v: Data)
    requires Inverse(k) && v.Object?
    requires Compress(k, Gzip, threshold, v).kind.AsGzip?
    ensures Decompress(k, Compress(k, Gzip, threshold, v)) == v <==> JsonNormal(k, v)
  {
    var raw := k.dumps(v).value;
    assert k.unzip(k.zip(raw)) == Some(raw);
  }

  lemma Unpacked(k: Codec, packed: Blob)
    requires Inverse(k)
    ensures Decompress(k, Stored(Bytes(k.zip(packed)), AsMsgpack))
         == if k.unpack(packed).Some? then k.unpack(packed).value else Bytes(k.zip(packed))
  {
    assert k.unzip(k.zip(packed)) == Some(packed);
  }

  lemma PackedReturnsIff(k: Codec, c: Compression, threshold: int, v: Data)
    requires Inverse(k) && Compress(k, c, threshold, v).kind.AsMsgpack?
    ensures k.pack(v).Some? && Compress(k, c, threshold, v) == Stored(Bytes(k.zip(k.pack(v).value)), AsMsgpack)
    ensures Decompress(k, Compress(k, c, threshold, v)) == v <==> k.unpack(k.pack(v).value) == Some(v)
  {
    StoredIff(k, c, threshold, v);
    Unpacked(k, k.pack(v).value);
  }

  lemma RoundTripIff(k: Codec, c: Compression, threshold: int, v: Data)
    requires Inverse(k)
    ensures Decompress(k, Compress(k, c, threshold, v)) == v <==> Survives(k, c, threshold, v)
  {
    var kind := Compress(k, c, threshold, v).kind;
    if kind.AsGzip? {
      match v
      case Text(s) => TextUnderGzip(k, threshold, s);
      case Bytes(b) => BytesUnderGzip(k, threshold, b);
      case Object(_) => ObjectUnderGzip(k, threshold, v);
    } else if kind.AsMsgpack? {
      PackedReturnsIff(k, c, threshold, v);
    }
  }

  /** A packed value that msgpack cannot read back is handed out still compressed. */
  lemma UnreadableStaysPacked(k: Codec, c: Compression, threshold: int, v: Data)
    requires Inverse(k) && Compress(k, c, threshold, v).kind.AsMsgpack?
    requires k.unpack(k.pack(v).value).None?
    ensures Decompress(k, Compress(k, c, threshold, v)) == Bytes(k.zip(k.pack(v).value)) != v
  {
    PackedReturnsIff(k, c, threshold, v);
    Unpacked(k, k.pack(v).value);
  }

  /** Bytes that gzip compresses are lost: they come back as text, as parsed JSON, or still compressed. */
  lemma GzippedBytesNeverReturn(k: Codec, threshold: int, b: Blob)
    requires Inverse(k) && |b| >= threshold && Saves(k.zip(b), b)
    ensures Decompress(k, Compress(k, Gzip, threshold, Bytes(b))) != Bytes(b)
  {
    RoundTripIff(k, Gzip, threshold, Bytes(b));
  }
}
