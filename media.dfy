/**
 * Browser values handled by the front end: byte strings, `Blob`s and `File`s.
 * Only their content, name and declared media type matter to the model.
 */
module Media {

  newtype byte = x: int | 0 <= x < 256

  type Bytes = seq<byte>

  /** A `Blob`: its bytes and the media type it was labelled with. */
  datatype Blob = Blob(content: Bytes, mimeType: string)

  /** A `File`: a named `Blob`. */
  datatype File = File(name: string, content: Bytes, mimeType: string)

  /** The bytes of `new Blob(parts)`: the parts end to end, in order. */
  function Concat(parts: seq<Bytes>): (r: Bytes)
    ensures |parts| == 1 ==> r == parts[0]
  {
    if parts == [] then [] else parts[0] + Concat(parts[1..])
  }

  /** Appending one more part appends its bytes to the blob's content. */
  lemma {:induction false} ConcatAppend(parts: seq<Bytes>, last: Bytes)
    ensures Concat(parts + [last]) == Concat(parts) + last
  {
    if parts != [] {
      assert (parts + [last])[1..] == parts[1..] + [last];
      ConcatAppend(parts[1..], last);
    }
  }

  /** `new Blob(parts, { type })`. */
  function MakeBlob(parts: seq<Bytes>, mimeType: string): (b: Blob)
    ensures b.mimeType == mimeType
    ensures parts == [] ==> b.content == []
  {
    Blob(Concat(parts), mimeType)
  }

  /** `new File([blob], name, { type })`: the blob's bytes under a new name and type. */
  function FileFromBlob(blob: Blob, name: string, mimeType: string): (f: File)
    ensures f.content == blob.content && f.name == name && f.mimeType == mimeType
  {
    File(name, Concat([blob.content]), mimeType)
  }
}
