/** The composed e-mail message: an immutable record and its derived MIME type. */
module Messages {
  import opened Addresses

  /**
   * `Message`: every field is final and the recipients are exposed through an
   * unmodifiable view, so the record is a value; each getter is the field of
   * the same name.
   */
  datatype Message = Message(
    senderAddress: Address,
    recipients: seq<Address>,
    subject: string,
    text: string,
    charset: string,
    mimeSubtype: string)

  const MimeType: string := "text/"

  /** `getMime()`: the content type "text/<subtype>". */
  function GetMime(m: Message): (r: string)
    ensures |r| == |MimeType| + |m.mimeSubtype|
    ensures r[..|MimeType|] == MimeType && r[|MimeType|..] == m.mimeSubtype
  {
    MimeType + m.mimeSubtype
  }

  /** The subtype is read back from the MIME type by dropping the "text/" prefix. */
  function SubtypeOf(mime: string): string
    requires |mime| >= |MimeType|
  {
    mime[|MimeType|..]
  }

  /** Two messages have the same MIME type exactly when they have the same subtype. */
  lemma MimeDeterminesSubtype(m: Message, n: Message)
    ensures GetMime(m) == GetMime(n) <==> m.mimeSubtype == n.mimeSubtype
    ensures SubtypeOf(GetMime(m)) == m.mimeSubtype
  {
  }
}
