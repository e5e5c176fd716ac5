/**
 * Message records: as the server sends them (broadcast or history), as the
 * client keeps them in its `messages` list, and the rule that derives the
 * rendered content of a record (`decryptMessage` and the file short-cut).
 */
module Messages {
  import opened JsValues

  /** An uploaded attachment, as the upload endpoint describes it. */
  datatype FileInfo = FileInfo(name: string, url: string, size: int, mimeType: string)

  /** Rendered content: text, or `{ type: 'file', ...file }`. */
  datatype Content = Text(text: string) | Attachment(file: FileInfo)

  /** A message record as the server sends it; `content` is the plaintext field. */
  datatype Wire = Wire(
    id: Option<string>,
    tempId: Option<string>,
    sender: Value,
    recipient: Option<string>,
    group: Option<string>,
    content: Value,
    encryptedContent: Option<string>,
    file: Option<FileInfo>)

  /**
   * An element of the client's `messages` list: a received record with its content
   * rendered, or the optimistic copy of a send (no `_id` yet).
   */
  datatype Entry = Entry(
    id: Option<string>,
    tempId: Option<string>,
    sender: Value,
    recipient: Option<string>,
    group: Option<string>,
    content: Content)

  /**
   * Private-key decryption: base64 decoding, RSA-OAEP and UTF-8 decoding of a
   * ciphertext with a PEM key; None when any step throws.
   */
  type Decryptor = (string, string) -> Option<string>

  const DecryptionFailed := "[Decryption Failed]"

  /**
   * `decryptMessage`: a group message or one of the viewer's own renders its
   * plaintext; without a key or a ciphertext the ciphertext (else the plaintext)
   * is shown; otherwise the decryption, with a fixed placeholder when it fails.
   */
  function DecryptMessage(
    encrypted: Option<string>, plaintext: Value, isPrivate: bool,
    senderId: string, viewer: Option<string>,
    privateKey: Option<string>, decrypt: Decryptor): string
  {
    if !isPrivate || viewer == Some(senderId) then SafeRender(plaintext, Unknown)
    else if !Present(privateKey) || !Present(encrypted) then
      SafeRender(if Present(encrypted) then Str(encrypted.value) else plaintext, Unknown)
    else
      match decrypt(privateKey.value, encrypted.value)
      case Some(text) => text
      case None => DecryptionFailed
  }

  /** The content shown for a record: the file descriptor, or the decryption rule. */
  function Render(w: Wire, viewer: Option<string>, privateKey: Option<string>, decrypt: Decryptor): Content {
    if w.file.Some? then Attachment(w.file.value)
    else Text(DecryptMessage(w.encryptedContent, w.content, Present(w.recipient),
                             RefId(w.sender), viewer, privateKey, decrypt))
  }

  /** `{ ...msg, content }`: the record with its rendered content. */
  function Received(w: Wire, viewer: Option<string>, privateKey: Option<string>, decrypt: Decryptor): (e: Entry)
    ensures e.id == w.id && e.tempId == w.tempId && e.sender == w.sender
    ensures e.recipient == w.recipient && e.group == w.group
  {
    Entry(w.id, w.tempId, w.sender, w.recipient, w.group, Render(w, viewer, privateKey, decrypt))
  }

  /**
   * The mapping of fetched history: every record becomes the entry a live
   * broadcast of it would produce, in the same order.
   */
  function ProcessHistory(ws: seq<Wire>, viewer: Option<string>, privateKey: Option<string>, decrypt: Decryptor): (r: seq<Entry>)
    ensures |r| == |ws|
    ensures forall i :: 0 <= i < |ws| ==> r[i] == Received(ws[i], viewer, privateKey, decrypt)
  {
    if ws == [] then []
    else [Received(ws[0], viewer, privateKey, decrypt)] + ProcessHistory(ws[1..], viewer, privateKey, decrypt)
  }

  /** `{ _id: currentUserId, name: "You" }` */
  function YouSender(viewer: Option<string>): Value {
    Obj(OfOption(viewer), Some("You"), YouJson(viewer))
  }

  /** The JSON text of the sender object of an optimistic copy (ids are not escaped). */
  function YouJson(viewer: Option<string>): string {
    var id := match viewer case None => "null" case Some(u) => "\"" + u + "\"";
    "{\"_id\":" + id + ",\"name\":\"You\"}"
  }

  /** The optimistic (Pending) copy of a send: no `_id`, the client's `tempId`, the viewer as sender. */
  function Optimistic(viewer: Option<string>, recipient: Option<string>, group: Option<string>,
                      tempId: string, body: Content): Entry
  {
    Entry(None, Some(tempId), YouSender(viewer), OrNull(recipient), OrNull(group), body)
  }

  // ---------------------------------------------------------------------------
  // Properties of the decryption rule

  /** A group message, or one the viewer sent, renders its plaintext whatever the key and the cipher. */
  lemma OwnOrGroupSkipsDecryption(
    encrypted: Option<string>, plaintext: Value, isPrivate: bool, senderId: string,
    viewer: Option<string>, key1: Option<string>, key2: Option<string>, d1: Decryptor, d2: Decryptor)
    requires !isPrivate || viewer == Some(senderId)
    ensures DecryptMessage(encrypted, plaintext, isPrivate, senderId, viewer, key1, d1)
         == SafeRender(plaintext, Unknown)
         == DecryptMessage(encrypted, plaintext, isPrivate, senderId, viewer, key2, d2)
  {
  }

  /** Without a private key or a ciphertext, the ciphertext is shown if there is one, else the plaintext. */
  lemma MissingKeyOrCiphertext(
    encrypted: Option<string>, plaintext: Value, senderId: string,
    viewer: Option<string>, key: Option<string>, decrypt: Decryptor)
    requires viewer != Some(senderId)
    requires !Present(key) || !Present(encrypted)
    ensures DecryptMessage(encrypted, plaintext, true, senderId, viewer, key, decrypt)
         == if Present(encrypted) then encrypted.value else SafeRender(plaintext, Unknown)
  {
  }

  /**
   * A private message from someone else, with key and ciphertext, shows the
   * decrypted text, or exactly the placeholder when decryption fails.
   */
  lemma DecryptionOutcome(
    encrypted: Option<string>, plaintext: Value, senderId: string,
    viewer: Option<string>, key: Option<string>, decrypt: Decryptor)
    requires viewer != Some(senderId) && Present(key) && Present(encrypted)
    ensures decrypt(key.value, encrypted.value).Some? ==>
      DecryptMessage(encrypted, plaintext, true, senderId, viewer, key, decrypt)
        == decrypt(key.value, encrypted.value).value
    ensures decrypt(key.value, encrypted.value).None? ==>
      DecryptMessage(encrypted, plaintext, true, senderId, viewer, key, decrypt) == DecryptionFailed
  {
  }

  /**
   * Private round trip: the sender's own copy renders the plaintext it sent
   * without decryption, and the recipient renders it when its key decrypts the
   * ciphertext to that plaintext.
   */
  lemma PrivateRoundTrip(w: Wire, plain: string, sender: string, recipient: string,
                         senderKey: Option<string>, recipientKey: Option<string>, decrypt: Decryptor)
    requires w.file.None? && Present(w.recipient) && w.content == Str(plain)
    requires RefId(w.sender) == sender && sender != recipient
    requires Present(recipientKey) && Present(w.encryptedContent)
    requires decrypt(recipientKey.value, w.encryptedContent.value) == Some(plain)
    ensures Render(w, Some(sender), senderKey, decrypt) == Text(plain)
    ensures Render(w, Some(recipient), recipientKey, decrypt) == Text(plain)
  {
  }

  /** A file record renders as its attachment for every viewer; decryption is never attempted. */
  lemma FilesAreNeverDecrypted(w: Wire, viewer: Option<string>, key: Option<string>, decrypt: Decryptor)
    requires w.file.Some?
    ensures Render(w, viewer, key, decrypt) == Attachment(w.file.value)
  {
  }

  /** The optimistic copy is Pending (no `_id`), carries the `tempId`, and names the viewer as sender. */
  lemma OptimisticIsPending(viewer: string, recipient: Option<string>, group: Option<string>,
                            tempId: string, body: Content)
    requires viewer != ""
    ensures var e := Optimistic(Some(viewer), recipient, group, tempId, body);
      e.id.None? && e.tempId == Some(tempId) && RefId(e.sender) == viewer && e.content == body
    ensures recipient.None? || group.None? ==>
      var e := Optimistic(Some(viewer), recipient, group, tempId, body);
      !(Present(e.recipient) && Present(e.group))
  {
  }
}
