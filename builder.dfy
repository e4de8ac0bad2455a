/**
 * MessageBuilder: fixes the sender and the recipients at construction, lets
 * each of four optional fields be set once, and builds a Message filling
 * defaults into the fields left unset.
 */
module Builder {
  import opened Wrappers
  import opened Errors
  import opened JavaLang
  import opened Addresses
  import opened Messages

  // ---------------------------------------------------------------------------
  // The set-once fields, as a value

  datatype Field = Subject | Text | Charset | MimeSubtype

  /** The field as its "already set" message names it. */
  function FieldName(f: Field): string {
    match f
    case Subject => "Subject"
    case Text => "Text"
    case Charset => "Charset"
    case MimeSubtype => "MIME type"
  }

  /** The argument as its "Null/Empty" message names it. */
  function ArgumentName(f: Field): string {
    match f
    case Subject => "subject"
    case Text => "text"
    case Charset => "charset"
    case MimeSubtype => "subtype"
  }

  /** The builder's four optional fields; None is Java's null, "not set yet". */
  datatype Draft = Draft(
    subject: Option<string>,
    text: Option<string>,
    charset: Option<string>,
    mimeSubtype: Option<string>)

  /** A freshly constructed builder: nothing set. */
  const Unset: Draft := Draft(None, None, None, None)

  function Get(d: Draft, f: Field): Option<string> {
    match f
    case Subject => d.subject
    case Text => d.text
    case Charset => d.charset
    case MimeSubtype => d.mimeSubtype
  }

  function Put(d: Draft, f: Field, v: string): (r: Draft)
    ensures Get(r, f) == Some(v)
    ensures forall g :: g != f ==> Get(r, g) == Get(d, g)
  {
    match f
    case Subject => d.(subject := Some(v))
    case Text => d.(text := Some(v))
    case Charset => d.(charset := Some(v))
    case MimeSubtype => d.(mimeSubtype := Some(v))
  }

  /** All four fields are set. */
  predicate Complete(d: Draft) {
    forall f :: Get(d, f).Some?
  }

  /** What a successful setter stores: setSubject trims its argument, the other three keep it verbatim. */
  function Stored(f: Field, value: string): string {
    if f == Subject then Trim(value) else value
  }

  /**
   * The effect of one setter on the fields: an already-set field is a state
   * error whatever the argument, null or blank is an argument error, and
   * otherwise exactly field `f` becomes set.
   */
  function Assign(d: Draft, f: Field, value: Option<string>): (r: Result<Draft, Error>)
    ensures r.Success? <==> Get(d, f).None? && value.Some? && !IsBlank(value.value)
    ensures Get(d, f).Some? ==> r == Failure(IllegalState(AlreadySet(FieldName(f))))
    ensures Get(d, f).None? && (value.None? || IsBlank(value.value)) ==>
              r == Failure(IllegalArgument(NullOrEmpty(ArgumentName(f))))
    ensures r.Success? ==> Get(r.value, f) == Some(Stored(f, value.value))
    ensures r.Success? ==> !IsBlank(Get(r.value, f).value)
    ensures r.Success? ==> forall g :: g != f ==> Get(r.value, g) == Get(d, g)
  {
    if Get(d, f).Some? then
      Failure(IllegalState(AlreadySet(FieldName(f))))
    else if value.None? || IsBlank(value.value) then
      Failure(IllegalArgument(NullOrEmpty(ArgumentName(f))))
    else
      Success(Put(d, f, Stored(f, value.value)))
  }

  /** One setter call of a caller's script. */
  datatype Call = Call(field: Field, value: Option<string>)

  /** The fields after a script of setter calls, each call that throws being caught and leaving the fields as they were. */
  function Run(d: Draft, calls: seq<Call>): Draft
    decreases |calls|
  {
    if calls == [] then d
    else
      var next := match Assign(d, calls[0].field, calls[0].value)
                  case Success(d') => d'
                  case Failure(_) => d;
      Run(next, calls[1..])
  }

  /**
   * Once set, a field keeps its value through any later setter calls, and
   * setting it again fails with a state error, whatever was called in between.
   */
  lemma {:induction false} SetFieldStaysSet(d: Draft, calls: seq<Call>, f: Field, value: Option<string>)
    requires Get(d, f).Some?
    ensures Get(Run(d, calls), f) == Get(d, f)
    ensures Assign(Run(d, calls), f, value) == Failure(IllegalState(AlreadySet(FieldName(f))))
    decreases |calls|
  {
    if calls != [] {
      var next := match Assign(d, calls[0].field, calls[0].value)
                  case Success(d') => d'
                  case Failure(_) => d;
      assert Get(next, f) == Get(d, f);
      SetFieldStaysSet(next, calls[1..], f, value);
    }
  }

  /**
   * What `build()` writes back into the fields: the defaults "" for subject
   * and text, the platform's charset name and "plain" for the subtype, for
   * exactly the fields still unset.
   */
  function Filled(d: Draft, platformCharset: string): (r: Draft)
    ensures Complete(r)
    ensures forall f :: Get(d, f).Some? ==> Get(r, f) == Get(d, f)
    ensures d.subject.None? ==> r.subject == Some("")
    ensures d.text.None? ==> r.text == Some("")
    ensures d.charset.None? ==> r.charset == Some(platformCharset)
    ensures d.mimeSubtype.None? ==> r.mimeSubtype == Some("plain")
  {
    Draft(
      if d.subject.None? then Some("") else d.subject,
      if d.text.None? then Some("") else d.text,
      if d.charset.None? then Some(platformCharset) else d.charset,
      if d.mimeSubtype.None? then Some("plain") else d.mimeSubtype)
  }

  /** The message `build()` returns for complete fields. */
  function Compose(sender: Address, recipients: seq<Address>, d: Draft): Message
    requires Complete(d)
  {
    assert Get(d, Subject).Some? && Get(d, Text).Some? && Get(d, Charset).Some? && Get(d, MimeSubtype).Some?;
    Message(sender, recipients, d.subject.value, d.text.value, d.charset.value, d.mimeSubtype.value)
  }

  /**
   * `build()` freezes the builder: a second build gives the same fields,
   * whatever the platform charset is by then, and every setter now fails with
   * a state error.
   */
  lemma BuildFreezes(d: Draft, platformCharset: string, laterCharset: string, f: Field, value: Option<string>)
    ensures Filled(Filled(d, platformCharset), laterCharset) == Filled(d, platformCharset)
    ensures Assign(Filled(d, platformCharset), f, value) == Failure(IllegalState(AlreadySet(FieldName(f))))
  {
    var once := Filled(d, platformCharset);
    var twice := Filled(once, laterCharset);
    assert Get(twice, Subject) == Get(once, Subject) && Get(twice, Text) == Get(once, Text);
    assert Get(twice, Charset) == Get(once, Charset) && Get(twice, MimeSubtype) == Get(once, MimeSubtype);
  }

  /** A message built without a `setMimeSubtype` call is of type "text/plain". */
  lemma DefaultMimeIsPlain(sender: Address, recipients: seq<Address>, d: Draft, platformCharset: string)
    requires d.mimeSubtype.None?
    ensures GetMime(Compose(sender, recipients, Filled(d, platformCharset))) == "text/plain"
  {
  }

  /** Building straight after construction gives the defaults and passes the sender and recipients through. */
  lemma BuildUnsetGivesDefaults(sender: Address, recipients: seq<Address>, platformCharset: string)
    ensures Compose(sender, recipients, Filled(Unset, platformCharset))
            == Message(sender, recipients, "", "", platformCharset, "plain")
  {
  }

  // ---------------------------------------------------------------------------
  // Recipients

  /** No two recipients are equal (the LinkedHashSet invariant). */
  predicate DistinctKeys(rs: seq<Address>) {
    forall i, j :: 0 <= i < j < |rs| ==> Key(rs[i]) != Key(rs[j])
  }

  /** `set.contains(x)`: some element of the set equals `x`. */
  function Contains(s: seq<Address>, x: Address): (r: bool)
    ensures r <==> exists k :: 0 <= k < |s| && Key(s[k]) == Key(x)
  {
    exists k | 0 <= k < |s| :: Equals(x, Some(s[k]))
  }

  /** The recipient at `i` is refused: it is null or equal to an earlier one. */
  predicate Faulty(rs: seq<Option<Address>>, i: int)
    requires 0 <= i < |rs|
  {
    rs[i].None? || exists k :: 0 <= k < i && rs[k].Some? && Key(rs[k].value) == Key(rs[i].value)
  }

  /** `i` is the first refused recipient. */
  predicate FirstFault(rs: seq<Option<Address>>, i: int) {
    0 <= i < |rs| && Faulty(rs, i) && forall j :: 0 <= j < i ==> !Faulty(rs, j)
  }

  /** The exception the refused recipient at `i` raises. */
  function FaultError(rs: seq<Option<Address>>, i: int): Error
    requires 0 <= i < |rs|
  {
    if rs[i].None? then IllegalArgument(NullWrapped)
    else IllegalArgument(DuplicateRecipient(ToString(rs[i].value)))
  }

  /** There is at most one first fault, so the exception a recipient list raises is determined. */
  lemma FirstFaultUnique(rs: seq<Option<Address>>, i: int, j: int)
    requires FirstFault(rs, i) && FirstFault(rs, j)
    ensures i == j
  {
  }

  /**
   * The recipients loop of the constructor: refuse an empty list, then wrap
   * each recipient read-only and add it to an insertion-ordered set, failing
   * on the first null or duplicate.
   */
  method AdmitRecipients(recipients: seq<Option<Address>>) returns (r: Result<seq<Address>, Error>)
    ensures |recipients| == 0 ==> r == Failure(IllegalArgument(EmptyRecipients))
    ensures r.Success? <==> |recipients| > 0 && forall i :: 0 <= i < |recipients| ==> !Faulty(recipients, i)
    ensures r.Success? ==> (|r.value| == |recipients| &&
              forall i :: 0 <= i < |recipients| ==> recipients[i].Some? && r.value[i] == ReadOnly(recipients[i].value))
    ensures r.Success? ==> DistinctKeys(r.value)
    ensures r.Failure? && |recipients| > 0 ==>
              exists i :: FirstFault(recipients, i) && r.error == FaultError(recipients, i)
  {
    if |recipients| == 0 {
      return Failure(IllegalArgument(EmptyRecipients));
    }
    var admitted: seq<Address> := [];
    var i := 0;
    while i < |recipients|
      invariant 0 <= i <= |recipients| && |admitted| == i
      invariant forall j :: 0 <= j < i ==> recipients[j].Some? && admitted[j] == ReadOnly(recipients[j].value)
      invariant forall j :: 0 <= j < i ==> !Faulty(recipients, j)
    {
      var wrapped := Wrap(recipients[i]);
      if wrapped.Failure? {
        assert FirstFault(recipients, i);
        return Failure(wrapped.error);
      }
      if Contains(admitted, wrapped.value) {
        assert FirstFault(recipients, i);
        return Failure(IllegalArgument(DuplicateRecipient(ToString(recipients[i].value))));
      }
      admitted := admitted + [wrapped.value];
      i := i + 1;
    }
    r := Success(admitted);
    assert DistinctKeys(admitted) by {
      forall a, b | 0 <= a < b < |admitted| ensures Key(admitted[a]) != Key(admitted[b]) {
        assert !Faulty(recipients, b);
      }
    }
  }

  // ---------------------------------------------------------------------------
  // Addresses given as strings

  /** The recipient string parses: it is neither null nor blank, and its trimmed text is a mailbox. */
  predicate Parses(s: Option<string>, parse: string -> Option<InternetAddress>) {
    s.Some? && !IsBlank(s.value) && parse(Trim(s.value)).Some?
  }

  /** The exception a string that does not parse raises; `index` is None for the sender. */
  function ParseError(s: Option<string>, index: Option<nat>, parse: string -> Option<InternetAddress>): Error {
    if s.None? || IsBlank(s.value) then AddressException(NullOrEmptyAddress(index))
    else AddressException(Unparseable(Trim(s.value)))
  }

  /**
   * `getAddress(address)`: null or blank is an address error before any
   * parsing; otherwise the trimmed text goes to the mailbox parser `parse`.
   */
  function GetAddressOf(address: Option<string>, parse: string -> Option<InternetAddress>): (r: Result<InternetAddress, Error>)
    ensures r.Success? <==> Parses(address, parse)
    ensures r.Success? ==> Some(r.value) == parse(Trim(address.value))
    ensures r.Failure? ==> r.error == ParseError(address, None, parse)
    ensures address.None? || IsBlank(address.value) ==> r == Failure(AddressException(NullOrEmptyAddress(None)))
  {
    if address.None? || IsBlank(address.value) then
      Failure(AddressException(NullOrEmptyAddress(None)))
    else
      match parse(Trim(address.value))
      case None => Failure(AddressException(Unparseable(Trim(address.value))))
      case Some(ia) => Success(ia)
  }

  /**
   * `getRecipients(recipients)`: check and parse each string in order,
   * failing at the first one that is null, blank or not a mailbox.
   */
  method GetRecipients(recipients: seq<Option<string>>, parse: string -> Option<InternetAddress>)
    returns (r: Result<seq<InternetAddress>, Error>)
    ensures r.Success? <==> forall i :: 0 <= i < |recipients| ==> Parses(recipients[i], parse)
    ensures r.Success? ==> (|r.value| == |recipients| &&
              forall i :: 0 <= i < |recipients| ==> Some(r.value[i]) == parse(Trim(recipients[i].value)))
    ensures r.Failure? ==>
              exists i :: 0 <= i < |recipients| && !Parses(recipients[i], parse) &&
                (forall j :: 0 <= j < i ==> Parses(recipients[j], parse)) &&
                r.error == ParseError(recipients[i], Some(i), parse)
  {
    var parsed: seq<InternetAddress> := [];
    var i := 0;
    while i < |recipients|
      invariant 0 <= i <= |recipients| && |parsed| == i
      invariant forall j :: 0 <= j < i ==> Parses(recipients[j], parse) && Some(parsed[j]) == parse(Trim(recipients[j].value))
    {
      var recipient := recipients[i];
      if recipient.None? || IsBlank(recipient.value) {
        r := Failure(AddressException(NullOrEmptyAddress(Some(i))));
        assert !Parses(recipients[i], parse) && r.error == ParseError(recipients[i], Some(i), parse);
        return;
      }
      var tmp := parse(Trim(recipient.value));
      if tmp.None? {
        r := Failure(AddressException(Unparseable(Trim(recipient.value))));
        assert !Parses(recipients[i], parse) && r.error == ParseError(recipients[i], Some(i), parse);
        return;
      }
      parsed := parsed + [tmp.value];
      i := i + 1;
    }
    return Success(parsed);
  }

  /** The recipients the string constructor hands to the address constructor. */
  function AsRecipients(parsed: seq<InternetAddress>): (r: seq<Option<Address>>)
    ensures |r| == |parsed| && forall i :: 0 <= i < |parsed| ==> r[i] == Some(Internet(parsed[i]))
  {
    seq(|parsed|, i requires 0 <= i < |parsed| => Some(Internet(parsed[i])))
  }

  /** The recipient strings, every one of which parses, as the addresses they denote. */
  function ParsedRecipients(recipients: seq<Option<string>>, parse: string -> Option<InternetAddress>): (r: seq<Option<Address>>)
    requires forall i :: 0 <= i < |recipients| ==> Parses(recipients[i], parse)
    ensures |r| == |recipients|
    ensures forall i :: 0 <= i < |recipients| ==> Parses(recipients[i], parse) && r[i] == Some(Internet(parse(Trim(recipients[i].value)).value))
  {
    seq(|recipients|, i requires 0 <= i < |recipients| && Parses(recipients[i], parse) =>
          Some(Internet(parse(Trim(recipients[i].value)).value)))
  }

  // ---------------------------------------------------------------------------
  // The builder object

  class MessageBuilder {
    const senderAddress: Address
    const recipients: seq<Address>

    var subject: Option<string>
    var text: Option<string>
    var charset: Option<string>
    var mimeSubtype: Option<string>

    /** Sender and recipients are read-only wrappers; the recipients are a non-empty set. */
    ghost predicate Valid() {
      && senderAddress.ReadOnly?
      && |recipients| > 0
      && DistinctKeys(recipients)
      && forall i :: 0 <= i < |recipients| ==> recipients[i].ReadOnly?
    }

    /** The four optional fields as a value. */
    function Fields(): Draft
      reads this
    {
      Draft(subject, text, charset, mimeSubtype)
    }

    constructor Init(sender: Address, admitted: seq<Address>)
      requires sender.ReadOnly? && |admitted| > 0 && DistinctKeys(admitted)
      requires forall i :: 0 <= i < |admitted| ==> admitted[i].ReadOnly?
      ensures Valid()
      ensures senderAddress == sender && recipients == admitted && Fields() == Unset
    {
      senderAddress := sender;
      recipients := admitted;
      subject, text, charset, mimeSubtype := None, None, None, None;
    }

    /**
     * `new MessageBuilder(senderAddress, recipients...)`: a null sender fails
     * first; then the recipient list is admitted as AdmitRecipients says.
     */
    static method Create(sender: Option<Address>, recipients: seq<Option<Address>>)
      returns (r: Result<MessageBuilder, Error>)
      ensures sender.None? ==> r == Failure(IllegalArgument(NullWrapped))
      ensures sender.Some? && |recipients| == 0 ==> r == Failure(IllegalArgument(EmptyRecipients))
      ensures r.Success? <==>
                sender.Some? && |recipients| > 0 && forall i :: 0 <= i < |recipients| ==> !Faulty(recipients, i)
      ensures sender.Some? && |recipients| > 0 && r.Failure? ==>
                exists i :: FirstFault(recipients, i) && r.error == FaultError(recipients, i)
      ensures r.Success? ==> fresh(r.value) && r.value.Valid() && r.value.Fields() == Unset
      ensures r.Success? ==> r.value.senderAddress == ReadOnly(sender.value)
      ensures r.Success? ==> (|r.value.recipients| == |recipients| &&
                forall i :: 0 <= i < |recipients| ==>
                  recipients[i].Some? && r.value.recipients[i] == ReadOnly(recipients[i].value))
    {
      var wrapped := Wrap(sender);
      if wrapped.Failure? {
        return Failure(wrapped.error);
      }
      var admitted := AdmitRecipients(recipients);
      if admitted.Failure? {
        return Failure(admitted.error);
      }
      var b := new MessageBuilder.Init(wrapped.value, admitted.value);
      return Success(b);
    }

    /**
     * `new MessageBuilder(String senderAddress, String... recipients)`: the
     * sender string is checked and parsed first, then each recipient string
     * in order, and the parsed addresses go to the address constructor.
     */
    static method CreateFromStrings(sender: Option<string>, recipients: seq<Option<string>>,
                                    parse: string -> Option<InternetAddress>)
      returns (r: Result<MessageBuilder, Error>)
      ensures !Parses(sender, parse) ==> r == Failure(ParseError(sender, None, parse))
      ensures Parses(sender, parse) && !(forall i :: 0 <= i < |recipients| ==> Parses(recipients[i], parse)) ==>
                exists i :: 0 <= i < |recipients| && !Parses(recipients[i], parse) &&
                  (forall j :: 0 <= j < i ==> Parses(recipients[j], parse)) &&
                  r == Failure(ParseError(recipients[i], Some(i), parse))
      ensures Parses(sender, parse) && |recipients| == 0 ==> r == Failure(IllegalArgument(EmptyRecipients))
      ensures Parses(sender, parse) && |recipients| > 0 && (forall i :: 0 <= i < |recipients| ==> Parses(recipients[i], parse)) ==>
                (r.Success? <==> forall i :: 0 <= i < |recipients| ==> !Faulty(ParsedRecipients(recipients, parse), i))
      ensures Parses(sender, parse) && |recipients| > 0 && (forall i :: 0 <= i < |recipients| ==> Parses(recipients[i], parse)) &&
              r.Failure? ==>
                exists i :: FirstFault(ParsedRecipients(recipients, parse), i) &&
                  r.error == FaultError(ParsedRecipients(recipients, parse), i)
      ensures r.Success? ==> Parses(sender, parse) && forall i :: 0 <= i < |recipients| ==> Parses(recipients[i], parse)
      ensures r.Success? ==> fresh(r.value) && r.value.Valid() && r.value.Fields() == Unset
      ensures r.Success? ==> r.value.senderAddress == ReadOnly(Internet(parse(Trim(sender.value)).value))
      ensures r.Success? ==> (|r.value.recipients| == |recipients| &&
                forall i :: 0 <= i < |recipients| ==>
                  r.value.recipients[i] == ReadOnly(Internet(parse(Trim(recipients[i].value)).value)))
    {
      var s := GetAddressOf(sender, parse);
      if s.Failure? {
        return Failure(s.error);
      }
      var parsed := GetRecipients(recipients, parse);
      if parsed.Failure? {
        return Failure(parsed.error);
      }
      assert AsRecipients(parsed.value) == ParsedRecipients(recipients, parse);
      r := Create(Some(Internet(s.value)), AsRecipients(parsed.value));
    }

    /**
     * `setSubject(subject)`: the fields change as Assign says, and nothing
     * changes when it throws; on success the builder returns itself.
     */
    method SetSubject(subject: Option<string>) returns (r: Result<MessageBuilder, Error>)
      modifies this
      ensures r.Success? <==> Assign(old(Fields()), Subject, subject).Success?
      ensures r.Success? ==> r.value == this && Fields() == Assign(old(Fields()), Subject, subject).value
      ensures r.Failure? ==> r.error == Assign(old(Fields()), Subject, subject).error && Fields() == old(Fields())
    {
      if this.subject.Some? {
        return Failure(IllegalState(AlreadySet("Subject")));
      }
      if subject.None? || IsBlank(subject.value) {
        return Failure(IllegalArgument(NullOrEmpty("subject")));
      }
      this.subject := Some(Trim(subject.value));
      return Success(this);
    }

    /** `setText(text)`: as setSubject, but the text is stored verbatim. */
    method SetText(text: Option<string>) returns (r: Result<MessageBuilder, Error>)
      modifies this
      ensures r.Success? <==> Assign(old(Fields()), Text, text).Success?
      ensures r.Success? ==> r.value == this && Fields() == Assign(old(Fields()), Text, text).value
      ensures r.Failure? ==> r.error == Assign(old(Fields()), Text, text).error && Fields() == old(Fields())
    {
      if this.text.Some? {
        return Failure(IllegalState(AlreadySet("Text")));
      }
      if text.None? || IsBlank(text.value) {
        return Failure(IllegalArgument(NullOrEmpty("text")));
      }
      this.text := text;
      return Success(this);
    }

    /** `setCharset(charset)`: as setText. */
    method SetCharset(charset: Option<string>) returns (r: Result<MessageBuilder, Error>)
      modifies this
      ensures r.Success? <==> Assign(old(Fields()), Charset, charset).Success?
      ensures r.Success? ==> r.value == this && Fields() == Assign(old(Fields()), Charset, charset).value
      ensures r.Failure? ==> r.error == Assign(old(Fields()), Charset, charset).error && Fields() == old(Fields())
    {
      if this.charset.Some? {
        return Failure(IllegalState(AlreadySet("Charset")));
      }
      if charset.None? || IsBlank(charset.value) {
        return Failure(IllegalArgument(NullOrEmpty("charset")));
      }
      this.charset := charset;
      return Success(this);
    }

    /** `setMimeSubtype(subtype)`: as setText. */
    method SetMimeSubtype(subtype: Option<string>) returns (r: Result<MessageBuilder, Error>)
      modifies this
      ensures r.Success? <==> Assign(old(Fields()), MimeSubtype, subtype).Success?
      ensures r.Success? ==> r.value == this && Fields() == Assign(old(Fields()), MimeSubtype, subtype).value
      ensures r.Failure? ==> r.error == Assign(old(Fields()), MimeSubtype, subtype).error && Fields() == old(Fields())
    {
      if this.mimeSubtype.Some? {
        return Failure(IllegalState(AlreadySet("MIME type")));
      }
      if subtype.None? || IsBlank(subtype.value) {
        return Failure(IllegalArgument(NullOrEmpty("subtype")));
      }
      this.mimeSubtype := subtype;
      return Success(this);
    }

    /**
     * `build()`: writes the defaults into the unset fields (`platformCharset`
     * is `Charset.defaultCharset().name()`), then returns the message of the
     * fixed sender and recipients and the now complete fields.
     */
    method Build(platformCharset: string) returns (m: Message)
      requires Valid()
      modifies this
      ensures Fields() == Filled(old(Fields()), platformCharset)
      ensures m == Compose(senderAddress, recipients, Fields())
      ensures m.senderAddress.ReadOnly? && |m.recipients| > 0 && DistinctKeys(m.recipients)
    {
      if subject.None? {
        subject := Some("");
      }
      if text.None? {
        text := Some("");
      }
      if charset.None? {
        charset := Some(platformCharset);
      }
      if mimeSubtype.None? {
        mimeSubtype := Some("plain");
      }
      m := Message(senderAddress, recipients, subject.value, text.value, charset.value, mimeSubtype.value);
    }
  }

  /**
   * Two builds in a row, from any state of the builder, then a setter: the
   * second message equals the first whatever the platform charset is by then,
   * and the setter fails with a state error.
   */
  method BuildTwiceIsFrozen(b: MessageBuilder, platformCharset: string, laterCharset: string, text: Option<string>)
    returns (first: Message, second: Message, again: Result<MessageBuilder, Error>)
    requires b.Valid()
    modifies b
    ensures first == second
    ensures Complete(b.Fields())
    ensures again == Failure(IllegalState(AlreadySet("Text")))
  {
    first := b.Build(platformCharset);
    BuildFreezes(old(b.Fields()), platformCharset, laterCharset, Text, text);
    second := b.Build(laterCharset);
    again := b.SetText(text);
  }
}
