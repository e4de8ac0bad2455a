# smtp-sender message composition, modelled in Dafny

This project models the part of the `com.agapsys.mail` library that composes
e-mail messages, and proves what it promises:

- **MessageBuilder** (`builder.dfy`, module `Builder`): a builder that wraps the
  sender and recipients as read-only addresses at construction. It refuses a
  null sender, an empty list, a null recipient and a duplicate recipient, and
  keeps recipients in insertion order. The string constructor checks and parses
  every address first. Four set-once fields (subject, text, charset, MIME
  subtype) go from unset (null) to set. `build()` writes defaults into the
  unset fields and returns a `Message`. The set-once discipline is a pure
  specification (`Draft`, `Assign`, `Run`, `Filled`) plus lemmas about it;
  the class `MessageBuilder` implements each Java method in the Java way
  and proves it matches that specification. The recipient loops of the
  constructors are methods with loop invariants.
- **SmtpSettings** (`settings.dfy`, module `Settings`): a class over a
  `java.util.Properties` table, written as a `map` that each validating setter
  reassigns. Each getter is a function of the table with its default for an
  absent key. Every setter proves that its getter reads back what it stored.
- **Message** (`message.dfy`, module `Messages`): the immutable record and its
  derived MIME type `"text/" + subtype`. Each Java getter is the datatype field
  of the same name.
- **ReadOnlyInternetAddress** (`addresses.dfy`, module `Addresses`): a wrapper
  whose mutators always throw and whose readers, `equals` and `hashCode`
  delegate to the wrapped address. javax.mail's `InternetAddress` is an
  opaque value. It records what each reader returns and an abstract equality
  key (the address part, compared without regard to case). Mailbox parsing
  per RFC 822 section 6 is a function parameter `parse` that may fail.

Supporting modules: `Wrappers` (Option/Result/Outcome for null and thrown
exceptions), `Errors` (the exception kinds, each with the reason its message
names) and `JavaLang` (Java's 32-bit `int`, `String.trim()`, `isEmpty()`,
and `toUpperCase()`/`toLowerCase()` on ASCII letters).

The model follows the code as written, in particular:

- Only the subject is trimmed. `setText`, `setCharset` and `setMimeSubtype`
  store their argument as given.
- `SmtpSettings` has no built-in defaults such as "localhost" or port 25. An
  absent server reads as "", an absent port as -1, and an absent username,
  password or security type as null.
- The properties constructor validates nothing. It only refuses null.
- `setUsername`/`setPassword` refuse "" as well as null.
- No accessor of `SmtpSettings` is synchronized.
- The wrapper keeps a reference to the caller's own `InternetAddress`. It
  blocks mutation only through the wrapper itself, not through a reference
  the caller kept (see "Left out").

## Model

| member | source | states |
|---|---|---|
| `Addresses.Wrap` | src/main/java/com/agapsys/mail/ReadOnlyInternetAddress.java:26-31 | wrapping null fails with IllegalArgument; otherwise the result is a read-only wrapper of exactly that address, with the same underlying library address |
| `Addresses.SetPersonal` | src/main/java/com/agapsys/mail/ReadOnlyInternetAddress.java:38-41 | on a read-only address, `setPersonal(name)` fails with UnsupportedOperation for every argument and leaves no changed address behind |
| `Addresses.SetPersonalWithCharset` | src/main/java/com/agapsys/mail/ReadOnlyInternetAddress.java:43-46 | `setPersonal(name, charset)` on a read-only address always fails with UnsupportedOperation |
| `Addresses.SetAddress` | src/main/java/com/agapsys/mail/ReadOnlyInternetAddress.java:48-51 | `setAddress(address)` on a read-only address always fails with UnsupportedOperation |
| `Addresses.GetPersonal` | src/main/java/com/agapsys/mail/ReadOnlyInternetAddress.java:89-92 | delegation through any depth of wrappers returns the personal name of the library address underneath |
| `Addresses.GetAddress` | src/main/java/com/agapsys/mail/ReadOnlyInternetAddress.java:94-97 | returns the address part of the library address underneath, however deeply wrapped |
| `Addresses.GetType` | src/main/java/com/agapsys/mail/ReadOnlyInternetAddress.java:99-102 | returns the type of the library address underneath |
| `Addresses.ToString` | src/main/java/com/agapsys/mail/ReadOnlyInternetAddress.java:84-87 | returns the string form of the library address underneath |
| `Addresses.ToUnicodeString` | src/main/java/com/agapsys/mail/ReadOnlyInternetAddress.java:79-82 | returns the Unicode string form of the library address underneath |
| `Addresses.HashCode` | src/main/java/com/agapsys/mail/ReadOnlyInternetAddress.java:69-72 | returns the hash of the library address underneath |
| `Addresses.Equals` | src/main/java/com/agapsys/mail/ReadOnlyInternetAddress.java:74-77 | true exactly when the other object is a non-null address, wrapped or not, whose equality key is that of this address |
| `Addresses.WrapperDelegates` | src/main/java/com/agapsys/mail/ReadOnlyInternetAddress.java:69-102 | every reader of a wrapper returns what the wrapped address returns; the wrapper and the wrapped address are equal both ways and have the same hash |
| `Addresses.EqualsIsKeyEquality` | src/main/java/com/agapsys/mail/ReadOnlyInternetAddress.java:74-77 | equality is reflexive, symmetric and transitive, coincides with equal keys, and never holds for null |
| `Messages.GetMime` | src/main/java/com/agapsys/mail/Message.java:72-74 | the MIME type is the prefix "text/" followed by exactly the subtype |
| `Messages.MimeDeterminesSubtype` | src/main/java/com/agapsys/mail/Message.java:72-74 | two messages have the same MIME type iff they have the same subtype; dropping the prefix gives the subtype back |
| `Builder.Assign` | src/main/java/com/agapsys/mail/MessageBuilder.java:83-125 | a setter succeeds iff its field is unset and the argument is non-null and not blank after trimming. A set field fails with IllegalState before the argument is examined, even for null. Null or blank fails with IllegalArgument. Success sets only that field, the subject trimmed and the others verbatim, and the stored value is never blank |
| `Builder.SetFieldStaysSet` | src/main/java/com/agapsys/mail/MessageBuilder.java:83-125 | after any script of setter calls (rejected ones caught), a field that was set keeps its value, and setting it again fails with IllegalState |
| `Builder.Filled` | src/main/java/com/agapsys/mail/MessageBuilder.java:127-138 | after `build()` all four fields are set; fields already set keep their value; unset ones become "", "", the platform charset and "plain" |
| `Builder.BuildFreezes` | src/main/java/com/agapsys/mail/MessageBuilder.java:127-140 | a second build gives identical fields whatever the platform charset is then, and every setter after a build fails with IllegalState |
| `Builder.DefaultMimeIsPlain` | src/main/java/com/agapsys/mail/MessageBuilder.java:137-140 | a message built with no `setMimeSubtype` call has MIME type "text/plain" |
| `Builder.BuildUnsetGivesDefaults` | src/main/java/com/agapsys/mail/MessageBuilder.java:127-140 | building a fresh builder gives subject "", text "", the platform charset, subtype "plain", and the sender and recipients passed through |
| `Builder.Contains` | src/main/java/com/agapsys/mail/MessageBuilder.java:72 | the recipient set contains an address iff some element has the same equality key |
| `Builder.FirstFaultUnique` | src/main/java/com/agapsys/mail/MessageBuilder.java:69-76 | the first refused recipient is unique, so the exception a recipient list raises is determined |
| `Builder.AdmitRecipients` | src/main/java/com/agapsys/mail/MessageBuilder.java:66-76 | an empty list fails with IllegalArgument. Otherwise the lists that succeed are exactly those with no null and no recipient equal to an earlier one. The result is the inputs wrapped read-only, in input order, with distinct keys. A failure reports the first null (wrapper error) or the first duplicate |
| `Builder.GetAddressOf` | src/main/java/com/agapsys/mail/MessageBuilder.java:46-51 | null or blank fails with AddressException before parsing; otherwise the result is the parse of the trimmed text, or AddressException when that does not parse |
| `Builder.GetRecipients` | src/main/java/com/agapsys/mail/MessageBuilder.java:30-44 | succeeds iff every string is non-null, non-blank and parses after trimming; then the result holds the parsed addresses in order. Otherwise it fails at the first bad index, with "Null/Empty address at index i" or the parse error |
| `Builder.MessageBuilder.Create` | src/main/java/com/agapsys/mail/MessageBuilder.java:63-77 | a null sender fails with IllegalArgument before the recipients are examined. After that, construction succeeds exactly as AdmitRecipients admits the list. A new builder has a read-only sender, the recipients wrapped in order, and nothing set |
| `Builder.MessageBuilder.CreateFromStrings` | src/main/java/com/agapsys/mail/MessageBuilder.java:79-81 | the sender string is checked and parsed first. Then the recipient strings are checked, and the first bad index raises exactly the error GetRecipients reports. An empty list fails with IllegalArgument. Once every string parses, construction succeeds iff no parsed recipient equals an earlier one; otherwise the first duplicate's error is raised. On success the builder holds the parsed trimmed addresses, wrapped, in order |
| `Builder.MessageBuilder.SetSubject` | src/main/java/com/agapsys/mail/MessageBuilder.java:83-92 | the fields change exactly as Assign says for the subject; on an exception nothing changes; on success the builder returns itself |
| `Builder.MessageBuilder.SetText` | src/main/java/com/agapsys/mail/MessageBuilder.java:94-103 | as SetSubject for the text field, stored verbatim |
| `Builder.MessageBuilder.SetCharset` | src/main/java/com/agapsys/mail/MessageBuilder.java:105-114 | as SetSubject for the charset field, stored verbatim |
| `Builder.MessageBuilder.SetMimeSubtype` | src/main/java/com/agapsys/mail/MessageBuilder.java:116-125 | as SetSubject for the MIME subtype field, stored verbatim |
| `Builder.MessageBuilder.Build` | src/main/java/com/agapsys/mail/MessageBuilder.java:127-141 | the builder's fields become Filled of the old ones. The message carries the fixed sender and recipients and the now complete fields. Its recipients are non-empty and pairwise unequal, and its sender is read-only |
| `Builder.BuildTwiceIsFrozen` | src/main/java/com/agapsys/mail/MessageBuilder.java:127-141 | from any builder state, two builds return equal messages, all fields are then set, and a later `setText` fails with IllegalState |
| `Settings.Name` | src/main/java/com/agapsys/mail/SmtpSettings.java:100 | an enum name is non-empty, has no lower-case letters and no surrounding blanks |
| `Settings.ValueOf` | src/main/java/com/agapsys/mail/SmtpSettings.java:94 | `valueOf` returns the constant whose name is exactly the text, and fails with IllegalArgument only when no constant has that name |
| `Settings.StoredNameReadsBack` | src/main/java/com/agapsys/mail/SmtpSettings.java:88-101 | the lower-case name that `setSecurityType` stores, once trimmed and upper-cased by `getSecutiryType`, is read back as the same constant |
| `Settings.SmtpSettings.constructor` | src/main/java/com/agapsys/mail/SmtpSettings.java:37-39 | the no-argument constructor starts from an empty table |
| `Settings.SmtpSettings.WithProperties` | src/main/java/com/agapsys/mail/SmtpSettings.java:41-46 | a null table fails with IllegalArgument; any other table is taken as it is, without validation |
| `Settings.SmtpSettings.GetServer` | src/main/java/com/agapsys/mail/SmtpSettings.java:48-50 | the server read is always trimmed; it is "" when no server string is stored, else the stored string trimmed |
| `Settings.SmtpSettings.SetMailServer` | src/main/java/com/agapsys/mail/SmtpSettings.java:51-56 | fails with IllegalArgument iff null or blank, leaving the table unchanged. Otherwise only the server key changes, to the trimmed value, and `getServer` reads that value back. It is non-empty |
| `Settings.SmtpSettings.GetPort` | src/main/java/com/agapsys/mail/SmtpSettings.java:58-60 | -1 when no port is stored; the stored Integer otherwise; a ClassCast failure for a stored String |
| `Settings.SmtpSettings.SetPort` | src/main/java/com/agapsys/mail/SmtpSettings.java:61-66 | accepts exactly 0..65536 inclusive. Otherwise it fails with IllegalArgument and the table is unchanged. On success only the port key changes, and `getPort` returns the port |
| `Settings.SmtpSettings.GetUsername` | src/main/java/com/agapsys/mail/SmtpSettings.java:68-70 | null exactly when no username string is stored, else the stored string |
| `Settings.SmtpSettings.SetUsername` | src/main/java/com/agapsys/mail/SmtpSettings.java:71-76 | fails iff null or "" (a blank like " " is accepted); on success only the username key changes and `getUsername` returns the argument verbatim |
| `Settings.SmtpSettings.GetPassword` | src/main/java/com/agapsys/mail/SmtpSettings.java:78-80 | null exactly when no password string is stored, else the stored string |
| `Settings.SmtpSettings.SetPassword` | src/main/java/com/agapsys/mail/SmtpSettings.java:81-86 | fails iff null or ""; on success only the password key changes and `getPassword` returns the argument verbatim |
| `Settings.SmtpSettings.GetSecutiryType` | src/main/java/com/agapsys/mail/SmtpSettings.java:88-95 | null when no security string is stored. A stored string gives a constant iff the string trimmed and upper-cased names one, and then exactly that constant (never null). Otherwise it fails with IllegalArgument naming that text |
| `Settings.SmtpSettings.SetSecurityType` | src/main/java/com/agapsys/mail/SmtpSettings.java:96-101 | fails with IllegalArgument iff null, leaving the table unchanged. On success only the security key changes, to the lower-case name, and `getSecutiryType` returns the same constant |

## Left out

- SmtpSender.java is not part of this model. It builds a javax.mail session and sends over the network.
- `Message.getMimeMessage`: the MIME encoding is done by javax.mail.
- InternetAddress parsing and equality belong to javax.mail. Parsing is the parameter `parse`. Equality compares an abstract key, and the hash is an opaque field. The model takes the library's hash to agree with its equality. So `LinkedHashSet.contains` is modelled as "some element has the same key".
- `getGroup`, `isGroup`, `validate` and `clone` on the wrapper are left out. They only delegate into javax.mail.
- `Charset.defaultCharset()` is platform state. `Build` receives its name as the parameter `platformCharset`.
- Aliasing is not modelled: addresses, messages and property tables are values here. In the source, the wrapper holds the caller's own mutable `InternetAddress`. `SmtpSettings` holds the caller's own `Properties` object. A `Message` sees the builder's recipient set through an unmodifiable view. Changes made through references a caller kept are not captured.
- A null varargs array, which throws NullPointerException, is not modelled. Recipient lists are sequences.
- `Properties` defaults chains, values other than String and Integer, and the package-private `getProperties()` are left out.
- `toUpperCase`/`toLowerCase` map ASCII letters only. Locale rules and non-ASCII letters are left out; enum names are ASCII.
- Exception messages are modelled as `Reason` values, not as the formatted text.
- `SecurityType` is modelled as the three constants NONE, SSL and TLS, with no behaviour.
- `SmtpSettingsTest.java` is written against a different SmtpSettings API (`setServer`, `isAuthenticationEnabled`, `DEFAULT_*`, validation of loaded properties). Those expectations are not modelled; the model follows the settings source as written.
