/**
 * Mail addresses: javax.mail's InternetAddress as an opaque value, and the
 * library's ReadOnlyInternetAddress, a wrapper whose readers delegate to the
 * wrapped address and whose mutators always throw.
 */
module Addresses {
  import opened Wrappers
  import opened Errors
  import opened JavaLang

  /**
   * An InternetAddress as javax.mail hands it over: what each of its readers
   * returns, and `key`, the value its `equals` compares (the address part,
   * compared without regard to case).
   */
  datatype InternetAddress = InternetAddress(
    personal: Option<string>,
    address: Option<string>,
    kind: string,
    text: string,
    unicodeText: string,
    hash: int32,
    key: string)

  /**
   * A value of Java's static type InternetAddress: either a plain library
   * address or a ReadOnlyInternetAddress around another one.
   */
  datatype Address = Internet(ia: InternetAddress) | ReadOnly(wrapped: Address)

  /** The library address at the bottom of a chain of wrappers. */
  function Base(a: Address): InternetAddress {
    match a
    case Internet(ia) => ia
    case ReadOnly(w) => Base(w)
  }

  /** `new ReadOnlyInternetAddress(wrappedInstance)`. */
  function Wrap(wrappedInstance: Option<Address>): (r: Result<Address, Error>)
    ensures r.Success? <==> wrappedInstance.Some?
    ensures wrappedInstance.None? ==> r == Failure(IllegalArgument(NullWrapped))
    ensures r.Success? ==> r.value.ReadOnly? && r.value.wrapped == wrappedInstance.value
    ensures r.Success? ==> Base(r.value) == Base(wrappedInstance.value)
  {
    match wrappedInstance
    case None => Failure(IllegalArgument(NullWrapped))
    case Some(a) => Success(ReadOnly(a))
  }

  // Blocked mutators. Each returns the address the call leaves behind or the
  // exception it throws; on a read-only address there is never a successor.

  /** `setPersonal(name)` on a ReadOnlyInternetAddress. */
  function SetPersonal(a: Address, name: Option<string>): (r: Result<Address, Error>)
    requires a.ReadOnly?
    ensures r == Failure(UnsupportedOperation)
  {
    Failure(UnsupportedOperation)
  }

  /** `setPersonal(name, charset)` on a ReadOnlyInternetAddress. */
  function SetPersonalWithCharset(a: Address, name: Option<string>, charset: Option<string>): (r: Result<Address, Error>)
    requires a.ReadOnly?
    ensures r == Failure(UnsupportedOperation)
  {
    Failure(UnsupportedOperation)
  }

  /** `setAddress(address)` on a ReadOnlyInternetAddress. */
  function SetAddress(a: Address, address: Option<string>): (r: Result<Address, Error>)
    requires a.ReadOnly?
    ensures r == Failure(UnsupportedOperation)
  {
    Failure(UnsupportedOperation)
  }

  // Readers. A wrapper answers by asking the address it wraps, one level at a
  // time; each contract states where the answer finally comes from.

  /** `getPersonal()`. */
  function GetPersonal(a: Address): (r: Option<string>)
    ensures r == Base(a).personal
  {
    match a
    case Internet(ia) => ia.personal
    case ReadOnly(w) => GetPersonal(w)
  }

  /** `getAddress()`. */
  function GetAddress(a: Address): (r: Option<string>)
    ensures r == Base(a).address
  {
    match a
    case Internet(ia) => ia.address
    case ReadOnly(w) => GetAddress(w)
  }

  /** `getType()`. */
  function GetType(a: Address): (r: string)
    ensures r == Base(a).kind
  {
    match a
    case Internet(ia) => ia.kind
    case ReadOnly(w) => GetType(w)
  }

  /** `toString()`. */
  function ToString(a: Address): (r: string)
    ensures r == Base(a).text
  {
    match a
    case Internet(ia) => ia.text
    case ReadOnly(w) => ToString(w)
  }

  /** `toUnicodeString()`. */
  function ToUnicodeString(a: Address): (r: string)
    ensures r == Base(a).unicodeText
  {
    match a
    case Internet(ia) => ia.unicodeText
    case ReadOnly(w) => ToUnicodeString(w)
  }

  /** `hashCode()`. */
  function HashCode(a: Address): (r: int32)
    ensures r == Base(a).hash
  {
    match a
    case Internet(ia) => ia.hash
    case ReadOnly(w) => HashCode(w)
  }

  /** The equality key the library reads from `a` through `getAddress()`. */
  function Key(a: Address): (r: string)
    ensures r == Base(a).key
  {
    match a
    case Internet(ia) => ia.key
    case ReadOnly(w) => Key(w)
  }

  /**
   * `a.equals(o)`: a wrapper asks the address it wraps; a library address
   * accepts any InternetAddress (wrappers included) with the same key, and
   * never null.
   */
  function Equals(a: Address, o: Option<Address>): (r: bool)
    ensures r <==> o.Some? && Base(o.value).key == Base(a).key
  {
    match a
    case Internet(ia) => o.Some? && Key(o.value) == ia.key
    case ReadOnly(w) => Equals(w, o)
  }

  /** Every reader of a wrapper returns what the wrapped address returns, and wrapper and wrapped are equal both ways. */
  lemma WrapperDelegates(w: Address)
    ensures GetPersonal(ReadOnly(w)) == GetPersonal(w)
    ensures GetAddress(ReadOnly(w)) == GetAddress(w)
    ensures GetType(ReadOnly(w)) == GetType(w)
    ensures ToString(ReadOnly(w)) == ToString(w)
    ensures ToUnicodeString(ReadOnly(w)) == ToUnicodeString(w)
    ensures HashCode(ReadOnly(w)) == HashCode(w)
    ensures Equals(ReadOnly(w), Some(w)) && Equals(w, Some(ReadOnly(w)))
    ensures forall o :: Equals(ReadOnly(w), o) == Equals(w, o)
  {
  }

  /** `equals` is an equivalence on addresses and agrees with the key, however deeply wrapped. */
  lemma EqualsIsKeyEquality(a: Address, b: Address, c: Address)
    ensures Equals(a, Some(a))
    ensures Equals(a, Some(b)) <==> Key(a) == Key(b)
    ensures Equals(a, Some(b)) ==> Equals(b, Some(a))
    ensures Equals(a, Some(b)) && Equals(b, Some(c)) ==> Equals(a, Some(c))
    ensures !Equals(a, None)
  {
  }
}
