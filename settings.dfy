/**
 * SmtpSettings: SMTP connection settings kept in a java.util.Properties
 * table, with validating setters and getters that fall back to a default
 * when a key is absent.
 */
module Settings {
  import opened Wrappers
  import opened Errors
  import opened JavaLang

  const KeyServer: string := "com.agapsys.mail.server"
  const KeyUsername: string := "com.agapsys.mail.username"
  const KeyPassword: string := "com.agapsys.mail.password"
  const KeySecurity: string := "com.agapsys.mail.security"
  const KeyPort: string := "com.agapsys.mail.port"

  /** The transport security of the connection. */
  datatype SecurityType = NONE | SSL | TLS

  /** `name()` of the enum constant. */
  function Name(t: SecurityType): (r: string)
    ensures r != [] && HasNoLowerCase(r) && IsTrimmed(r)
  {
    match t
    case NONE => "NONE"
    case SSL => "SSL"
    case TLS => "TLS"
  }

  /** `SecurityType.valueOf(name)`: the constant of exactly that name, else an argument error. */
  function ValueOf(name: string): (r: Result<SecurityType, Error>)
    ensures r.Success? ==> Name(r.value) == name
    ensures r.Failure? ==> r.error == IllegalArgument(NoEnumConstant(name)) && forall t :: Name(t) != name
  {
    if name == "NONE" then Success(NONE)
    else if name == "SSL" then Success(SSL)
    else if name == "TLS" then Success(TLS)
    else Failure(IllegalArgument(NoEnumConstant(name)))
  }

  /** What `setSecurityType` stores reads back through `getSecutiryType` as the same constant. */
  lemma StoredNameReadsBack(t: SecurityType)
    ensures ValueOf(ToUpperCase(Trim(ToLowerCase(Name(t))))) == Success(t)
  {
    var lower := ToLowerCase(Name(t));
    assert IsTrimmed(lower);
    UpperOfLower(Name(t));
    assert ToUpperCase(Trim(lower)) == Name(t);
  }

  /** A value in the Properties table: a String, or an Integer put there by `setPort`. */
  datatype Value = Text(s: string) | Number(n: int32)

  /** java.util.Properties, its defaults chain left empty. */
  type Properties = map<string, Value>

  /** `properties.getProperty(key, defaultValue)`: a value that is not a String counts as absent. */
  function GetProperty(properties: Properties, key: string, defaultValue: Option<string>): (r: Option<string>)
    ensures key in properties && properties[key].Text? ==> r == Some(properties[key].s)
    ensures !(key in properties && properties[key].Text?) ==> r == defaultValue
  {
    if key in properties && properties[key].Text? then Some(properties[key].s) else defaultValue
  }

  /** The port range `setPort` accepts. */
  predicate ValidPort(port: int) {
    0 <= port <= 65536
  }

  class SmtpSettings {
    var properties: Properties

    /** `new SmtpSettings()`: an empty table. */
    constructor()
      ensures properties == map[]
    {
      properties := map[];
    }

    constructor Init(properties: Properties)
      ensures this.properties == properties
    {
      this.properties := properties;
    }

    /** `new SmtpSettings(properties)`: null is an argument error; any table is taken as it is. */
    static method WithProperties(properties: Option<Properties>) returns (r: Result<SmtpSettings, Error>)
      ensures properties.None? ==> r == Failure(IllegalArgument(NullProperties))
      ensures properties.Some? ==> r.Success? && fresh(r.value) && r.value.properties == properties.value
    {
      if properties.None? {
        return Failure(IllegalArgument(NullProperties));
      }
      var s := new SmtpSettings.Init(properties.value);
      return Success(s);
    }

    /** `getServer()`: the stored server, trimmed, or "" when there is none. */
    function GetServer(): (r: string)
      reads this
      ensures IsTrimmed(r)
      ensures !(KeyServer in properties && properties[KeyServer].Text?) ==> r == ""
      ensures KeyServer in properties && properties[KeyServer].Text? ==> r == Trim(properties[KeyServer].s)
    {
      Trim(GetProperty(properties, KeyServer, Some("")).value)
    }

    /** `setMailServer(mailServer)`: null or blank is refused; otherwise the trimmed server is stored. */
    method SetMailServer(mailServer: Option<string>) returns (r: Outcome<Error>)
      modifies this
      ensures r.Fail? <==> mailServer.None? || IsBlank(mailServer.value)
      ensures r.Fail? ==> r.error == IllegalArgument(NullOrEmpty("mail server")) && properties == old(properties)
      ensures r.Pass? ==> properties == old(properties)[KeyServer := Text(Trim(mailServer.value))]
      ensures r.Pass? ==> GetServer() == Trim(mailServer.value) && GetServer() != ""
    {
      if mailServer.None? || IsBlank(mailServer.value) {
        return Fail(IllegalArgument(NullOrEmpty("mail server")));
      }
      properties := properties[KeyServer := Text(Trim(mailServer.value))];
      return Pass;
    }

    /** `getPort()`: the stored Integer, -1 when absent; the cast fails on any other value. */
    function GetPort(): (r: Result<int32, Error>)
      reads this
      ensures KeyPort !in properties ==> r == Success(-1 as int32)
      ensures KeyPort in properties ==> (r.Success? <==> properties[KeyPort].Number?)
      ensures KeyPort in properties && r.Success? ==> r.value == properties[KeyPort].n
      ensures r.Failure? ==> r.error == ClassCast
    {
      if KeyPort !in properties then Success(-1 as int32)
      else match properties[KeyPort]
        case Number(n) => Success(n)
        case Text(_) => Failure(ClassCast)
    }

    /** `setPort(port)`: exactly 0..65536 is accepted and stored as an Integer. */
    method SetPort(port: int32) returns (r: Outcome<Error>)
      modifies this
      ensures r.Pass? <==> ValidPort(port as int)
      ensures r.Fail? ==> r.error == IllegalArgument(InvalidPort(port as int)) && properties == old(properties)
      ensures r.Pass? ==> properties == old(properties)[KeyPort := Number(port)]
      ensures r.Pass? ==> GetPort() == Success(port)
    {
      if port < 0 || port > 65536 {
        return Fail(IllegalArgument(InvalidPort(port as int)));
      }
      properties := properties[KeyPort := Number(port)];
      return Pass;
    }

    /** `getUsername()`: the stored username, or null. */
    function GetUsername(): (r: Option<string>)
      reads this
      ensures r.Some? <==> KeyUsername in properties && properties[KeyUsername].Text?
      ensures r.Some? ==> r.value == properties[KeyUsername].s
    {
      GetProperty(properties, KeyUsername, None)
    }

    /** `setUsername(username)`: null or "" is refused; anything else, blanks included, is stored verbatim. */
    method SetUsername(username: Option<string>) returns (r: Outcome<Error>)
      modifies this
      ensures r.Fail? <==> username.None? || username.value == ""
      ensures r.Fail? ==> r.error == IllegalArgument(NullOrEmpty("username")) && properties == old(properties)
      ensures r.Pass? ==> properties == old(properties)[KeyUsername := Text(username.value)]
      ensures r.Pass? ==> GetUsername() == username
    {
      if username.None? || |username.value| == 0 {
        return Fail(IllegalArgument(NullOrEmpty("username")));
      }
      properties := properties[KeyUsername := Text(username.value)];
      return Pass;
    }

    /** `getPassword()`: the stored password, or null. */
    function GetPassword(): (r: Option<string>)
      reads this
      ensures r.Some? <==> KeyPassword in properties && properties[KeyPassword].Text?
      ensures r.Some? ==> r.value == properties[KeyPassword].s
    {
      GetProperty(properties, KeyPassword, None)
    }

    /** `setPassword(password)`: as setUsername. */
    method SetPassword(password: Option<string>) returns (r: Outcome<Error>)
      modifies this
      ensures r.Fail? <==> password.None? || password.value == ""
      ensures r.Fail? ==> r.error == IllegalArgument(NullOrEmpty("password")) && properties == old(properties)
      ensures r.Pass? ==> properties == old(properties)[KeyPassword := Text(password.value)]
      ensures r.Pass? ==> GetPassword() == password
    {
      if password.None? || |password.value| == 0 {
        return Fail(IllegalArgument(NullOrEmpty("password")));
      }
      properties := properties[KeyPassword := Text(password.value)];
      return Pass;
    }

    /**
     * `getSecutiryType()`: null when nothing is stored; otherwise the
     * constant named by the stored text trimmed and upper-cased, and an
     * argument error when there is no such constant.
     */
    function GetSecutiryType(): (r: Result<Option<SecurityType>, Error>)
      reads this
      ensures !(KeySecurity in properties && properties[KeySecurity].Text?) ==> r == Success(None)
      ensures r.Success? && r.value.Some? ==>
                KeySecurity in properties && properties[KeySecurity].Text? &&
                Name(r.value.value) == ToUpperCase(Trim(properties[KeySecurity].s))
      ensures KeySecurity in properties && properties[KeySecurity].Text? ==>
                (r.Success? <==> exists t :: Name(t) == ToUpperCase(Trim(properties[KeySecurity].s))) &&
                (r.Success? ==> r.value.Some?)
      ensures r.Failure? ==>
                KeySecurity in properties && properties[KeySecurity].Text? &&
                r.error == IllegalArgument(NoEnumConstant(ToUpperCase(Trim(properties[KeySecurity].s))))
    {
      match GetProperty(properties, KeySecurity, None)
      case None => Success(None)
      case Some(val) =>
        match ValueOf(ToUpperCase(Trim(val)))
        case Success(t) => Success(Some(t))
        case Failure(e) => Failure(e)
    }

    /** `setSecurityType(secutiryType)`: null is refused; otherwise the lower-case name is stored. */
    method SetSecurityType(secutiryType: Option<SecurityType>) returns (r: Outcome<Error>)
      modifies this
      ensures r.Fail? <==> secutiryType.None?
      ensures r.Fail? ==> r.error == IllegalArgument(NullSecurityType) && properties == old(properties)
      ensures r.Pass? ==> properties == old(properties)[KeySecurity := Text(ToLowerCase(Name(secutiryType.value)))]
      ensures r.Pass? ==> GetSecutiryType() == Success(secutiryType)
    {
      if secutiryType.None? {
        return Fail(IllegalArgument(NullSecurityType));
      }
      properties := properties[KeySecurity := Text(ToLowerCase(Name(secutiryType.value)))];
      StoredNameReadsBack(secutiryType.value);
      return Pass;
    }
  }
}
