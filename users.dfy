/**
 * The `CustomUser` model of the e-mail manager: the stored user row, its
 * display text and the parsing of its `IP:PORT` proxy address.
 */
module Users {
  import opened Wrappers
  import opened Text

  /**
   * How the password column was filled: hashed from a given text, or hashed
   * from 12 random letters and digits. The hash itself is not modelled.
   */
  datatype Password = GivenPassword(text: string) | GeneratedPassword | NoPassword

  /** The columns of a user row that the modelled code reads or writes. */
  datatype CustomUser = CustomUser(
    username: string,
    email: string,
    proxyAddress: Option<string>,
    isConnected: bool,
    isActiveProfile: bool,
    profileId: Option<string>,
    password: Password)

  /** How an f-string renders an optional text: `None` prints as "None". */
  function Shown(v: Option<string>): string {
    match v
    case None => "None"
    case Some(s) => s
  }

  /** `str(user)`: the username, a space, then the profile id in parentheses. */
  function Display(u: CustomUser): (r: string)
    ensures |r| == |u.username| + |Shown(u.profileId)| + 3
    ensures r[..|u.username|] == u.username
    ensures r[|u.username|..|u.username| + 2] == " ("
    ensures r[|u.username| + 2..|r| - 1] == Shown(u.profileId)
    ensures r[|r| - 1] == ')'
    ensures u.profileId == None ==> r[|u.username| + 2..|r| - 1] == "None"
  {
    u.username + " (" + Shown(u.profileId) + ")"
  }

  /** Two users with the same username display alike exactly when their profile ids show alike. */
  lemma DisplaySeparatesProfiles(a: CustomUser, b: CustomUser)
    requires a.username == b.username
    ensures Display(a) == Display(b) <==> Shown(a.profileId) == Shown(b.profileId)
  {
    if Display(a) == Display(b) {
      var n := |a.username| + 2;
      assert Shown(a.profileId) == Display(a)[n..|Display(a)| - 1];
    }
  }

  /** The `{'ip': ..., 'port': ...}` dictionary of `get_proxy_config`. */
  datatype ProxyConfig = ProxyConfig(ip: string, port: int)

  /** The `ValueError`s of `get_proxy_config`. */
  datatype ConfigError =
    | WrongFieldCount(fields: nat)  // unpacking `split(':')` into two names
    | PortNotInteger(port: string)  // `int(port)`

  /**
   * `user.get_proxy_config()`: no configuration for an absent or empty
   * address; otherwise the address must split at `:` into exactly two
   * fields, the second an integer as `int()` reads it.
   */
  function ProxyConfigOf(address: Option<string>): (r: Result<Option<ProxyConfig>, ConfigError>)
    ensures r == Ok(None) <==> address == None || address == Some("")
    ensures r.Err? && r.error.WrongFieldCount? <==>
      address.Some? && address.value != "" && Count(address.value, ':') != 1
    ensures r.Err? && r.error.PortNotInteger? <==>
      address.Some? && address.value != "" && |Split(address.value, ':')| == 2
      && ParseInt(Split(address.value, ':')[1]) == None
    ensures r.Ok? && r.value.Some? ==> ':' !in r.value.value.ip
  {
    match address
    case None => Ok(None)
    case Some(a) =>
      if a == "" then Ok(None)
      else
        var parts := Split(a, ':');
        SplitJoin(a, ':');
        if |parts| != 2 then Err(WrongFieldCount(|parts|))
        else
          match ParseInt(parts[1])
          case None => Err(PortNotInteger(parts[1]))
          case Some(p) => Ok(Some(ProxyConfig(parts[0], p)))
  }

  /**
   * A parsed configuration reads the address back: the ip, a colon, and a
   * colon-free port text that `int()` turns into the port.
   */
  lemma ProxyConfigSound(a: string, c: ProxyConfig)
    requires ProxyConfigOf(Some(a)) == Ok(Some(c))
    ensures |c.ip| < |a| && a == c.ip + ":" + a[|c.ip| + 1..]
    ensures ':' !in a[|c.ip| + 1..] && ParseInt(a[|c.ip| + 1..]) == Some(c.port)
  {
    var parts := Split(a, ':');
    SplitJoin(a, ':');
    assert |parts| == 2;
    assert Join(parts[1..], ':') == parts[1];
    assert a == parts[0] + [':'] + parts[1];
    assert a[|c.ip| + 1..] == parts[1];
  }

  /** Formatting `f"{ip}:{port}"` for a colon-free ip and parsing it back gives the same pair. */
  lemma ProxyConfigRoundTrip(ip: string, port: int)
    requires ':' !in ip
    ensures ProxyConfigOf(Some(ip + ":" + IntToString(port))) == Ok(Some(ProxyConfig(ip, port)))
  {
    var t := IntToString(port);
    IntToStringChars(port);
    SplitPair(ip, ':', t);
    assert ip + ":" + t == ip + [':'] + t;
    ParseIntToString(port);
  }
}
