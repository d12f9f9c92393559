/**
 An optional value, standing for a Python argument that may be None.
 */
module Options {

  datatype Option<+T> = None | Some(value: T)
}

/**
 The connection string that MongoExport assembles from its optional
 host, port, user and password arguments:

     mongodb://[user:password@]host:port

 Python tests the arguments for truthiness (`or`, `not`), so an absent
 value and an empty one (the empty string, the port 0) are treated alike.
 */
module MongoUri {

  import opened Options

  const DefaultHost: string := "localhost"
  const DefaultPort: int := 27019
  const Scheme: string := "mongodb://"

  /** Python truthiness of an optional string: None and "" are false. */
  predicate Truthy(s: Option<string>) {
    s.Some? && s.value != ""
  }

  /** Python truthiness of an optional int: None and 0 are false. */
  predicate PortGiven(p: Option<int>) {
    p.Some? && p.value != 0
  }

  /** What an f-string renders for an optional string: None becomes the text "None". */
  function Show(s: Option<string>): string {
    match s
    case None => "None"
    case Some(v) => v
  }

  predicate EndsWith(s: string, suffix: string) {
    |suffix| <= |s| && s[|s| - |suffix|..] == suffix
  }

  /** Number of occurrences of `c` in `s`. */
  function Count(c: char, s: string): nat {
    if s == [] then 0 else (if s[0] == c then 1 else 0) + Count(c, s[1..])
  }

  // ---------------------------------------------------------------------
  // Defaults
  // ---------------------------------------------------------------------

  /** A given, non-empty host is used as it is; otherwise "localhost". */
  function HostOrDefault(host: Option<string>): (h: string)
    ensures h != ""
    ensures Truthy(host) ==> h == host.value
    ensures !Truthy(host) ==> h == DefaultHost
  {
    if Truthy(host) then host.value else DefaultHost
  }

  /** A given, non-zero port is used as it is; otherwise 27019. */
  function PortOrDefault(port: Option<int>): (p: int)
    ensures p != 0
    ensures PortGiven(port) ==> p == port.value
    ensures !PortGiven(port) ==> p == DefaultPort
  {
    if PortGiven(port) then port.value else DefaultPort
  }

  // ---------------------------------------------------------------------
  // Credentials segment
  // ---------------------------------------------------------------------

  /**
   The `user:password@` segment, left out when neither user nor password is
   truthy. Neither side is escaped, and a side that is None is rendered as
   the text "None".
   */
  function Credentials(user: Option<string>, password: Option<string>): (c: string)
    ensures c == "" <==> !Truthy(user) && !Truthy(password)
    ensures c != "" ==> c == Show(user) + ":" + Show(password) + "@"
    ensures c != "" ==> c[|c| - 1] == '@'
  {
    if !Truthy(user) && !Truthy(password) then "" else Show(user) + ":" + Show(password) + "@"
  }

  lemma {:induction false} CountAppend(c: char, a: string, b: string)
    ensures Count(c, a + b) == Count(c, a) + Count(c, b)
    decreases |a|
  {
    if a == [] {
      assert a + b == b;
    } else {
      assert (a + b)[1..] == a[1..] + b;
      CountAppend(c, a[1..], b);
    }
  }

  /**
   A non-empty credentials segment holds exactly one ':' and one '@' of its
   own, beside those the user name and the password bring with them.
   */
  lemma CredentialsSeparators(user: Option<string>, password: Option<string>)
    requires Truthy(user) || Truthy(password)
    ensures Count(':', Credentials(user, password)) == Count(':', Show(user)) + Count(':', Show(password)) + 1
    ensures Count('@', Credentials(user, password)) == Count('@', Show(user)) + Count('@', Show(password)) + 1
  {
    var u, p := Show(user), Show(password);
    assert Credentials(user, password) == u + ([':'] + (p + ['@']));
    CountAppend(':', u, [':'] + (p + ['@']));
    CountAppend(':', [':'], p + ['@']);
    CountAppend(':', p, ['@']);
    CountAppend('@', u, [':'] + (p + ['@']));
    CountAppend('@', [':'], p + ['@']);
    CountAppend('@', p, ['@']);
  }

  /**
   Because neither side is escaped, a ':' inside the user name cannot be told
   apart from the separator: different credentials can give the same segment.
   */
  lemma CredentialsNotInjective()
    ensures Credentials(Some("a:b"), Some("c")) == Credentials(Some("a"), Some("b:c"))
    ensures Some("a:b") != Some("a")
  {
    assert Truthy(Some("a:b")) && Truthy(Some("a"));
    assert "a:b" + ":" + "c" + "@" == "a" + ":" + "b:c" + "@";
  }

  // ---------------------------------------------------------------------
  // Decimal rendering of the port (Python's str of an int)
  // ---------------------------------------------------------------------

  predicate IsDigit(c: char) {
    '0' <= c <= '9'
  }

  function DigitChar(d: nat): (c: char)
    requires d < 10
    ensures IsDigit(c)
  {
    ('0' as int + d) as char
  }

  /** The decimal digits of `n`, most significant first, without leading zeros. */
  function Digits(n: nat): (s: string)
    ensures |s| > 0
    ensures forall i :: 0 <= i < |s| ==> IsDigit(s[i])
    ensures n > 0 ==> s[0] != '0'
    ensures n == 0 ==> s == "0"
    decreases n
  {
    if n < 10 then [DigitChar(n)] else Digits(n / 10) + [DigitChar(n % 10)]
  }

  /** Python's decimal text of an int: a '-' sign for negatives, then the digits. */
  function Decimal(n: int): (s: string)
    ensures |s| > 0
    ensures ':' !in s
    ensures n < 0 <==> s[0] == '-'
    ensures forall i :: (if n < 0 then 1 else 0) <= i < |s| ==> IsDigit(s[i])
    ensures n == 0 ==> s == "0"
    ensures n < 0 ==> |s| >= 2
    ensures n != 0 ==> s[if n < 0 then 1 else 0] != '0'
  {
    if n < 0 then "-" + Digits(-n) else Digits(n)
  }

  /** Reads back a string of decimal digits. */
  function ParseDigits(s: string): int {
    if s == [] then 0 else 10 * ParseDigits(s[..|s| - 1]) + ((s[|s| - 1] as int) - ('0' as int))
  }

  /** Reads back an optional '-' sign followed by decimal digits. */
  function ParseDecimal(s: string): int {
    if |s| > 0 && s[0] == '-' then -ParseDigits(s[1..]) else ParseDigits(s)
  }

  lemma {:induction false} DigitsRoundTrip(n: nat)
    ensures ParseDigits(Digits(n)) == n
    decreases n
  {
    if n >= 10 {
      var s := Digits(n);
      assert s[..|s| - 1] == Digits(n / 10);
      DigitsRoundTrip(n / 10);
    }
  }

  /** Reading back the decimal text of a number gives the number. */
  lemma DecimalRoundTrip(n: int)
    ensures ParseDecimal(Decimal(n)) == n
  {
    if n < 0 {
      assert Decimal(n)[1..] == Digits(-n);
      DigitsRoundTrip(-n);
    } else {
      DigitsRoundTrip(n);
    }
  }

  /** Different ports have different decimal texts. */
  lemma DecimalInjective(m: int, n: int)
    requires Decimal(m) == Decimal(n)
    ensures m == n
  {
    DecimalRoundTrip(m);
    DecimalRoundTrip(n);
  }

  // ---------------------------------------------------------------------
  // The connection string
  // ---------------------------------------------------------------------

  /** Where the parts of a five-part concatenation sit; the parts are kept abstract here. */
  lemma JoinFacts(a: string, b: string, c: string, d: string, e: string)
    ensures a <= a + b + c + d + e
    ensures EndsWith(a + b + c + d + e, d + e)
    ensures |a| + |b| <= |a + b + c + d + e| && (a + b + c + d + e)[|a| + |b|..] == c + d + e
    ensures (a + b + c + d + e)[|a|..|a| + |b|] == b
  {
  }

  /** The scheme, the credentials segment, then `host:port` with the defaults applied. */
  function BuildUri(host: Option<string>, port: Option<int>, user: Option<string>, password: Option<string>): (uri: string)
    ensures Scheme <= uri
    ensures |Scheme| + |Credentials(user, password)| <= |uri| &&
            uri[|Scheme|..|Scheme| + |Credentials(user, password)|] == Credentials(user, password)
    ensures EndsWith(uri, ":" + Decimal(PortOrDefault(port)))
    ensures !Truthy(user) && !Truthy(password) ==>
              uri == Scheme + HostOrDefault(host) + ":" + Decimal(PortOrDefault(port))
  {
    var c, h, d := Credentials(user, password), HostOrDefault(host), Decimal(PortOrDefault(port));
    JoinFacts(Scheme, c, h, ":", d);
    assert c == "" ==> Scheme + c == Scheme;
    Scheme + c + h + ":" + d
  }

  /** The text after the last ':' of `s` (all of `s` when it has none). */
  function AfterLastColon(s: string): (t: string)
    ensures ':' !in t
    ensures EndsWith(s, t)
    ensures t == s || (|t| < |s| && s[|s| - |t| - 1] == ':')
  {
    if s == [] then []
    else if s[|s| - 1] == ':' then []
    else AfterLastColon(s[..|s| - 1]) + [s[|s| - 1]]
  }

  lemma {:induction false} AfterLastColonOfJoin(a: string, b: string)
    requires ':' !in b
    ensures AfterLastColon(a + ":" + b) == b
    decreases |b|
  {
    var s := a + ":" + b;
    if b != [] {
      var b' := b[..|b| - 1];
      assert s[..|s| - 1] == a + ":" + b';
      assert b == b' + [b[|b| - 1]];
      AfterLastColonOfJoin(a, b');
    }
  }

  /**
   The port can always be read back from the connection string, whatever
   the host and the credentials contain: it is the text after the last ':'.
   */
  lemma UriPortRecoverable(host: Option<string>, port: Option<int>, user: Option<string>, password: Option<string>)
    ensures ParseDecimal(AfterLastColon(BuildUri(host, port, user, password))) == PortOrDefault(port)
  {
    var p := PortOrDefault(port);
    AfterLastColonOfJoin(Scheme + Credentials(user, password) + HostOrDefault(host), Decimal(p));
    DecimalRoundTrip(p);
  }

  /**
   The `host:port` part of the connection string does not depend on the
   credentials: two strings built with the same host and port agree once
   their scheme and credentials segments are skipped.
   */
  lemma UriHostPortIndependentOfCredentials(host: Option<string>, port: Option<int>,
                                            user1: Option<string>, password1: Option<string>,
                                            user2: Option<string>, password2: Option<string>)
    ensures var u1, u2 := BuildUri(host, port, user1, password1), BuildUri(host, port, user2, password2);
            var k1, k2 := |Scheme| + |Credentials(user1, password1)|, |Scheme| + |Credentials(user2, password2)|;
            k1 <= |u1| && k2 <= |u2| && u1[k1..] == u2[k2..] == HostOrDefault(host) + ":" + Decimal(PortOrDefault(port))
  {
    var h, d := HostOrDefault(host), Decimal(PortOrDefault(port));
    JoinFacts(Scheme, Credentials(user1, password1), h, ":", d);
    JoinFacts(Scheme, Credentials(user2, password2), h, ":", d);
  }
}
