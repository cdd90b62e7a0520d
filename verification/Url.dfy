/**
 The part of Go's net/url and net packages that internal/proxy/repo.go relies on: the host and the
 path of a parsed URL (section 3.2 of RFC 3986 for the authority), and the host of a host:port.
 */
module Url {
  import opened Prelude
  import opened Strings

  /** Of a parsed URL, what the proxy looks at; `host` still carries the port. */
  datatype URL = URL(host: string, path: string)

  // ---- searching ----

  /** The index of the first occurrence, or the length. */
  function IndexOf(s: string, c: char): (i: nat)
    ensures i <= |s| && (forall k | 0 <= k < i :: s[k] != c) && (i < |s| ==> s[i] == c)
  {
    if s == "" || s[0] == c then 0 else
      var i := IndexOf(s[1..], c);
      assert forall k | 1 <= k < 1 + i :: s[k] == s[1..][k - 1];
      1 + i
  }

  /** The index of the last occurrence, or the length. */
  function LastIndexOf(s: string, c: char): (i: nat)
    ensures i <= |s| && (i < |s| ==> s[i] == c && forall k | i < k < |s| :: s[k] != c)
    ensures i == |s| ==> c !in s
  {
    if s == "" then 0
    else if s[|s| - 1] == c then |s| - 1
    else
      var init := s[..|s| - 1];
      var i := LastIndexOf(init, c);
      assert forall k | 0 <= k < |init| :: s[k] == init[k];
      if i == |init| then |s| else i
  }

  lemma IndexOfFirst(a: string, c: char, b: string)
    requires c !in a
    ensures IndexOf(a + [c] + b, c) == |a|
  {
    var s := a + [c] + b;
    assert s[|a|] == c;
    assert forall k | 0 <= k < |a| :: s[k] == a[k];
  }

  lemma IndexOfAbsent(s: string, c: char)
    requires c !in s
    ensures IndexOf(s, c) == |s|
  {
  }

  lemma {:induction false} LastIndexOfLast(a: string, c: char, b: string)
    requires c !in b
    ensures LastIndexOf(a + [c] + b, c) == |a|
  {
    var s := a + [c] + b;
    if b != "" {
      assert s[..|s| - 1] == a + [c] + b[..|b| - 1];
      LastIndexOfLast(a, c, b[..|b| - 1]);
    }
  }

  /** What stands before the first occurrence. */
  function Before(s: string, c: char): string {
    s[..IndexOf(s, c)]
  }

  // ---- characters ----

  predicate IsLetter(c: char) {
    'a' <= c <= 'z' || 'A' <= c <= 'Z'
  }

  predicate IsDigit(c: char) {
    '0' <= c <= '9'
  }

  predicate IsControl(c: char) {
    c < ' ' || c == '\U{7F}'
  }

  /** What a scheme may hold after its first letter. */
  predicate IsSchemeChar(c: char) {
    IsLetter(c) || IsDigit(c) || c in "+-."
  }

  predicate IsUserChar(c: char) {
    IsLetter(c) || IsDigit(c) || c in "-._:~!$&'()*+,;=%@"
  }

  predicate IsHostChar(c: char) {
    c >= '\U{80}' || IsLetter(c) || IsDigit(c) || c in "!$&'()*+,;=:[]<>\"-_.~"
  }

  // ---- percent decoding ----

  function HexValue(c: char): (v: Option<int>)
    ensures v.Some? ==> 0 <= v.value < 16
  {
    if IsDigit(c) then Some(c as int - '0' as int)
    else if 'a' <= c <= 'f' then Some(c as int - 'a' as int + 10)
    else if 'A' <= c <= 'F' then Some(c as int - 'A' as int + 10)
    else None
  }

  /** A host may hold escapes only of bytes outside ASCII and of the percent sign. */
  function Unescape(s: string, inHost: bool): Option<string> {
    if s == "" then Some("")
    else if s[0] == '%' then
      if |s| < 3 || HexValue(s[1]).None? || HexValue(s[2]).None? then None
      else if inHost && HexValue(s[1]).value < 8 && s[1..3] != "25" then None
      else
        var rest := Unescape(s[3..], inHost);
        if rest.None? then None
        else Some([(HexValue(s[1]).value * 16 + HexValue(s[2]).value) as char] + rest.value)
    else if inHost && !IsHostChar(s[0]) then None
    else
      var rest := Unescape(s[1..], inHost);
      if rest.None? then None else Some([s[0]] + rest.value)
  }

  lemma {:induction false} UnescapePlain(s: string, inHost: bool)
    requires '%' !in s && (inHost ==> All(s, IsHostChar))
    ensures Unescape(s, inHost) == Some(s)
  {
    if s != "" {
      assert All(s[1..], IsHostChar) || !inHost;
      UnescapePlain(s[1..], inHost);
      assert s == [s[0]] + s[1..];
    }
  }

  /** A text that holds an escape is longer than what it spells. */
  lemma {:induction false} UnescapeShortens(s: string)
    requires Unescape(s, false).Some?
    ensures var d := Unescape(s, false).value; |d| <= |s| && ('%' in s ==> |d| < |s|)
  {
    if s != "" {
      UnescapeShortens(if s[0] == '%' then s[3..] else s[1..]);
    }
  }

  function HexDigit(v: int): char
    requires 0 <= v < 16
  {
    if v < 10 then ('0' as int + v) as char else ('A' as int + v - 10) as char
  }

  /** Every byte as an escape. */
  function Escape(s: string): string {
    if s == "" then ""
    else
      var v := if s[0] as int < 256 then s[0] as int else 0;
      ['%', HexDigit(v / 16), HexDigit(v % 16)] + Escape(s[1..])
  }

  /** Escapes, in capitals or in lower case, spell what was escaped. */
  lemma {:induction false} EscapesSpell(s: string)
    requires forall i | 0 <= i < |s| :: s[i] as int < 256
    ensures Unescape(Escape(s), false) == Some(s) && Unescape(ToLower(Escape(s)), false) == Some(s)
  {
    if s != "" {
      var v := s[0] as int;
      var e, rest := Escape(s), Escape(s[1..]);
      EscapesSpell(s[1..]);
      HexRoundTrip(v / 16);
      HexRoundTrip(v % 16);
      assert e[0] == '%' && e[1] == HexDigit(v / 16) && e[2] == HexDigit(v % 16) && e[3..] == rest;
      var low := ToLower(e);
      assert low[0] == '%' && low[1] == LowerChar(e[1]) && low[2] == LowerChar(e[2]) && low[3..] == ToLower(rest);
      assert s == [v as char] + s[1..];
    }
  }

  lemma HexRoundTrip(v: int)
    requires 0 <= v < 16
    ensures HexValue(HexDigit(v)) == Some(v) && HexValue(LowerChar(HexDigit(v))) == Some(v)
  {
  }

  lemma PrependSpelled(c: char, rest: Option<string>, b: string)
    ensures rest.Some? ==> [c] + (rest.value + b) == ([c] + rest.value) + b
  {
  }

  /** A tail that cannot be part of an escape is spelled by itself. */
  lemma {:induction false} UnescapeTail(a: string, b: string)
    requires '%' !in b && (b != "" ==> HexValue(b[0]).None?)
    ensures Unescape(a, false).Some? <==> Unescape(a + b, false).Some?
    ensures Unescape(a, false).Some? ==> Unescape(a + b, false) == Some(Unescape(a, false).value + b)
  {
    if a == "" {
      assert a + b == b;
      UnescapePlain(b, false);
    } else if a[0] != '%' {
      assert (a + b)[1..] == a[1..] + b;
      UnescapeTail(a[1..], b);
      PrependSpelled(a[0], Unescape(a[1..], false), b);
    } else if |a| >= 3 {
      assert (a + b)[3..] == a[3..] + b;
      UnescapeTail(a[3..], b);
      if HexValue(a[1]).Some? && HexValue(a[2]).Some? {
        PrependSpelled((HexValue(a[1]).value * 16 + HexValue(a[2]).value) as char, Unescape(a[3..], false), b);
      }
    } else if |a + b| >= 3 {
      assert (a + b)[|a|] == b[0];
    }
  }

  lemma HexInLowerCase(c: char)
    ensures HexValue(LowerChar(c)) == HexValue(c) && (LowerChar(c) == '%' <==> c == '%')
  {
  }

  /** In lower case the same is spelled, but for the case of the letters that are spelled by themselves. */
  lemma {:induction false} UnescapeLower(s: string)
    requires Unescape(s, false).Some?
    ensures Unescape(ToLower(s), false).Some?
    ensures ToLower(Unescape(ToLower(s), false).value) == ToLower(Unescape(s, false).value)
  {
    if s != "" {
      var low := ToLower(s);
      HexInLowerCase(s[0]);
      if s[0] == '%' {
        HexInLowerCase(s[1]);
        HexInLowerCase(s[2]);
        assert low[3..] == ToLower(s[3..]);
        UnescapeLower(s[3..]);
      } else {
        assert low[1..] == ToLower(s[1..]);
        UnescapeLower(s[1..]);
      }
    }
  }

  // ---- parsing ----

  /** Where the scheme ends: at a colon, nowhere, or in an error. */
  datatype SchemeEnd = At(i: nat) | Nowhere | Missing

  function GetScheme(s: string, i: nat): (e: SchemeEnd)
    requires i <= |s|
    ensures e.At? ==> e.i < |s|
    decreases |s| - i
  {
    if i == |s| then Nowhere
    else if IsLetter(s[i]) then GetScheme(s, i + 1)
    else if IsSchemeChar(s[i]) then (if i == 0 then Nowhere else GetScheme(s, i + 1))
    else if s[i] == ':' then (if i == 0 then Missing else At(i))
    else Nowhere
  }

  predicate ValidOptionalPort(p: string) {
    p == "" || (p[0] == ':' && All(p[1..], IsDigit))
  }

  function ParseHost(h: string): Option<string> {
    if "[" <= h then
      var i := LastIndexOf(h, ']');
      if i == |h| || !ValidOptionalPort(h[i + 1..]) then None else Unescape(h, true)
    else if !ValidOptionalPort(h[IndexOf(h, ':')..]) then None
    else Unescape(h, true)
  }

  function ParseAuthority(a: string): Option<string> {
    var i := LastIndexOf(a, '@');
    if i == |a| then ParseHost(a)
    else if !All(a[..i], IsUserChar) || Unescape(a[..i], false).None? then None
    else ParseHost(a[i + 1..])
  }

  /** What follows the "//". */
  function ParseNetwork(s: string): Option<URL> {
    var authority := Before(s, '/');
    var host := ParseAuthority(authority);
    var path := Unescape(s[|authority|..], false);
    if host.None? || path.None? then None else Some(URL(host.value, path.value))
  }

  /** The rest after the scheme, up to the query. */
  function ParseRest(rest: string, hasScheme: bool): Option<URL> {
    if !("/" <= rest) && hasScheme then Some(URL("", ""))
    else if !("/" <= rest) && ':' in Before(rest, '/') then None
    else if (hasScheme || !("///" <= rest)) && "//" <= rest then ParseNetwork(rest[2..])
    else
      var path := Unescape(rest, false);
      if path.None? then None else Some(URL("", path.value))
  }

  predicate HasControl(s: string) {
    exists i | 0 <= i < |s| :: IsControl(s[i])
  }

  function ParseScheme(u: string): Option<URL> {
    match GetScheme(u, 0)
    case Missing => None
    case At(i) => ParseRest(Before(u[i + 1..], '?'), true)
    case Nowhere => ParseRest(Before(u, '?'), false)
  }

  function Parse(raw: string): Option<URL> {
    var u := Before(raw, '#');
    var fragment := if u == raw then "" else raw[|u| + 1..];
    if HasControl(u) || Unescape(fragment, false).None? then None
    else if u == "*" then Some(URL("", "*"))
    else ParseScheme(u)
  }

  // ---- URLs written out ----

  predicate SchemeOk(s: string) {
    s != "" && IsLetter(s[0]) && All(s, IsSchemeChar)
  }

  /** User information, with or without escapes: section 3.2.1 of RFC 3986. */
  predicate UserOk(s: string) {
    All(s, IsUserChar) && Unescape(s, false).Some?
  }

  predicate IsNameChar(c: char) {
    IsLetter(c) || IsDigit(c) || c in "-._~!$&'()*+,;="
  }

  /** A registered name: section 3.2.2 of RFC 3986, without escapes. */
  predicate HostOk(s: string) {
    s != "" && All(s, IsNameChar)
  }

  /** What ends a path, or may not be in a URL at all. */
  predicate IsPathChar(c: char) {
    !IsControl(c) && c !in "#?"
  }

  /** The text of a path, with or without escapes. */
  predicate PathOk(s: string) {
    All(s, IsPathChar) && Unescape(s, false).Some?
  }

  /** The result of parsing, if the escapes of the path are whole. */
  function WithPath(host: string, raw: string): Option<URL> {
    if Unescape(raw, false).None? then None else Some(URL(host, Unescape(raw, false).value))
  }

  function Decoded(s: string): string
    requires Unescape(s, false).Some?
  {
    Unescape(s, false).value
  }

  /** scheme://user@host:port/path; an empty user is left out, `port` has its colon, `path` its slash. */
  function Written(scheme: string, user: string, host: string, port: string, path: string): string {
    scheme + "://" + Authority(user, host, port) + path
  }

  function Authority(user: string, host: string, port: string): string {
    (if user == "" then "" else user + "@") + (host + port)
  }

  lemma {:induction false} SchemeFound(scheme: string, rest: string, i: nat)
    requires SchemeOk(scheme) && i <= |scheme|
    ensures GetScheme(scheme + ":" + rest, i) == At(|scheme|)
    decreases |scheme| - i
  {
    var s := scheme + ":" + rest;
    if i < |scheme| {
      assert s[i] == scheme[i];
      SchemeFound(scheme, rest, i + 1);
    } else {
      assert s[i] == ':';
    }
  }

  /** A character that only the first part lacks is found where the second starts. */
  lemma CutAt(a: string, c: char, b: string)
    requires c !in a && (b == "" || b[0] == c)
    ensures IndexOf(a + b, c) == |a| && (a + b)[..|a|] == a && (a + b)[|a|..] == b
  {
    if b == "" {
      assert a + b == a;
      IndexOfAbsent(a, c);
    } else {
      assert a + b == a + [c] + b[1..];
      IndexOfFirst(a, c, b[1..]);
    }
  }

  lemma PortChars(port: string)
    requires ValidOptionalPort(port)
    ensures forall i | 0 <= i < |port| :: port[i] == ':' || IsDigit(port[i])
  {
    assert forall i | 0 < i < |port| :: port[i] == port[1..][i - 1];
  }

  lemma HostChars(host: string, port: string)
    requires HostOk(host) && ValidOptionalPort(port)
    ensures All(host + port, IsHostChar) && '%' !in host + port && '@' !in host + port && !("[" <= host + port)
  {
    PortChars(port);
    assert (host + port)[0] == host[0];
    forall i | 0 <= i < |host + port| ensures IsHostChar((host + port)[i]) && (host + port)[i] !in "%@[" {
      if i < |host| { assert IsNameChar(host[i]); } else { assert (host + port)[i] == port[i - |host|]; }
    }
  }

  lemma HostParses(host: string, port: string)
    requires HostOk(host) && ValidOptionalPort(port)
    ensures ParseHost(host + port) == Some(host + port)
  {
    HostChars(host, port);
    UnescapePlain(host + port, true);
    CutAt(host, ':', port);
  }

  lemma AuthorityParses(user: string, host: string, port: string)
    requires UserOk(user) && HostOk(host) && ValidOptionalPort(port)
    ensures ParseAuthority(Authority(user, host, port)) == Some(host + port)
  {
    HostChars(host, port);
    HostParses(host, port);
    UserDropped(user, host + port);
  }

  lemma UserDropped(user: string, host: string)
    requires UserOk(user) && '@' !in host
    ensures ParseAuthority((if user == "" then "" else user + "@") + host) == ParseHost(host)
  {
    var a := user + ['@'] + host;
    LastIndexOfLast(user, '@', host);
    assert a[..|user|] == user && a[|user| + 1..] == host;
    assert "" + host == host;
  }

  /**
   A URL whose other parts are well-formed parses to its own host and to what its path spells, or not at
   all if that is nothing.
  */
  lemma WrittenParses(scheme: string, user: string, host: string, port: string, path: string)
    requires SchemeOk(scheme) && UserOk(user) && HostOk(host) && ValidOptionalPort(port)
    requires All(path, IsPathChar) && (path == "" || path[0] == '/')
    ensures Parse(Written(scheme, user, host, port, path)) == WithPath(host + port, path)
  {
    var raw := Written(scheme, user, host, port, path);
    var rest := "//" + Authority(user, host, port) + path;
    assert raw == scheme + ":" + rest;
    PlainCharacters(scheme, user, host, port, path);
    SchemeSplits(scheme, rest);
    RestParses(user, host, port, path);
    NoFragment(raw);
  }

  lemma NoFragment(raw: string)
    requires '#' !in raw && !HasControl(raw) && raw != "*"
    ensures Parse(raw) == ParseScheme(raw)
  {
    IndexOfAbsent(raw, '#');
    assert raw[..|raw|] == raw;
  }

  lemma SchemeSplits(scheme: string, rest: string)
    requires SchemeOk(scheme) && '?' !in scheme + ":" + rest
    ensures ParseScheme(scheme + ":" + rest) == ParseRest(rest, true) && scheme + ":" + rest != "*"
  {
    var raw := scheme + ":" + rest;
    SchemeFound(scheme, rest, 0);
    assert raw[|scheme| + 1..] == rest;
    assert raw[0] == scheme[0];
    assert '?' !in rest by { assert forall i | 0 <= i < |rest| :: rest[i] == raw[|scheme| + 1 + i]; }
    IndexOfAbsent(rest, '?');
    assert rest[..|rest|] == rest;
  }

  /** Nothing in a well-formed URL is taken for a fragment, a query or a control character. */
  lemma PlainCharacters(scheme: string, user: string, host: string, port: string, path: string)
    requires SchemeOk(scheme) && UserOk(user) && HostOk(host) && ValidOptionalPort(port) && All(path, IsPathChar)
    ensures forall c | c in Written(scheme, user, host, port, path) :: !IsControl(c) && c != '#' && c != '?'
  {
    forall c | c in Written(scheme, user, host, port, path)
      ensures c in scheme || c in "://@" || c in user || c in host || c in port || c in path
    {
    }
    assert forall i | 0 < i < |port| :: port[i] == port[1..][i - 1];
  }

  lemma NoSlash(user: string, host: string, port: string)
    requires UserOk(user) && HostOk(host) && ValidOptionalPort(port)
    ensures '/' !in Authority(user, host, port)
  {
    assert forall i | 0 < i < |port| :: port[i] == port[1..][i - 1];
    assert '/' !in user && '/' !in host && '/' !in port;
  }

  lemma RestParses(user: string, host: string, port: string, path: string)
    requires UserOk(user) && HostOk(host) && ValidOptionalPort(port) && (path == "" || path[0] == '/')
    ensures ParseRest("//" + Authority(user, host, port) + path, true) == WithPath(host + port, path)
  {
    var rest := "//" + Authority(user, host, port) + path;
    assert rest[2..] == Authority(user, host, port) + path;
    NetworkParses(user, host, port, path);
  }

  lemma NetworkParses(user: string, host: string, port: string, path: string)
    requires UserOk(user) && HostOk(host) && ValidOptionalPort(port) && (path == "" || path[0] == '/')
    ensures ParseNetwork(Authority(user, host, port) + path) == WithPath(host + port, path)
  {
    NoSlash(user, host, port);
    CutAt(Authority(user, host, port), '/', path);
    AuthorityParses(user, host, port);
  }

  // ---- what is not part of the path, and what is no URL ----

  lemma BeforeFirst(a: string, c: char, b: string)
    requires c !in a
    ensures Before(a + [c] + b, c) == a
  {
    IndexOfFirst(a, c, b);
    assert (a + [c] + b)[..|a|] == a;
  }

  /** A fragment, if its escapes are whole, makes no difference. */
  lemma FragmentIsDropped(u: string, fragment: string)
    requires '#' !in u && Unescape(fragment, false).Some?
    ensures Parse(u + "#" + fragment) == Parse(u)
  {
    var raw := u + "#" + fragment;
    BeforeFirst(u, '#', fragment);
    assert raw[|u| + 1..] == fragment && raw != u;
    IndexOfAbsent(u, '#');
    assert u[..|u|] == u;
  }

  /** A query makes no difference. */
  lemma QueryIsDropped(scheme: string, rest: string, query: string)
    requires SchemeOk(scheme) && '?' !in rest
    ensures ParseScheme(scheme + ":" + rest + "?" + query) == ParseScheme(scheme + ":" + rest)
  {
    var raw, short := scheme + ":" + rest + "?" + query, scheme + ":" + rest;
    assert raw == scheme + ":" + (rest + "?" + query);
    SchemeFound(scheme, rest + "?" + query, 0);
    SchemeFound(scheme, rest, 0);
    assert raw[|scheme| + 1..] == rest + ['?'] + query && short[|scheme| + 1..] == rest;
    BeforeFirst(rest, '?', query);
    IndexOfAbsent(rest, '?');
    assert rest[..|rest|] == rest;
  }

  /** Control characters, a broken user and a port that is no number make a text no URL. */
  lemma MalformedFails(u: string, user: string, host: string, port: string)
    ensures '#' !in u && HasControl(u) ==> Parse(u).None?
    ensures '@' !in host && !UserOk(user) ==> ParseAuthority(user + "@" + host).None?
    ensures HostOk(host) && !ValidOptionalPort(":" + port) ==> ParseHost(host + ":" + port).None?
  {
    if '#' !in u {
      IndexOfAbsent(u, '#');
      assert u[..|u|] == u;
    }
    if '@' !in host {
      LastIndexOfLast(user, '@', host);
      assert (user + ['@'] + host)[..|user|] == user;
    }
    if HostOk(host) {
      assert ':' !in host;
      CutAt(host, ':', ":" + port);
      assert host + (":" + port) == host + ":" + port && (host + ":" + port)[0] == host[0];
    }
  }

  // ---- host and port ----

  /** net.SplitHostPort, the host only. */
  function SplitHost(hostport: string): Option<string> {
    var i := LastIndexOf(hostport, ':');
    if i == |hostport| then None
    else if hostport[0] == '[' then
      var end := IndexOf(hostport, ']');
      if end == |hostport| || end + 1 != i then None
      else if '[' in hostport[1..] || ']' in hostport[end + 1..] then None
      else Some(hostport[1..end])
    else if ':' in hostport[..i] || '[' in hostport || ']' in hostport then None
    else Some(hostport[..i])
  }

  predicate IsBracket(c: char) {
    c == '[' || c == ']'
  }

  /** A trailing port and the brackets of an address literal are dropped. */
  function StripPort(host: string): string {
    var h := SplitHost(host);
    if h.Some? then h.value else Trim(host, IsBracket)
  }

  predicate NoBrackets(s: string) {
    forall i | 0 <= i < |s| :: !IsBracket(s[i])
  }

  /** A bare name keeps its text, with or without a port. */
  lemma StripPortName(host: string, port: string)
    requires ':' !in host && ':' !in port && NoBrackets(host) && NoBrackets(port)
    ensures StripPort(host) == host && StripPort(host + ":" + port) == host
  {
    TrimOf("", host, "", IsBracket);
    assert "" + host + "" == host;
    var s := host + ":" + port;
    assert s == host + [':'] + port;
    LastIndexOfLast(host, ':', port);
    assert s[..|host|] == host;
    assert NoBrackets(s);
    if host == "" { assert s[0] == ':'; } else { assert s[0] == host[0]; }
  }

  /** An address literal loses its brackets, with or without a port. */
  lemma StripPortLiteral(address: string, port: string)
    requires ':' !in port && NoBrackets(address) && NoBrackets(port)
    ensures StripPort("[" + address + "]") == address && StripPort("[" + address + "]:" + port) == address
  {
    BareLiteral(address);
    LiteralWithPort(address, port);
  }

  lemma BareLiteral(address: string)
    requires NoBrackets(address)
    ensures StripPort("[" + address + "]") == address
  {
    var bare := "[" + address + "]";
    assert bare == ("[" + address) + [']'] + "";
    IndexOfFirst("[" + address, ']', "");
    TrimOf("[", address, "]", IsBracket);
  }

  lemma LiteralWithPort(address: string, port: string)
    requires ':' !in port && NoBrackets(address) && NoBrackets(port)
    ensures StripPort("[" + address + "]:" + port) == address
  {
    var a := "[" + address;
    var s := "[" + address + "]:" + port;
    assert s == a + [']'] + (":" + port);
    IndexOfFirst(a, ']', ":" + port);
    assert s == (a + "]") + [':'] + port;
    LastIndexOfLast(a + "]", ':', port);
    assert s[1..|address| + 1] == address;
    OneEach(address, port, s);
  }

  lemma OneEach(address: string, port: string, s: string)
    requires NoBrackets(address) && NoBrackets(port) && s == "[" + address + "]:" + port
    ensures '[' !in s[1..] && ']' !in s[|address| + 2..]
  {
    assert s[|address| + 2..] == ":" + port;
    assert s[1..] == address + "]" + s[|address| + 2..];
  }
}
