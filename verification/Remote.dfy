/**
 The identity of a git remote (internal/proxy/repo.go): the key that all spellings of one remote
 share, the host that an entry of a whitelist gates, and the matcher built from a whitelist.
 */
module Remote {
  import opened Prelude
  import opened Strings
  import opened Url

  // ---- the functions ----

  predicate Contains(s: string, sub: string) {
    exists i | 0 <= i <= |s| :: sub <= s[i..]
  }

  const SCHEME_MARK := "://"

  predicate IsRemoteURL(s: string) {
    || Contains(s, SCHEME_MARK)
    || (var at, colon, slash := IndexOf(s, '@'), IndexOf(s, ':'), IndexOf(s, '/');
        0 < at < |s| && at < colon < |s| && (slash == |s| || colon < slash))
  }

  predicate IsSlash(c: char) {
    c == '/'
  }

  /** A URL without a path names a host. */
  function UrlHost(s: string): string {
    var u := Parse(s);
    if u.None? || u.value.host == "" || Trim(u.value.path, IsSlash) != "" then "" else StripPort(u.value.host)
  }

  /** A dotted name names a host, a path or an scp-like remote does not. */
  function NameHost(s: string): string {
    if '/' in s || '@' in s || '.' !in s || s[0] == '.' || s[|s| - 1] == '.' then "" else StripPort(s)
  }

  /** The bare host that an entry gates, or "" when it names one repository. */
  function HostEntry(e: string): string {
    var s := ToLower(TrimSpace(e));
    if Contains(s, SCHEME_MARK) then UrlHost(s) else NameHost(s)
  }

  function RemoteHost(key: string): string {
    StripPort(Before(key, '/'))
  }

  function AfterFirst(s: string, c: char): string {
    var i := IndexOf(s, c);
    if i == |s| then s else s[i + 1..]
  }

  function ReplaceFirst(s: string, c: char, with: string): string {
    var i := IndexOf(s, c);
    if i == |s| then s else s[..i] + with + s[i + 1..]
  }

  /** Lower case, without trailing slashes and one ".git". */
  function Tidy(s: string): string {
    TrimSuffix(TrimRight(ToLower(s), IsSlash), ".git")
  }

  /** The "host/path" key of a remote; what does not parse is only tidied. */
  function NormalizeRemote(raw: string): string {
    if !Contains(raw, SCHEME_MARK) then Tidy(ReplaceFirst(AfterFirst(raw, '@'), ':', "/"))
    else
      var u := Parse(raw);
      Tidy(if u.Some? && u.value.host != "" then u.value.host + u.value.path else raw)
  }

  /** No key holds a capital, whatever it is made from. */
  lemma KeysAreLower(raw: string)
    ensures NoCapitals(NormalizeRemote(raw))
  {
    if !Contains(raw, SCHEME_MARK) {
      TidyIsLower(ReplaceFirst(AfterFirst(raw, '@'), ':', "/"));
    } else {
      var u := Parse(raw);
      TidyIsLower(if u.Some? && u.value.host != "" then u.value.host + u.value.path else raw);
    }
  }

  lemma TidyIsLower(s: string)
    ensures NoCapitals(Tidy(s))
  {
    LowerMeaning(s);
    var low := ToLower(s);
    var cut := TrimRightCuts(low, IsSlash);
    assert forall i | 0 <= i < |TrimRight(low, IsSlash)| :: TrimRight(low, IsSlash)[i] == low[i];
  }

  // ---- the spellings of one remote ----

  /** [user@]host:path, or a URL of any scheme, with or without a user. */
  datatype Spelling = Scp(user: string) | Full(scheme: string, user: string)

  function Spell(sp: Spelling, host: string, port: string, raw: string): string {
    match sp
    case Scp(user) => (if user == "" then "" else user + "@") + (host + ":" + raw)
    case Full(scheme, user) => Written(scheme, user, host, port, "/" + raw)
  }

  /** The scp form has no port and no "://" inside, and no "@" but that behind its user, if it has none. */
  predicate WellFormed(sp: Spelling, host: string, port: string, raw: string) {
    && HostOk(host) && ValidOptionalPort(port)
    && match sp
       case Scp(user) =>
         && (forall c | c in user :: c !in "@:/") && (user == "" ==> '@' !in raw)
         && port == "" && !Contains(Spell(sp, host, port, raw), SCHEME_MARK)
       case Full(scheme, user) => SchemeOk(scheme) && UserOk(user) && PathOk(raw)
  }

  /** What the text of a path spells: escapes count in a URL only. */
  function Spelled(sp: Spelling, raw: string): string
    requires sp.Full? ==> PathOk(raw)
  {
    if sp.Full? then Decoded(raw) else raw
  }

  /** A path without the suffixes that do not matter. */
  predicate Plain(path: string) {
    path != "" && path[|path| - 1] != '/' && !HasSuffix(ToLower(path), ".git")
  }

  /** The suffixes that do not matter. */
  predicate Optional(git: string, slashes: string) {
    ToLower(git) in {"", ".git"} && All(slashes, IsSlash)
  }

  /** A path and the suffixes behind it. */
  function Suffixed(path: string, git: string, slashes: string): string {
    path + git + slashes
  }

  /** A remote as somebody wrote it: its path spells `path`, ".git" and slashes, the latter two up to the writer. */
  datatype RemoteText = RemoteText(sp: Spelling, host: string, port: string, raw: string,
                                   path: string, git: string, slashes: string)

  function Text(r: RemoteText): string {
    Spell(r.sp, r.host, r.port, r.raw)
  }

  predicate TextOk(r: RemoteText) {
    && WellFormed(r.sp, r.host, r.port, r.raw) && Spelled(r.sp, r.raw) == Suffixed(r.path, r.git, r.slashes)
    && Plain(r.path) && Optional(r.git, r.slashes)
  }

  function Key(r: RemoteText): string {
    ToLower(r.host) + r.port + "/" + ToLower(r.path)
  }

  /** The same host, port and path, up to case. */
  predicate SameRemote(a: RemoteText, b: RemoteText) {
    SameUpToCase(a.host, b.host) && a.port == b.port && SameUpToCase(a.path, b.path)
  }

  // ---- lower case ----

  lemma LowerConcat(a: string, b: string)
    ensures ToLower(a + b) == ToLower(a) + ToLower(b)
  {
  }

  lemma LowerPort(port: string)
    requires ValidOptionalPort(port)
    ensures ToLower(port) == port
  {
    PortChars(port);
  }

  lemma LowerHas(s: string, c: char)
    requires LowerChar(c) == c && !('a' <= c <= 'z')
    ensures c in ToLower(s) <==> c in s
  {
    if c in s {
      var i :| 0 <= i < |s| && s[i] == c;
      assert ToLower(s)[i] == c;
    }
  }

  // ---- the key ----

  lemma LowerSuffixed(head: string, path: string, git: string, slashes: string)
    requires All(slashes, IsSlash)
    ensures ToLower(head + "/" + Suffixed(path, git, slashes))
            == ToLower(head) + "/" + ToLower(path) + ToLower(git) + slashes
  {
    LowerConcat(head + "/", path + git + slashes);
    LowerConcat(path + git, slashes);
    LowerConcat(path, git);
    LowerConcat(head, "/");
    assert ToLower(slashes) == slashes && ToLower("/") == "/";
    var h, p, g := ToLower(head) + "/", ToLower(path), ToLower(git);
    assert h + (p + g + slashes) == h + p + g + slashes;
  }

  lemma TidyKey(head: string, path: string, git: string, slashes: string)
    requires Plain(path) && Optional(git, slashes)
    ensures Tidy(head + "/" + Suffixed(path, git, slashes)) == ToLower(head) + "/" + ToLower(path)
  {
    LowerSuffixed(head, path, git, slashes);
    var low := ToLower(head) + "/" + ToLower(path);
    var kept := low + ToLower(git);
    assert kept[|kept| - 1] == if ToLower(git) == "" then LowerChar(path[|path| - 1]) else 't';
    TrimRightTakes(kept, slashes, IsSlash);
    if ToLower(git) == "" {
      assert kept == low;
      NoGit(ToLower(head), ToLower(path));
    } else {
      assert kept[|low|..] == ".git" && kept[..|low|] == low;
    }
  }

  lemma NoGit(head: string, path: string)
    requires path != "" && !HasSuffix(path, ".git")
    ensures !HasSuffix(head + "/" + path, ".git")
  {
    var s := head + "/" + path;
    if |path| >= 4 {
      assert s[|s| - 4..] == path[|path| - 4..];
    } else if |s| >= 4 {
      assert s[|s| - 4..][3 - |path|] == '/';
      assert ".git"[3 - |path|] != '/';
    }
  }

  /**
   Every spelling of a remote has the same key: host, port and path, in lower case and without the
   optional suffixes.
  */
  lemma SpelledKey(r: RemoteText)
    requires TextOk(r)
    ensures NormalizeRemote(Text(r)) == Key(r)
  {
    match r.sp
    case Scp(user) =>
      ScpTidied(user, r.host, r.raw);
      TidyKey(r.host, r.path, r.git, r.slashes);
      assert ToLower(r.host) + "" == ToLower(r.host);
    case Full(scheme, user) =>
      WrittenKey(scheme, user, r.host, r.port, r.raw);
      TidyKey(r.host + r.port, r.path, r.git, r.slashes);
      LowerConcat(r.host, r.port);
      LowerPort(r.port);
  }

  lemma ScpTidied(user: string, host: string, raw: string)
    requires WellFormed(Scp(user), host, "", raw)
    ensures NormalizeRemote(Spell(Scp(user), host, "", raw)) == Tidy(host + "/" + raw)
  {
    assert '@' !in host && ':' !in host;
    if user == "" {
      assert "" + (host + ":" + raw) == host + ":" + raw;
      IndexOfAbsent(host + ":" + raw, '@');
    } else {
      assert user + "@" + (host + ":" + raw) == user + ['@'] + (host + ":" + raw);
      AfterFirstOf(user, '@', host + ":" + raw);
    }
    ReplaceFirstOf(host, ':', raw, "/");
  }

  lemma AfterFirstOf(a: string, c: char, b: string)
    requires c !in a
    ensures AfterFirst(a + [c] + b, c) == b
  {
    IndexOfFirst(a, c, b);
    assert (a + [c] + b)[|a| + 1..] == b;
  }

  lemma ReplaceFirstOf(a: string, c: char, b: string, with: string)
    requires c !in a
    ensures ReplaceFirst(a + [c] + b, c, with) == a + with + b
  {
    IndexOfFirst(a, c, b);
    assert (a + [c] + b)[|a| + 1..] == b && (a + [c] + b)[..|a|] == a;
  }

  lemma Associate(a: string, b: string, c: string)
    ensures a + (b + c) == a + b + c
  {
  }

  lemma SlashFirst(raw: string)
    requires PathOk(raw)
    ensures PathOk("/" + raw) && Decoded("/" + raw) == "/" + Decoded(raw)
  {
    assert ("/" + raw)[1..] == raw;
  }

  lemma WrittenKey(scheme: string, user: string, host: string, port: string, raw: string)
    requires WellFormed(Full(scheme, user), host, port, raw)
    ensures NormalizeRemote(Spell(Full(scheme, user), host, port, raw)) == Tidy(host + port + "/" + Decoded(raw))
  {
    SlashFirst(raw);
    WrittenMarked(scheme, user, host, port, "/" + raw);
    WrittenParses(scheme, user, host, port, "/" + raw);
    Associate(host + port, "/", Decoded(raw));
  }

  lemma WrittenMarked(scheme: string, user: string, host: string, port: string, path: string)
    ensures Contains(Written(scheme, user, host, port, path), SCHEME_MARK)
  {
    var s := Written(scheme, user, host, port, path);
    assert s == scheme + (SCHEME_MARK + (Authority(user, host, port) + path));
    assert SCHEME_MARK <= s[|scheme|..];
  }

  /** ssh, https and scp spellings of one remote compare equal. */
  lemma SpellingsAgree(a: RemoteText, b: RemoteText)
    requires TextOk(a) && TextOk(b) && a.host == b.host && a.port == b.port && a.path == b.path
    ensures NormalizeRemote(Text(a)) == NormalizeRemote(Text(b))
  {
    SpelledKey(a);
    SpelledKey(b);
  }

  /** Two remotes share a key exactly when port, and host and path up to case, agree. */
  lemma SameKeyIff(a: RemoteText, b: RemoteText)
    requires TextOk(a) && TextOk(b)
    ensures NormalizeRemote(Text(a)) == NormalizeRemote(Text(b)) <==> SameRemote(a, b)
  {
    SpelledKey(a);
    SpelledKey(b);
    LowerHost(a.host);
    LowerHost(b.host);
    LowerSameIff(a.host, b.host);
    LowerSameIff(a.path, b.path);
    KeyIsInjective(ToLower(a.host), a.port, ToLower(a.path), ToLower(b.host), b.port, ToLower(b.path));
  }

  lemma KeyIsInjective(host1: string, port1: string, path1: string, host2: string, port2: string, path2: string)
    requires HostOk(host1) && ValidOptionalPort(port1) && HostOk(host2) && ValidOptionalPort(port2)
    ensures host1 + port1 + "/" + path1 == host2 + port2 + "/" + path2 ==>
              host1 == host2 && port1 == port2 && path1 == path2
  {
    var key := host1 + port1 + "/" + path1;
    if key == host2 + port2 + "/" + path2 {
      KeyParts(host1, port1, path1, key);
      KeyParts(host2, port2, path2, key);
    }
  }

  /** What a key was made of can be read off it. */
  lemma KeyParts(host: string, port: string, path: string, key: string)
    requires HostOk(host) && ValidOptionalPort(port) && key == host + port + "/" + path
    ensures var slash := IndexOf(key, '/');
            var colon := IndexOf(key[..slash], ':');
            && slash < |key| && key[..slash] == host + port && key[slash + 1..] == path
            && key[..slash][..colon] == host && key[..slash][colon..] == port
  {
    AuthorityChars(host, port);
    assert key == (host + port) + ['/'] + path;
    IndexOfFirst(host + port, '/', path);
    assert key[..|host + port|] == host + port && key[|host + port| + 1..] == path;
    CutAt(host, ':', port);
  }

  lemma AuthorityChars(host: string, port: string)
    requires HostOk(host) && ValidOptionalPort(port)
    ensures '/' !in host + port && ':' !in host && (port == "" || port[0] == ':')
  {
    PortChars(port);
    assert '/' !in host && '/' !in port;
  }

  // ---- one path text in both spellings ----

  lemma {:induction false} TrimRightTail(s: string, b: string)
    requires All(b, IsSlash)
    ensures TrimRight(s + b, IsSlash) == TrimRight(s, IsSlash) && |TrimRight(s, IsSlash)| <= |s|
    decreases |s| + |b|
  {
    if b != "" {
      assert (s + b)[..|s + b| - 1] == s + b[..|b| - 1];
      TrimRightTail(s, b[..|b| - 1]);
    } else {
      assert s + b == s;
      if s != "" {
        TrimRightTail(s[..|s| - 1], "");
      }
    }
  }

  /** Tidying drops the optional suffixes at least. */
  lemma TidyShortens(x: string, git: string, slashes: string)
    requires Optional(git, slashes)
    ensures |Tidy(x + (git + slashes))| <= |x|
  {
    LowerConcat(x, git + slashes);
    LowerConcat(git, slashes);
    assert ToLower(slashes) == slashes;
    var low, g := ToLower(x), ToLower(git);
    assert low + (g + slashes) == (low + g) + slashes;
    TrimRightTail(low + g, slashes);
    if g != "" {
      TrimRightTakes(low + g, slashes, IsSlash);
      assert (low + g)[|low|..] == g && (low + g)[..|low|] == low;
    } else {
      assert low + g == low;
    }
  }

  lemma SuffixChars(git: string, slashes: string)
    requires Optional(git, slashes)
    ensures forall c | c in git + slashes :: c !in "%@:"
    ensures git + slashes != "" ==> HexValue((git + slashes)[0]).None?
  {
    assert forall i | 0 <= i < |git| :: LowerChar(git[i]) == ".git"[i];
  }

  /**
   One text of a path, in the scp and in the URL spelling: the keys agree exactly when there is no
   percent sign in it.  A URL spells less than it holds, and one with a broken escape keeps its scheme.
  */
  lemma SameTextSameKeyIff(user: string, scheme: string, user2: string, host: string, path: string, git: string,
                           slashes: string)
    requires Plain(path) && Optional(git, slashes) && All(Suffixed(path, git, slashes), IsPathChar)
    requires WellFormed(Scp(user), host, "", Suffixed(path, git, slashes)) && SchemeOk(scheme) && UserOk(user2)
    ensures var raw := Suffixed(path, git, slashes);
            NormalizeRemote(Spell(Scp(user), host, "", raw))
              == NormalizeRemote(Spell(Full(scheme, user2), host, "", raw))
            <==> '%' !in path
  {
    ScpSide(user, host, path, git, slashes);
    SuffixChars(git, slashes);
    UnescapeTail(path, git + slashes);
    Associated(path, git, slashes);
    if Unescape(path, false).Some? {
      WholeEscapes(scheme, user2, host, path, git, slashes);
    } else {
      if '%' !in path { UnescapePlain(path, false); }
      BrokenEscape(scheme, user2, host, path, git, slashes);
    }
  }

  lemma ScpSide(user: string, host: string, path: string, git: string, slashes: string)
    requires Plain(path) && Optional(git, slashes) && WellFormed(Scp(user), host, "", Suffixed(path, git, slashes))
    ensures NormalizeRemote(Spell(Scp(user), host, "", Suffixed(path, git, slashes)))
            == ToLower(host) + "/" + ToLower(path)
  {
    ScpTidied(user, host, Suffixed(path, git, slashes));
    TidyKey(host, path, git, slashes);
  }

  lemma Associated(path: string, git: string, slashes: string)
    ensures Suffixed(path, git, slashes) == path + (git + slashes)
  {
  }

  lemma WholeEscapes(scheme: string, user: string, host: string, path: string, git: string, slashes: string)
    requires Plain(path) && Optional(git, slashes) && All(Suffixed(path, git, slashes), IsPathChar)
    requires SchemeOk(scheme) && UserOk(user) && HostOk(host) && Unescape(path, false).Some?
    requires Unescape(Suffixed(path, git, slashes), false) == Some(Unescape(path, false).value + (git + slashes))
    ensures (NormalizeRemote(Spell(Full(scheme, user), host, "", Suffixed(path, git, slashes)))
             == ToLower(host) + "/" + ToLower(path)) <==> '%' !in path
  {
    var d := Decoded(path);
    WrittenKey(scheme, user, host, "", Suffixed(path, git, slashes));
    assert host + "" == host;
    if '%' in path {
      UnescapeShortens(path);
      Associate(host + "/", d, git + slashes);
      TidyShortens(host + "/" + d, git, slashes);
    } else {
      UnescapePlain(path, false);
      Associated(path, git, slashes);
      TidyKey(host, path, git, slashes);
    }
  }

  lemma BrokenEscape(scheme: string, user: string, host: string, path: string, git: string, slashes: string)
    requires Plain(path) && Optional(git, slashes) && All(Suffixed(path, git, slashes), IsPathChar)
    requires SchemeOk(scheme) && UserOk(user) && HostOk(host) && Unescape(Suffixed(path, git, slashes), false).None?
    ensures NormalizeRemote(Spell(Full(scheme, user), host, "", Suffixed(path, git, slashes)))
            != ToLower(host) + "/" + ToLower(path)
  {
    var raw := Suffixed(path, git, slashes);
    var text := Written(scheme, user, host, "", "/" + raw);
    assert ("/" + raw)[1..] == raw;
    WrittenMarked(scheme, user, host, "", "/" + raw);
    WrittenParses(scheme, user, host, "", "/" + raw);
    var head := scheme + "://" + Authority(user, host, "");
    Associate(head, "/", raw);
    TidyKey(head, path, git, slashes);
  }

  lemma EscapedBlank()
    ensures Unescape("a%20b", false) == Some("a b")
  {
    var tail := "%20b";
    assert tail[0] == '%' && tail[1] == '2' && tail[2] == '0' && tail[3..] == "b";
    assert HexValue('2') == Some(2) && HexValue('0') == Some(0) && 32 as char == ' ';
    UnescapePlain("b", false);
    assert Unescape(tail, false) == Some([' '] + "b");
    assert "a%20b"[1..] == tail;
    assert ['a'] + ([' '] + "b") == "a b";
  }

  /**
   git@h:a%20b and https://h/a%20b, for any user, scheme and host: an escaped blank is a blank in the key
   of the URL, and three characters in that of the scp form.
  */
  lemma EscapedPathsDiffer(user: string, scheme: string, host: string)
    requires user != "" && (forall c | c in user :: c !in "@:/") && SchemeOk(scheme) && HostOk(host)
    ensures NormalizeRemote(user + "@" + host + ":" + "a%20b") == ToLower(host) + "/" + "a%20b"
    ensures NormalizeRemote(scheme + "://" + host + "/" + "a%20b") == ToLower(host) + "/" + "a b"
  {
    EscapedBlank();
    ExamplePath("a%20b");
    ExamplePath("a b");
    var _ := ScpExample(user, host, "a%20b");
    var _ := UrlExample(scheme, host, "a%20b", "a b");
  }

  lemma ExamplePath(path: string)
    requires |path| > 0 && path[|path| - 1] == 'b' && forall i | 0 <= i < |path| ::
               path[i] in {'a', 'b', ' ', '%', '2', '0'}
    ensures Plain(path) && All(path, IsPathChar) && '/' !in path && ToLower(path) == path
  {
    var low := ToLower(path);
    assert low[|low| - 1] == 'b';
    assert |low| >= 4 ==> low[|low| - 4..][3] == 'b' && ".git"[3] == 't';
  }

  lemma ScpExample(user: string, host: string, path: string) returns (text: string)
    requires user != "" && (forall c | c in user :: c !in "@:/") && HostOk(host) && Plain(path) && '/' !in path
    ensures text == user + "@" + host + ":" + path && NormalizeRemote(text) == ToLower(host) + "/" + ToLower(path)
  {
    text := user + "@" + host + ":" + path;
    ScpText(user, host, path);
    assert '/' !in host && '/' !in text;
    NoMark(text);
    ScpPlainKey(user, host, path);
  }

  lemma ScpPlainKey(user: string, host: string, path: string)
    requires WellFormed(Scp(user), host, "", path) && Plain(path)
    ensures NormalizeRemote(Spell(Scp(user), host, "", path)) == ToLower(host) + "/" + ToLower(path)
  {
    assert Suffixed(path, "", "") == path;
    SpelledKey(RemoteText(Scp(user), host, "", path, path, "", ""));
    assert ToLower(host) + "" == ToLower(host);
  }

  lemma ScpText(user: string, host: string, raw: string)
    requires user != ""
    ensures Spell(Scp(user), host, "", raw) == user + "@" + host + ":" + raw
  {
    Associate(user + "@", host + ":", raw);
    Associate(user + "@", host, ":");
  }

  lemma UrlExample(scheme: string, host: string, raw: string, path: string) returns (text: string)
    requires SchemeOk(scheme) && HostOk(host) && PathOk(raw) && Decoded(raw) == path && Plain(path)
    ensures text == scheme + "://" + host + "/" + raw && NormalizeRemote(text) == ToLower(host) + "/" + ToLower(path)
  {
    text := Spell(Full(scheme, ""), host, "", raw);
    assert text == scheme + "://" + host + "/" + raw;
    WrittenKey(scheme, "", host, "", raw);
    assert host + "" == host && Suffixed(path, "", "") == path;
    TidyKey(host, path, "", "");
  }

  /** Without a user the scp spelling has the right key exactly when its path holds no "@". */
  lemma NoUserSameKeyIff(host: string, path: string, git: string, slashes: string)
    requires HostOk(host) && Plain(path) && Optional(git, slashes)
    requires !Contains(host + ":" + Suffixed(path, git, slashes), SCHEME_MARK)
    ensures NormalizeRemote(host + ":" + Suffixed(path, git, slashes)) == ToLower(host) + "/" + ToLower(path)
            <==> '@' !in path
  {
    var raw := Suffixed(path, git, slashes);
    SuffixChars(git, slashes);
    Associated(path, git, slashes);
    assert "" + (host + ":" + raw) == host + ":" + raw;
    if '@' !in path {
      assert '@' !in raw;
      ScpTidied("", host, raw);
      TidyKey(host, path, git, slashes);
    } else {
      var r := CutInPath(host, path, git, slashes);
      TidyShortens(r, git, slashes);
    }
  }

  /** What is left of it otherwise is shorter than the path. */
  lemma CutInPath(host: string, path: string, git: string, slashes: string) returns (r: string)
    requires HostOk(host) && Optional(git, slashes) && '@' in path
    ensures ReplaceFirst(AfterFirst(host + ":" + Suffixed(path, git, slashes), '@'), ':', "/") == r + (git + slashes)
    ensures |r| < |path|
  {
    var at := IndexOf(path, '@');
    var p, q := path[..at], path[at + 1..];
    var rest := git + slashes;
    SuffixChars(git, slashes);
    assert path == p + ['@'] + q && '@' !in p && '@' !in host + ":";
    TailAfterAt(host + ":", p, q, rest);
    Associated(path, git, slashes);
    ReplaceInFront(q, rest);
    r := if ':' in q then ReplaceFirst(q, ':', "/") else q;
  }

  lemma TailAfterAt(head: string, p: string, q: string, rest: string)
    requires '@' !in head && '@' !in p
    ensures AfterFirst(head + (p + ['@'] + q + rest), '@') == q + rest
  {
    assert head + (p + ['@'] + q + rest) == (head + p) + ['@'] + (q + rest);
    AfterFirstOf(head + p, '@', q + rest);
  }

  lemma ReplaceInFront(q: string, rest: string)
    requires ':' !in rest
    ensures var r := if ':' in q then ReplaceFirst(q, ':', "/") else q;
            ReplaceFirst(q + rest, ':', "/") == r + rest && |r| == |q|
  {
    if ':' in q {
      var i := IndexOf(q, ':');
      assert q + rest == q[..i] + [':'] + (q[i + 1..] + rest);
      assert q == q[..i] + [':'] + q[i + 1..];
      ReplaceFirstOf(q[..i], ':', q[i + 1..] + rest, "/");
      ReplaceFirstOf(q[..i], ':', q[i + 1..], "/");
      assert q[..i] + "/" + (q[i + 1..] + rest) == q[..i] + "/" + q[i + 1..] + rest;
    } else {
      IndexOfAbsent(q + rest, ':');
    }
  }

  // ---- the host ----

  /** The host of a key is the host of the remote, whatever scheme, user and port it was spelled with. */
  lemma SpelledHost(r: RemoteText)
    requires TextOk(r)
    ensures RemoteHost(NormalizeRemote(Text(r))) == ToLower(r.host)
  {
    SpelledKey(r);
    LowerHost(r.host);
    KeyHost(ToLower(r.host), r.port, ToLower(r.path));
  }

  lemma KeyHost(host: string, port: string, path: string)
    requires HostOk(host) && ValidOptionalPort(port)
    ensures RemoteHost(host + port + "/" + path) == host
  {
    KeyParts(host, port, path, host + port + "/" + path);
    StripOptionalPort(host, port);
  }

  lemma LowerHost(host: string)
    requires HostOk(host)
    ensures HostOk(ToLower(host))
  {
  }

  lemma StripOptionalPort(host: string, port: string)
    requires HostOk(host) && ValidOptionalPort(port)
    ensures StripPort(host + port) == host
  {
    assert ':' !in host && NoBrackets(host);
    if port == "" {
      assert host + port == host;
      StripPortName(host, "");
    } else {
      assert host + port == host + ":" + port[1..];
      StripPortName(host, port[1..]);
    }
  }

  /** A host entry: the bare name, or a URL without a path. */
  datatype HostSpelling = Bare | WithScheme(scheme: string, user: string, raw: string)

  function SpellHost(hs: HostSpelling, host: string, port: string): string {
    match hs
    case Bare => host + port
    case WithScheme(scheme, user, raw) => Written(scheme, user, host, port, raw)
  }

  /** A path that spells nothing but slashes, if that. */
  predicate NoPath(raw: string) {
    PathOk(raw) && (raw == "" || raw[0] == '/') && All(Decoded(raw), IsSlash)
  }

  /** A bare name must be dotted, and not at its ends. */
  predicate HostWellFormed(hs: HostSpelling, host: string, port: string) {
    && HostOk(host) && ValidOptionalPort(port)
    && match hs
       case Bare => '.' in host && host[0] != '.' && (port == "" ==> host[|host| - 1] != '.')
       case WithScheme(scheme, user, raw) => SchemeOk(scheme) && UserOk(user) && NoPath(raw)
  }

  /** Every spelling of a host entry gates that host. */
  lemma SpelledEntry(hs: HostSpelling, host: string, port: string)
    requires HostWellFormed(hs, host, port)
    ensures HostEntry(SpellHost(hs, host, port)) == ToLower(host)
  {
    EntryIsTrimmed(hs, host, port);
    LowerHost(host);
    StripOptionalPort(ToLower(host), port);
    match hs
    case Bare =>
      LowerPort(port);
      LowerConcat(host, port);
      BareEntry(host, port);
    case WithScheme(scheme, user, raw) =>
      LowerWritten(scheme, user, host, port, raw);
      LowerNoPath(raw);
      WrittenEntry(ToLower(scheme), ToLower(user), ToLower(host), port, ToLower(raw));
  }

  lemma WrittenEntry(scheme: string, user: string, host: string, port: string, raw: string)
    requires SchemeOk(scheme) && UserOk(user) && HostOk(host) && ValidOptionalPort(port) && NoPath(raw)
    ensures var s := Written(scheme, user, host, port, raw);
            Contains(s, SCHEME_MARK) && UrlHost(s) == StripPort(host + port)
  {
    WrittenMarked(scheme, user, host, port, raw);
    WrittenParses(scheme, user, host, port, raw);
    var slashes := Decoded(raw);
    TrimOf(slashes, "", "", IsSlash);
    assert slashes + "" + "" == slashes;
  }

  lemma LowerPathOk(raw: string)
    requires PathOk(raw)
    ensures PathOk(ToLower(raw)) && ToLower(Decoded(ToLower(raw))) == ToLower(Decoded(raw))
  {
    UnescapeLower(raw);
  }

  lemma LowerNoPath(raw: string)
    requires NoPath(raw)
    ensures NoPath(ToLower(raw))
  {
    LowerPathOk(raw);
    var low, d := Decoded(ToLower(raw)), Decoded(raw);
    forall i | 0 <= i < |low| ensures IsSlash(low[i]) {
      assert ToLower(low)[i] == ToLower(d)[i] == '/';
    }
  }

  lemma EntryIsTrimmed(hs: HostSpelling, host: string, port: string)
    requires HostWellFormed(hs, host, port)
    ensures TrimSpace(SpellHost(hs, host, port)) == SpellHost(hs, host, port)
  {
    var e := SpellHost(hs, host, port);
    EntryEnds(hs, host, port);
    NotSpace(e[0]);
    NotSpace(e[|e| - 1]);
    TrimmedStays(e);
  }

  lemma NotSpace(c: char)
    requires IsLetter(c) || IsNameChar(c) || c in ":/"
    ensures !IsSpace(c)
  {
  }

  lemma TrimmedStays(e: string)
    requires IsTrimmed(e, IsSpace)
    ensures TrimSpace(e) == e
  {
    TrimOf("", e, "", IsSpace);
    assert "" + e + "" == e;
  }

  lemma EntryEnds(hs: HostSpelling, host: string, port: string)
    requires HostWellFormed(hs, host, port)
    ensures var e := SpellHost(hs, host, port);
            && e != "" && (IsLetter(e[0]) || IsNameChar(e[0]))
            && (IsNameChar(e[|e| - 1]) || e[|e| - 1] in ":/")
  {
    match hs
    case Bare =>
      LastOf("", host, port);
      assert "" + (host + port) == host + port;
    case WithScheme(scheme, user, raw) =>
      WrittenEnds(scheme, user, host, port, raw);
  }

  lemma WrittenEnds(scheme: string, user: string, host: string, port: string, raw: string)
    requires SchemeOk(scheme) && HostOk(host) && ValidOptionalPort(port) && NoPath(raw)
    ensures var e := Written(scheme, user, host, port, raw);
            e != "" && IsLetter(e[0]) && (IsNameChar(e[|e| - 1]) || e[|e| - 1] in ":/")
  {
    var front := scheme + "://" + Authority(user, host, port);
    var e := front + raw;
    assert e[0] == scheme[0];
    if raw != "" {
      LastOfSlashes(raw);
      assert e[|e| - 1] == raw[|raw| - 1];
    } else {
      LastOf(scheme + "://" + (if user == "" then "" else user + "@"), host, port);
      Associate(scheme + "://", if user == "" then "" else user + "@", host + port);
      assert e == front;
    }
  }

  lemma LastOf(front: string, host: string, port: string)
    requires HostOk(host) && ValidOptionalPort(port)
    ensures var e := front + (host + port); IsNameChar(e[|e| - 1]) || e[|e| - 1] == ':'
  {
    PortChars(port);
    var e := front + (host + port);
    assert e[|e| - 1] == if port == "" then host[|host| - 1] else port[|port| - 1];
  }

  lemma {:induction false} LastOfSlashes(raw: string)
    requires raw != "" && Unescape(raw, false).Some? && All(Unescape(raw, false).value, IsSlash)
    ensures raw[|raw| - 1] == '/' || HexValue(raw[|raw| - 1]).Some?
  {
    var d := Unescape(raw, false).value;
    var n := if raw[0] == '%' then 3 else 1;
    assert n == 1 ==> d[0] == raw[0];
    if |raw| > n {
      assert d[1..] == Unescape(raw[n..], false).value;
      LastOfSlashes(raw[n..]);
    }
  }

  lemma BareEntry(host: string, port: string)
    requires HostWellFormed(Bare, host, port)
    ensures var s := ToLower(host) + port;
            !Contains(s, SCHEME_MARK) && NameHost(s) == StripPort(s)
  {
    LowerHost(host);
    LowerHas(host, '.');
    NameChars(ToLower(host), port);
    NoMark(ToLower(host) + port);
  }

  lemma NameChars(host: string, port: string)
    requires HostOk(host) && ValidOptionalPort(port)
    requires '.' in host && host[0] != '.' && (port == "" ==> host[|host| - 1] != '.')
    ensures var s := host + port;
            '/' !in s && '@' !in s && '.' in s && s[0] != '.' && s[|s| - 1] != '.'
  {
    PortChars(port);
    var s := host + port;
    assert s[|s| - 1] == if port == "" then host[|host| - 1] else port[|port| - 1];
    assert '/' !in host && '@' !in host && '/' !in port && '@' !in port;
  }

  lemma NoMark(s: string)
    requires '/' !in s
    ensures !Contains(s, SCHEME_MARK)
  {
    forall i | 0 <= i <= |s| ensures !(SCHEME_MARK <= s[i..]) {
      assert SCHEME_MARK[1] == '/';
      assert |s[i..]| >= 2 ==> s[i..][1] == s[i + 1];
    }
  }

  lemma LowerWritten(scheme: string, user: string, host: string, port: string, raw: string)
    requires SchemeOk(scheme) && UserOk(user) && ValidOptionalPort(port)
    ensures ToLower(Written(scheme, user, host, port, raw))
            == Written(ToLower(scheme), ToLower(user), ToLower(host), port, ToLower(raw))
    ensures SchemeOk(ToLower(scheme)) && UserOk(ToLower(user))
  {
    LowerConcat(scheme + "://" + Authority(user, host, port), raw);
    LowerConcat(scheme + "://", Authority(user, host, port));
    LowerConcat(scheme, "://");
    LowerAuthority(user, host, port);
    UnescapeLower(user);
    assert ToLower("://") == "://";
  }

  lemma LowerAuthority(user: string, host: string, port: string)
    requires ValidOptionalPort(port)
    ensures ToLower(Authority(user, host, port)) == Authority(ToLower(user), ToLower(host), port)
  {
    LowerPort(port);
    LowerConcat(host, port);
    LowerConcat(user, "@");
    LowerConcat(user + "@", host + port);
    assert ToLower("@") == "@";
    assert "" + (host + port) == host + port;
    assert "" + (ToLower(host) + port) == ToLower(host) + port;
  }

  /** A host entry gates a remote exactly when the hosts agree up to case, whatever scheme, user or port either has. */
  lemma HostMatchesIff(hs: HostSpelling, host: string, port: string, r: RemoteText)
    requires HostWellFormed(hs, host, port) && TextOk(r)
    ensures HostEntry(SpellHost(hs, host, port)) == RemoteHost(NormalizeRemote(Text(r)))
            <==> SameUpToCase(host, r.host)
  {
    LowerSameIff(host, r.host);
    SpelledEntry(hs, host, port);
    SpelledHost(r);
  }
}
