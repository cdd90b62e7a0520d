/** The repository whitelist of internal/proxy/repo.go: the matcher built from its entries, and what it admits. */
module RepoMatcher {
  import opened Prelude
  import opened Strings
  import opened Url
  import opened Remote

  /** What git reports of a directory: its common dir, or "", and the keys of its remotes. */
  datatype Git = Git(commonDir: string -> string, remotes: string -> seq<string>)

  datatype Matcher = Matcher(commonDirs: set<string>, remotes: set<string>, hosts: set<string>)

  /** How one entry is read. */
  datatype Meaning = Unusable | Repository(key: string) | GitHost(host: string) | Local(dir: string)

  /** A local path is tried before the bare host reading. */
  function MeaningOf(git: Git, entry: string): Meaning {
    var e := TrimSpace(entry);
    if e == "" then Unusable
    else if IsRemoteURL(e) then (if HostEntry(e) != "" then GitHost(HostEntry(e)) else Repository(NormalizeRemote(e)))
    else if git.commonDir(e) != "" then Local(git.commonDir(e))
    else if HostEntry(e) != "" then GitHost(HostEntry(e))
    else Unusable
  }

  // ---- the matcher ----

  // The lemmas here hold for any reading of entries; `Reading` is that of the source.

  /** One of the first `n` entries is read as `m`. */
  ghost predicate Reads(entries: seq<string>, n: nat, read: string -> Meaning, m: Meaning)
    requires n <= |entries|
  {
    exists i | 0 <= i < n :: read(entries[i]) == m
  }

  /** The three sets hold what the entries were read as. */
  ghost predicate Holds(entries: seq<string>, n: nat, read: string -> Meaning, m: Matcher)
    requires n <= |entries|
  {
    && (forall d :: d in m.commonDirs <==> Reads(entries, n, read, Local(d)))
    && (forall k :: k in m.remotes <==> Reads(entries, n, read, Repository(k)))
    && (forall h :: h in m.hosts <==> Reads(entries, n, read, GitHost(h)))
  }

  function Include(m: Matcher, x: Meaning): Matcher {
    match x
    case Unusable => m
    case Repository(key) => m.(remotes := m.remotes + {key})
    case GitHost(host) => m.(hosts := m.hosts + {host})
    case Local(dir) => m.(commonDirs := m.commonDirs + {dir})
  }

  lemma HoldsNone(entries: seq<string>, read: string -> Meaning)
    ensures Holds(entries, 0, read, Matcher({}, {}, {}))
  {
  }

  lemma HoldsNext(entries: seq<string>, n: nat, read: string -> Meaning, m: Matcher)
    requires n < |entries| && Holds(entries, n, read, m)
    ensures Holds(entries, n + 1, read, Include(m, read(entries[n])))
  {
    forall x ensures Reads(entries, n + 1, read, x) <==> Reads(entries, n, read, x) || read(entries[n]) == x {
    }
  }

  function Reading(git: Git): string -> Meaning {
    e => MeaningOf(git, e)
  }

  /** `read` is the reading of the source; said so that it is only looked into where an entry is read. */
  ghost predicate IsReading(git: Git, read: string -> Meaning) {
    forall e {:trigger MeaningOf(git, e)} :: read(e) == MeaningOf(git, e)
  }

  /** One round of the loop: a remote or a host, else a local repository, else a bare host. */
  method AddEntry(m: Matcher, entry: string, git: Git, ghost read: string -> Meaning) returns (r: Matcher)
    requires IsReading(git, read)
    ensures r == Include(m, read(entry))
  {
    r := m;
    assert read(entry) == MeaningOf(git, entry);
    var e := TrimSpace(entry);
    if e == "" {
      return;
    }
    if IsRemoteURL(e) {
      var h := HostEntry(e);
      if h != "" {
        r := r.(hosts := r.hosts + {h});
      } else {
        r := r.(remotes := r.remotes + {NormalizeRemote(e)});
      }
      return;
    }
    var cd := git.commonDir(e);
    if cd != "" {
      r := r.(commonDirs := r.commonDirs + {cd});
      return;
    }
    var h := HostEntry(e);
    if h != "" {
      r := r.(hosts := r.hosts + {h});
    }
  }

  method AddEntries(entries: seq<string>, git: Git, ghost read: string -> Meaning) returns (r: Matcher)
    requires IsReading(git, read)
    ensures Holds(entries, |entries|, read, r)
  {
    r := Matcher({}, {}, {});
    HoldsNone(entries, read);
    var i := 0;
    while i < |entries|
      invariant 0 <= i <= |entries| && Holds(entries, i, read, r)
    {
      HoldsNext(entries, i, read, r);
      r := AddEntry(r, entries[i], git, read);
      i := i + 1;
    }
  }

  /** No matcher for an empty list; for any other list a matcher, even if nothing in it is usable. */
  method NewRepoMatcher(entries: seq<string>, git: Git) returns (m: Option<Matcher>)
    ensures m.None? <==> entries == []
    ensures m.Some? ==> Holds(entries, |entries|, Reading(git), m.value)
  {
    if |entries| == 0 {
      return None;
    }
    var r := AddEntries(entries, git, Reading(git));
    return Some(r);
  }

  predicate AdmitsRemote(m: Matcher, key: string) {
    key in m.remotes || RemoteHost(key) in m.hosts
  }

  predicate Admits(m: Matcher, git: Git, dir: string) {
    || (git.commonDir(dir) != "" && git.commonDir(dir) in m.commonDirs)
    || exists j | 0 <= j < |git.remotes(dir)| :: AdmitsRemote(m, git.remotes(dir)[j])
  }

  /** Some directory of the client resolves to a whitelisted repository. */
  method Matches(m: Matcher, dirs: seq<string>, git: Git) returns (r: bool)
    ensures r <==> exists i | 0 <= i < |dirs| :: Admits(m, git, dirs[i])
  {
    var i := 0;
    while i < |dirs|
      invariant 0 <= i <= |dirs| && forall k | 0 <= k < i :: !Admits(m, git, dirs[k])
    {
      var cd := git.commonDir(dirs[i]);
      if cd != "" && cd in m.commonDirs {
        return true;
      }
      if |m.remotes| > 0 || |m.hosts| > 0 {
        var keys := git.remotes(dirs[i]);
        var j := 0;
        while j < |keys|
          invariant 0 <= j <= |keys| && forall k | 0 <= k < j :: !AdmitsRemote(m, keys[k])
        {
          if keys[j] in m.remotes || RemoteHost(keys[j]) in m.hosts {
            assert AdmitsRemote(m, keys[j]);
            return true;
          }
          j := j + 1;
        }
      }
      i := i + 1;
    }
    return false;
  }

  // ---- what a whitelist means ----

  /** An entry read like this admits the directory. */
  predicate EntryAdmits(git: Git, m: Meaning, dir: string) {
    match m
    case Unusable => false
    case Local(d) => git.commonDir(dir) == d && d != ""
    case Repository(key) => key in git.remotes(dir)
    case GitHost(host) => exists j | 0 <= j < |git.remotes(dir)| :: RemoteHost(git.remotes(dir)[j]) == host
  }

  /** The matcher admits a directory exactly when one of the entries does, whatever their order. */
  lemma WhitelistMeaning(entries: seq<string>, read: string -> Meaning, m: Matcher, git: Git, dir: string)
    requires Holds(entries, |entries|, read, m)
    ensures Admits(m, git, dir) <==> exists i | 0 <= i < |entries| :: EntryAdmits(git, read(entries[i]), dir)
  {
    if Admits(m, git, dir) {
      var x := Witness(entries, read, m, git, dir);
      var i :| 0 <= i < |entries| && read(entries[i]) == x;
    }
    if i :| 0 <= i < |entries| && EntryAdmits(git, read(entries[i]), dir) {
      assert Reads(entries, |entries|, read, read(entries[i]));
      HeldAdmits(entries, read, m, git, read(entries[i]), dir);
    }
  }

  lemma Witness(entries: seq<string>, read: string -> Meaning, m: Matcher, git: Git, dir: string) returns (x: Meaning)
    requires Holds(entries, |entries|, read, m) && Admits(m, git, dir)
    ensures Reads(entries, |entries|, read, x) && EntryAdmits(git, x, dir)
  {
    if git.commonDir(dir) != "" && git.commonDir(dir) in m.commonDirs {
      x := Local(git.commonDir(dir));
    } else {
      var j :| 0 <= j < |git.remotes(dir)| && AdmitsRemote(m, git.remotes(dir)[j]);
      var key := git.remotes(dir)[j];
      x := if key in m.remotes then Repository(key) else GitHost(RemoteHost(key));
    }
  }

  lemma HeldAdmits(entries: seq<string>, read: string -> Meaning, m: Matcher, git: Git, x: Meaning, dir: string)
    requires Holds(entries, |entries|, read, m) && Reads(entries, |entries|, read, x) && EntryAdmits(git, x, dir)
    ensures Admits(m, git, dir)
  {
    match x
    case Local(d) =>
    case Repository(key) =>
      var j :| 0 <= j < |git.remotes(dir)| && git.remotes(dir)[j] == key;
      assert AdmitsRemote(m, git.remotes(dir)[j]);
    case GitHost(host) =>
      var j :| 0 <= j < |git.remotes(dir)| && RemoteHost(git.remotes(dir)[j]) == host;
      assert AdmitsRemote(m, git.remotes(dir)[j]);
  }

  /** A whitelist none of whose entries is usable admits nobody. */
  lemma FailsClosed(entries: seq<string>, read: string -> Meaning, m: Matcher, git: Git, dir: string)
    requires Holds(entries, |entries|, read, m) && forall i | 0 <= i < |entries| :: read(entries[i]) == Unusable
    ensures !Admits(m, git, dir)
  {
    WhitelistMeaning(entries, read, m, git, dir);
  }

  /**
   The whole gate: without a whitelist the upstream is advertised to everybody, with one to the
   clients that work in a directory some entry admits.
  */
  method AdvertiseTo(entries: seq<string>, dirs: seq<string>, git: Git) returns (ok: bool)
    ensures ok <==> entries == [] || WhitelistAdmits(git, entries, dirs)
  {
    var m := NewRepoMatcher(entries, git);
    if m.None? {
      return true;
    }
    ok := Matches(m.value, dirs, git);
    WholePath(git, entries, m.value, dirs);
  }

  predicate WhitelistAdmits(git: Git, entries: seq<string>, dirs: seq<string>) {
    exists i, k | 0 <= i < |entries| && 0 <= k < |dirs| :: EntryAdmits(git, MeaningOf(git, entries[i]), dirs[k])
  }

  lemma WholePath(git: Git, entries: seq<string>, m: Matcher, dirs: seq<string>)
    requires Holds(entries, |entries|, Reading(git), m)
    ensures (exists k | 0 <= k < |dirs| :: Admits(m, git, dirs[k])) <==> WhitelistAdmits(git, entries, dirs)
  {
    forall k | 0 <= k < |dirs|
      ensures Admits(m, git, dirs[k])
              <==> exists i | 0 <= i < |entries| :: EntryAdmits(git, Reading(git)(entries[i]), dirs[k])
    {
      WhitelistMeaning(entries, Reading(git), m, git, dirs[k]);
    }
  }

  // ---- spelled entries ----

  lemma LowerContains(s: string)
    ensures Contains(ToLower(s), SCHEME_MARK) <==> Contains(s, SCHEME_MARK)
  {
    var low := ToLower(s);
    forall i | 0 <= i <= |s| ensures SCHEME_MARK <= low[i..] <==> SCHEME_MARK <= s[i..] {
      if |s| - i >= 3 {
        assert low[i] == ':' <==> s[i] == ':';
        assert s[i..][..3] == [s[i], s[i + 1], s[i + 2]] && low[i..][..3] == [low[i], low[i + 1], low[i + 2]];
        assert SCHEME_MARK == [':', '/', '/'];
        assert SCHEME_MARK <= s[i..] <==> s[i..][..3] == SCHEME_MARK;
        assert SCHEME_MARK <= low[i..] <==> low[i..][..3] == SCHEME_MARK;
      }
    }
  }

  predicate HasNoBlankEnds(r: RemoteText) {
    IsTrimmed(Text(r), IsSpace)
  }

  /** The scp form counts as a remote in a whitelist only if it names its user. */
  predicate NamesUser(r: RemoteText) {
    r.sp.Scp? ==> r.sp.user != ""
  }

  /**
   An entry that spells a repository stands for its key; an scp form without a user does not stand for a
   repository.
  */
  lemma RepositoryEntry(git: Git, r: RemoteText)
    requires TextOk(r) && HasNoBlankEnds(r)
    ensures if NamesUser(r) then MeaningOf(git, Text(r)) == Repository(Key(r)) else !MeaningOf(git, Text(r)).Repository?
  {
    TrimmedStays(Text(r));
    SpelledKey(r);
    if NamesUser(r) {
      if r.sp.Scp? {
        ScpEntry(r.sp.user, r.host, r.raw);
      } else {
        UrlEntry(r);
      }
      ReadAsRepository(git, Text(r));
    } else {
      NoUserNoRemote(r.host, r.raw);
      NotReadAsRepository(git, Text(r));
    }
  }

  lemma ReadAsRepository(git: Git, t: string)
    requires TrimSpace(t) == t && IsRemoteURL(t) && HostEntry(t) == ""
    ensures MeaningOf(git, t) == Repository(NormalizeRemote(t))
  {
    assert t != "";
  }

  lemma NotReadAsRepository(git: Git, t: string)
    requires TrimSpace(t) == t && !IsRemoteURL(t)
    ensures !MeaningOf(git, t).Repository?
  {
  }

  lemma ScpEntry(user: string, host: string, raw: string)
    requires user != "" && WellFormed(Scp(user), host, "", raw)
    requires var t := Spell(Scp(user), host, "", raw); TrimSpace(t) == t
    ensures var t := Spell(Scp(user), host, "", raw); IsRemoteURL(t) && HostEntry(t) == ""
  {
    ScpText(user, host, raw);
    ScpFrontIsRemote(user, host, raw);
    ScpIsNoHost(user, host, raw);
  }

  lemma UrlEntry(r: RemoteText)
    requires TextOk(r) && r.sp.Full? && TrimSpace(Text(r)) == Text(r)
    ensures IsRemoteURL(Text(r)) && HostEntry(Text(r)) == ""
  {
    WrittenMarked(r.sp.scheme, r.sp.user, r.host, r.port, "/" + r.raw);
    var k := |r.path| - 1;
    assert Decoded(r.raw)[k] == r.path[k];
    WrittenIsNoHost(r.sp.scheme, r.sp.user, r.host, r.port, r.raw, k);
  }

  lemma NoUserNoRemote(host: string, raw: string)
    requires WellFormed(Scp(""), host, "", raw)
    ensures !IsRemoteURL(Spell(Scp(""), host, "", raw))
  {
    var s := Spell(Scp(""), host, "", raw);
    assert s == host + ":" + raw;
    assert '@' !in host && '@' !in s;
    IndexOfAbsent(s, '@');
  }

  lemma ScpIsNoHost(user: string, host: string, path: string)
    requires var e := user + "@" + host + ":" + path; !Contains(e, SCHEME_MARK) && TrimSpace(e) == e
    ensures HostEntry(user + "@" + host + ":" + path) == ""
  {
    var e := user + "@" + host + ":" + path;
    LowerContains(e);
    assert ToLower(e)[|user|] == '@';
  }

  lemma WrittenIsNoHost(scheme: string, user: string, host: string, port: string, raw: string, k: nat)
    requires WellFormed(Full(scheme, user), host, port, raw)
    requires k < |Decoded(raw)| && Decoded(raw)[k] != '/'
    requires var e := Written(scheme, user, host, port, "/" + raw); TrimSpace(e) == e
    ensures HostEntry(Written(scheme, user, host, port, "/" + raw)) == ""
  {
    SlashFirst(raw);
    LowerPathOk("/" + raw);
    var low, d := Decoded(ToLower("/" + raw)), Decoded("/" + raw);
    assert ToLower(low)[k + 1] == ToLower(d)[k + 1] && d[k + 1] == Decoded(raw)[k];
    NotOnlySlashes(low, k + 1);
    var e := LoweredParses(scheme, user, host, port, "/" + raw);
    UrlWithPath(e);
  }

  lemma LoweredParses(scheme: string, user: string, host: string, port: string, path: string) returns (e: string)
    requires SchemeOk(scheme) && UserOk(user) && HostOk(host) && ValidOptionalPort(port)
    requires PathOk(ToLower(path)) && path != "" && path[0] == '/'
    ensures e == Written(scheme, user, host, port, path)
    ensures Contains(ToLower(e), SCHEME_MARK)
    ensures Parse(ToLower(e)) == Some(URL(ToLower(host) + port, Decoded(ToLower(path))))
  {
    e := Written(scheme, user, host, port, path);
    LowerWritten(scheme, user, host, port, path);
    LowerHost(host);
    WrittenMarked(ToLower(scheme), ToLower(user), ToLower(host), port, ToLower(path));
    WrittenParses(ToLower(scheme), ToLower(user), ToLower(host), port, ToLower(path));
  }

  lemma UrlWithPath(e: string)
    requires TrimSpace(e) == e && Contains(ToLower(e), SCHEME_MARK)
    requires Parse(ToLower(e)).Some? && Trim(Parse(ToLower(e)).value.path, IsSlash) != ""
    ensures HostEntry(e) == ""
  {
  }

  lemma NotOnlySlashes(s: string, k: nat)
    requires k < |s| && s[k] != '/'
    ensures Trim(s, IsSlash) != ""
  {
    TrimIff(s, "", IsSlash);
    forall a, b | All(a, IsSlash) && All(b, IsSlash) ensures s != a + "" + b {
      assert k < |a| + |b| ==> IsSlash((a + "" + b)[k]);
    }
  }

  /** gitRemotes reports the key of every remote that is configured. */
  predicate ClonedFrom(git: Git, dir: string, rs: seq<RemoteText>) {
    && |git.remotes(dir)| == |rs|
    && forall j | 0 <= j < |rs| :: git.remotes(dir)[j] == NormalizeRemote(TrimSpace(Text(rs[j])))
  }

  predicate WellWritten(rs: seq<RemoteText>) {
    forall j | 0 <= j < |rs| :: TextOk(rs[j]) && HasNoBlankEnds(rs[j])
  }

  lemma RemoteReported(git: Git, dir: string, rs: seq<RemoteText>, j: nat)
    requires WellWritten(rs) && ClonedFrom(git, dir, rs) && j < |rs|
    ensures git.remotes(dir)[j] == NormalizeRemote(Text(rs[j]))
  {
    TrimmedStays(Text(rs[j]));
  }

  /**
   A repository entry admits a clone exactly when one of its remotes has the host, port and path of the
   entry, however each is spelled.
  */
  lemma RepositoryAdmitsIff(git: Git, dir: string, a: RemoteText, rs: seq<RemoteText>)
    requires TextOk(a) && HasNoBlankEnds(a) && NamesUser(a) && WellWritten(rs)
    ensures ClonedFrom(git, dir, rs) ==>
              (EntryAdmits(git, MeaningOf(git, Text(a)), dir) <==> exists j | 0 <= j < |rs| :: SameRemote(a, rs[j]))
  {
    RepositoryEntry(git, a);
    if ClonedFrom(git, dir, rs) {
      forall j | 0 <= j < |rs| ensures git.remotes(dir)[j] == Key(a) <==> SameRemote(a, rs[j]) {
        RemoteReported(git, dir, rs, j);
        SpelledKey(a);
        SameKeyIff(a, rs[j]);
      }
      KeyListed(git.remotes(dir), Key(a));
    }
  }

  lemma KeyListed(keys: seq<string>, key: string)
    ensures key in keys <==> exists j | 0 <= j < |keys| :: keys[j] == key
  {
  }

  /** A bare name is a host only if it is no local repository; a URL is read before git is asked. */
  predicate ReadAsHost(git: Git, hs: HostSpelling, host: string, port: string) {
    hs.Bare? ==> git.commonDir(SpellHost(hs, host, port)) == ""
  }

  lemma HostEntryRead(git: Git, hs: HostSpelling, host: string, port: string)
    requires HostWellFormed(hs, host, port) && ReadAsHost(git, hs, host, port)
    ensures MeaningOf(git, SpellHost(hs, host, port)) == GitHost(ToLower(host))
  {
    SpelledEntry(hs, host, port);
    EntryIsTrimmed(hs, host, port);
    LowerHost(host);
    if hs.WithScheme? {
      WrittenMarked(hs.scheme, hs.user, host, port, hs.raw);
    }
  }

  /**
   A host entry, a bare one if it is no local repository, admits exactly the clones with a remote on that host, by any
   scheme, user and port.
  */
  lemma HostAdmitsIff(git: Git, dir: string, hs: HostSpelling, host: string, port: string, rs: seq<RemoteText>)
    requires HostWellFormed(hs, host, port) && ReadAsHost(git, hs, host, port) && WellWritten(rs)
    ensures ClonedFrom(git, dir, rs) ==>
              (EntryAdmits(git, MeaningOf(git, SpellHost(hs, host, port)), dir)
               <==> exists j | 0 <= j < |rs| :: SameUpToCase(rs[j].host, host))
  {
    HostEntryRead(git, hs, host, port);
    if ClonedFrom(git, dir, rs) {
      forall j | 0 <= j < |rs| ensures OnHost(git, dir, j, host) <==> SameUpToCase(rs[j].host, host) {
        RemoteOnHost(git, dir, rs, j, host);
      }
      AdmittedOnHost(git, dir, host);
    }
  }

  predicate OnHost(git: Git, dir: string, j: nat, host: string) {
    j < |git.remotes(dir)| && RemoteHost(git.remotes(dir)[j]) == ToLower(host)
  }

  lemma RemoteOnHost(git: Git, dir: string, rs: seq<RemoteText>, j: nat, host: string)
    requires WellWritten(rs) && ClonedFrom(git, dir, rs) && j < |rs|
    ensures OnHost(git, dir, j, host) <==> SameUpToCase(rs[j].host, host)
  {
    RemoteReported(git, dir, rs, j);
    SpelledHost(rs[j]);
    LowerSameIff(rs[j].host, host);
  }

  lemma AdmittedOnHost(git: Git, dir: string, host: string)
    ensures EntryAdmits(git, GitHost(ToLower(host)), dir)
            <==> exists j | 0 <= j < |git.remotes(dir)| :: OnHost(git, dir, j, host)
  {
    if j :| 0 <= j < |git.remotes(dir)| && RemoteHost(git.remotes(dir)[j]) == ToLower(host) {
      assert OnHost(git, dir, j, host);
    }
    if j :| 0 <= j < |git.remotes(dir)| && OnHost(git, dir, j, host) {
      assert RemoteHost(git.remotes(dir)[j]) == ToLower(host);
    }
  }

  // ---- local entries ----

  /**
   An entry that is no remote and lies in a repository admits that repository and its worktrees, even if
   it looks like a host.
  */
  lemma LocalAdmitsIff(git: Git, entry: string, dir: string)
    requires TrimSpace(entry) == entry && entry != "" && !IsRemoteURL(entry) && git.commonDir(entry) != ""
    ensures EntryAdmits(git, MeaningOf(git, entry), dir) <==> git.commonDir(dir) == git.commonDir(entry)
  {
  }

  /** An entry is a remote exactly if it holds "://" or is user@host:path with the colon before any slash. */
  lemma RemoteFormIff(s: string)
    ensures IsRemoteURL(s) <==>
            Contains(s, "://") || exists u, h, p :: s == u + "@" + h + ":" + p && ScpFront(u, h)
  {
    if !Contains(s, "://") && IsRemoteURL(s) {
      var at, colon := IndexOf(s, '@'), IndexOf(s, ':');
      var u, h, p := s[..at], s[at + 1..colon], s[colon + 1..];
      assert s == u + "@" + h + ":" + p;
      assert ScpFront(u, h) by {
        assert forall k | 0 <= k < |h| :: h[k] == s[at + 1 + k];
      }
    }
    forall u, h, p | s == u + "@" + h + ":" + p && ScpFront(u, h) ensures IsRemoteURL(s) {
      ScpFrontIsRemote(u, h, p);
    }
  }

  predicate ScpFront(u: string, h: string) {
    u != "" && (forall k | 0 <= k < |u| :: u[k] !in "@:/") && forall k | 0 <= k < |h| :: h[k] !in ":/"
  }

  lemma ScpFrontIsRemote(u: string, h: string, p: string)
    requires ScpFront(u, h)
    ensures IsRemoteURL(u + "@" + h + ":" + p)
  {
    var s := u + "@" + h + ":" + p;
    assert s == u + ['@'] + (h + ":" + p);
    IndexOfFirst(u, '@', h + ":" + p);
    assert ':' !in u + "@" + h && '/' !in u + "@" + h;
    assert s == (u + "@" + h) + [':'] + p;
    IndexOfFirst(u + "@" + h, ':', p);
    assert forall k | 0 <= k <= |u + "@" + h| :: s[k] != '/';
  }

  /** A path, an scp form, and a name without a dot inside are no hosts. */
  lemma NoHostEntry(e: string)
    requires TrimSpace(e) == e && !Contains(e, "://")
    requires '/' in e || '@' in e || '.' !in e || e[0] == '.' || e[|e| - 1] == '.'
    ensures HostEntry(e) == ""
  {
    LowerContains(e);
    LowerHas(e, '/');
    LowerHas(e, '@');
    LowerHas(e, '.');
  }
}
