/**
 The egress proxy's includes: mark a reload as pending, swap the include in, have Squid parse
 it, commit the page file, reload.  As in SettingsTrial, a job is the list of atomic file
 operations it performs and a job that stops performs a prefix of it.
 */
module ProxyInclude {
  import opened Wrappers
  import opened Texts

  /* ---------- What the proxy allows ---------- */

  const SITE_HOSTS := "portikus_site_hosts"
  const SITE_LTI := "portikus_site_lti"
  const CONFIG_FOLDER := "/etc/portikus/"
  const PROXY_HOSTS_FILE := CONFIG_FOLDER + "proxy-hosts.json"
  const LTI_ADMIN_FILE := CONFIG_FOLDER + "lti-platforms-admin.json"

  /** Python's order on strings. */
  predicate Less(a: string, b: string) {
    if a == [] then b != [] else b != [] && (a[0] < b[0] || (a[0] == b[0] && Less(a[1..], b[1..])))
  }

  lemma {:induction false} LessTotal(a: string, b: string)
    ensures Less(a, b) || a == b || Less(b, a)
    ensures !(Less(a, b) && Less(b, a)) && !Less(a, a)
    decreases |a|
  {
    if a != [] {
      LessTotal(a[1..], a[1..]);
      if b != [] {
        LessTotal(a[1..], b[1..]);
        assert a == [a[0]] + a[1..] && b == [b[0]] + b[1..];
      }
    }
  }

  lemma {:induction false} LessTransitive(a: string, b: string, c: string)
    requires Less(a, b) && Less(b, c)
    ensures Less(a, c)
  {
    if a != [] && a[0] == b[0] && b[0] == c[0] {
      LessTransitive(a[1..], b[1..], c[1..]);
    }
  }

  predicate StrictlySorted(s: seq<string>) {
    forall i, j :: 0 <= i < j < |s| ==> Less(s[i], s[j])
  }

  /** One host into a sorted list without repeats. */
  function Insert(h: string, s: seq<string>): (r: seq<string>)
    requires StrictlySorted(s)
    ensures StrictlySorted(r)
    ensures forall x :: x in r <==> x == h || x in s
  {
    if s == [] then [h]
    else if h == s[0] then s
    else if Less(h, s[0]) then
      assert forall j :: 0 <= j < |s| ==> Less(h, s[j]) by {
        forall j | 0 < j < |s| ensures Less(h, s[j]) { LessTransitive(h, s[0], s[j]); }
      }
      [h] + s
    else
      assert Less(s[0], h) by { LessTotal(h, s[0]); }
      var rest := Insert(h, s[1..]);
      assert forall x :: x in rest ==> Less(s[0], x);
      [s[0]] + rest
  }

  /** sorted({h.lower() for h in hosts}) */
  function HostSet(hosts: seq<string>): (r: seq<string>)
    ensures StrictlySorted(r)
    ensures forall x :: x in r <==> exists i :: 0 <= i < |hosts| && Lower(hosts[i]) == x
  {
    if hosts == [] then [] else Insert(Lower(hosts[0]), HostSet(hosts[1..]))
  }

  lemma HasMember(s: seq<string>)
    ensures s != [] ==> exists x :: x in s
  {
    if s != [] {
      assert s[0] in s;
    }
  }

  lemma {:induction false} SortedUnique(a: seq<string>, b: seq<string>)
    requires StrictlySorted(a) && StrictlySorted(b) && (forall x :: x in a <==> x in b)
    ensures a == b
  {
    if a != [] {
      assert a[0] in b;
      assert b[0] in a;
      LessTotal(a[0], b[0]);
      assert a[0] == b[0];
      forall x ensures x in a[1..] <==> x in b[1..] {
        assert x in a <==> x == a[0] || x in a[1..];
        assert x in b <==> x == b[0] || x in b[1..];
        LessTotal(a[0], a[0]);
      }
      SortedUnique(a[1..], b[1..]);
      assert a == [a[0]] + a[1..] && b == [b[0]] + b[1..];
    } else {
      HasMember(b);
    }
  }

  function Comment(text: string): string {
    ['#', ' '] + text
  }

  function DomainWords(acl: string, hosts: seq<string>): seq<string> {
    ["acl", acl, "dstdomain", "-n"] + hosts
  }

  function PortWords(acl: string): seq<string> {
    ["acl", acl + "_port", "port", "443"]
  }

  function AllowWords(acl: string): seq<string> {
    ["http_access", "allow", "portikus_connect", acl, acl + "_port"]
  }

  function Line(words: seq<string>): string {
    JoinWith(words, ' ')
  }

  /** Two comments and, when there is a host, the hosts, the port and the rule. */
  function IncludeLines(about: string, limits: string, acl: string, hosts: seq<string>): seq<string> {
    [Comment(about), Comment(limits)]
    + if hosts == [] then [] else [Line(DomainWords(acl, hosts)), Line(PortWords(acl)), Line(AllowWords(acl))]
  }

  function IncludeText(lines: seq<string>): string {
    JoinWith(lines, '\n') + "\n"
  }

  function About(source: string): string {
    "Written by the site job from " + source + " (ADR 0059); do not edit."
  }

  const LIMITS := "CONNECT only, port 443 only."

  function RenderInclude(acl: string, source: string, hosts: seq<string>): string {
    IncludeText(IncludeLines(About(source), LIMITS, acl, hosts))
  }

  function RenderAdmin(hosts: seq<string>): string {
    RenderInclude(SITE_HOSTS, PROXY_HOSTS_FILE, HostSet(hosts))
  }

  /** The hosts of a platform's keyset URL and, when it has one, its token URL. */
  datatype Platform = Platform(keysetHost: string, tokenHost: Option<string>)

  function PlatformHosts(ps: seq<Platform>): seq<string> {
    if ps == [] then []
    else [ps[0].keysetHost] + (if ps[0].tokenHost.Some? then [ps[0].tokenHost.value] else []) + PlatformHosts(ps[1..])
  }

  function RenderLti(ps: seq<Platform>): string {
    RenderInclude(SITE_LTI, LTI_ADMIN_FILE, HostSet(PlatformHosts(ps)))
  }

  // ---- What Squid makes of an include ----

  function Words(line: string): seq<string> {
    Cut(line, ' ')
  }

  /** The rule line lets clients connect to host on port by the lists that the other two lines define. */
  predicate Grants(rule: string, domains: string, ports: string, host: string, port: string) {
    var r, d, p := Words(rule), Words(domains), Words(ports);
    && |r| == 5 && r[..3] == ["http_access", "allow", "portikus_connect"]
    && |d| >= 4 && d[..4] == ["acl", r[3], "dstdomain", "-n"] && host in d[4..]
    && p == ["acl", r[4], "port", port]
  }

  /** Some three lines of the include let clients connect there. */
  predicate Allows(text: string, host: string, port: string) {
    exists rule <- Cut(text, '\n'), domains <- Cut(text, '\n'), ports <- Cut(text, '\n') :: Grants(rule, domains, ports, host, port)
  }

  /** One word of one line. */
  predicate OneWord(s: string) {
    ' ' !in s && '\n' !in s
  }

  predicate OneWordEach(hosts: seq<string>) {
    forall i :: 0 <= i < |hosts| ==> OneWord(hosts[i])
  }

  lemma {:induction false} JoinedOnOneLine(words: seq<string>)
    requires OneWordEach(words)
    ensures '\n' !in Line(words)
  {
    if |words| > 1 {
      JoinedOnOneLine(words[1..]);
    }
  }

  lemma WordsOfLine(words: seq<string>)
    requires OneWordEach(words) && words != []
    ensures Words(Line(words)) == words && '\n' !in Line(words)
  {
    CutJoined(words, ' ');
    JoinedOnOneLine(words);
  }

  lemma WordsOfInclude(acl: string, hosts: seq<string>)
    requires OneWord(acl) && OneWordEach(hosts)
    ensures OneWordEach(DomainWords(acl, hosts)) && OneWordEach(PortWords(acl)) && OneWordEach(AllowWords(acl))
    ensures Words(Line(DomainWords(acl, hosts))) == DomainWords(acl, hosts)
    ensures Words(Line(PortWords(acl))) == PortWords(acl) && Words(Line(AllowWords(acl))) == AllowWords(acl)
  {
    WordsOfLine(DomainWords(acl, hosts));
    WordsOfLine(PortWords(acl));
    WordsOfLine(AllowWords(acl));
  }

  /** A comment line and an empty line say nothing. */
  lemma CommentWords(text: string)
    ensures Words(Comment(text))[0] == "#" && Words("") == [""]
    ensures '\n' !in text ==> '\n' !in Comment(text)
  {
    assert Comment(text) == "#" + [' '] + text;
    CutAt("#", ' ', text);
    CutNowhere("#", ' ');
  }

  lemma LinesOf(about: string, limits: string, acl: string, hosts: seq<string>)
    requires '\n' !in about && '\n' !in limits && OneWord(acl) && OneWordEach(hosts)
    ensures Cut(IncludeText(IncludeLines(about, limits, acl, hosts)), '\n') == IncludeLines(about, limits, acl, hosts) + [""]
  {
    var lines := IncludeLines(about, limits, acl, hosts);
    CommentWords(about);
    CommentWords(limits);
    WordsOfInclude(acl, hosts);
    JoinedOnOneLine(DomainWords(acl, hosts));
    JoinedOnOneLine(PortWords(acl));
    JoinedOnOneLine(AllowWords(acl));
    CutJoined(lines, '\n');
    CutAt(JoinWith(lines, '\n'), '\n', "");
    assert JoinWith(lines, '\n') + ['\n'] + "" == IncludeText(lines);
  }

  /** A line of the include is a comment, empty, or one of the three. */
  predicate KnownLine(acl: string, hosts: seq<string>, line: string) {
    || Words(line)[0] == "#" || line == ""
    || (hosts != [] && Words(line) in [DomainWords(acl, hosts), PortWords(acl), AllowWords(acl)])
  }

  lemma LineKinds(about: string, limits: string, acl: string, hosts: seq<string>, line: string)
    requires OneWord(acl) && OneWordEach(hosts) && line in IncludeLines(about, limits, acl, hosts) + [""]
    ensures KnownLine(acl, hosts, line)
  {
    CommentWords(about);
    CommentWords(limits);
    WordsOfInclude(acl, hosts);
  }

  lemma GrantsTheirs(acl: string, hosts: seq<string>, host: string)
    requires OneWord(acl) && OneWordEach(hosts) && host in hosts
    ensures Grants(Line(AllowWords(acl)), Line(DomainWords(acl, hosts)), Line(PortWords(acl)), host, "443")
  {
    WordsOfInclude(acl, hosts);
    assert DomainWords(acl, hosts)[4..] == hosts;
  }

  lemma OnlyTheirs(acl: string, hosts: seq<string>, rule: string, domains: string, ports: string, host: string, port: string)
    requires KnownLine(acl, hosts, rule) && KnownLine(acl, hosts, domains) && KnownLine(acl, hosts, ports)
    requires Grants(rule, domains, ports, host, port)
    ensures host in hosts && port == "443"
  {
    assert Words(rule)[..3][0] == "http_access" && Words(domains)[..4][0] == "acl" && Words(domains)[..4][2] == "dstdomain";
    assert Words(domains) == DomainWords(acl, hosts);
    assert DomainWords(acl, hosts)[4..] == hosts;
  }

  lemma LinesAllowExactly(about: string, limits: string, acl: string, hosts: seq<string>, host: string, port: string)
    requires '\n' !in about && '\n' !in limits && OneWord(acl) && OneWordEach(hosts)
    ensures Allows(IncludeText(IncludeLines(about, limits, acl, hosts)), host, port) <==> host in hosts && port == "443"
  {
    var lines := Cut(IncludeText(IncludeLines(about, limits, acl, hosts)), '\n');
    LinesOf(about, limits, acl, hosts);
    if host in hosts && port == "443" {
      GrantsTheirs(acl, hosts, host);
      assert lines[4] in lines && lines[2] in lines && lines[3] in lines;
      assert Grants(lines[4], lines[2], lines[3], host, port);
    }
    if rule, domains, ports :| rule in lines && domains in lines && ports in lines && Grants(rule, domains, ports, host, port) {
      LineKinds(about, limits, acl, hosts, rule);
      LineKinds(about, limits, acl, hosts, domains);
      LineKinds(about, limits, acl, hosts, ports);
      OnlyTheirs(acl, hosts, rule, domains, ports, host, port);
    }
  }

  lemma CommentsOnOneLine(source: string)
    requires '\n' !in source
    ensures '\n' !in About(source) && '\n' !in LIMITS
  {
  }

  /** An include lets clients connect to exactly the hosts it was rendered from, on port 443 and on no other. */
  lemma AllowsExactly(acl: string, source: string, hosts: seq<string>, host: string, port: string)
    requires OneWord(acl) && '\n' !in source && OneWordEach(hosts)
    ensures Allows(RenderInclude(acl, source, hosts), host, port) <==> host in hosts && port == "443"
  {
    CommentsOnOneLine(source);
    LinesAllowExactly(About(source), LIMITS, acl, hosts, host, port);
  }

  lemma LowerIsOneWord(s: string)
    requires OneWord(s)
    ensures OneWord(Lower(s))
  {
  }

  lemma HostSetIsOneWordEach(hosts: seq<string>)
    requires OneWordEach(hosts)
    ensures OneWordEach(HostSet(hosts))
  {
    var set_ := HostSet(hosts);
    forall i | 0 <= i < |set_| ensures OneWord(set_[i]) {
      assert set_[i] in set_;
      var j :| 0 <= j < |hosts| && Lower(hosts[j]) == set_[i];
      LowerIsOneWord(hosts[j]);
    }
  }

  /** Some host of the list, in whatever case, is this one. */
  predicate Listed(hosts: seq<string>, host: string) {
    exists h <- hosts :: Lower(h) == host
  }

  lemma ListedInSet(hosts: seq<string>, host: string)
    ensures host in HostSet(hosts) <==> Listed(hosts, host)
  {
    if Listed(hosts, host) {
      var h :| h in hosts && Lower(h) == host;
      var i :| 0 <= i < |hosts| && hosts[i] == h;
    }
  }

  lemma AclNames()
    ensures OneWord(SITE_HOSTS) && OneWord(SITE_LTI)
  {
  }

  lemma FileNames()
    ensures '\n' !in PROXY_HOSTS_FILE && '\n' !in LTI_ADMIN_FILE
  {
    assert '\n' !in CONFIG_FOLDER;
    assert '\n' !in "lti-platforms-admin.json" && '\n' !in "proxy-hosts.json";
  }

  /** The page's include allows exactly the hosts listed there, in lower case, on port 443. */
  lemma AdminAllowsExactly(hosts: seq<string>, host: string, port: string)
    requires OneWordEach(hosts)
    ensures Allows(RenderAdmin(hosts), host, port) <==> Listed(hosts, host) && port == "443"
  {
    AclNames();
    FileNames();
    HostSetIsOneWordEach(hosts);
    ListedInSet(hosts, host);
    AllowsExactly(SITE_HOSTS, PROXY_HOSTS_FILE, HostSet(hosts), host, port);
  }

  /** The platform fetches its keys, or its token, from this host. */
  predicate Uses(p: Platform, host: string) {
    Lower(p.keysetHost) == host || (p.tokenHost.Some? && Lower(p.tokenHost.value) == host)
  }

  predicate OneWordHosts(p: Platform) {
    OneWord(p.keysetHost) && (p.tokenHost.Some? ==> OneWord(p.tokenHost.value))
  }

  predicate AllOneWordHosts(ps: seq<Platform>) {
    forall i :: 0 <= i < |ps| ==> OneWordHosts(ps[i])
  }

  lemma ListedFirst(h: string, rest: seq<string>, host: string)
    ensures Listed([h] + rest, host) <==> Lower(h) == host || Listed(rest, host)
  {
    if Listed(rest, host) {
      var x :| x in rest && Lower(x) == host;
      assert x in [h] + rest;
    }
    assert h in [h] + rest;
  }

  predicate SomeUses(ps: seq<Platform>, host: string) {
    exists p <- ps :: Uses(p, host)
  }

  lemma SomeUsesFirst(ps: seq<Platform>, host: string)
    requires ps != []
    ensures SomeUses(ps, host) <==> Uses(ps[0], host) || SomeUses(ps[1..], host)
  {
    assert ps == [ps[0]] + ps[1..] && ps[0] in ps;
    if SomeUses(ps[1..], host) {
      var p :| p in ps[1..] && Uses(p, host);
      assert p in ps;
    }
  }

  lemma {:induction false} PlatformHostsAre(ps: seq<Platform>, host: string)
    ensures Listed(PlatformHosts(ps), host) <==> SomeUses(ps, host)
    ensures AllOneWordHosts(ps) ==> OneWordEach(PlatformHosts(ps))
  {
    if ps != [] {
      var rest := PlatformHosts(ps[1..]);
      PlatformHostsAre(ps[1..], host);
      SomeUsesFirst(ps, host);
      if ps[0].tokenHost.Some? {
        ListedFirst(ps[0].tokenHost.value, rest, host);
        ListedFirst(ps[0].keysetHost, [ps[0].tokenHost.value] + rest, host);
        assert PlatformHosts(ps) == [ps[0].keysetHost] + ([ps[0].tokenHost.value] + rest);
      } else {
        ListedFirst(ps[0].keysetHost, rest, host);
        assert PlatformHosts(ps) == [ps[0].keysetHost] + rest;
      }
    }
  }

  /** The platforms' include allows exactly the hosts that platforms fetch from, on port 443. */
  lemma LtiAllowsExactly(ps: seq<Platform>, host: string, port: string)
    requires AllOneWordHosts(ps)
    ensures Allows(RenderLti(ps), host, port) <==> SomeUses(ps, host) && port == "443"
  {
    AclNames();
    FileNames();
    PlatformHostsAre(ps, host);
    HostSetIsOneWordEach(PlatformHosts(ps));
    ListedInSet(PlatformHosts(ps), host);
    AllowsExactly(SITE_LTI, LTI_ADMIN_FILE, HostSet(PlatformHosts(ps)), host, port);
  }

  /** The include depends on the set of lower-cased hosts alone: reordering or recasing them changes nothing. */
  lemma RenderAdminCanonical(a: seq<string>, b: seq<string>)
    requires forall i :: 0 <= i < |a| ==> exists j :: 0 <= j < |b| && Lower(a[i]) == Lower(b[j])
    requires forall j :: 0 <= j < |b| ==> exists i :: 0 <= i < |a| && Lower(a[i]) == Lower(b[j])
    ensures RenderAdmin(a) == RenderAdmin(b)
  {
    SortedUnique(HostSet(a), HostSet(b));
  }

  /* ---------- The folder ---------- */

  datatype Include = Admin | Lti

  /** A name in the include folder; Other is a link or a file over the size limit, which a rename replaces; Folder is a directory, which it does not. */
  datatype Entry = Missing | Readable(text: string) | Other(tag: int) | Folder

  datatype Includes = Includes(admin: Entry, lti: Entry)

  datatype Pages = Pages(hosts: seq<string>, platforms: seq<Platform>)

  /** installed says whether there is a Squid at all; loaded is what it read at its last reload. */
  datatype Disk = Disk(includes: Includes, marker: bool, pages: Pages, installed: bool, loaded: Includes)

  function Get(i: Includes, name: Include): Entry {
    if name == Admin then i.admin else i.lti
  }

  function Set(i: Includes, name: Include, e: Entry): Includes {
    if name == Admin then i.(admin := e) else i.(lti := e)
  }

  function Read(e: Entry): Option<string> {
    if e.Readable? then Some(e.text) else None
  }

  datatype Op =
    | PutInclude(name: Include, text: string) | DropInclude(name: Include)
    | PutMarker | DropMarker
    | CommitHosts(hosts: seq<string>) | CommitPlatforms(platforms: seq<Platform>)
    | Reload

  function Do(d: Disk, op: Op): Disk {
    match op
    case PutInclude(name, text) => d.(includes := Set(d.includes, name, Readable(text)))
    case DropInclude(name) => d.(includes := Set(d.includes, name, Missing))
    case PutMarker => d.(marker := true)
    case DropMarker => d.(marker := false)
    case CommitHosts(hosts) => d.(pages := d.pages.(hosts := hosts))
    case CommitPlatforms(platforms) => d.(pages := d.pages.(platforms := platforms))
    case Reload => d.(loaded := d.includes)
  }

  function DoAll(d: Disk, ops: seq<Op>): Disk
    decreases |ops|
  {
    if ops == [] then d else DoAll(Do(d, ops[0]), ops[1..])
  }

  /** A failed reload may or may not have read the files. */
  datatype ReloadOutcome = Reloaded | FailedUnread | FailedRead

  datatype Env = Env(parses: bool, commitOk: bool, reload: ReloadOutcome)

  datatype Outcome = Applied(changed: bool) | Rejected | WriteFailed | ReloadFailed | Blocked

  predicate Changed(d: Disk, name: Include, content: string) {
    Read(Get(d.includes, name)) != Some(content)
  }

  function PutBack(name: Include, before: Option<string>): Op {
    if before.None? then DropInclude(name) else PutInclude(name, before.value)
  }

  function ApplyOutcome(d: Disk, name: Include, content: string, commit: Option<Op>, env: Env): Outcome {
    var changed := Changed(d, name, content);
    if Get(d.includes, name).Folder? then Blocked
    else if changed && d.installed && !env.parses then Rejected
    else if commit.Some? && !env.commitOk then WriteFailed
    else if (changed || d.marker) && d.installed && env.reload != Reloaded then ReloadFailed
    else Applied(changed)
  }

  /** The marker and the swap. */
  function SwapOps(d: Disk, name: Include, content: string): seq<Op> {
    if !Changed(d, name, content) then []
    else (if d.marker then [] else [PutMarker]) + (if Get(d.includes, name).Folder? then [] else [PutInclude(name, content)])
  }

  /** Undoing the swap. */
  function BackOps(d: Disk, name: Include, content: string): seq<Op> {
    if !Changed(d, name, content) then []
    else [PutBack(name, Read(Get(d.includes, name)))] + (if d.marker then [] else [DropMarker])
  }

  function ReloadOps(d: Disk, due: bool, env: Env): seq<Op> {
    if !due then []
    else if !d.installed then [DropMarker]
    else match env.reload
         case Reloaded => [Reload, DropMarker]
         case FailedRead => [Reload]
         case FailedUnread => []
  }

  function ApplyOps(d: Disk, name: Include, content: string, commit: Option<Op>, env: Env): seq<Op> {
    var outcome := ApplyOutcome(d, name, content, commit, env);
    if outcome.Blocked? then SwapOps(d, name, content)
    else if outcome.Rejected? || outcome.WriteFailed? then SwapOps(d, name, content) + BackOps(d, name, content)
    else SwapOps(d, name, content)
         + (if commit.Some? then [commit.value] else [])
         + ReloadOps(d, Changed(d, name, content) || d.marker, env)
  }

  /* ---------- Jobs ---------- */

  datatype Event =
    | SyncJob(first: Env, second: Env)
    | HostsJob(hosts: seq<string>, env: Env)
    | PlatformsJob(accepted: bool, platforms: seq<Platform>, env: Env)

  function SyncFirst(d: Disk, env: Env): seq<Op> {
    ApplyOps(d, Admin, RenderAdmin(d.pages.hosts), None, env)
  }

  function JobOps(d: Disk, e: Event): seq<Op> {
    match e
    case SyncJob(first, second) =>
      var a := SyncFirst(d, first);
      if !ApplyOutcome(d, Admin, RenderAdmin(d.pages.hosts), None, first).Applied? then a
      else a + ApplyOps(DoAll(d, a), Lti, RenderLti(d.pages.platforms), None, second)
    case HostsJob(hosts, env) => ApplyOps(d, Admin, RenderAdmin(hosts), Some(CommitHosts(hosts)), env)
    case PlatformsJob(accepted, platforms, env) =>
      if accepted then ApplyOps(d, Lti, RenderLti(platforms), Some(CommitPlatforms(platforms)), env) else []
  }

  /* ---------- What every step keeps ---------- */

  predicate Regular(i: Includes) {
    !i.admin.Other? && !i.lti.Other?
  }

  /** An include that differs from what Squid last loaded means a reload is marked as pending. */
  predicate Marked(d: Disk) {
    d.installed && d.includes != d.loaded ==> d.marker
  }

  predicate Inv(d: Disk) {
    Regular(d.includes) && Marked(d)
  }

  predicate AllAlong(d: Disk, ops: seq<Op>)
    decreases |ops|
  {
    Inv(d) && (ops != [] ==> AllAlong(Do(d, ops[0]), ops[1..]))
  }

  lemma {:induction false} Concat(d: Disk, a: seq<Op>, b: seq<Op>)
    ensures DoAll(d, a + b) == DoAll(DoAll(d, a), b)
    ensures AllAlong(d, a) && AllAlong(DoAll(d, a), b) ==> AllAlong(d, a + b)
    decreases |a|
  {
    if a == [] {
      assert a + b == b;
    } else {
      assert (a + b)[1..] == a[1..] + b;
      Concat(Do(d, a[0]), a[1..], b);
    }
  }

  lemma {:induction false} AllAlongAt(d: Disk, ops: seq<Op>, n: nat)
    requires AllAlong(d, ops) && n <= |ops|
    ensures Inv(DoAll(d, ops[..n]))
    decreases n
  {
    if n > 0 {
      assert ops[..n][1..] == ops[1..][..n - 1];
      AllAlongAt(Do(d, ops[0]), ops[1..], n - 1);
    }
  }

  lemma Two(d: Disk, a: Op, b: Op)
    ensures DoAll(d, [a, b]) == Do(Do(d, a), b)
    ensures Inv(d) && Inv(Do(d, a)) && Inv(Do(Do(d, a), b)) ==> AllAlong(d, [a, b])
  {
    assert [a, b][1..] == [b] && [b][1..] == [];
    assert DoAll(Do(d, a), [b]) == DoAll(Do(Do(d, a), b), []);
    assert AllAlong(Do(Do(d, a), b), []) == Inv(Do(Do(d, a), b));
    assert AllAlong(Do(d, a), [b]) == (Inv(Do(d, a)) && AllAlong(Do(Do(d, a), b), []));
  }

  lemma One(d: Disk, a: Op)
    ensures DoAll(d, [a]) == Do(d, a)
    ensures Inv(d) && Inv(Do(d, a)) ==> AllAlong(d, [a])
  {
    assert [a][1..] == [];
    assert AllAlong(Do(d, a), []) == Inv(Do(d, a));
  }

  lemma SwapSafe(d: Disk, name: Include, content: string)
    requires Inv(d)
    ensures AllAlong(d, SwapOps(d, name, content))
    ensures Changed(d, name, content) ==>
      DoAll(d, SwapOps(d, name, content)) ==
      if Get(d.includes, name).Folder? then d.(marker := true)
      else d.(includes := Set(d.includes, name, Readable(content)), marker := true)
    ensures !Changed(d, name, content) ==> DoAll(d, SwapOps(d, name, content)) == d
  {
    if Get(d.includes, name).Folder? {
      if d.marker {
        assert SwapOps(d, name, content) == [];
      } else {
        assert SwapOps(d, name, content) == [PutMarker];
        One(d, PutMarker);
      }
    } else if Changed(d, name, content) {
      if d.marker {
        One(d, PutInclude(name, content));
        assert SwapOps(d, name, content) == [PutInclude(name, content)];
      } else {
        Two(d, PutMarker, PutInclude(name, content));
        assert SwapOps(d, name, content) == [PutMarker, PutInclude(name, content)];
      }
    }
  }

  /** A refused or failed-commit run ends with the disk as it was, the marker and the page files included. */
  lemma RefusedRunUndone(d: Disk, name: Include, content: string, commit: Option<Op>, env: Env)
    requires Inv(d)
    requires var o := ApplyOutcome(d, name, content, commit, env); o.Rejected? || o.WriteFailed?
    ensures AllAlong(d, ApplyOps(d, name, content, commit, env))
    ensures DoAll(d, ApplyOps(d, name, content, commit, env)) == d
  {
    SwapSafe(d, name, content);
    var swap, back := SwapOps(d, name, content), BackOps(d, name, content);
    var s := DoAll(d, swap);
    Concat(d, swap, back);
    if Changed(d, name, content) {
      var undo := PutBack(name, Read(Get(d.includes, name)));
      if d.marker {
        One(s, undo);
        assert back == [undo];
      } else {
        Two(s, undo, DropMarker);
        assert back == [undo, DropMarker];
      }
    } else {
      assert swap + back == [];
    }
  }

  predicate PageOp(commit: Option<Op>) {
    commit.Some? ==> commit.value.CommitHosts? || commit.value.CommitPlatforms?
  }

  lemma ReloadSafe(d: Disk, due: bool, env: Env)
    requires Inv(d) && (d.marker ==> due)
    ensures AllAlong(d, ReloadOps(d, due, env))
    ensures (due && d.installed ==> env.reload == Reloaded) ==>
      DoAll(d, ReloadOps(d, due, env)) == d.(marker := false, loaded := if due && d.installed then d.includes else d.loaded)
  {
    if due && d.installed {
      if env.reload == Reloaded {
        Two(d, Reload, DropMarker);
      } else {
        One(d, Reload);
      }
    } else if due {
      One(d, DropMarker);
    }
  }

  /** Every operation of a run keeps the marker rule, and a run that is applied ends loaded and unmarked. */
  lemma ApplySafe(d: Disk, name: Include, content: string, commit: Option<Op>, env: Env)
    requires Inv(d) && PageOp(commit)
    ensures AllAlong(d, ApplyOps(d, name, content, commit, env))
    ensures ApplyOutcome(d, name, content, commit, env).Applied? ==>
      var e := DoAll(d, ApplyOps(d, name, content, commit, env));
      && Get(e.includes, name) == Readable(content) && e.includes == Set(d.includes, name, Readable(content))
      && !e.marker && e.installed == d.installed && (e.installed ==> e.loaded == e.includes)
      && e.pages == (if commit.Some? then Do(d, commit.value).pages else d.pages)
  {
    var o := ApplyOutcome(d, name, content, commit, env);
    if o.Rejected? || o.WriteFailed? {
      RefusedRunUndone(d, name, content, commit, env);
    } else if o.Blocked? {
      SwapSafe(d, name, content);
    } else {
      var swap := SwapOps(d, name, content);
      var commits := if commit.Some? then [commit.value] else [];
      var due := Changed(d, name, content) || d.marker;
      SwapSafe(d, name, content);
      var s := DoAll(d, swap);
      AllAlongAt(d, swap, |swap|);
      assert swap[..|swap|] == swap;
      if commit.Some? {
        One(s, commit.value);
      }
      Concat(d, swap, commits);
      var c := DoAll(d, swap + commits);
      ReloadSafe(c, due, env);
      Concat(d, swap + commits, ReloadOps(d, due, env));
    }
  }

  /** Squid has read the same files at every prefix of a list of operations. */
  predicate NeverLoaded(d: Disk, ops: seq<Op>) {
    forall i :: 0 <= i < |ops| ==> !ops[i].Reload?
  }

  lemma {:induction false} LoadedStays(d: Disk, ops: seq<Op>, n: nat)
    requires NeverLoaded(d, ops) && n <= |ops|
    ensures DoAll(d, ops[..n]).loaded == d.loaded
    decreases n
  {
    if n > 0 {
      assert ops[..n][1..] == ops[1..][..n - 1];
      assert NeverLoaded(Do(d, ops[0]), ops[1..]) by {
        assert forall i :: 0 <= i < |ops| - 1 ==> ops[1..][i] == ops[i + 1];
      }
      LoadedStays(Do(d, ops[0]), ops[1..], n - 1);
    }
  }

  /** A new include that Squid does not parse is refused and undone, and at no moment of the run has Squid read it. */
  lemma UnparsedIsNeverLoaded(d: Disk, name: Include, content: string, commit: Option<Op>, env: Env, n: nat)
    requires Inv(d) && d.installed && !env.parses && !Get(d.includes, name).Folder? && Read(Get(d.includes, name)) != Some(content)
    requires n <= |ApplyOps(d, name, content, commit, env)|
    ensures ApplyOutcome(d, name, content, commit, env) == Rejected
    ensures DoAll(d, ApplyOps(d, name, content, commit, env)) == d
    ensures DoAll(d, ApplyOps(d, name, content, commit, env)[..n]).loaded == d.loaded
  {
    RefusedRunUndone(d, name, content, commit, env);
    LoadedStays(d, ApplyOps(d, name, content, commit, env), n);
  }

  /** Squid takes the new include: there is none installed, it parses, or nothing has changed. */
  predicate Parses(d: Disk, name: Include, content: string, env: Env) {
    d.installed ==> env.parses || Read(Get(d.includes, name)) == Some(content)
  }

  /** With a page file that cannot be written the run is undone as well. */
  lemma FailedCommitIsUndone(d: Disk, name: Include, content: string, commit: Option<Op>, env: Env)
    requires Inv(d) && !Get(d.includes, name).Folder? && Parses(d, name, content, env) && commit.Some? && !env.commitOk
    ensures ApplyOutcome(d, name, content, commit, env) == WriteFailed
    ensures DoAll(d, ApplyOps(d, name, content, commit, env)) == d
  {
    RefusedRunUndone(d, name, content, commit, env);
  }

  predicate CommitsWell(commit: Option<Op>, env: Env) {
    PageOp(commit) && (commit.Some? ==> env.commitOk)
  }

  /** With a reload that fails, everything is written and the marker stays, so that the next run reloads. */
  lemma FailedReloadStaysMarked(d: Disk, name: Include, content: string, commit: Option<Op>, env: Env)
    requires Inv(d) && !Get(d.includes, name).Folder? && Parses(d, name, content, env) && CommitsWell(commit, env)
    requires d.installed && env.reload != Reloaded && (d.marker || Read(Get(d.includes, name)) != Some(content))
    ensures ApplyOutcome(d, name, content, commit, env) == ReloadFailed
    ensures var e := DoAll(d, ApplyOps(d, name, content, commit, env));
      && e.marker && Get(e.includes, name) == Readable(content)
      && e.pages == (if commit.Some? then Do(d, commit.value).pages else d.pages)
      && e.loaded == (if env.reload == FailedRead then e.includes else d.loaded)
  {
    var swap := SwapOps(d, name, content);
    var commits := if commit.Some? then [commit.value] else [];
    SwapSafe(d, name, content);
    var s := DoAll(d, swap);
    if commit.Some? {
      One(s, commit.value);
    }
    Concat(d, swap, commits);
    var c := DoAll(d, swap + commits);
    One(c, Reload);
    Concat(d, swap + commits, ReloadOps(d, true, env));
  }

  /** And with nothing in the way the run is applied. */
  lemma GoodRunIsApplied(d: Disk, name: Include, content: string, commit: Option<Op>, env: Env)
    requires Inv(d) && !Get(d.includes, name).Folder? && Parses(d, name, content, env) && CommitsWell(commit, env) && env.reload == Reloaded
    ensures ApplyOutcome(d, name, content, commit, env) == Applied(Read(Get(d.includes, name)) != Some(content))
    ensures var e := DoAll(d, ApplyOps(d, name, content, commit, env));
      && Get(e.includes, name) == Readable(content) && !e.marker && (e.installed ==> e.loaded == e.includes)
      && e.pages == (if commit.Some? then Do(d, commit.value).pages else d.pages)
  {
    ApplySafe(d, name, content, commit, env);
  }

  lemma JobSafe(d: Disk, e: Event)
    requires Inv(d)
    ensures AllAlong(d, JobOps(d, e))
  {
    match e
    case SyncJob(first, second) =>
      var a := SyncFirst(d, first);
      ApplySafe(d, Admin, RenderAdmin(d.pages.hosts), None, first);
      if ApplyOutcome(d, Admin, RenderAdmin(d.pages.hosts), None, first).Applied? {
        AllAlongAt(d, a, |a|);
        assert a[..|a|] == a;
        var m := DoAll(d, a);
        var b := ApplyOps(m, Lti, RenderLti(d.pages.platforms), None, second);
        ApplySafe(m, Lti, RenderLti(d.pages.platforms), None, second);
        Concat(d, a, b);
      }
    case HostsJob(hosts, env) =>
      ApplySafe(d, Admin, RenderAdmin(hosts), Some(CommitHosts(hosts)), env);
    case PlatformsJob(accepted, platforms, env) =>
      if accepted {
        ApplySafe(d, Lti, RenderLti(platforms), Some(CommitPlatforms(platforms)), env);
      }
  }

  /** A job and the number of file operations it gets through before it stops. */
  datatype Attempt = Attempt(job: Event, reached: nat)

  function After(d: Disk, a: Attempt): Disk {
    var ops := JobOps(d, a.job);
    DoAll(d, if a.reached <= |ops| then ops[..a.reached] else ops)
  }

  function Run(d: Disk, attempts: seq<Attempt>): Disk
    decreases |attempts|
  {
    if attempts == [] then d else Run(After(d, attempts[0]), attempts[1..])
  }

  /** Over every sequence of jobs, each stopped anywhere, a difference from what Squid loaded is always marked. */
  lemma {:induction false} EveryStopIsMarked(d: Disk, attempts: seq<Attempt>)
    requires Inv(d)
    ensures Inv(Run(d, attempts))
    decreases |attempts|
  {
    if attempts != [] {
      var ops := JobOps(d, attempts[0].job);
      JobSafe(d, attempts[0].job);
      AllAlongAt(d, ops, if attempts[0].reached <= |ops| then attempts[0].reached else |ops|);
      assert ops[..|ops|] == ops;
      EveryStopIsMarked(After(d, attempts[0]), attempts[1..]);
    }
  }

  predicate SyncSucceeds(d: Disk, first: Env, second: Env) {
    && ApplyOutcome(d, Admin, RenderAdmin(d.pages.hosts), None, first).Applied?
    && ApplyOutcome(DoAll(d, SyncFirst(d, first)), Lti, RenderLti(d.pages.platforms), None, second).Applied?
  }

  predicate InForce(d: Disk) {
    && d.includes == Includes(Readable(RenderAdmin(d.pages.hosts)), Readable(RenderLti(d.pages.platforms)))
    && (d.installed ==> d.loaded == d.includes)
    && !d.marker
  }

  /** After any history of stopped jobs, a sync that succeeds puts both page files in force. */
  lemma SyncPutsPagesInForce(d0: Disk, history: seq<Attempt>, first: Env, second: Env)
    requires Inv(d0)
    requires SyncSucceeds(Run(d0, history), first, second)
    ensures var d := Run(d0, history);
      var e := DoAll(d, JobOps(d, SyncJob(first, second)));
      InForce(e) && e.pages == d.pages
  {
    EveryStopIsMarked(d0, history);
    var d := Run(d0, history);
    var a := SyncFirst(d, first);
    ApplySafe(d, Admin, RenderAdmin(d.pages.hosts), None, first);
    AllAlongAt(d, a, |a|);
    assert a[..|a|] == a;
    var m := DoAll(d, a);
    ApplySafe(m, Lti, RenderLti(d.pages.platforms), None, second);
    Concat(d, a, ApplyOps(m, Lti, RenderLti(d.pages.platforms), None, second));
  }

  predicate EntryAllows(e: Entry, host: string, port: string) {
    e.Readable? && Allows(e.text, host, port)
  }

  /** What the includes Squid last read let clients connect to. */
  predicate SquidAllows(loaded: Includes, host: string, port: string) {
    EntryAllows(loaded.admin, host, port) || EntryAllows(loaded.lti, host, port)
  }

  /** With the pages in force Squid allows exactly the hosts of the pages, on port 443. */
  lemma PagesInForceAllowExactly(d: Disk, host: string, port: string)
    requires InForce(d) && d.installed && OneWordEach(d.pages.hosts) && AllOneWordHosts(d.pages.platforms)
    ensures SquidAllows(d.loaded, host, port) <==>
      port == "443" && (Listed(d.pages.hosts, host) || SomeUses(d.pages.platforms, host))
  {
    AdminAllowsExactly(d.pages.hosts, host, port);
    LtiAllowsExactly(d.pages.platforms, host, port);
  }

  /** After any history of stopped jobs, a sync whose parses and reloads go well puts both pages in force. */
  lemma GoodSyncPutsPagesInForce(d0: Disk, history: seq<Attempt>, first: Env, second: Env)
    requires Inv(d0) && first.parses && second.parses && first.reload == Reloaded && second.reload == Reloaded
    requires var d := Run(d0, history); !d.includes.admin.Folder? && !d.includes.lti.Folder?
    ensures var d := Run(d0, history); InForce(DoAll(d, JobOps(d, SyncJob(first, second))))
  {
    EveryStopIsMarked(d0, history);
    var d := Run(d0, history);
    var a := SyncFirst(d, first);
    GoodRunIsApplied(d, Admin, RenderAdmin(d.pages.hosts), None, first);
    ApplySafe(d, Admin, RenderAdmin(d.pages.hosts), None, first);
    AllAlongAt(d, a, |a|);
    assert a[..|a|] == a;
    GoodRunIsApplied(DoAll(d, a), Lti, RenderLti(d.pages.platforms), None, second);
    SyncPutsPagesInForce(d0, history, first, second);
  }

  /** With both page files in force a sync touches nothing. */
  lemma SyncInForceIsIdle(d: Disk, first: Env, second: Env)
    requires InForce(d)
    ensures JobOps(d, SyncJob(first, second)) == []
  {
    var a := SyncFirst(d, first);
    assert !Changed(d, Admin, RenderAdmin(d.pages.hosts)) && !d.marker;
    assert a == [] && DoAll(d, a) == d;
    assert !Changed(d, Lti, RenderLti(d.pages.platforms));
  }

  /** A page change that is applied leaves both page files in force, the new one included. */
  lemma HostsChangeStaysInForce(d: Disk, hosts: seq<string>, env: Env)
    requires InForce(d)
    requires ApplyOutcome(d, Admin, RenderAdmin(hosts), Some(CommitHosts(hosts)), env).Applied?
    ensures var e := DoAll(d, JobOps(d, HostsJob(hosts, env)));
      InForce(e) && e.pages == d.pages.(hosts := hosts)
  {
    ApplySafe(d, Admin, RenderAdmin(hosts), Some(CommitHosts(hosts)), env);
  }

  /** The same for the platforms' page. */
  lemma PlatformsChangeStaysInForce(d: Disk, platforms: seq<Platform>, env: Env)
    requires InForce(d)
    requires ApplyOutcome(d, Lti, RenderLti(platforms), Some(CommitPlatforms(platforms)), env).Applied?
    ensures var e := DoAll(d, JobOps(d, PlatformsJob(true, platforms, env)));
      InForce(e) && e.pages == d.pages.(platforms := platforms)
    ensures JobOps(d, PlatformsJob(false, platforms, env)) == []
  {
    ApplySafe(d, Lti, RenderLti(platforms), Some(CommitPlatforms(platforms)), env);
  }

  /**
   With an include that cannot be read back, a refused run leaves the folder as it was exactly
   when it did not have to put that include back.
   */
  lemma RefusedRunUndoneIff(d: Disk, name: Include, content: string, commit: Option<Op>, env: Env)
    requires var o := ApplyOutcome(d, name, content, commit, env); o.Rejected? || o.WriteFailed?
    ensures DoAll(d, ApplyOps(d, name, content, commit, env)) == d <==> !Get(d.includes, name).Other?
  {
    var swap, back := SwapOps(d, name, content), BackOps(d, name, content);
    Concat(d, swap, back);
    if Changed(d, name, content) {
      var undo := PutBack(name, Read(Get(d.includes, name)));
      var put := PutInclude(name, content);
      if d.marker {
        assert swap == [put] && back == [undo];
        One(d, put);
        One(Do(d, put), undo);
      } else {
        assert swap == [PutMarker, put] && back == [undo, DropMarker];
        Two(d, PutMarker, put);
        Two(Do(Do(d, PutMarker), put), undo, DropMarker);
      }
    } else {
      assert swap + back == [];
    }
  }

  /** Such an include is lost: the run ends with none there, and with the marker as before. */
  lemma UnreadableIncludeIsLost(d: Disk, name: Include, content: string, commit: Option<Op>, env: Env)
    requires var o := ApplyOutcome(d, name, content, commit, env); o.Rejected? || o.WriteFailed?
    requires Get(d.includes, name).Other?
    ensures DoAll(d, ApplyOps(d, name, content, commit, env)) == d.(includes := Set(d.includes, name, Missing))
  {
    var swap, back := SwapOps(d, name, content), BackOps(d, name, content);
    var put := PutInclude(name, content);
    Concat(d, swap, back);
    if d.marker {
      assert swap == [put] && back == [DropInclude(name)];
      One(d, put);
      One(Do(d, put), DropInclude(name));
    } else {
      assert swap == [PutMarker, put] && back == [DropInclude(name), DropMarker];
      Two(d, PutMarker, put);
      Two(Do(Do(d, PutMarker), put), DropInclude(name), DropMarker);
    }
  }

  /** A directory in the include's place stops the run at the rename: nothing has changed but that a reload is marked. */
  lemma BlockedRunOnlyMarks(d: Disk, name: Include, content: string, commit: Option<Op>, env: Env)
    requires Inv(d) && Get(d.includes, name).Folder?
    ensures ApplyOutcome(d, name, content, commit, env) == Blocked
    ensures DoAll(d, ApplyOps(d, name, content, commit, env)) == d.(marker := true)
  {
    SwapSafe(d, name, content);
  }

  /* ---------- The jobs themselves ---------- */

  datatype PlatformsOutcome = OperatorPlatform | InvalidValue | NotApplied(why: Outcome) | ApiRestartFailed | PlatformsDone

  class ProxyJobs {
    var includes: Includes
    var marker: bool
    var pages: Pages
    const installed: bool
    /** The file the platforms are checked in, beside the page file. */
    var checkFile: bool
    /** What Squid read last; the jobs cannot see it. */
    ghost var loaded: Includes
    /** Every file operation since the start, in order: what a stop leaves is a prefix of it. */
    ghost var log: seq<Op>
    ghost var start: Disk

    ghost function View(): Disk
      reads this
    {
      Disk(includes, marker, pages, installed, loaded)
    }

    ghost predicate Valid()
      reads this
    {
      View() == DoAll(start, log)
    }

    constructor (includes: Includes, marker: bool, pages: Pages, installed: bool, ghost loaded: Includes)
      ensures Valid() && View() == Disk(includes, marker, pages, installed, loaded) && log == []
    {
      this.includes, this.marker, this.pages, this.installed := includes, marker, pages, installed;
      this.loaded, log, checkFile := loaded, [], false;
      start := Disk(includes, marker, pages, installed, loaded);
    }

    method Write(op: Op)
      requires Valid()
      modifies this
      ensures Valid() && start == old(start)
      ensures View() == Do(old(View()), op) && log == old(log) + [op]
    {
      Concat(start, log, [op]);
      One(View(), op);
      match op {
        case PutInclude(name, text) => includes := Set(includes, name, Readable(text));
        case DropInclude(name) => includes := Set(includes, name, Missing);
        case PutMarker => marker := true;
        case DropMarker => marker := false;
        case CommitHosts(hosts) => pages := pages.(hosts := hosts);
        case CommitPlatforms(platforms) => pages := pages.(platforms := platforms);
        case Reload => loaded := includes;
      }
      log := log + [op];
    }

    method Swap(name: Include, content: string, changed: bool, pending: bool)
      requires Valid() && changed == Changed(View(), name, content) && pending == marker
      modifies this
      ensures Valid() && start == old(start)
      ensures log == old(log) + SwapOps(old(View()), name, content)
    {
      if changed && !pending {
        Write(PutMarker);
      }
      if changed && !Get(includes, name).Folder? {
        Write(PutInclude(name, content));
      }
    }

    method PutBackInclude(name: Include, before: Option<string>, pending: bool)
      requires Valid()
      modifies this
      ensures Valid() && start == old(start)
      ensures log == old(log) + ([PutBack(name, before)] + (if pending then [] else [DropMarker]))
    {
      Write(PutBack(name, before));
      if !pending {
        Write(DropMarker);
      }
    }

    method ReloadProxy(env: Env) returns (ok: bool)
      requires Valid()
      modifies this
      ensures Valid() && start == old(start)
      ensures ok == (installed ==> env.reload == Reloaded)
      ensures log == old(log) + ReloadOps(old(View()), true, env)
    {
      ok := true;
      if installed {
        ok := env.reload == Reloaded;
        if env.reload != FailedUnread {
          Write(Reload);
        }
      }
      if ok {
        Write(DropMarker);
      }
    }

    /** The commit and the reload, once the swap is in. */
    method Finish(commit: Option<Op>, due: bool, env: Env) returns (ok: bool)
      requires Valid()
      modifies this
      ensures Valid() && start == old(start)
      ensures ok == (due && installed ==> env.reload == Reloaded)
      ensures log == old(log) + ((if commit.Some? then [commit.value] else []) + ReloadOps(old(View()), due, env))
    {
      ok := true;
      if commit.Some? {
        Write(commit.value);
      }
      if due {
        ok := ReloadProxy(env);
      }
    }

    /** Its file operations are exactly the specified ones, in order, for every outcome outside the folder. */
    method ApplyInclude(name: Include, content: string, commit: Option<Op>, env: Env) returns (outcome: Outcome)
      requires Valid()
      modifies this
      ensures Valid() && start == old(start)
      ensures outcome == ApplyOutcome(old(View()), name, content, commit, env)
      ensures log == old(log) + ApplyOps(old(View()), name, content, commit, env)
    {
      ghost var d, n := View(), log;
      var before := Read(Get(includes, name));
      var changed := before.None? || before.value != content;
      var pending, folder := marker, Get(includes, name).Folder?;
      Swap(name, content, changed, pending);
      ghost var swap := SwapOps(d, name, content);
      if folder {
        return Blocked;
      }
      var rejected := changed && installed && !env.parses;
      if rejected || (commit.Some? && !env.commitOk) {
        if changed {
          PutBackInclude(name, before, pending);
        }
        Assoc(n, swap, BackOps(d, name, content));
        return if rejected then Rejected else WriteFailed;
      }
      var ok := Finish(commit, changed || pending, env);
      ghost var commits := if commit.Some? then [commit.value] else [];
      Assoc(swap, commits, ReloadOps(d, changed || pending, env));
      Assoc(n, swap, commits + ReloadOps(d, changed || pending, env));
      outcome := if ok then Applied(changed) else ReloadFailed;
    }

    /** A sync that succeeds puts both page files in force. */
    method Sync(first: Env, second: Env) returns (outcome: Outcome)
      requires Valid()
      modifies this
      ensures Valid() && start == old(start)
      ensures log == old(log) + JobOps(old(View()), SyncJob(first, second))
      ensures outcome.Applied? <==> SyncSucceeds(old(View()), first, second)
      ensures old(Inv(View())) && outcome.Applied? ==> InForce(View()) && pages == old(pages)
    {
      ghost var d, n := View(), log;
      outcome := ApplyInclude(Admin, RenderAdmin(pages.hosts), None, first);
      ghost var a := SyncFirst(d, first);
      Concat(start, n, a);
      if !outcome.Applied? { return; }
      var changed := outcome.changed;
      PagesKept(d, Admin, RenderAdmin(d.pages.hosts), first);
      ghost var m := View();
      outcome := ApplyInclude(Lti, RenderLti(pages.platforms), None, second);
      ghost var b := ApplyOps(m, Lti, RenderLti(d.pages.platforms), None, second);
      Assoc(n, a, b);
      Concat(start, n, a + b);
      if outcome.Applied? {
        if Inv(d) { SyncPutsPagesInForce(d, [], first, second); }
        outcome := Applied(changed || outcome.changed);
      }
    }

    method SetHosts(hosts: seq<string>, env: Env) returns (outcome: Outcome)
      requires Valid()
      modifies this
      ensures Valid() && start == old(start)
      ensures log == old(log) + JobOps(old(View()), HostsJob(hosts, env))
      ensures outcome == ApplyOutcome(old(View()), Admin, RenderAdmin(hosts), Some(CommitHosts(hosts)), env)
    {
      outcome := ApplyInclude(Admin, RenderAdmin(hosts), Some(CommitHosts(hosts)), env);
    }

    /**
     The platforms job: the operator's own platforms and a failed check refuse it before the
     folder is touched, the check's file is gone whatever happens after it, and only an applied
     run restarts the API.
     */
    method SetPlatforms(platforms: seq<Platform>, clashes: bool, checks: bool, env: Env, restarts: bool) returns (outcome: PlatformsOutcome)
      requires Valid()
      modifies this
      ensures Valid() && start == old(start)
      ensures var accepted := !clashes && (platforms == [] || checks);
        && log == old(log) + JobOps(old(View()), PlatformsJob(accepted, platforms, env))
        && (outcome == OperatorPlatform <==> clashes) && (outcome == InvalidValue <==> !clashes && !accepted)
        && (accepted ==>
              var o := ApplyOutcome(old(View()), Lti, RenderLti(platforms), Some(CommitPlatforms(platforms)), env);
              outcome == if !o.Applied? then NotApplied(o) else if restarts then PlatformsDone else ApiRestartFailed)
      ensures !clashes ==> !checkFile
    {
      if clashes { return OperatorPlatform; }
      if platforms != [] {
        checkFile := true;
        if !checks {
          checkFile := false;
          return InvalidValue;
        }
      }
      var o := ApplyInclude(Lti, RenderLti(platforms), Some(CommitPlatforms(platforms)), env);
      checkFile := false;
      outcome := if !o.Applied? then NotApplied(o) else if restarts then PlatformsDone else ApiRestartFailed;
    }
  }

  lemma Assoc(a: seq<Op>, b: seq<Op>, c: seq<Op>)
    ensures a + (b + c) == (a + b) + c
  {
  }

  predicate NoCommit(ops: seq<Op>) {
    forall i :: 0 <= i < |ops| ==> !ops[i].CommitHosts? && !ops[i].CommitPlatforms?
  }

  /** A run without a commit leaves the page files alone. */
  lemma PagesKept(d: Disk, name: Include, content: string, env: Env)
    ensures DoAll(d, ApplyOps(d, name, content, None, env)).pages == d.pages
  {
    var swap, back, reload := SwapOps(d, name, content), BackOps(d, name, content),
      ReloadOps(d, Changed(d, name, content) || d.marker, env);
    assert NoCommit(swap) && NoCommit(back) && NoCommit(reload);
    OpsKeepPages(d, swap);
    OpsKeepPages(d, swap + back);
    OpsKeepPages(d, swap + [] + reload);
  }

  lemma {:induction false} OpsKeepPages(d: Disk, ops: seq<Op>)
    requires NoCommit(ops)
    ensures DoAll(d, ops).pages == d.pages
    decreases |ops|
  {
    if ops != [] {
      OpsKeepPages(Do(d, ops[0]), ops[1..]);
    }
  }
}
