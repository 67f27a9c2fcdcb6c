// The host-side multiplexer (WebFSServer): every drive path `\host\rest` is
// sent to the oldest live connection of an enabled host, or answered locally.
module Routing {
  import opened Wrappers
  import opened Text
  import opened DokanTypes
  import opened Origins

  /** A live WebSocket connection to a browser tab, as the router sees it. */
  datatype Connection = Connection(id: string, origin: Origin, whenConnected: Time, isConnected: bool)
  {
    /** `RequestOrigin.Host`. */
    function Host(): string { origin.host }
  }

  /** A trust record (DomainProvider); `enabled` is the user's tri-state decision. */
  datatype DomainProvider = DomainProvider(host: string, enabled: Option<bool>, firstSeen: Time, lastSeen: Time, url: string)

  /** The DomainProviders dictionary. */
  type Providers = map<string, DomainProvider>

  /** The dictionary is keyed by each record's own host. */
  ghost predicate KeyedByHost(dp: Providers)
  {
    forall h :: h in dp ==> dp[h].host == h
  }

  // ---- Connection classification ----

  function EnabledHosts(dp: Providers): set<string>
  {
    set h | h in dp && dp[h].enabled == Some(true) :: dp[h].host
  }

  function UndecidedHosts(dp: Providers): set<string>
  {
    set h | h in dp && dp[h].enabled == None :: dp[h].host
  }

  function DisabledHosts(dp: Providers): set<string>
  {
    set h | h in dp && dp[h].enabled != Some(true) :: dp[h].host
  }

  /** `conns.Where(o => hosts.Contains(o.RequestOrigin.Host))`, in the original order. */
  function ConnectionsOf(conns: seq<Connection>, hosts: set<string>): (r: seq<Connection>)
    ensures |r| <= |conns|
    ensures forall c :: c in r <==> c in conns && c.Host() in hosts
  {
    if conns == [] then []
    else
      var rest := ConnectionsOf(conns[1..], hosts);
      assert forall c :: c in conns <==> c == conns[0] || c in conns[1..];
      if conns[0].Host() in hosts then [conns[0]] + rest else rest
  }

  /**
   * The filter keeps the input order: filtering a concatenation filters each
   * part in turn, and one connection is kept exactly when its host is listed.
   */
  lemma {:induction false} ConnectionsOfKeepsOrder(a: seq<Connection>, b: seq<Connection>, hosts: set<string>)
    ensures ConnectionsOf(a + b, hosts) == ConnectionsOf(a, hosts) + ConnectionsOf(b, hosts)
    ensures |a| == 1 ==> ConnectionsOf(a, hosts) == if a[0].Host() in hosts then a else []
    decreases |a|
  {
    if a == [] {
      assert a + b == b;
    } else {
      assert (a + b)[0] == a[0] && (a + b)[1..] == a[1..] + b;
      ConnectionsOfKeepsOrder(a[1..], b, hosts);
      if a[0].Host() in hosts {
        assert [a[0]] + (ConnectionsOf(a[1..], hosts) + ConnectionsOf(b, hosts)) == ([a[0]] + ConnectionsOf(a[1..], hosts)) + ConnectionsOf(b, hosts);
      }
    }
  }

  function EnabledConnections(dp: Providers, conns: seq<Connection>): seq<Connection>
  {
    ConnectionsOf(conns, EnabledHosts(dp))
  }

  function UndecidedConnections(dp: Providers, conns: seq<Connection>): seq<Connection>
  {
    ConnectionsOf(conns, UndecidedHosts(dp))
  }

  function DisabledConnections(dp: Providers, conns: seq<Connection>): seq<Connection>
  {
    ConnectionsOf(conns, DisabledHosts(dp))
  }

  function HostSet(cs: seq<Connection>): set<string>
  {
    set c | c in cs :: c.Host()
  }

  /** ConnectedDomainsCount: one per connection, not per host. */
  function ConnectedDomainsCount(conns: seq<Connection>): nat { |conns| }
  function DomainsCount(dp: Providers): nat { |dp| }
  function ConnectedDomainsEnabled(dp: Providers, conns: seq<Connection>): nat { |HostSet(EnabledConnections(dp, conns))| }
  function ConnectedDomainsUndecided(dp: Providers, conns: seq<Connection>): nat { |HostSet(UndecidedConnections(dp, conns))| }
  function ConnectedDomainsDisabled(dp: Providers, conns: seq<Connection>): nat { |HostSet(DisabledConnections(dp, conns))| }

  /** The tray's status line: undecided, enabled and disabled host counts. */
  function Status(dp: Providers, conns: seq<Connection>): string
  {
    NatToString(ConnectedDomainsUndecided(dp, conns)) + "\U{2753} "
      + NatToString(ConnectedDomainsEnabled(dp, conns)) + "\U{2714}\U{FE0F} "
      + NatToString(ConnectedDomainsDisabled(dp, conns)) + "\U{274C}"
  }

  /**
   * The three classes as the source defines them: undecided is "no decision",
   * disabled is "not enabled" (so it includes undecided), and every record is
   * either enabled or disabled, never both.
   */
  lemma ClassificationOfRecords(dp: Providers, h: string)
    requires KeyedByHost(dp)
    requires h in dp
    ensures h in UndecidedHosts(dp) <==> dp[h].enabled == None
    ensures h in DisabledHosts(dp) <==> dp[h].enabled != Some(true)
    ensures h in EnabledHosts(dp) <==> dp[h].enabled == Some(true)
    ensures h in EnabledHosts(dp) <==> h !in DisabledHosts(dp)
    ensures h in UndecidedHosts(dp) ==> h in DisabledHosts(dp)
  {
  }

  /** A connection whose host has a record is in exactly one of the enabled and disabled lists. */
  lemma ConnectionClassification(dp: Providers, conns: seq<Connection>, c: Connection)
    requires KeyedByHost(dp)
    requires c in conns && c.Host() in dp
    ensures c in EnabledConnections(dp, conns) <==> c !in DisabledConnections(dp, conns)
    ensures c in UndecidedConnections(dp, conns) ==> c in DisabledConnections(dp, conns)
  {
    ClassificationOfRecords(dp, c.Host());
  }

  /** The enabled and undecided counts never exceed the disabled-or-enabled totals they partition. */
  lemma CountsAreHostCounts(dp: Providers, conns: seq<Connection>)
    requires KeyedByHost(dp)
    ensures ConnectedDomainsUndecided(dp, conns) <= ConnectedDomainsDisabled(dp, conns)
    ensures ConnectedDomainsEnabled(dp, conns) <= ConnectedDomainsCount(conns)
  {
    var u := HostSet(UndecidedConnections(dp, conns));
    var d := HostSet(DisabledConnections(dp, conns));
    forall h | h in u ensures h in d {
      var c :| c in UndecidedConnections(dp, conns) && c.Host() == h;
      ConnectionClassification(dp, conns, c);
    }
    assert u <= d;
    SubsetCard(u, d);
    HostSetSize(EnabledConnections(dp, conns));
    var e := HostSet(EnabledConnections(dp, conns));
    assert e <= HostSet(conns);
    SubsetCard(e, HostSet(conns));
    HostSetSize(conns);
  }

  lemma SubsetCard<T>(a: set<T>, b: set<T>)
    requires a <= b
    ensures |a| <= |b|
  {
    assert b == a + (b - a);
  }

  lemma {:induction false} HostSetSize(cs: seq<Connection>)
    ensures |HostSet(cs)| <= |cs|
  {
    if cs != [] {
      HostSetSize(cs[1..]);
      assert HostSet(cs) == {cs[0].Host()} + HostSet(cs[1..]);
    }
  }

  // ---- The routing target ----

  /** The connected connections whose host equals `host` ignoring case. */
  function Matching(cs: seq<Connection>, host: string): (r: seq<Connection>)
    ensures forall c :: c in r <==> c in cs && c.isConnected && EqualsIgnoreCase(c.Host(), host)
  {
    if cs == [] then []
    else
      var rest := Matching(cs[1..], host);
      assert forall c :: c in cs <==> c == cs[0] || c in cs[1..];
      if cs[0].isConnected && EqualsIgnoreCase(cs[0].Host(), host) then [cs[0]] + rest else rest
  }

  /** Matching keeps the input order, in the same way as ConnectionsOf. */
  lemma {:induction false} MatchingKeepsOrder(a: seq<Connection>, b: seq<Connection>, host: string)
    ensures Matching(a + b, host) == Matching(a, host) + Matching(b, host)
    ensures |a| == 1 ==> Matching(a, host) == if a[0].isConnected && EqualsIgnoreCase(a[0].Host(), host) then a else []
    decreases |a|
  {
    if a == [] {
      assert a + b == b;
    } else {
      assert (a + b)[0] == a[0] && (a + b)[1..] == a[1..] + b;
      MatchingKeepsOrder(a[1..], b, host);
      if a[0].isConnected && EqualsIgnoreCase(a[0].Host(), host) {
        assert [a[0]] + (Matching(a[1..], host) + Matching(b, host)) == ([a[0]] + Matching(a[1..], host)) + Matching(b, host);
      }
    }
  }

  /**
   * Position of the element a stable OrderBy(WhenConnected) puts first: the
   * smallest time, and among equal times the earliest position.
   */
  function EarliestIndex(cs: seq<Connection>): (k: nat)
    requires |cs| > 0
    ensures k < |cs|
    ensures forall i :: 0 <= i < |cs| ==> cs[k].whenConnected <= cs[i].whenConnected
    ensures forall i :: 0 <= i < k ==> cs[i].whenConnected > cs[k].whenConnected
  {
    if |cs| == 1 then 0
    else
      var m := 1 + EarliestIndex(cs[1..]);
      if cs[0].whenConnected <= cs[m].whenConnected then 0 else m
  }

  /** GetEnabledHostPrimaryConnection. */
  function PrimaryConnection(dp: Providers, conns: seq<Connection>, host: string): Option<Connection>
  {
    var m := Matching(EnabledConnections(dp, conns), host);
    if m == [] then None else Some(m[EarliestIndex(m)])
  }

  /**
   * The routing target is the connected, enabled connection for the host
   * (compared ignoring case) with the smallest connection time; there is one
   * exactly when some such connection exists.
   */
  lemma PrimaryIsOldestEnabled(dp: Providers, conns: seq<Connection>, host: string)
    ensures PrimaryConnection(dp, conns, host).Some? <==>
      exists c :: c in conns && c.Host() in EnabledHosts(dp) && c.isConnected && EqualsIgnoreCase(c.Host(), host)
    ensures PrimaryConnection(dp, conns, host).Some? ==>
      var p := PrimaryConnection(dp, conns, host).value;
      p in conns && p.Host() in EnabledHosts(dp) && p.isConnected && EqualsIgnoreCase(p.Host(), host) &&
      forall c :: c in conns && c.Host() in EnabledHosts(dp) && c.isConnected && EqualsIgnoreCase(c.Host(), host) ==>
        p.whenConnected <= c.whenConnected
  {
    var m := Matching(EnabledConnections(dp, conns), host);
    if m != [] {
      var k := EarliestIndex(m);
      forall c | c in conns && c.Host() in EnabledHosts(dp) && c.isConnected && EqualsIgnoreCase(c.Host(), host)
        ensures m[k].whenConnected <= c.whenConnected
      {
        var i :| 0 <= i < |m| && m[i] == c;
      }
    }
  }

  /** Hosts whose record is undecided or disabled are never routed to. */
  lemma OnlyEnabledHostsAreRouted(dp: Providers, conns: seq<Connection>, host: string)
    requires KeyedByHost(dp)
    requires PrimaryConnection(dp, conns, host).Some?
    ensures var p := PrimaryConnection(dp, conns, host).value;
      p.Host() in dp && dp[p.Host()].enabled == Some(true)
  {
    PrimaryIsOldestEnabled(dp, conns, host);
  }

  // ---- Path resolution (GetProvider) ----

  /** What GetProvider reports: host segment, forwarded path, and the connection if any. */
  datatype Route = Route(host: string, path: string, conn: Option<Connection>)
  {
    predicate Found() { conn.Some? }
  }

  function Resolve(dp: Providers, conns: seq<Connection>, filename: string): Route
  {
    var parts := Split(filename, '\\');
    if |parts| == 0 then Route("", "", None)
    else
      var conn := PrimaryConnection(dp, conns, parts[0]);
      Route(parts[0], Join(parts[1..], "/"), conn)
  }

  /**
   * The first non-empty segment between backslashes is the host; the rest,
   * joined with '/', is the path the peer sees and splits again. A path with
   * no segments resolves to nothing.
   */
  lemma ResolveSegments(dp: Providers, conns: seq<Connection>, filename: string)
    ensures var parts := Split(filename, '\\'); var r := Resolve(dp, conns, filename);
      (parts == [] ==> r == Route("", "", None)) &&
      (parts != [] ==>
        (r.host == parts[0] && r.conn == PrimaryConnection(dp, conns, parts[0]) &&
         (r.path == "" <==> |parts| == 1) &&
         (NoSeparators('/', parts[1..]) ==> Split(r.path, '/') == parts[1..])))
  {
    var parts := Split(filename, '\\');
    if parts != [] {
      var rest := parts[1..];
      if |rest| > 0 {
        JoinNonEmpty(rest, "/");
      }
      if NoSeparators('/', rest) {
        SplitJoin(rest, '/');
      }
    }
  }

  lemma {:induction false} JoinNonEmpty(parts: seq<string>, sep: string)
    requires |parts| > 0 && |parts[0]| > 0
    ensures Join(parts, sep) != ""
  {
    if |parts| > 1 {
      assert Join(parts, sep) == parts[0] + sep + Join(parts[1..], sep);
      assert |Join(parts, sep)| >= |parts[0]|;
    }
  }

  // ---- Remote calls ----

  datatype Call =
    | CleanupCall(path: string, info: OpInfo)
    | CloseFileCall(path: string, info: OpInfo)
    | CreateFileCall(path: string, access: FileAccess, share: FileShare, mode: FileMode,
                     options: FileOptions, attributes: FileAttributes, info: OpInfo)
    | DeleteDirectoryCall(path: string, info: OpInfo)
    | DeleteFileCall(path: string, info: OpInfo)
    | FindFilesCall(path: string, info: OpInfo)
    | GetFileInformationCall(path: string, info: OpInfo)
    | LockFileCall(path: string, offset: int, length: int, info: OpInfo)
    | UnlockFileCall(path: string, offset: int, length: int, info: OpInfo)
    | ReadFileCall(path: string, offset: int, maxCount: int, info: OpInfo)
    | WriteFileCall(path: string, buffer: seq<byte>, offset: int, info: OpInfo)
    | SetEndOfFileCall(path: string, length: int, info: OpInfo)
    | SetAllocationSizeCall(path: string, length: int, info: OpInfo)
    | SetFileAttributesCall(path: string, attributes: FileAttributes, info: OpInfo)
    | SetFileTimeCall(path: string, creationTime: Option<Time>, lastAccessTime: Option<Time>,
                      lastWriteTime: Option<Time>, info: OpInfo)
    | MoveFileCall(path: string, newPath: string, replace: bool, info: OpInfo)

  /** The outcome of `conn.Run(...)`: it threw, or it returned a possibly null result. */
  datatype Remote<T> = Threw | Returned(result: Option<T>)

  /** A call sent to a peer. */
  datatype Dispatch = Dispatch(connection: Connection, call: Call)

  /** Send `call` and map a throw to `onThrow`, a null result to `onNull`. */
  function Relay<T>(conn: Connection, call: Call, run: (Connection, Call) -> Remote<T>, onThrow: T, onNull: T): (T, Option<Dispatch>)
  {
    var answer := match run(conn, call)
      case Threw => onThrow
      case Returned(None) => onNull
      case Returned(Some(x)) => x;
    (answer, Some(Dispatch(conn, call)))
  }

  /** The operations that are forwarded whenever a connection is found (even for the host root). */
  function ForwardIfRouted<T>(rt: Route, call: string -> Call, run: (Connection, Call) -> Remote<T>, error: T, onNull: T): (T, Option<Dispatch>)
  {
    if rt.Found() then Relay(rt.conn.value, call(rt.path), run, error, onNull) else (error, None)
  }

  /** The operations that are forwarded only below a host root (non-empty stripped path). */
  function ForwardIfPath<T>(rt: Route, call: string -> Call, run: (Connection, Call) -> Remote<T>, error: T): (T, Option<Dispatch>)
  {
    if rt.Found() && rt.path != "" then Relay(rt.conn.value, call(rt.path), run, error, error) else (error, None)
  }

  // ---- IAsyncDokanOperations members ----
  // Each takes the record table and the live connections at call time.

  const SendCleanup := true
  const SendCloseFile := true

  function Cleanup(dp: Providers, conns: seq<Connection>, filename: string, info: OpInfo): Option<Dispatch>
  {
    var rt := Resolve(dp, conns, filename);
    if rt.Found() && SendCleanup then Some(Dispatch(rt.conn.value, CleanupCall(rt.path, info))) else None
  }

  function CloseFile(dp: Providers, conns: seq<Connection>, filename: string, info: OpInfo): Option<Dispatch>
  {
    var rt := Resolve(dp, conns, filename);
    if rt.Found() && SendCloseFile then Some(Dispatch(rt.conn.value, CloseFileCall(rt.path, info))) else None
  }

  function CreateFile(dp: Providers, conns: seq<Connection>, run: (Connection, Call) -> Remote<CreateFileResult>,
                      filename: string, access: FileAccess, share: FileShare, mode: FileMode,
                      options: FileOptions, attributes: FileAttributes, info: OpInfo): (CreateFileResult, Option<Dispatch>)
  {
    var rt := Resolve(dp, conns, filename);
    if rt.Found() then
      Relay(rt.conn.value, CreateFileCall(rt.path, access, share, mode, options, attributes, info), run,
            CreateFileStatus(Error), CreateFileStatus(FileNotFound))
    else if filename == "\\" && mode == Open then (CreateFileStatus(Success), None)
    else (CreateFileStatus(FileNotFound), None)
  }

  function DeleteDirectory(dp: Providers, conns: seq<Connection>, run: (Connection, Call) -> Remote<DokanAsyncResult>,
                           filename: string, info: OpInfo): (DokanAsyncResult, Option<Dispatch>)
  {
    ForwardIfRouted(Resolve(dp, conns, filename), p => DeleteDirectoryCall(p, info), run,
                    DokanAsyncResult(Error), DokanAsyncResult(Error))
  }

  function DeleteFile(dp: Providers, conns: seq<Connection>, run: (Connection, Call) -> Remote<DokanAsyncResult>,
                      filename: string, info: OpInfo): (DokanAsyncResult, Option<Dispatch>)
  {
    ForwardIfRouted(Resolve(dp, conns, filename), p => DeleteFileCall(p, info), run,
                    DokanAsyncResult(Error), DokanAsyncResult(Error))
  }

  function FlushFileBuffers(filename: string, info: OpInfo): DokanAsyncResult { DokanAsyncResult(NotImplemented) }
  function FindFilesWithPattern(filename: string, pattern: string, info: OpInfo): FindFilesResult { FindFilesStatus(NotImplemented) }
  function GetFileSecurity(filename: string, info: OpInfo): GetFileSecurityResult { GetFileSecurityResult(NotImplemented, None) }
  function SetFileSecurity(filename: string, security: SecurityDescriptor, info: OpInfo): DokanAsyncResult { DokanAsyncResult(NotImplemented) }
  function FindStreams(filename: string, info: OpInfo): FindStreamsResult { FindStreamsResult(NotImplemented, None) }

  /** The drive root's entry for one host, stamped with its primary connection's time. */
  function HostEntry(host: string, c: Connection, now: Time): FileInformation
  {
    FileInformation(host, DirectoryAttribute, Some(c.whenConnected), Some(now), Some(c.whenConnected), 0)
  }

  function Names(files: seq<FileInformation>): set<string>
  {
    set f | f in files :: f.fileName
  }

  predicate NoDuplicates<T(==)>(s: seq<T>)
  {
    forall i, j :: 0 <= i < j < |s| ==> s[i] != s[j]
  }

  /** `.Distinct()` on a list: first occurrences, in order. */
  function Distinct(s: seq<string>): (r: seq<string>)
    ensures forall x :: x in r <==> x in s
    ensures NoDuplicates(r)
  {
    if s == [] then []
    else
      var t := Distinct(s[..|s| - 1]);
      assert forall x :: x in s <==> x in s[..|s| - 1] || x == s[|s| - 1];
      if s[|s| - 1] in t then t else t + [s[|s| - 1]]
  }

  /** The foreach over the enabled hosts: one entry per host that has a primary connection. */
  function HostEntries(dp: Providers, conns: seq<Connection>, hosts: seq<string>, now: Time): (r: seq<FileInformation>)
    ensures forall i :: 0 <= i < |r| ==>
      r[i].fileName in hosts && PrimaryConnection(dp, conns, r[i].fileName).Some? &&
      r[i] == HostEntry(r[i].fileName, PrimaryConnection(dp, conns, r[i].fileName).value, now)
    ensures forall h :: h in Names(r) <==> h in hosts && PrimaryConnection(dp, conns, h).Some?
    ensures NoDuplicates(hosts) ==> forall i, j :: 0 <= i < j < |r| ==> r[i].fileName != r[j].fileName
  {
    if hosts == [] then []
    else
      var rest := HostEntries(dp, conns, hosts[1..], now);
      assert forall h :: h in hosts <==> h == hosts[0] || h in hosts[1..];
      match PrimaryConnection(dp, conns, hosts[0])
      case None => rest
      case Some(c) =>
        assert Names([HostEntry(hosts[0], c, now)] + rest) == {hosts[0]} + Names(rest);
        [HostEntry(hosts[0], c, now)] + rest
  }

  function EnabledHostList(dp: Providers, conns: seq<Connection>): seq<string>
  {
    var cs := EnabledConnections(dp, conns);
    Distinct(seq(|cs|, i requires 0 <= i < |cs| => cs[i].Host()))
  }

  function FindFiles(dp: Providers, conns: seq<Connection>, run: (Connection, Call) -> Remote<FindFilesResult>,
                     filename: string, info: OpInfo, now: Time): (FindFilesResult, Option<Dispatch>)
  {
    if filename == "\\" then
      (FindFilesResult(Success, Some(HostEntries(dp, conns, EnabledHostList(dp, conns), now))), None)
    else
      ForwardIfRouted(Resolve(dp, conns, filename), p => FindFilesCall(p, info), run,
                      FindFilesStatus(Error), FindFilesStatus(Error))
  }

  /**
   * Listing the drive root asks no peer and yields exactly one directory entry
   * per distinct enabled host that has a primary connection, dated by that
   * connection's time.
   */
  lemma RootListing(dp: Providers, conns: seq<Connection>, run: (Connection, Call) -> Remote<FindFilesResult>, info: OpInfo, now: Time)
    ensures var (r, sent) := FindFiles(dp, conns, run, "\\", info, now);
      sent.None? && r.status == Success && r.files.Some? &&
      (forall h :: h in Names(r.files.value) <==>
        (exists c :: c in EnabledConnections(dp, conns) && c.Host() == h) && PrimaryConnection(dp, conns, h).Some?) &&
      (forall i, j :: 0 <= i < j < |r.files.value| ==> r.files.value[i].fileName != r.files.value[j].fileName) &&
      (forall f :: f in r.files.value ==>
        f.attributes == DirectoryAttribute &&
        f.creationTime == f.lastWriteTime == Some(PrimaryConnection(dp, conns, f.fileName).value.whenConnected))
  {
    var cs := EnabledConnections(dp, conns);
    var hs := seq(|cs|, i requires 0 <= i < |cs| => cs[i].Host());
    var files := HostEntries(dp, conns, Distinct(hs), now);
    forall h ensures h in Distinct(hs) <==> exists c :: c in cs && c.Host() == h {
      if h in hs {
        var i :| 0 <= i < |hs| && hs[i] == h;
        assert cs[i] in cs;
      }
      if exists c :: c in cs && c.Host() == h {
        var c :| c in cs && c.Host() == h;
        var i :| 0 <= i < |cs| && cs[i] == c;
        assert hs[i] == h;
      }
    }
    forall f | f in files
      ensures f.attributes == DirectoryAttribute &&
        f.creationTime == f.lastWriteTime == Some(PrimaryConnection(dp, conns, f.fileName).value.whenConnected)
    {
      var i :| 0 <= i < |files| && files[i] == f;
    }
  }

  function GetFileInformation(dp: Providers, conns: seq<Connection>, run: (Connection, Call) -> Remote<GetFileInformationResult>,
                              filename: string, info: OpInfo, now: Time, startup: Time): (GetFileInformationResult, Option<Dispatch>)
  {
    if filename == "\\" then
      (GetFileInformationResult(Success, FileInformation(filename, DirectoryAttribute, Some(startup), Some(now), Some(startup), 0)), None)
    else
      var rt := Resolve(dp, conns, filename);
      if !rt.Found() then (FileInformationStatus(Error), None)
      else if rt.path == "" then
        var c := rt.conn.value;
        (GetFileInformationResult(Success, FileInformation(filename, DirectoryAttribute, Some(c.whenConnected), Some(now), Some(c.whenConnected), 0)), None)
      else
        var (r, sent) := Relay(rt.conn.value, GetFileInformationCall(rt.path, info), run,
                               FileInformationStatus(Error), FileInformationStatus(Error));
        match run(rt.conn.value, GetFileInformationCall(rt.path, info))
        case Returned(Some(x)) => (x.(fileInfo := x.fileInfo.(fileName := filename)), sent)
        case _ => (r, sent)
  }

  /**
   * GetFileInformation answers for the drive root and for each host root
   * itself, and for deeper paths returns the peer's record under the full
   * drive path, everything else kept.
   */
  lemma FileInformationRules(dp: Providers, conns: seq<Connection>, run: (Connection, Call) -> Remote<GetFileInformationResult>,
                             filename: string, info: OpInfo, now: Time, startup: Time)
    ensures var (r, sent) := GetFileInformation(dp, conns, run, filename, info, now, startup);
      var rt := Resolve(dp, conns, filename);
      (filename == "\\" ==>
         (sent.None? && r.status == Success && r.fileInfo.attributes == DirectoryAttribute &&
          r.fileInfo.creationTime == r.fileInfo.lastWriteTime == Some(startup))) &&
      (filename != "\\" && rt.Found() && rt.path == "" ==>
         (sent.None? && r.status == Success &&
          r.fileInfo.fileName == filename && r.fileInfo.attributes == DirectoryAttribute &&
          r.fileInfo.creationTime == r.fileInfo.lastWriteTime == Some(rt.conn.value.whenConnected))) &&
      (filename != "\\" && rt.Found() && rt.path != "" ==>
         sent == Some(Dispatch(rt.conn.value, GetFileInformationCall(rt.path, info))) &&
         match run(rt.conn.value, GetFileInformationCall(rt.path, info))
         case Returned(Some(x)) => r.status == x.status && r.fileInfo.fileName == filename &&
           r.fileInfo.attributes == x.fileInfo.attributes && r.fileInfo.length == x.fileInfo.length &&
           r.fileInfo.creationTime == x.fileInfo.creationTime && r.fileInfo.lastWriteTime == x.fileInfo.lastWriteTime &&
           r.fileInfo.lastAccessTime == x.fileInfo.lastAccessTime
         case _ => r.status == Error) &&
      (filename != "\\" && !rt.Found() ==> sent.None? && r.status == Error)
  {
  }

  function LockFile(dp: Providers, conns: seq<Connection>, run: (Connection, Call) -> Remote<DokanAsyncResult>,
                    filename: string, offset: int, length: int, info: OpInfo): (DokanAsyncResult, Option<Dispatch>)
  {
    ForwardIfPath(Resolve(dp, conns, filename), p => LockFileCall(p, offset, length, info), run, DokanAsyncResult(Error))
  }

  function UnlockFile(dp: Providers, conns: seq<Connection>, run: (Connection, Call) -> Remote<DokanAsyncResult>,
                      filename: string, offset: int, length: int, info: OpInfo): (DokanAsyncResult, Option<Dispatch>)
  {
    ForwardIfPath(Resolve(dp, conns, filename), p => UnlockFileCall(p, offset, length, info), run, DokanAsyncResult(Error))
  }

  function ReadFile(dp: Providers, conns: seq<Connection>, run: (Connection, Call) -> Remote<ReadFileResult>,
                    filename: string, offset: int, maxCount: int, info: OpInfo): (ReadFileResult, Option<Dispatch>)
  {
    ForwardIfPath(Resolve(dp, conns, filename), p => ReadFileCall(p, offset, maxCount, info), run, ReadFileStatus(Error))
  }

  function WriteFile(dp: Providers, conns: seq<Connection>, run: (Connection, Call) -> Remote<WriteFileResult>,
                     filename: string, buffer: seq<byte>, offset: int, info: OpInfo): (WriteFileResult, Option<Dispatch>)
  {
    ForwardIfPath(Resolve(dp, conns, filename), p => WriteFileCall(p, buffer, offset, info), run, WriteFileStatus(Error))
  }

  function SetEndOfFile(dp: Providers, conns: seq<Connection>, run: (Connection, Call) -> Remote<DokanAsyncResult>,
                        filename: string, length: int, info: OpInfo): (DokanAsyncResult, Option<Dispatch>)
  {
    ForwardIfPath(Resolve(dp, conns, filename), p => SetEndOfFileCall(p, length, info), run, DokanAsyncResult(Error))
  }

  function SetAllocationSize(dp: Providers, conns: seq<Connection>, run: (Connection, Call) -> Remote<DokanAsyncResult>,
                             filename: string, length: int, info: OpInfo): (DokanAsyncResult, Option<Dispatch>)
  {
    ForwardIfPath(Resolve(dp, conns, filename), p => SetAllocationSizeCall(p, length, info), run, DokanAsyncResult(Error))
  }

  function SetFileAttributes(dp: Providers, conns: seq<Connection>, run: (Connection, Call) -> Remote<DokanAsyncResult>,
                             filename: string, attributes: FileAttributes, info: OpInfo): (DokanAsyncResult, Option<Dispatch>)
  {
    ForwardIfPath(Resolve(dp, conns, filename), p => SetFileAttributesCall(p, attributes, info), run, DokanAsyncResult(Error))
  }

  function SetFileTime(dp: Providers, conns: seq<Connection>, run: (Connection, Call) -> Remote<DokanAsyncResult>,
                       filename: string, creationTime: Option<Time>, lastAccessTime: Option<Time>, lastWriteTime: Option<Time>,
                       info: OpInfo): (DokanAsyncResult, Option<Dispatch>)
  {
    ForwardIfPath(Resolve(dp, conns, filename), p => SetFileTimeCall(p, creationTime, lastAccessTime, lastWriteTime, info), run,
                  DokanAsyncResult(Error))
  }

  function MoveFile(dp: Providers, conns: seq<Connection>, run: (Connection, Call) -> Remote<DokanAsyncResult>,
                    filename: string, newName: string, replace: bool, info: OpInfo): (DokanAsyncResult, Option<Dispatch>)
  {
    var src := Resolve(dp, conns, filename);
    var dst := Resolve(dp, conns, newName);
    if src.Found() && dst.Found() && src.conn == dst.conn && src.path != "" then
      Relay(src.conn.value, MoveFileCall(src.path, dst.path, replace, info), run, DokanAsyncResult(Error), DokanAsyncResult(Error))
    else (DokanAsyncResult(Error), None)
  }

  function GetVolumeInformation(info: OpInfo): GetVolumeInformationResult
  {
    GetVolumeInformationResult(Success, VolumeLabel, NoFeatures, "", 256)
  }

  const VolumeLabel := "WebFS"
  const MiB := 1024 * 1024

  function Mounted(mountPoint: string, info: OpInfo): DokanAsyncResult { DokanAsyncResult(Success) }
  function Unmounted(info: OpInfo): DokanAsyncResult { DokanAsyncResult(Success) }

  function GetDiskFreeSpace(info: OpInfo): GetDiskFreeSpaceResult
  {
    GetDiskFreeSpaceResult(Success, 512 * MiB, 1024 * MiB, 512 * MiB)
  }

  /** The operations answered locally, whatever the path. */
  lemma FixedAnswers(filename: string, pattern: string, sd: SecurityDescriptor, mountPoint: string, info: OpInfo)
    ensures FlushFileBuffers(filename, info).status == NotImplemented
    ensures FindFilesWithPattern(filename, pattern, info).status == NotImplemented
    ensures GetFileSecurity(filename, info).status == NotImplemented
    ensures SetFileSecurity(filename, sd, info).status == NotImplemented
    ensures FindStreams(filename, info).status == NotImplemented
    ensures Mounted(mountPoint, info).status == Success && Unmounted(info).status == Success
    ensures GetVolumeInformation(info) == GetVolumeInformationResult(Success, "WebFS", NoFeatures, "", 256)
    ensures GetDiskFreeSpace(info) == GetDiskFreeSpaceResult(Success, 536870912, 1073741824, 536870912)
  {
  }

  /**
   * The eight data operations (read, write, lock, unlock, end of file,
   * allocation, attributes, times): without a provider or with an empty
   * stripped path they answer Error and send nothing; otherwise they send one
   * call with the stripped path, map a throw or a null answer to Error and
   * return any other answer unchanged.
   */
  lemma ForwardIfPathRules<T>(rt: Route, call: string -> Call, run: (Connection, Call) -> Remote<T>, error: T)
    ensures var (r, sent) := ForwardIfPath(rt, call, run, error);
      (!rt.Found() || rt.path == "" ==> r == error && sent.None?) &&
      (rt.Found() && rt.path != "" ==>
        sent == Some(Dispatch(rt.conn.value, call(rt.path))) &&
        r == match run(rt.conn.value, call(rt.path)) case Returned(Some(x)) => x case _ => error)
  {
  }

  /** ReadFile as an instance of the data-operation rule, with the read's own arguments. */
  lemma ReadFileRouting(dp: Providers, conns: seq<Connection>, run: (Connection, Call) -> Remote<ReadFileResult>,
                        filename: string, offset: int, maxCount: int, info: OpInfo)
    ensures var (r, sent) := ReadFile(dp, conns, run, filename, offset, maxCount, info);
      var rt := Resolve(dp, conns, filename);
      (sent.Some? <==> rt.Found() && rt.path != "") &&
      (sent.Some? ==> sent.value == Dispatch(rt.conn.value, ReadFileCall(rt.path, offset, maxCount, info)) &&
                      r == match run(sent.value.connection, sent.value.call) case Returned(Some(x)) => x case _ => ReadFileStatus(Error)) &&
      (sent.None? ==> r == ReadFileStatus(Error))
  {
  }

  /** WriteFile as an instance of the data-operation rule, with the buffer and offset passed on. */
  lemma WriteFileRouting(dp: Providers, conns: seq<Connection>, run: (Connection, Call) -> Remote<WriteFileResult>,
                         filename: string, buffer: seq<byte>, offset: int, info: OpInfo)
    ensures var (r, sent) := WriteFile(dp, conns, run, filename, buffer, offset, info);
      var rt := Resolve(dp, conns, filename);
      (sent.Some? <==> rt.Found() && rt.path != "") &&
      (sent.Some? ==> sent.value == Dispatch(rt.conn.value, WriteFileCall(rt.path, buffer, offset, info)) &&
                      r == match run(sent.value.connection, sent.value.call) case Returned(Some(x)) => x case _ => WriteFileStatus(Error)) &&
      (sent.None? ==> r == WriteFileStatus(Error))
  {
  }

  /**
   * Below the drive root FindFiles is forwarded whenever the host resolves,
   * even for the host folder itself (an empty stripped path).
   */
  lemma FindFilesRouting(dp: Providers, conns: seq<Connection>, run: (Connection, Call) -> Remote<FindFilesResult>,
                         filename: string, info: OpInfo, now: Time)
    ensures var (r, sent) := FindFiles(dp, conns, run, filename, info, now);
      var rt := Resolve(dp, conns, filename);
      filename != "\\" ==>
      (sent.Some? <==> rt.Found()) &&
      (sent.Some? ==> sent.value == Dispatch(rt.conn.value, FindFilesCall(rt.path, info)) &&
                      r == match run(sent.value.connection, sent.value.call) case Returned(Some(x)) => x case _ => FindFilesStatus(Error)) &&
      (sent.None? ==> r == FindFilesStatus(Error))
  {
  }

  /**
   * A path whose host has no connected, enabled connection (compared ignoring
   * case) is answered without asking any peer, and the answer is the same
   * whatever the peers would have said.
   */
  lemma UnroutedPathsAreLocal(dp: Providers, conns: seq<Connection>, filename: string,
                              runR: (Connection, Call) -> Remote<ReadFileResult>,
                              runR2: (Connection, Call) -> Remote<ReadFileResult>,
                              runW: (Connection, Call) -> Remote<WriteFileResult>,
                              runS: (Connection, Call) -> Remote<DokanAsyncResult>,
                              runC: (Connection, Call) -> Remote<CreateFileResult>,
                              runI: (Connection, Call) -> Remote<GetFileInformationResult>,
                              offset: int, count: int, buffer: seq<byte>, info: OpInfo, now: Time, startup: Time)
    requires var parts := Split(filename, '\\');
      parts != [] ==> forall c :: c in conns && c.isConnected && EqualsIgnoreCase(c.Host(), parts[0]) ==> c.Host() !in EnabledHosts(dp)
    ensures ReadFile(dp, conns, runR, filename, offset, count, info) == ReadFile(dp, conns, runR2, filename, offset, count, info)
    ensures ReadFile(dp, conns, runR, filename, offset, count, info) == (ReadFileStatus(Error), None)
    ensures WriteFile(dp, conns, runW, filename, buffer, offset, info).1.None?
    ensures LockFile(dp, conns, runS, filename, offset, count, info).1.None?
    ensures UnlockFile(dp, conns, runS, filename, offset, count, info).1.None?
    ensures SetEndOfFile(dp, conns, runS, filename, count, info).1.None?
    ensures SetAllocationSize(dp, conns, runS, filename, count, info).1.None?
    ensures DeleteFile(dp, conns, runS, filename, info).1.None?
    ensures DeleteDirectory(dp, conns, runS, filename, info).1.None?
    ensures MoveFile(dp, conns, runS, filename, filename, false, info).1.None?
    ensures Cleanup(dp, conns, filename, info).None? && CloseFile(dp, conns, filename, info).None?
    ensures CreateFile(dp, conns, runC, filename, 0, 0, Open, 0, 0, info).1.None?
    ensures GetFileInformation(dp, conns, runI, filename, info, now, startup).1.None?
  {
    var parts := Split(filename, '\\');
    if parts != [] {
      PrimaryIsOldestEnabled(dp, conns, parts[0]);
    }
  }

  /** CreateFile's local answers: the drive root opens, anything else unrouted is not found. */
  lemma CreateFileLocal(dp: Providers, conns: seq<Connection>, run: (Connection, Call) -> Remote<CreateFileResult>,
                        filename: string, access: FileAccess, share: FileShare, mode: FileMode,
                        options: FileOptions, attributes: FileAttributes, info: OpInfo)
    ensures var (r, sent) := CreateFile(dp, conns, run, filename, access, share, mode, options, attributes, info);
      var rt := Resolve(dp, conns, filename);
      (filename == "\\" ==> sent.None? && r.status == (if mode == Open then Success else FileNotFound)) &&
      (!rt.Found() && filename != "\\" ==> sent.None? && r.status == FileNotFound) &&
      (rt.Found() ==> sent.Some? && r == match run(rt.conn.value, sent.value.call)
        case Threw => CreateFileStatus(Error)
        case Returned(None) => CreateFileStatus(FileNotFound)
        case Returned(Some(x)) => x)
  {
    if filename == "\\" {
      assert filename[0] == '\\' && filename[1..] == "";
      assert SplitFrom("", '\\', []) == [];
      assert SplitFrom(filename, '\\', []) == [] + SplitFrom(filename[1..], '\\', []);
      assert Split(filename, '\\') == [];
    }
  }

  /**
   * MoveFile sends one call carrying both stripped paths only when both paths
   * resolve to the same connection and the source is below a host root.
   */
  lemma MoveFileRouting(dp: Providers, conns: seq<Connection>, run: (Connection, Call) -> Remote<DokanAsyncResult>,
                        filename: string, newName: string, replace: bool, info: OpInfo)
    ensures var (r, sent) := MoveFile(dp, conns, run, filename, newName, replace, info);
      var src := Resolve(dp, conns, filename);
      var dst := Resolve(dp, conns, newName);
      (sent.Some? <==> src.Found() && dst.Found() && src.conn == dst.conn && src.path != "") &&
      (sent.Some? ==> sent.value == Dispatch(src.conn.value, MoveFileCall(src.path, dst.path, replace, info)) &&
                      r == match run(sent.value.connection, sent.value.call) case Returned(Some(x)) => x case _ => DokanAsyncResult(Error)) &&
      (sent.None? ==> r.status == Error)
  {
  }

  // ---- Trust records ----

  /** SaveNewPerm: a record for a host not seen before, with no decision yet. */
  function NewPerm(conn: Connection, now: Time): DomainProvider
  {
    DomainProvider(conn.Host(), None, now, now, Authority(conn.origin))
  }

  /** The record table after WebSocketServer_OnConnected. */
  function Connected(dp: Providers, conn: Connection, now: Time): Providers
  {
    var h := conn.Host();
    if h !in dp then dp[h := NewPerm(conn, now)]
    else dp[h := dp[h].(lastSeen := now, url := Authority(conn.origin))]
  }

  /** The record table after SetDomainAllowed. */
  function Allowed(dp: Providers, host: string, enabled: bool): Providers
  {
    if host in dp then dp[host := dp[host].(enabled := Some(enabled))] else dp
  }

  /**
   * A connection creates a record for an unseen host (undecided, first and
   * last seen now, URL the origin's authority) and otherwise refreshes only
   * LastSeen and Url; no decision changes, so the set of routable hosts is
   * the same before and after.
   */
  lemma ConnectKeepsDecisions(dp: Providers, conn: Connection, now: Time)
    requires KeyedByHost(dp)
    ensures var dp' := Connected(dp, conn, now); var h := conn.Host();
      KeyedByHost(dp') && dp'.Keys == dp.Keys + {h} &&
      (h !in dp ==> dp'[h].enabled == None && dp'[h].firstSeen == now && dp'[h].lastSeen == now && dp'[h].url == Authority(conn.origin)) &&
      (h in dp ==> dp'[h].enabled == dp[h].enabled && dp'[h].firstSeen == dp[h].firstSeen &&
                   dp'[h].lastSeen == now && dp'[h].url == Authority(conn.origin)) &&
      (forall k :: k in dp && k != h ==> dp'[k] == dp[k]) &&
      EnabledHosts(dp') == EnabledHosts(dp)
  {
    var dp' := Connected(dp, conn, now);
    var h := conn.Host();
    forall x ensures x in EnabledHosts(dp') <==> x in EnabledHosts(dp) {
      if x in EnabledHosts(dp) {
        assert x in dp && dp[x].enabled == Some(true);
        assert dp'[x].enabled == Some(true) && dp'[x].host == x;
      }
      if x in EnabledHosts(dp') {
        assert x in dp' && dp'[x].enabled == Some(true);
        assert x in dp && dp[x].host == x;
      }
    }
  }

  /** SetDomainAllowed changes only the decision of a host already present. */
  lemma AllowChangesOneDecision(dp: Providers, host: string, enabled: bool)
    requires KeyedByHost(dp)
    ensures var dp' := Allowed(dp, host, enabled);
      KeyedByHost(dp') && dp'.Keys == dp.Keys &&
      (host in dp ==> dp'[host].enabled == Some(enabled)) &&
      (forall k :: k in dp && k != host ==> dp'[k] == dp[k]) &&
      EnabledHosts(dp') == if host !in dp then EnabledHosts(dp)
                           else if enabled then EnabledHosts(dp) + {host} else EnabledHosts(dp) - {host}
  {
    var dp' := Allowed(dp, host, enabled);
    if host in dp {
      forall x ensures x in EnabledHosts(dp') <==> x in (if enabled then EnabledHosts(dp) + {host} else EnabledHosts(dp) - {host}) {
        if x in EnabledHosts(dp) && x != host {
          assert x in dp && dp[x].enabled == Some(true);
          assert dp'[x].enabled == Some(true) && dp'[x].host == x;
        }
        if x in EnabledHosts(dp') {
          assert x in dp' && dp'[x].enabled == Some(true);
        }
        if enabled && x == host {
          assert dp'[host].host == host;
        }
      }
    }
  }

  /** OnConnectRequest: cancel unless the origin header parses. */
  function CancelConnectRequest(header: Option<string>, parse: string -> Option<Origin>): bool
  {
    RequestOrigin(header, parse).None?
  }

  /** A request is admitted exactly when it names a non-empty origin that parses. */
  lemma ConnectRequestRule(header: Option<string>, parse: string -> Option<Origin>)
    ensures !CancelConnectRequest(header, parse) <==>
      header.Some? && header.value != "" && parse(header.value).Some?
  {
  }

  /** WebFSServer's own state: the trust-record dictionary. */
  class WebFSServer {
    var domainProviders: Providers
    const startup: Time

    ghost predicate Valid()
      reads this
    {
      KeyedByHost(domainProviders)
    }

    /** Loads the records from the database; Host is the table's key, so hosts are distinct. */
    constructor (records: map<string, DomainProvider>, startup: Time)
      requires KeyedByHost(records)
      ensures Valid() && domainProviders == records && this.startup == startup
    {
      domainProviders := records;
      this.startup := startup;
    }

    /** GetDomainAllowed: the record for a host, if any. */
    function GetDomainAllowed(host: string): (r: Option<DomainProvider>)
      reads this
      requires Valid()
      ensures r.Some? <==> host in domainProviders
      ensures r.Some? ==> r.value.host == host && r.value == domainProviders[host]
    {
      if host in domainProviders then Some(domainProviders[host]) else None
    }

    method SetDomainAllowed(host: string, enabled: bool)
      requires Valid()
      modifies this
      ensures Valid()
      ensures domainProviders == Allowed(old(domainProviders), host, enabled)
    {
      if host in domainProviders {
        var value := domainProviders[host];
        domainProviders := domainProviders[host := value.(enabled := Some(enabled))];
      }
      AllowChangesOneDecision(old(domainProviders), host, enabled);
    }

    /** SaveNewPerm: builds the record that is inserted for an unseen host. */
    method SaveNewPerm(conn: Connection, now: Time) returns (perm: DomainProvider)
      ensures perm.host == conn.Host() && perm.enabled.None?
      ensures perm.firstSeen == now && perm.lastSeen == now
      ensures perm.url == Authority(conn.origin)
    {
      perm := DomainProvider(conn.Host(), None, now, now, Authority(conn.origin));
    }

    /** WebSocketServer_OnConnected. */
    method OnConnected(conn: Connection, now: Time)
      requires Valid()
      modifies this
      ensures Valid()
      ensures domainProviders == Connected(old(domainProviders), conn, now)
    {
      var h := conn.Host();
      if h !in domainProviders {
        var value := SaveNewPerm(conn, now);
        domainProviders := domainProviders[h := value];
      } else {
        var value := domainProviders[h];
        domainProviders := domainProviders[h := value.(lastSeen := now, url := Authority(conn.origin))];
      }
      ConnectKeepsDecisions(old(domainProviders), conn, now);
    }

    /** GetProvider: split, take the head off the list, join the rest, find the connection. */
    method GetProvider(filename: string, conns: seq<Connection>) returns (found: bool, host: string, path: string, conn: Option<Connection>)
      ensures Route(host, path, conn) == Resolve(domainProviders, conns, filename)
      ensures found <==> conn.Some?
    {
      var parts := Split(filename, '\\');
      if |parts| == 0 {
        host, path, conn := "", "", None;
      } else {
        host := parts[0];
        parts := parts[1..];
        path := Join(parts, "/");
        conn := PrimaryConnection(domainProviders, conns, host);
      }
      found := conn.Some?;
    }
  }
}
