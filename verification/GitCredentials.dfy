/**
  Git tokens per tenant and host, kept in one flat file of string keys.

  Reading the file may find it broken or out of reach. Writing replaces it before its permissions are
  set, so a write may fail before it took place or be reported as failed after it.
 */
module GitCredentials {
  import opened Text
  import opened Wrappers

  // ---------------------------------------------------------------- hosts

  /** The lower-case form of a character, as far as the host pattern can tell. */
  function LowerChar(c: char): char {
    if 'A' <= c <= 'Z' then c - 'A' + 'a' else if c == '\U{212A}' then 'k' else c
  }

  function Lower(s: string): (r: string)
    ensures |r| == |s|
    ensures forall i :: 0 <= i < |s| ==> r[i] == LowerChar(s[i])
  {
    seq(|s|, i requires 0 <= i < |s| => LowerChar(s[i]))
  }

  predicate IsDigit(c: char) {
    '0' <= c <= '9'
  }

  predicate IsAlnum(c: char) {
    IsDigit(c) || IsLetter(c)
  }

  function IndexOf(s: string, c: char): (i: nat)
    ensures i <= |s| && c !in s[..i] && (i < |s| ==> s[i] == c)
  {
    if s == "" || s[0] == c then 0
    else
      var i := IndexOf(s[1..], c);
      assert s[..i + 1] == [s[0]] + s[1..][..i];
      i + 1
  }

  predicate IsLabel(s: string) {
    && 1 <= |s| <= 63
    && (forall i :: 0 <= i < |s| ==> IsAlnum(s[i]) || s[i] == '-')
    && IsAlnum(s[0]) && IsAlnum(s[|s| - 1])
  }

  /** Labels separated by dots. */
  predicate IsName(s: string) {
    var i := IndexOf(s, '.');
    if i == |s| then IsLabel(s) else IsLabel(s[..i]) && IsName(s[i + 1..])
  }

  predicate IsPort(s: string) {
    1 <= |s| <= 5 && forall i :: 0 <= i < |s| ==> IsDigit(s[i])
  }

  /** A name, optionally with a port. */
  predicate IsHost(s: string) {
    var i := IndexOf(s, ':');
    if i == |s| then IsName(s) else IsName(s[..i]) && IsPort(s[i + 1..])
  }

  function Normalize(host: string): string {
    var candidate := Lower(Strip(host));
    if candidate != "" && IsHost(candidate) then candidate else ""
  }

  // ---------------------------------------------------------------- hosts put together from labels

  predicate IsPortChar(c: char) {
    '0' <= c <= '9'
  }

  predicate IsLabelChar(c: char) {
    'a' <= c <= 'z' || 'A' <= c <= 'Z' || '0' <= c <= '9' || c == '-'
  }

  /** Up to 63 letters, digits and hyphens, with no hyphen at either end. */
  ghost predicate IsGoodLabel(s: string) {
    1 <= |s| <= 63 && (forall c :: c in s ==> IsLabelChar(c)) && s[0] != '-' && s[|s| - 1] != '-'
  }

  function Join(labels: seq<string>): string {
    if labels == [] then "" else if |labels| == 1 then labels[0] else labels[0] + "." + Join(labels[1..])
  }

  /** The labels with dots between them and, if there is a port, a colon and one to five digits behind them. */
  ghost predicate IsMadeOf(s: string, labels: seq<string>, port: Option<string>) {
    && labels != [] && (forall i :: 0 <= i < |labels| ==> IsGoodLabel(labels[i]))
    && (port.Some? ==> 1 <= |port.value| <= 5 && forall c :: c in port.value ==> IsPortChar(c))
    && s == Join(labels) + if port.Some? then ":" + port.value else ""
  }

  lemma LabelIff(s: string)
    ensures IsLabel(s) <==> IsGoodLabel(s)
  {
    forall c | c in s ensures exists i :: 0 <= i < |s| && s[i] == c {
    }
    if IsGoodLabel(s) {
      forall i | 0 <= i < |s| ensures IsAlnum(s[i]) || s[i] == '-' {
        assert s[i] in s && IsLabelChar(s[i]);
      }
    }
  }

  lemma {:induction false} JoinedIsName(labels: seq<string>)
    requires labels != [] && forall i :: 0 <= i < |labels| ==> IsLabel(labels[i])
    ensures IsName(Join(labels))
  {
    var first := labels[0];
    assert '.' !in first;
    if |labels| == 1 {
      assert IndexOf(first, '.') == |first|;
    } else {
      JoinedIsName(labels[1..]);
      var s := Join(labels);
      FirstIndexIs(s, '.', |first|);
      assert s[..|first|] == first && s[|first| + 1..] == Join(labels[1..]);
    }
  }

  lemma {:induction false} NameIsJoined(s: string) returns (labels: seq<string>)
    requires IsName(s)
    ensures labels != [] && (forall i :: 0 <= i < |labels| ==> IsLabel(labels[i])) && Join(labels) == s
    decreases |s|
  {
    hide IsLabel, IndexOf;
    var dot := IndexOf(s, '.');
    if dot == |s| {
      labels := [s];
    } else {
      var rest := NameIsJoined(s[dot + 1..]);
      labels := [s[..dot]] + rest;
      assert labels[1..] == rest;
      assert s == s[..dot] + "." + s[dot + 1..];
    }
  }

  lemma PortIff(s: string)
    ensures IsPort(s) <==> 1 <= |s| <= 5 && forall c :: c in s ==> IsPortChar(c)
  {
    forall c | c in s ensures exists i :: 0 <= i < |s| && s[i] == c {
    }
    if forall c :: c in s ==> IsPortChar(c) {
      forall i | 0 <= i < |s| ensures IsDigit(s[i]) {
        assert s[i] in s;
      }
    }
  }

  /** The hosts accepted are exactly those put together in this way. */
  lemma HostIff(s: string)
    ensures IsHost(s) <==> exists labels, port :: IsMadeOf(s, labels, port)
  {
    if IsHost(s) {
      HostIsMade(s);
    }
    if labels, port :| IsMadeOf(s, labels, port) {
      MadeIsHost(s, labels, port);
    }
  }

  lemma HostIsMade(s: string)
    requires IsHost(s)
    ensures exists labels, port :: IsMadeOf(s, labels, port)
  {
    hide IsLabel, IsGoodLabel, IsPort;
    var colon := IndexOf(s, ':');
    var labels := NameIsJoined(if colon == |s| then s else s[..colon]);
    forall i | 0 <= i < |labels| ensures IsGoodLabel(labels[i]) {
      LabelIff(labels[i]);
    }
    if colon == |s| {
      assert IsMadeOf(s, labels, None);
    } else {
      PortIff(s[colon + 1..]);
      assert s == s[..colon] + (":" + s[colon + 1..]);
      assert IsMadeOf(s, labels, Some(s[colon + 1..]));
    }
  }

  lemma MadeIsHost(s: string, labels: seq<string>, port: Option<string>)
    requires IsMadeOf(s, labels, port)
    ensures IsHost(s)
  {
    hide IsLabel, IsGoodLabel, IsPort, IsName, IndexOf;
    forall i | 0 <= i < |labels| ensures IsLabel(labels[i]) {
      LabelIff(labels[i]);
    }
    JoinedIsName(labels);
    var name := Join(labels);
    NameHasNoColon(name);
    if port.Some? {
      PortIff(port.value);
      assert s == name + ":" + port.value;
      ColonComesFirst(name, port.value);
      assert s[..|name|] == name && s[|name| + 1..] == port.value;
    } else {
      assert s == name;
      assert s[..IndexOf(s, ':')] <= s;
    }
  }

  predicate IsHostChar(c: char) {
    IsAlnum(c) || c == '-' || c == '.' || c == ':'
  }

  lemma {:induction false} NameChars(s: string, i: nat)
    requires IsName(s) && i < |s|
    ensures (IsAlnum(s[i]) || s[i] == '-' || s[i] == '.') && s[i] != ':'
    decreases |s|
  {
    var dot := IndexOf(s, '.');
    if dot < |s| && i < dot {
      assert s[..dot][i] == s[i];
    } else if dot < |s| && i > dot {
      NameChars(s[dot + 1..], i - dot - 1);
    }
  }

  lemma HostChars(s: string, i: nat)
    requires IsHost(s) && i < |s|
    ensures IsHostChar(s[i]) && !IsSpace(s[i])
  {
    var colon := IndexOf(s, ':');
    if colon == |s| {
      NameChars(s, i);
    } else if i < colon {
      assert s[..colon][i] == s[i];
      NameChars(s[..colon], i);
    } else if i > colon {
      assert s[colon + 1..][i - colon - 1] == s[i];
    }
  }

  lemma NameHasNoColon(s: string)
    requires IsName(s)
    ensures ':' !in s && s != ""
  {
  }

  lemma HostHasChars(s: string)
    requires IsHost(s)
    ensures s != ""
  {
  }

  /** Every spelling of a host, in any case and with white space around it, is filed under one form. */
  lemma EverySpellingIsFiledAlike(before: string, host: string, after: string)
    requires IsHost(Lower(host)) && host != ""
    requires !IsSpace(host[0]) && !IsSpace(host[|host| - 1])
    requires forall c :: c in before + after ==> IsSpace(c)
    ensures Normalize(before + host + after) == Lower(host)
    ensures Normalize(Lower(host)) == Lower(host)
  {
    StripOf(before, host, after);
    NormalizedStays(Lower(host), host);
  }

  predicate IsUpper(c: char) {
    'A' <= c <= 'Z'
  }

  /** The same letter in either case, the Kelvin sign standing for a K; any other character only for itself. */
  predicate SameLetter(c: char, d: char) {
    || c == d
    || (IsUpper(c) && d as int - 'a' as int == c as int - 'A' as int)
    || (IsUpper(d) && c as int - 'a' as int == d as int - 'A' as int)
    || (c in "kK\U{212A}" && d in "kK\U{212A}")
  }

  lemma SameLetterLowers(c: char, d: char)
    requires SameLetter(c, d)
    ensures LowerChar(c) == LowerChar(d) && !IsUpper(LowerChar(c))
    ensures IsSpace(d) ==> c == d
  {
  }

  /** The case of letters makes no difference to where a host is filed, and none is filed in upper case. */
  lemma CaseIsIgnored(before: string, host: string, other: string, after: string)
    requires IsHost(Lower(host)) && host != ""
    requires !IsSpace(host[0]) && !IsSpace(host[|host| - 1])
    requires forall c :: c in before + after ==> IsSpace(c)
    requires |other| == |host| && forall i :: 0 <= i < |host| ==> SameLetter(host[i], other[i])
    ensures Normalize(before + other + after) == Normalize(before + host + after) == Lower(host)
    ensures forall c :: c in Lower(host) ==> !IsUpper(c)
  {
    hide IsHost, Normalize, SameLetter, LowerChar, IsSpace, IsUpper;
    forall i | 0 <= i < |host|
      ensures LowerChar(host[i]) == LowerChar(other[i]) && !IsUpper(LowerChar(host[i]))
      ensures IsSpace(other[i]) ==> host[i] == other[i]
    {
      SameLetterLowers(host[i], other[i]);
    }
    assert Lower(other) == Lower(host);
    EverySpellingIsFiledAlike(before, host, after);
    EverySpellingIsFiledAlike(before, other, after);
  }

  lemma LowerIsStable(s: string)
    ensures Lower(Lower(s)) == Lower(s)
  {
  }

  lemma NormalizedStays(host: string, raw: string)
    requires host == Lower(raw) && IsHost(host)
    ensures Normalize(host) == host
  {
    hide IsHost, Strip;
    StripStays(host);
    LowerIsStable(raw);
    HostHasChars(host);
  }

  lemma StripStays(host: string)
    requires IsHost(host)
    ensures Strip(host) == host
  {
    HostHasChars(host);
    HostChars(host, 0);
    HostChars(host, |host| - 1);
    hide IsHost, Strip, IsSpace, IsAlnum;
    assert "" + host + "" == host;
    StripOf("", host, "");
  }

  /** What a lookup normalizes is found under what a save normalized: the form is stable. */
  lemma NormalizeIsStable(host: string)
    ensures Normalize(Normalize(host)) == Normalize(host)
    ensures Normalize(host) != "" ==> IsHost(Normalize(host))
  {
    if Normalize(host) != "" {
      NormalizedStays(Normalize(host), Strip(host));
    } else {
      assert Strip("") == "" && Lower("") == "";
    }
  }

  // ---------------------------------------------------------------- keys

  const SERVICE := "git.credentials"

  function Prefix(tenant: string): string {
    SERVICE + "\n" + tenant + ":"
  }

  function Key(tenant: string, host: string): string {
    SERVICE + "\n" + (tenant + ":" + host)
  }

  lemma KeyHasPrefix(tenant: string, host: string)
    ensures Key(tenant, host) == Prefix(tenant) + host
  {
  }

  predicate StartsWith(s: string, prefix: string) {
    |s| >= |prefix| && s[..|prefix|] == prefix
  }

  lemma SameTenantPart(a: string, g: string, b: string, h: string)
    requires Key(a, g) == Key(b, h)
    ensures a + ":" + g == b + ":" + h
  {
    var n := |SERVICE + "\n"|;
    assert Key(a, g)[n..] == a + ":" + g;
    assert Key(b, h)[n..] == b + ":" + h;
  }

  lemma ColonComesFirst(a: string, g: string)
    requires ':' !in a
    ensures IndexOf(a + ":" + g, ':') == |a|
  {
    FirstIndexIs(a + ":" + g, ':', |a|);
  }

  lemma {:induction false} FirstIndexIs(s: string, c: char, k: nat)
    requires k < |s| && s[k] == c && forall j :: 0 <= j < k ==> s[j] != c
    ensures IndexOf(s, c) == k
    decreases k
  {
  }

  /** For tenants without a colon, one key stands for one tenant and one host. */
  lemma KeysAreInjective(a: string, g: string, b: string, h: string)
    requires ':' !in a && ':' !in b
    requires Key(a, g) == Key(b, h)
    ensures a == b && g == h
  {
    SameTenantPart(a, g, b, h);
    ColonComesFirst(a, g);
    ColonComesFirst(b, h);
    var s := a + ":" + g;
    assert s[..|a|] == a && s[..|b|] == b && s[|a| + 1..] == g && s[|b| + 1..] == h;
  }

  /** The longer tenant continues the shorter one with a colon and a lower-case host name. */
  predicate Extends(a: string, b: string) {
    && |b| > |a| && b[..|a|] == a && b[|a|] == ':'
    && IsName(b[|a| + 1..]) && Lower(b[|a| + 1..]) == b[|a| + 1..]
  }

  predicate Related(a: string, b: string) {
    a == b || Extends(a, b) || Extends(b, a)
  }

  predicate IsNormal(host: string) {
    host != "" && Normalize(host) == host
  }

  /** Two tenants, of any characters, can get the same key only if one extends the other. */
  lemma CollidingTenantsExtend(a: string, g: string, b: string, h: string)
    requires IsNormal(g) && IsNormal(h) && Key(a, g) == Key(b, h)
    ensures Related(a, b)
  {
    SameTenantPart(a, g, b, h);
    NormalizeIsStable(g);
    NormalizeIsStable(h);
    if |a| < |b| {
      ShorterIsExtended(a, g, b, h);
    } else if |b| < |a| {
      ShorterIsExtended(b, h, a, g);
    } else {
      assert (a + ":" + g)[..|a|] == a && (b + ":" + h)[..|b|] == b;
    }
  }

  lemma ShorterIsExtended(a: string, g: string, b: string, h: string)
    requires IsNormal(g) && a + ":" + g == b + ":" + h && |a| < |b|
    ensures Extends(a, b)
  {
    var x := b[|a| + 1..];
    hide IsHost, IsName, IsPort, Lower, IsNormal;
    NormalIsLower(g);
    ShorterIsPrefix(a, g, b, h);
    OnlyOneColon(g, |x|);
    PartsOfHost(g);
    PartIsLower(g, |x|);
  }

  lemma ShorterIsPrefix(a: string, g: string, b: string, h: string)
    requires a + ":" + g == b + ":" + h && |a| < |b|
    ensures b[..|a|] == a && b[|a|] == ':'
    ensures
      var x := b[|a| + 1..];
      |x| < |g| && g[..|x|] == x && g[|x|] == ':'
  {
    var s := a + ":" + g;
    assert s[..|a|] == a && s[..|b|] == b && s[|a|] == ':' && s[|b|] == ':';
    assert g == s[|a| + 1..];
  }

  lemma NormalIsLower(g: string)
    requires IsNormal(g)
    ensures IsHost(g) && Lower(g) == g
  {
    hide IsHost, Strip;
    LowerIsStable(Strip(g));
  }

  lemma PartIsLower(s: string, k: nat)
    requires k <= |s| && Lower(s) == s
    ensures Lower(s[..k]) == s[..k]
  {
  }

  lemma JoinIsLower(s: string, u: string)
    requires Lower(s) == s && Lower(u) == u
    ensures Lower(s + u) == s + u
  {
  }

  lemma PartsOfHost(g: string)
    requires IsHost(g) && IndexOf(g, ':') < |g|
    ensures IsName(g[..IndexOf(g, ':')]) && IsPort(g[IndexOf(g, ':') + 1..])
  {
  }

  lemma OnlyOneColon(g: string, k: nat)
    requires IsHost(g) && k < |g| && g[k] == ':'
    ensures k == IndexOf(g, ':')
  {
  }

  /** And if one extends the other, they do share a key. */
  lemma ExtendingTenantsCollide(a: string, b: string)
    requires Extends(a, b)
    ensures
      var g, h := b[|a| + 1..] + ":443", "443";
      IsNormal(g) && IsNormal(h) && Key(a, g) == Key(b, h)
  {
    var x := b[|a| + 1..];
    var g, h := x + ":443", "443";
    NumberIsHost();
    WithPortIsHost(x);
    hide IsHost, IsPort, IsName, Normalize, Lower;
    LiteralsAreLower();
    JoinIsLower(x, ":443");
    NormalizedStays(g, g);
    NormalizedStays(h, h);
    hide *;
    SameKey(a, b);
  }

  lemma LiteralsAreLower()
    ensures Lower("443") == "443" && Lower(":443") == ":443"
  {
  }

  lemma SameKey(a: string, b: string)
    requires |b| > |a| && b[..|a|] == a && b[|a|] == ':'
    ensures Key(a, b[|a| + 1..] + ":443") == Key(b, "443")
  {
  }

  lemma WithPortIsHost(x: string)
    requires IsName(x)
    ensures IsHost(x + ":443")
  {
    var g := x + ":443";
    NameHasNoColon(x);
    assert g == x + ":" + "443";
    ColonComesFirst(x, "443");
    assert g[..|x|] == x && g[|x| + 1..] == "443";
    NumberIsHost();
  }

  lemma NumberIsHost()
    ensures IsPort("443") && IsHost("443")
  {
  }

  // ---------------------------------------------------------------- the file

  type Values = map<string, string>

  datatype Store = Missing | Broken | Good(values: Values)

  /** The last two are no `KeychainError`s and pass the handlers for those. */
  datatype Error = NoTenant | BadHost | Unreadable | Unwritable | OsError | OtherError

  /**
    How the reading of the file goes. A file that is there can be refused, by its permissions or on
    opening it; an error on looking it up is passed on as it is.
   */
  datatype Reading = Reachable | Refused | OutOfReach

  /**
    How the replacing of the file goes. A failure of the file system is made a `KeychainError`; any
    other, such as a time-out of the command that sets permissions, `escapes` as it is.
   */
  datatype Writing = Done | NotDone(escapes: bool) | DoneButReported(escapes: bool) {
    predicate TakesPlace() {
      !NotDone?
    }

    function Reported(): Option<Error> {
      if Done? then None else if escapes then Some(OtherError) else Some(Unwritable)
    }
  }

  /** How the file system behaves during one operation. */
  datatype Disk = Disk(reading: Reading, writing: Writing) {
    predicate Stores() {
      reading.Reachable? && writing.TakesPlace()
    }
  }

  const GOOD_DISK := Disk(Reachable, Done)

  function Content(store: Store): Values {
    if store.Good? then store.values else map[]
  }

  function Read(store: Store, reading: Reading): Result<Values, Error> {
    if reading.OutOfReach? then Failure(OsError)
    else if reading.Refused? || store.Broken? then Failure(Unreadable)
    else Success(Content(store))
  }

  function Loading(store: Store, tenant: string, host: string, reading: Reading): Result<string, Error> {
    var n := Normalize(host);
    if tenant == "" || n == "" then Success("")
    else match Read(store, reading)
      case Failure(error) => if error.OsError? then Failure(error) else Success("")
      case Success(values) => Success(if Key(tenant, n) in values then values[Key(tenant, n)] else "")
  }

  /** The file is written only if there is something to remove. */
  function Deleting(store: Store, tenant: string, host: string, disk: Disk): (Store, Option<Error>) {
    var n := Normalize(host);
    if tenant == "" || n == "" then (store, None)
    else match Read(store, disk.reading)
      case Failure(error) => (store, if error.OsError? then Some(error) else None)
      case Success(values) =>
        if Key(tenant, n) !in values then (store, None)
        else
          (if disk.writing.TakesPlace() then Good(values - {Key(tenant, n)}) else store,
           if disk.writing.Reported() == Some(OtherError) then Some(OtherError) else None)
  }

  function Saving(store: Store, tenant: string, host: string, token: string, disk: Disk): (Store, Option<Error>) {
    var n := Normalize(host);
    if tenant == "" then (store, Some(NoTenant))
    else if n == "" then (store, Some(BadHost))
    else if token == "" then Deleting(store, tenant, n, disk)
    else match Read(store, disk.reading)
      case Failure(error) => (store, Some(error))
      case Success(values) =>
        (if disk.writing.TakesPlace() then Good(values[Key(tenant, n) := token]) else store, disk.writing.Reported())
  }

  /** The hosts under which a tenant has entries. */
  function Hosts(values: Values, tenant: string): (hosts: set<string>)
    ensures forall host :: host in hosts <==> Prefix(tenant) + host in values
  {
    var hosts := set key | key in values && StartsWith(key, Prefix(tenant)) :: key[|Prefix(tenant)|..];
    assert forall host :: Prefix(tenant) + host in values ==>
      StartsWith(Prefix(tenant) + host, Prefix(tenant)) && (Prefix(tenant) + host)[|Prefix(tenant)|..] == host;
    assert forall key :: key in values && StartsWith(key, Prefix(tenant)) ==>
        Prefix(tenant) + key[|Prefix(tenant)|..] == key;
    hosts
  }

  // ---------------------------------------------------------------- order of hosts

  /** Before in the order of code points. */
  predicate Before(a: string, b: string) {
    b != "" && (a == "" || a[0] < b[0] || (a[0] == b[0] && Before(a[1..], b[1..])))
  }

  lemma {:induction false} BeforeIsTotal(a: string, b: string)
    ensures Before(a, b) || a == b || Before(b, a)
    ensures !(Before(a, b) && Before(b, a))
    ensures !Before(a, a)
  {
    if a != "" && b != "" {
      BeforeIsTotal(a[1..], b[1..]);
      assert a == [a[0]] + a[1..] && b == [b[0]] + b[1..];
    }
    if a != "" { BeforeIsTotal(a[1..], a[1..]); }
  }

  lemma {:induction false} BeforeIsTransitive(a: string, b: string, c: string)
    requires Before(a, b) && Before(b, c)
    ensures Before(a, c)
  {
    if a != "" && a[0] == b[0] == c[0] {
      BeforeIsTransitive(a[1..], b[1..], c[1..]);
    }
  }

  ghost predicate InOrder(s: seq<string>) {
    forall i, j :: 0 <= i < j < |s| ==> Before(s[i], s[j])
  }

  method InsertHost(hosts: seq<string>, host: string) returns (result: seq<string>)
    requires InOrder(hosts) && host !in hosts
    ensures InOrder(result)
    ensures forall h :: h in result <==> h in hosts || h == host
  {
    var i := 0;
    while i < |hosts| && Before(hosts[i], host)
      invariant 0 <= i <= |hosts|
      invariant forall j :: 0 <= j < i ==> Before(hosts[j], host)
    {
      i := i + 1;
    }
    result := hosts[..i] + [host] + hosts[i..];
    if i < |hosts| {
      BeforeIsTotal(hosts[i], host);
      forall j | i < j < |hosts| ensures Before(host, hosts[j]) {
        BeforeIsTransitive(host, hosts[i], hosts[j]);
      }
    }
    assert hosts == hosts[..i] + hosts[i..];
  }

  /** The hosts a tenant's listing shows while the file can be reached. */
  function Listed(store: Store, tenant: string): set<string> {
    if tenant == "" || store.Broken? then {} else Hosts(Content(store), tenant)
  }

  /**
    What operations report of a tenant and a host that can be filed: reading gives nothing when the
    file is refused or broken, and fails only with the error of the operating system; removing
    reports that one and what escapes from the writing of a file that had the entry.
   */
  lemma ErrorsAre(store: Store, tenant: string, host: string, disk: Disk)
    requires tenant != "" && Normalize(host) != ""
    ensures
      var key := Key(tenant, Normalize(host));
      var readable := disk.reading.Reachable? && !store.Broken?;
      var (store', error) := Deleting(store, tenant, host, disk);
      && (disk.reading.OutOfReach? ==>
            Loading(store, tenant, host, disk.reading) == Failure(OsError) && error == Some(OsError))
      && (!disk.reading.OutOfReach? && !readable ==>
            Loading(store, tenant, host, disk.reading) == Success("") && error == None)
      && (readable && key !in Content(store) ==>
            Loading(store, tenant, host, disk.reading) == Success("") && error == None)
      && (readable && key in Content(store) ==>
            && Loading(store, tenant, host, disk.reading) == Success(Content(store)[key])
            && (error == Some(OtherError) <==> disk.writing in [NotDone(true), DoneButReported(true)])
            && (error.Some? ==> error.value == OtherError))
      && (store' != store ==> readable && key in Content(store) && !disk.writing.NotDone?)
  {
    hide Normalize, Key;
  }

  /** A listing shows what is filed under the tenant's prefix in a file that is in order. */
  lemma ListedIff(store: Store, tenant: string, host: string)
    ensures host in Listed(store, tenant) <==>
              tenant != "" && store.Good? && Prefix(tenant) + host in store.values
  {
    hide Prefix;
  }

  // ---------------------------------------------------------------- the credential file as an object

  class CredentialFile {
    var store: Store

    constructor ()
      ensures store == Missing
    {
      store := Missing;
    }

    method LoadToken(tenant: string, host: string, reading: Reading) returns (token: Result<string, Error>)
      ensures token == Loading(store, tenant, host, reading)
    {
      var normalized := Normalize(host);
      if tenant == "" || normalized == "" { return Success(""); }
      var values := Read(store, reading);
      match values {
        case Failure(error) =>
          token := if error == OsError then Failure(error) else Success("");
        case Success(values) =>
          token := Success(if Key(tenant, normalized) in values then values[Key(tenant, normalized)] else "");
      }
    }

    method DeleteToken(tenant: string, host: string, disk: Disk) returns (error: Option<Error>)
      modifies this
      ensures (store, error) == Deleting(old(store), tenant, host, disk)
    {
      var normalized := Normalize(host);
      if tenant == "" || normalized == "" { return None; }
      var values := Read(store, disk.reading);
      if values.Failure? { return if values.error == OsError then Some(OsError) else None; }
      if Key(tenant, normalized) !in values.value { return None; }
      if disk.writing.TakesPlace() { store := Good(values.value - {Key(tenant, normalized)}); }
      error := if disk.writing.Reported() == Some(OtherError) then Some(OtherError) else None;
    }

    method SaveToken(tenant: string, host: string, token: string, disk: Disk) returns (error: Option<Error>)
      modifies this
      ensures (store, error) == Saving(old(store), tenant, host, token, disk)
    {
      if tenant == "" { return Some(NoTenant); }
      var normalized := Normalize(host);
      if normalized == "" { return Some(BadHost); }
      if token == "" {
        error := DeleteToken(tenant, normalized, disk);
        return;
      }
      var values := Read(store, disk.reading);
      if values.Failure? { return Some(values.error); }
      if disk.writing.TakesPlace() { store := Good(values.value[Key(tenant, normalized) := token]); }
      error := disk.writing.Reported();
    }

    /** The hosts of a tenant, each once and in order; none if the file cannot be read. */
    method ListHosts(tenant: string, reading: Reading) returns (hosts: seq<string>)
      ensures InOrder(hosts)
      ensures forall host :: host in hosts <==> reading.Reachable? && host in Listed(store, tenant)
    {
      hosts := [];
      var values := Read(store, reading);
      if tenant == "" || values.Failure? { return; }
      var prefix, todo := Prefix(tenant), values.value.Keys;
      while todo != {}
        invariant todo <= values.value.Keys
        invariant InOrder(hosts)
        invariant forall host :: host in hosts <==> prefix + host in values.value.Keys - todo
        decreases todo
      {
        var key :| key in todo;
        todo := todo - {key};
        if StartsWith(key, prefix) {
          var host := key[|prefix|..];
          assert key == prefix + host;
          hosts := InsertHost(hosts, host);
          forall h | prefix + h == key ensures h == host {
            assert (prefix + h)[|prefix|..] == h;
          }
        } else {
          forall h ensures prefix + h != key {
            assert StartsWith(prefix + h, prefix);
          }
        }
      }
    }
  }

  // ---------------------------------------------------------------- one table per tenant

  type Tokens = map<string, string>

  /** What the file says about one tenant. */
  function View(values: Values, tenant: string): Tokens {
    map host | host in Hosts(values, tenant) :: values[Prefix(tenant) + host]
  }

  datatype Operation =
    | Save(tenant: string, host: string, token: string, disk: Disk)
    | Delete(tenant: string, host: string, disk: Disk)

  function Apply(store: Store, op: Operation): Store {
    match op
    case Save(tenant, host, token, disk) => Saving(store, tenant, host, token, disk).0
    case Delete(tenant, host, disk) => Deleting(store, tenant, host, disk).0
  }

  function Execute(ops: seq<Operation>): Store {
    if ops == [] then Missing else Apply(Execute(ops[..|ops| - 1]), ops[|ops| - 1])
  }

  /** What a tenant's own operations, taken alone, mean: a table from hosts to tokens. */
  function Meaning(ops: seq<Operation>, tenant: string): Tokens {
    if ops == [] then map[]
    else
      var op, earlier := ops[|ops| - 1], Meaning(ops[..|ops| - 1], tenant);
      var n := Normalize(op.host);
      if op.tenant != tenant || n == "" || !op.disk.Stores() then earlier
      else if op.Save? && op.token != "" then earlier[n := op.token]
      else earlier - {n}
  }

  predicate NoColons(ops: seq<Operation>) {
    forall i :: 0 <= i < |ops| ==> ':' !in ops[i].tenant
  }

  /** A changed entry is seen by its own tenant only. */
  lemma ViewAfterSave(values: Values, tenant: string, host: string, token: string, other: string)
    requires ':' !in tenant && ':' !in other
    ensures View(values[Key(tenant, host) := token], other) ==
            if other == tenant then View(values, other)[host := token] else View(values, other)
  {
    KeyHasPrefix(tenant, host);
    forall h ensures Prefix(other) + h == Key(tenant, host) <==> other == tenant && h == host {
      KeyHasPrefix(other, h);
      if Prefix(other) + h == Key(tenant, host) { KeysAreInjective(other, h, tenant, host); }
    }
    hide Prefix, Key;
  }

  lemma ViewAfterDelete(values: Values, tenant: string, host: string, other: string)
    requires ':' !in tenant && ':' !in other
    ensures View(values - {Key(tenant, host)}, other) ==
            if other == tenant then View(values, other) - {host} else View(values, other)
  {
    KeyHasPrefix(tenant, host);
    forall h ensures Prefix(other) + h == Key(tenant, host) <==> other == tenant && h == host {
      KeyHasPrefix(other, h);
      if Prefix(other) + h == Key(tenant, host) { KeysAreInjective(other, h, tenant, host); }
    }
    hide Prefix, Key;
  }

  lemma AbsentIsNotViewed(values: Values, tenant: string, host: string)
    requires Key(tenant, host) !in values
    ensures View(values, tenant) - {host} == View(values, tenant)
  {
    KeyHasPrefix(tenant, host);
  }

  lemma ApplyMeans(store: Store, op: Operation, tenant: string)
    requires ':' !in op.tenant && ':' !in tenant && tenant != "" && !store.Broken?
    ensures !Apply(store, op).Broken?
    ensures
      var n := Normalize(op.host);
      var before, after := View(Content(store), tenant), View(Content(Apply(store, op)), tenant);
      if op.tenant != tenant || n == "" || !op.disk.Stores() then after == before
      else if op.Save? && op.token != "" then after == before[n := op.token]
      else after == before - {n}
  {
    NormalizeIsStable(op.host);
    hide Normalize, View;
    match op {
      case Save(owner, host, token, disk) =>
        if token == "" {
          DeletingMeans(store, owner, Normalize(host), disk, tenant);
        } else {
          hide Key;
          ViewAfterSave(Content(store), owner, Normalize(host), token, tenant);
        }
      case Delete(owner, host, disk) => DeletingMeans(store, owner, host, disk, tenant);
    }
  }

  lemma DeletingMeans(store: Store, owner: string, host: string, disk: Disk, tenant: string)
    requires ':' !in owner && ':' !in tenant && tenant != "" && !store.Broken?
    ensures !Deleting(store, owner, host, disk).0.Broken?
    ensures
      var n := Normalize(host);
      var before := View(Content(store), tenant);
      var after := View(Content(Deleting(store, owner, host, disk).0), tenant);
      after == if owner != tenant || n == "" || !disk.Stores() then before else before - {n}
  {
    var n, values := Normalize(host), Content(store);
    hide Normalize, View, Key;
    ViewAfterDelete(values, owner, n, tenant);
    if Key(owner, n) !in values { AbsentIsNotViewed(values, owner, n); }
  }

  /**
    After any operations of any tenants, whatever happens to their reads and writes, the file shows
    each tenant exactly what that tenant's own operations mean: no tenant changes what another sees.
   */
  lemma {:induction false} FileRefinesTables(ops: seq<Operation>, tenant: string)
    requires NoColons(ops) && ':' !in tenant && tenant != ""
    ensures !Execute(ops).Broken?
    ensures View(Content(Execute(ops)), tenant) == Meaning(ops, tenant)
  {
    if ops == [] {
    } else {
      var earlier := ops[..|ops| - 1];
      assert NoColons(earlier);
      FileRefinesTables(earlier, tenant);
      ApplyMeans(Execute(earlier), ops[|ops| - 1], tenant);
    }
  }

  /** A save that is reported as failed may have stored the token all the same. */
  lemma ReportedSaveIsStored(store: Store, tenant: string, host: string, token: string, escapes: bool)
    requires tenant != "" && Normalize(host) != "" && token != "" && !store.Broken?
    ensures
      var (after, error) := Saving(store, tenant, host, token, Disk(Reachable, DoneButReported(escapes)));
      && error == Some(if escapes then OtherError else Unwritable)
      && Loading(after, tenant, host, Reachable) == Success(token)
  {
    hide Normalize, Key;
  }

  lemma {:induction false} TablesHoldLiveTokens(ops: seq<Operation>, tenant: string)
    ensures forall host :: host in Meaning(ops, tenant) ==>
              Meaning(ops, tenant)[host] != "" && host != "" && Normalize(host) == host
  {
    hide Normalize;
    if ops == [] {
    } else {
      var earlier, op := Meaning(ops[..|ops| - 1], tenant), ops[|ops| - 1];
      TablesHoldLiveTokens(ops[..|ops| - 1], tenant);
      NormalizeIsStable(op.host);
      assert Meaning(ops, tenant) == earlier || Meaning(ops, tenant) == earlier - {Normalize(op.host)}
        || (op.Save? && op.token != "" && Normalize(op.host) != ""
            && Meaning(ops, tenant) == earlier[Normalize(op.host) := op.token]);
      hide Meaning;
    }
  }

  /** A lookup, under any spelling, gives what the tenant's own operations left there. */
  lemma LookupIsMeaning(ops: seq<Operation>, tenant: string, host: string)
    requires NoColons(ops) && ':' !in tenant && tenant != ""
    ensures
      var table, n := Meaning(ops, tenant), Normalize(host);
      Loading(Execute(ops), tenant, host, Reachable) == Success(if n in table then table[n] else "")
  {
    FileRefinesTables(ops, tenant);
    TablesHoldLiveTokens(ops, tenant);
    KeyHasPrefix(tenant, Normalize(host));
    var values := Content(Execute(ops));
    assert View(values, tenant).Keys == Hosts(values, tenant);
  }

  /** The hosts listed are exactly those a lookup finds a token for, ports included. */
  lemma ListedHostsAreLive(ops: seq<Operation>, tenant: string, host: string)
    requires NoColons(ops) && ':' !in tenant && tenant != ""
    ensures host in Listed(Execute(ops), tenant) <==>
            Normalize(host) == host && Loading(Execute(ops), tenant, host, Reachable) != Success("")
  {
    FileRefinesTables(ops, tenant);
    TablesHoldLiveTokens(ops, tenant);
    LookupIsMeaning(ops, tenant, host);
    var values := Content(Execute(ops));
    assert View(values, tenant).Keys == Hosts(values, tenant);
  }

  // ---------------------------------------------------------------- tenants of any form

  /** No operation of a tenant changes what an unrelated tenant looks up, in whatever state the file is. */
  lemma LookupsAreIsolated(store: Store, op: Operation, tenant: string, host: string, reading: Reading)
    requires !Related(op.tenant, tenant)
    ensures Loading(Apply(store, op), tenant, host, reading) == Loading(store, tenant, host, reading)
  {
    var n, changed := Normalize(host), Normalize(op.host);
    NormalizeIsStable(host);
    NormalizeIsStable(op.host);
    assert IsNormal(n) || n == "";
    assert IsNormal(changed) || changed == "";
    hide Normalize, Key, Related, IsNormal;
    if n != "" && changed != "" && Key(op.tenant, changed) == Key(tenant, n) {
      CollidingTenantsExtend(op.tenant, changed, tenant, n);
    } else {
      OtherKeysAreKept(store, op, tenant, host, reading);
    }
  }

  lemma OtherKeysAreKept(store: Store, op: Operation, tenant: string, host: string, reading: Reading)
    requires Normalize(Normalize(op.host)) == Normalize(op.host)
    requires
      || Normalize(host) == "" || Normalize(op.host) == ""
      || Key(op.tenant, Normalize(op.host)) != Key(tenant, Normalize(host))
    ensures Loading(Apply(store, op), tenant, host, reading) == Loading(store, tenant, host, reading)
  {
    hide Normalize, Key;
  }

  /** A related one, by contrast, can be handed the token of the other. */
  lemma ExtendedTenantReadsToken(store: Store, a: string, b: string, token: string)
    requires Extends(a, b) && a != "" && token != "" && !store.Broken?
    ensures
      var after := Apply(store, Save(b, "443", token, GOOD_DISK));
      Loading(after, a, b[|a| + 1..] + ":443", Reachable) == Success(token)
  {
    ExtendingTenantsCollide(a, b);
    hide Normalize, Key;
  }

  ghost predicate KeepsLookup(
    store: Store, op: Operation, tenant: string, owner: string, host: string, reading: Reading)
  {
    op.tenant == owner ==> Loading(Apply(store, op), tenant, host, reading) == Loading(store, tenant, host, reading)
  }

  /** A token saved by one of two related tenants that the other finds. */
  lemma RelatedTenantIsReached(tenant: string, owner: string) returns (op: Operation, host: string)
    requires Related(owner, tenant) && tenant != "" && owner != ""
    ensures !KeepsLookup(Missing, op, tenant, owner, host, Reachable)
  {
    hide Normalize, Key, IsName, IsHost, IsPort, Lower, KeepsLookup;
    var saved := "443";
    host := "443";
    if Extends(owner, tenant) {
      ExtendingTenantsCollide(owner, tenant);
      saved := tenant[|owner| + 1..] + ":443";
    } else if Extends(tenant, owner) {
      ExtendingTenantsCollide(tenant, owner);
      host := owner[|tenant| + 1..] + ":443";
    } else {
      NumberIsHost();
      LiteralsAreLower();
      NormalizedStays("443", "443");
    }
    op := Save(owner, saved, "token", GOOD_DISK);
    SharedKeyIsFound(tenant, owner, saved, host);
  }

  lemma SharedKeyIsFound(tenant: string, owner: string, saved: string, host: string)
    requires tenant != "" && owner != "" && IsNormal(saved) && IsNormal(host) && Key(owner, saved) == Key(tenant, host)
    ensures !KeepsLookup(Missing, Save(owner, saved, "token", GOOD_DISK), tenant, owner, host, Reachable)
  {
    hide Normalize, Key;
  }

  /**
    The operations of `owner` never change what `tenant` looks up if and only if the ids are
    unrelated, or one of them is empty and so refused.
   */
  lemma LookupsAreIsolatedIff(tenant: string, owner: string)
    ensures (forall store, op, host, reading :: KeepsLookup(store, op, tenant, owner, host, reading)) <==>
            !Related(owner, tenant) || tenant == "" || owner == ""
  {
    if Related(owner, tenant) && tenant != "" && owner != "" {
      var op, host := RelatedTenantIsReached(tenant, owner);
    } else {
      forall store, op, host, reading ensures KeepsLookup(store, op, tenant, owner, host, reading) {
        if op.tenant == owner {
          if owner == "" || tenant == "" {
            hide Normalize, Related;
          } else {
            LookupsAreIsolated(store, op, tenant, host, reading);
          }
        }
      }
    }
  }

  /** The tenant's listing takes entries of `owner` for its own. */
  predicate ListingReaches(tenant: string, owner: string) {
    tenant == owner || StartsWith(owner, tenant + ":") || Extends(owner, tenant)
  }

  /** An operation changes at most the entry of one key, and only with a host in its normal form. */
  lemma ApplyTouchesOneKey(store: Store, op: Operation, key: string)
    requires key != Key(op.tenant, Normalize(op.host)) || Normalize(op.host) == ""
    ensures key in Content(Apply(store, op)) <==> key in Content(store)
  {
    NormalizeIsStable(op.host);
    hide Normalize, Key;
  }

  lemma BrokenStaysBroken(store: Store, op: Operation)
    ensures Apply(store, op).Broken? <==> store.Broken?
  {
    hide Normalize, Key;
  }

  /** A key in a tenant's part of the file belongs to a tenant whose entries its listing shows. */
  lemma ListedKeyReaches(tenant: string, shown: string, owner: string, host: string)
    requires IsNormal(host) && Prefix(tenant) + shown == Key(owner, host)
    ensures ListingReaches(tenant, owner)
  {
    hide IsHost, IsName, Normalize;
    SameAccount(tenant, shown, owner, host);
    var s := tenant + ":" + shown;
    if |tenant| < |owner| {
      ShorterStarts(tenant, shown, owner, host);
    } else if |tenant| == |owner| {
      SameLengthMeansSame(tenant, shown, owner, host);
    } else {
      ShorterIsExtended(owner, host, tenant, shown);
    }
  }

  lemma SameAccount(tenant: string, shown: string, owner: string, host: string)
    requires Prefix(tenant) + shown == Key(owner, host)
    ensures tenant + ":" + shown == owner + ":" + host
  {
    KeyHasPrefix(tenant, shown);
    SameTenantPart(tenant, shown, owner, host);
  }

  lemma ShorterStarts(a: string, g: string, b: string, h: string)
    requires a + ":" + g == b + ":" + h && |a| < |b|
    ensures StartsWith(b, a + ":")
  {
    var s := a + ":" + g;
    assert s[..|b|] == b && s[..|a| + 1] == a + ":";
    assert b[..|a| + 1] == s[..|a| + 1];
  }

  lemma SameLengthMeansSame(a: string, g: string, b: string, h: string)
    requires a + ":" + g == b + ":" + h && |a| == |b|
    ensures a == b
  {
    assert (a + ":" + g)[..|a|] == a && (b + ":" + h)[..|b|] == b;
  }

  /** No operation of a tenant outside its reach changes a listing. */
  lemma ListingIsIsolated(store: Store, op: Operation, tenant: string)
    requires !ListingReaches(tenant, op.tenant)
    ensures Listed(Apply(store, op), tenant) == Listed(store, tenant)
  {
    var n := Normalize(op.host);
    NormalizeIsStable(op.host);
    assert n == "" || IsNormal(n);
    hide Normalize, Key, Prefix, ListingReaches, IsNormal, Apply;
    forall shown
      ensures Prefix(tenant) + shown in Content(Apply(store, op)) <==> Prefix(tenant) + shown in Content(store)
    {
      if n != "" && Prefix(tenant) + shown == Key(op.tenant, n) { ListedKeyReaches(tenant, shown, op.tenant, n); }
      ApplyTouchesOneKey(store, op, Prefix(tenant) + shown);
    }
    BrokenStaysBroken(store, op);
  }

  /** The host under which an operation of `owner` shows in the listing of `tenant`. */
  function ReachingHost(tenant: string, owner: string): string {
    if Extends(owner, tenant) then tenant[|owner| + 1..] + ":443" else "443"
  }

  lemma ListingIsReached(tenant: string, owner: string)
    requires ListingReaches(tenant, owner) && tenant != "" && owner != ""
    ensures
      var op := Save(owner, ReachingHost(tenant, owner), "token", GOOD_DISK);
      Listed(Missing, tenant) == {} && Listed(Apply(Missing, op), tenant) != {}
  {
    hide Normalize, Key, IsHost, IsName, Prefix;
    var host := ReachingHost(tenant, owner);
    var op := Save(owner, host, "token", GOOD_DISK);
    var shown: string;
    if Extends(owner, tenant) {
      ExtendingTenantsCollide(owner, tenant);
      shown := "443";
      KeyHasPrefix(tenant, shown);
    } else {
      NumberIsHost();
      LiteralsAreLower();
      NormalizedStays("443", "443");
      shown := if tenant == owner then "443" else owner[|tenant| + 1..] + ":443";
      ReachedKey(tenant, owner, shown);
    }
    hide Extends, ReachingHost;
    assert Content(Apply(Missing, op)) == map[Key(owner, host) := "token"];
    assert Prefix(tenant) + shown == Key(owner, host);
    assert shown in Listed(Apply(Missing, op), tenant);
  }

  lemma ReachedKey(tenant: string, owner: string, shown: string)
    requires tenant == owner || StartsWith(owner, tenant + ":")
    requires shown == if tenant == owner then "443" else owner[|tenant| + 1..] + ":443"
    ensures Prefix(tenant) + shown == Key(owner, "443")
  {
    KeyHasPrefix(tenant, shown);
    if tenant != owner {
      assert owner == (tenant + ":") + owner[|tenant| + 1..];
      assert tenant + ":" + shown == owner + ":" + "443";
    }
  }

  ghost predicate KeepsListing(store: Store, op: Operation, tenant: string, owner: string) {
    op.tenant == owner ==> Listed(Apply(store, op), tenant) == Listed(store, tenant)
  }

  /**
    The operations of `owner` never change the hosts listed for `tenant` if and only if the ids differ,
    `tenant` followed by a colon does not start `owner`, and `tenant` does not extend `owner`.
   */
  lemma ListingIsIsolatedIff(tenant: string, owner: string)
    requires tenant != "" && owner != ""
    ensures (forall store, op :: KeepsListing(store, op, tenant, owner)) <==> !ListingReaches(tenant, owner)
  {
    if ListingReaches(tenant, owner) {
      ListingIsReached(tenant, owner);
      assert !KeepsListing(Missing, Save(owner, ReachingHost(tenant, owner), "token", GOOD_DISK), tenant, owner);
    } else {
      forall store, op ensures KeepsListing(store, op, tenant, owner) {
        if op.tenant == owner { ListingIsIsolated(store, op, tenant); }
      }
    }
  }
}
