/** buildGatewayUrl, read against the URI syntax of section 3 of RFC 3986. */
module GatewayUrl {
  import opened Types

  const RPC_V2 := "RPCv2=true"

  /** Position of the first c, or the length of s. */
  function IndexOf(s: string, c: char): (i: nat)
    ensures i <= |s| && c !in s[..i]
    ensures i < |s| <==> c in s
    ensures i < |s| ==> s[i] == c
  {
    if s == "" || s[0] == c then 0 else assert s == [s[0]] + s[1..]; 1 + IndexOf(s[1..], c)
  }

  predicate AtScheme(s: string, i: nat) { i + 3 <= |s| && s[i] == ':' && s[i + 1] == '/' && s[i + 2] == '/' }

  /** Position of the first "://". */
  function FindScheme(s: string, i: nat): (r: Option<nat>)
    requires i <= |s|
    ensures r.Some? ==> i <= r.value && AtScheme(s, r.value)
    ensures forall j :: i <= j < (if r.Some? then r.value else |s|) ==> !AtScheme(s, j)
    decreases |s| - i
  {
    if i == |s| then None else if AtScheme(s, i) then Some(i) else FindScheme(s, i + 1)
  }

  function HostStart(url: string): (h: nat)
    ensures h <= |url|
  {
    var scheme := FindScheme(url, 0);
    if scheme.Some? then scheme.value + 3 else 0
  }

  /** The part after the scheme, with a "/" before the query when no "/" is found. */
  function WithPath(tail: string): string {
    if '/' in tail then tail
    else tail[..IndexOf(tail, '?')] + "/" + tail[IndexOf(tail, '?')..]
  }

  function WithVersion(tail: string): string {
    tail + (if '?' in tail then "&" else "?") + RPC_V2
  }

  function Built(url: string, legacy: bool): string {
    var h := HostStart(url);
    url[..h] + (if legacy then WithPath(url[h..]) else WithVersion(WithPath(url[h..])))
  }

  lemma SliceAt(head: string, tail: string, k: nat)
    requires k <= |tail|
    ensures (head + tail)[..|head| + k] == head + tail[..k]
    ensures (head + tail)[|head| + k..] == tail[k..]
  {
  }

  /** The source's in-place edits. */
  method BuildGatewayUrl(given: string, legacyRPCv1: bool) returns (url: string)
    ensures url == Built(given, legacyRPCv1)
  {
    var hostStart := HostStart(given);
    ghost var head, tail := given[..hostStart], given[hostStart..];
    url := given;
    assert given == head + tail;
    var pathPos := hostStart + IndexOf(url[hostStart..], '/');
    if pathPos == |url| {
      url := InsertSlash(url, hostStart);
    }
    tail := WithPath(tail);
    assert url == head + tail;
    if !legacyRPCv1 {
      SliceAt(head, tail, 0);
      var queryPos := hostStart + IndexOf(url[hostStart..], '?');
      var separator := if queryPos == |url| then "?" else "&";
      url := url + separator;
      url := url + RPC_V2;
      Assoc(head, tail, separator);
      Assoc(head, tail + separator, RPC_V2);
    }
  }

  lemma InsertedInTail(url: string, h: nat, k: nat)
    requires h + k <= |url|
    ensures url[..h + k] + "/" + url[h + k..] == url[..h] + (url[h..][..k] + "/" + url[h..][k..])
  {
  }

  method InsertSlash(given: string, hostStart: nat) returns (url: string)
    requires hostStart <= |given| && '/' !in given[hostStart..]
    ensures url == given[..hostStart] + WithPath(given[hostStart..])
  {
    var k := IndexOf(given[hostStart..], '?');
    InsertedInTail(given, hostStart, k);
    var queryPos := hostStart + k;
    if queryPos == |given| {
      url := given + "/";
      assert given[..queryPos] == given && given[queryPos..] == "";
    } else {
      url := given[..queryPos] + "/" + given[queryPos..];
    }
  }

  // ----- URIs

  datatype Uri = Uri(scheme: string, authority: string, path: string, query: Option<string>, fragment: Option<string>)

  /** Component syntax of section 3 of RFC 3986, as far as the delimiters go. */
  predicate WellFormed(u: Uri) {
    ':' !in u.scheme && '#' !in u.scheme
    && '/' !in u.authority && '?' !in u.authority && '#' !in u.authority
    && (u.path == "" || u.path[0] == '/') && '?' !in u.path && '#' !in u.path
    && (u.query.Some? ==> '#' !in u.query.value)
  }

  function QueryPart(q: Option<string>): string { if q.Some? then "?" + q.value else "" }

  function FragmentPart(f: Option<string>): string { if f.Some? then "#" + f.value else "" }

  function Print(u: Uri): string {
    u.scheme + "://" + Tail(u)
  }

  function Tail(u: Uri): string {
    u.authority + u.path + QueryPart(u.query) + FragmentPart(u.fragment)
  }

  /** The same URI with "/" for an empty path and, unless legacy, RPCv2=true as last query item. */
  function Versioned(u: Uri, legacy: bool): Uri {
    u.(path := if u.path == "" then "/" else u.path,
       query := if legacy then u.query
                else if u.query.Some? then Some(u.query.value + "&" + RPC_V2)
                else Some(RPC_V2))
  }

  /** When the text search for "/" and "?" finds the components it is meant to find. */
  predicate Understood(u: Uri, legacy: bool) {
    (legacy || u.fragment.None?)
    && (u.path != ""
        || ((u.query.Some? || u.fragment.None?)
            && '/' !in QueryPart(u.query) && '/' !in FragmentPart(u.fragment)))
  }

  lemma HostStartOfPrint(u: Uri)
    requires WellFormed(u)
    ensures HostStart(Print(u)) == |u.scheme| + 3
    ensures Print(u)[..|u.scheme| + 3] == u.scheme + "://" && Print(u)[|u.scheme| + 3..] == Tail(u)
  {
    var s := Print(u);
    var n := |u.scheme|;
    assert AtScheme(s, n);
    assert forall j :: 0 <= j < n ==> s[j] == u.scheme[j];
    assert FindScheme(s, 0) == Some(n);
  }

  lemma IndexUnique(s: string, c: char, i: nat)
    requires i <= |s| && c !in s[..i] && (i < |s| ==> s[i] == c)
    ensures IndexOf(s, c) == i
  {
  }

  lemma IndexAfter(a: string, b: string, c: char)
    requires c !in a
    ensures IndexOf(a + b, c) == |a| + IndexOf(b, c)
  {
    var k := |a| + IndexOf(b, c);
    assert (a + b)[..k] == a + b[..IndexOf(b, c)];
    IndexUnique(a + b, c, k);
  }

  /** Where the "/" goes when there is neither a path nor a "/" anywhere after the scheme. */
  lemma InsertAtQuery(authority: string, rest: string)
    requires '?' !in authority && '/' !in authority + rest && (rest == "" || rest[0] == '?')
    ensures WithPath(authority + rest) == authority + "/" + rest
  {
    var tail := authority + rest;
    IndexAfter(authority, rest, '?');
    assert tail[..|authority|] == authority && tail[|authority|..] == rest;
  }

  lemma PathInserted(u: Uri)
    requires WellFormed(u) && u.path == "" && '/' !in Tail(u) && (u.query.Some? || u.fragment.None?)
    ensures WithPath(Tail(u)) == Tail(u.(path := "/"))
  {
    var rest := QueryPart(u.query) + FragmentPart(u.fragment);
    Assoc(u.authority + "", QueryPart(u.query), FragmentPart(u.fragment));
    assert Tail(u) == u.authority + rest;
    InsertAtQuery(u.authority, rest);
    Assoc(u.authority + "/", QueryPart(u.query), FragmentPart(u.fragment));
  }

  lemma TailSlash(u: Uri)
    requires WellFormed(u)
    ensures '/' in Tail(u) <==> u.path != "" || '/' in QueryPart(u.query) || '/' in FragmentPart(u.fragment)
  {
  }

  /** The path step is right exactly under the path condition of Understood. */
  lemma PathStep(u: Uri)
    requires WellFormed(u)
    ensures WithPath(Tail(u)) == Tail(Versioned(u, true)) <==> Understood(u, true)
  {
    TailSlash(u);
    if u.path != "" {
    } else if '/' in Tail(u) {
      assert |Tail(Versioned(u, true))| == |Tail(u)| + 1;
    } else if u.query.Some? || u.fragment.None? {
      PathInserted(u);
    } else {
      var n := |u.authority|;
      assert Tail(Versioned(u, true))[n] == '/';
      assert Tail(u)[n] == '#' && Tail(u)[..n] == u.authority;
      assert IndexOf(Tail(u), '?') > n;
      assert WithPath(Tail(u))[n] == '#';
    }
  }

  lemma VersionStep(u: Uri)
    requires WellFormed(u) && u.fragment.None?
    ensures WithVersion(Tail(u)) == Tail(u.(query := Versioned(u, false).query))
  {
  }

  lemma WithPathShift(tail: string, i: nat)
    requires i < |tail|
    ensures |WithPath(tail)| > i + 1 || WithPath(tail) == tail
    ensures WithPath(tail)[i] == tail[i] || (i + 1 < |WithPath(tail)| && WithPath(tail)[i + 1] == tail[i])
  {
  }

  /** Of two strings with a '#', one has it where the other cannot. */
  lemma FirstHashDiffers(before: string, after: string, w: string, at: nat)
    requires '#' !in before && at < |before| && at < |w| && w[at] == '#'
    ensures w != before + after
  {
  }

  lemma HashKept(u: Uri) returns (at: nat)
    requires u.fragment.Some?
    ensures var n := |u.authority + u.path + QueryPart(u.query)|; at == n || at == n + 1
    ensures at < |WithPath(Tail(u))| && WithPath(Tail(u))[at] == '#'
  {
    var lead := u.authority + u.path + QueryPart(u.query);
    assert Tail(u)[|lead|] == '#';
    WithPathShift(Tail(u), |lead|);
    at := if WithPath(Tail(u))[|lead|] == '#' then |lead| else |lead| + 1;
  }

  /** With the version in its query the part before the fragment is longer, and still has no '#'. */
  lemma LongerLead(u: Uri)
    requires WellFormed(u)
    ensures var v := Versioned(u, false);
            var lead := v.authority + v.path + QueryPart(v.query);
            '#' !in lead && |lead| > |u.authority + u.path + QueryPart(u.query)| + 1
  {
  }

  /** A fragment ends up before the version, never after it. */
  lemma FragmentMisplaced(u: Uri)
    requires WellFormed(u) && u.fragment.Some?
    ensures WithVersion(WithPath(Tail(u))) != Tail(Versioned(u, false))
  {
    var v := Versioned(u, false);
    var lead := u.authority + u.path + QueryPart(u.query);
    var w := WithPath(Tail(u));
    var at := HashKept(u);
    assert WithVersion(w)[at] == '#';
    LongerLead(u);
    FirstHashDiffers(v.authority + v.path + QueryPart(v.query), FragmentPart(v.fragment), WithVersion(w), at);
  }

  lemma UnversionedTooShort(u: Uri)
    requires WellFormed(u) && u.fragment.None? && !Understood(u, false)
    ensures WithVersion(WithPath(Tail(u))) != Tail(Versioned(u, false))
  {
  }

  /** For every well-formed URI the builder prints the intended URI if and only if the URI is
      Understood: no fragment (unless legacy), and when the path is empty no "/" later on. */
  lemma BuilderPrintsVersionedUri(u: Uri, legacy: bool)
    requires WellFormed(u)
    ensures Built(Print(u), legacy) == Print(Versioned(u, legacy)) <==> Understood(u, legacy)
  {
    HostStartOfPrint(u);
    PathStep(u);
    var head := u.scheme + "://";
    var v := Versioned(u, legacy);
    var tail := if legacy then WithPath(Tail(u)) else WithVersion(WithPath(Tail(u)));
    assert Built(Print(u), legacy) == head + tail && Print(v) == head + Tail(v);
    SameTail(head, tail, Tail(v));
    if !legacy {
      if u.fragment.Some? {
        FragmentMisplaced(u);
      } else if Understood(u, false) {
        VersionStep(Versioned(u, true));
      } else {
        UnversionedTooShort(u);
      }
    }
  }

  /** ws://h#f, and ws://h?x/y in either mode. */
  lemma MisprintedUris(legacy: bool)
    ensures var u := Uri("ws", "h", "", None, Some("f"));
            WellFormed(u) && Built(Print(u), false) != Print(Versioned(u, false))
    ensures var u := Uri("ws", "h", "", Some("x/y"), None);
            WellFormed(u) && Built(Print(u), legacy) != Print(Versioned(u, legacy))
  {
    BuilderPrintsVersionedUri(Uri("ws", "h", "", None, Some("f")), false);
    BuilderPrintsVersionedUri(Uri("ws", "h", "", Some("x/y"), None), legacy);
  }

  /** The usual endpoints: a host, a host with a query, and a host with path and query. */
  lemma UsualEndpoints(scheme: string, host: string, path: string, query: string)
    requires WellFormed(Uri(scheme, host, path, Some(query), None)) && path != "" && '/' !in query
    ensures Built(scheme + "://" + host, false) == scheme + "://" + (host + "/" + ("?" + "RPCv2=true"))
    ensures Built(scheme + "://" + (host + ("?" + query)), false)
            == scheme + "://" + (host + "/" + ("?" + (query + "&" + "RPCv2=true")))
    ensures Built(scheme + "://" + (host + path + ("?" + query)), false)
            == scheme + "://" + (host + path + ("?" + (query + "&" + "RPCv2=true")))
  {
    var bare := Uri(scheme, host, "", None, None);
    BuilderPrintsVersionedUri(bare, false);
    NoFragment(bare);
    NoFragment(Versioned(bare, false));
    assert host + "" + "" == host;
    var withQuery := Uri(scheme, host, "", Some(query), None);
    BuilderPrintsVersionedUri(withQuery, false);
    NoFragment(withQuery);
    NoFragment(Versioned(withQuery, false));
    assert host + "" == host;
    var withPath := Uri(scheme, host, path, Some(query), None);
    BuilderPrintsVersionedUri(withPath, false);
    NoFragment(withPath);
    NoFragment(Versioned(withPath, false));
  }

  lemma NoFragment(u: Uri)
    requires u.fragment.None?
    ensures Print(u) == u.scheme + "://" + (u.authority + u.path + QueryPart(u.query))
  {
    var lead := u.authority + u.path + QueryPart(u.query);
    assert lead + "" == lead;
  }

  lemma SameTail(head: string, a: string, b: string)
    ensures head + a == head + b <==> a == b
  {
    if head + a == head + b {
      assert a == (head + a)[|head|..] && b == (head + b)[|head|..];
    }
  }

  // ----- idempotence

  lemma SchemeKept(s: string, t: string, i: nat)
    requires FindScheme(s, 0) == Some(i) && i + 3 <= |t| && t[..i + 3] == s[..i + 3]
    ensures FindScheme(t, 0) == Some(i)
  {
    assert forall j :: 0 <= j < i + 3 ==> t[j] == t[..i + 3][j] && s[j] == s[..i + 3][j];
    assert AtScheme(t, i);
    forall j | 0 <= j < i
      ensures !AtScheme(t, j)
    {
      assert AtScheme(t, j) == AtScheme(s, j);
    }
  }

  lemma WithPathHasSlash(tail: string)
    ensures '/' in WithPath(tail)
  {
  }

  /** In legacy mode building twice is building once, on every string. */
  lemma LegacyBuildIsIdempotent(url: string)
    ensures Built(Built(url, true), true) == Built(url, true)
  {
    var h := HostStart(url);
    var once := Built(url, true);
    var tail := WithPath(url[h..]);
    WithPathHasSlash(url[h..]);
    assert once[..h] == url[..h] && once[h..] == tail;
    if FindScheme(url, 0).Some? {
      SchemeKept(url, once, h - 3);
      assert HostStart(once) == h;
    } else if '/' in url {
      assert url[0..] == url && once == url;
    } else {
      assert once == tail && url[0..] == url;
      var q := IndexOf(url, '?');
      assert forall j :: 0 <= j < |once| && once[j] == '/' ==> j == q;
      assert FindScheme(once, 0) == None;
    }
    assert once == once[..HostStart(once)] + once[HostStart(once)..];
  }
}
