/** The unauthenticated first half of `src/services/wordpressApi.ts`: URL
    normalisation, REST endpoint discovery and authentication, each request
    going to a `Remote.Site`. The permission check, the categories, the image
    and the post are in `Publisher`, the tags in `Tags`. */
module WordPressApi {
  import opened Wrappers
  import opened Text
  import opened Base64
  import opened Payload
  import opened Remote

  datatype Credentials = Credentials(siteUrl: string, username: string, password: string)

  /** The errors the workflow throws to its caller. */
  datatype Failure =
    | SiteUnreachable(url: string)                          // no candidate endpoint answered
    | InvalidCharacter                                      // `btoa` threw
    | AuthenticationFailed(username: string)                // every header was rejected
    | InsufficientPermission(username: string, roles: seq<string>)
    | RequestFailed(status: nat)                            // categories answered non-2xx
    | NetworkError                                          // a request threw
    | ImageDownloadFailed
    | UploadFailed(status: nat)
    | PublishFailed(status: nat)

  // ---------------------------------------------------------------------------
  // URL normalisation

  predicate HasScheme(s: string) {
    StartsWith(s, "http://") || StartsWith(s, "https://")
  }

  /** What follows the scheme, when there is one. */
  function Host(s: string): string {
    if StartsWith(s, "http://") then s[7..]
    else if StartsWith(s, "https://") then s[8..]
    else s
  }

  /** `s.replace(/\/$/, '')`: one trailing slash at most. */
  function DropTrailingSlash(s: string): (r: string)
    ensures r == s || r + "/" == s
    ensures EndsWith(s, "/") ==> r + "/" == s
  {
    if s != [] && s[|s| - 1] == '/' then s[..|s| - 1] else s
  }

  /** `https://` in front of a string that has neither scheme. */
  function WithScheme(s: string): (r: string)
    ensures HasScheme(s) ==> r == s
    ensures !HasScheme(s) ==> r == "https://" + s
  {
    if !StartsWith(s, "http://") && !StartsWith(s, "https://") then "https://" + s else s
  }

  /** `normalizeUrl`: trim, remove every white-space character, prefix
      `https://` when neither scheme is present, drop one trailing slash. */
  function NormalizeUrl(url: string): string {
    DropTrailingSlash(WithScheme(RemoveSpaces(Trim(url))))
  }

  lemma NoSpaceAppend(a: string, b: string)
    requires NoSpace(a) && NoSpace(b)
    ensures NoSpace(a + b)
  {
    forall i | 0 <= i < |a + b| ensures !IsSpace((a + b)[i]) {
      if i >= |a| { assert (a + b)[i] == b[i - |a|]; }
    }
  }

  lemma NoSpaceScheme(s: string)
    requires NoSpace(s)
    ensures NoSpace(WithScheme(s))
  {
    if !HasScheme(s) {
      assert NoSpace("https://");
      NoSpaceAppend("https://", s);
    }
  }

  lemma ShapeAfterSlashDrop(s: string)
    requires NoSpace(s)
    ensures var r := DropTrailingSlash(WithScheme(s));
      NoSpace(r) &&
      (HasScheme(s) ==> r == s || r + "/" == s) &&
      (!HasScheme(s) ==> r == "https://" + s || r + "/" == "https://" + s)
  {
    var t := WithScheme(s);
    NoSpaceScheme(s);
    var r := DropTrailingSlash(t);
    assert r == t[..|r|];
  }

  /** The result has no white space; `https://` is added exactly when the
      input, without its white space, has no scheme; then at most one trailing
      slash goes. */
  lemma NormalizeUrlShape(url: string)
    ensures var s, r := RemoveSpaces(url), NormalizeUrl(url);
      NoSpace(r) &&
      (HasScheme(s) ==> r == s || r + "/" == s) &&
      (!HasScheme(s) ==> r == "https://" + s || r + "/" == "https://" + s)
  {
    TrimThenRemoveSpaces(url);
    RemoveSpacesShape(url);
    ShapeAfterSlashDrop(RemoveSpaces(url));
  }

  lemma SchemeAfterSlashDrop(s: string)
    ensures HasScheme(DropTrailingSlash(WithScheme(s))) <==> Host(s) != ""
  {
    var t := WithScheme(s);
    var r := DropTrailingSlash(t);
    if !HasScheme(s) {
      if s == [] {
        assert r == "https:/";
        assert r[4] != "http://"[4];
      } else {
        assert r[..8] == t[..8] == "https://";
      }
    } else if StartsWith(s, "http://") {
      if |s| == 7 {
        assert r == "http:/";
      } else {
        assert r[..7] == s[..7];
      }
    } else {
      if |s| == 8 {
        assert r == "https:/";
        assert r[4] != "http://"[4];
      } else {
        assert r[..8] == s[..8];
      }
    }
  }

  /** The result starts with `http://` or `https://` exactly when something
      follows the scheme: "", "http://" and "https://" normalise to
      "https:/", "http:/" and "https:/". */
  lemma NormalizeUrlScheme(url: string)
    ensures HasScheme(NormalizeUrl(url)) <==> Host(RemoveSpaces(url)) != ""
  {
    TrimThenRemoveSpaces(url);
    SchemeAfterSlashDrop(RemoveSpaces(url));
  }

  // ---------------------------------------------------------------------------
  // "First success wins"

  /** The position of the first candidate the server accepts. */
  function FirstAccepted<T>(candidates: seq<T>, accepted: set<T>): (r: Option<nat>)
    ensures r.Some? ==> r.value < |candidates| && candidates[r.value] in accepted
    ensures r.Some? ==> forall j :: 0 <= j < r.value ==> candidates[j] !in accepted
    ensures r.None? <==> forall j :: 0 <= j < |candidates| ==> candidates[j] !in accepted
  {
    if candidates == [] then None
    else if candidates[0] in accepted then Some(0)
    else match FirstAccepted(candidates[1..], accepted)
      case None => None
      case Some(k) => Some(k + 1)
  }

  /** The candidates tried: up to and including the first accepted one. */
  function Attempted<T>(candidates: seq<T>, accepted: set<T>): (r: seq<T>)
    ensures |r| <= |candidates| && r == candidates[..|r|]
  {
    match FirstAccepted(candidates, accepted)
    case None => candidates
    case Some(k) => candidates[..k + 1]
  }

  /** With three candidates: the first accepted one wins, in order. */
  lemma FirstOfThree<T>(c: seq<T>, accepted: set<T>)
    requires |c| == 3
    ensures c[0] in accepted ==> FirstAccepted(c, accepted) == Some(0)
    ensures c[0] !in accepted && c[1] in accepted ==> FirstAccepted(c, accepted) == Some(1)
    ensures c[0] !in accepted && c[1] !in accepted && c[2] in accepted ==>
      FirstAccepted(c, accepted) == Some(2)
    ensures FirstAccepted(c, accepted).None? <==>
      c[0] !in accepted && c[1] !in accepted && c[2] !in accepted
  {
  }

  // ---------------------------------------------------------------------------
  // Endpoint discovery

  /** The REST roots probed, in order. */
  function Candidates(clean: string): seq<string> {
    [clean + "/wp-json/wp/v2", clean + "/wp-json", clean + "/?rest_route=/wp/v2"]
  }

  function Probes(urls: seq<string>): (r: seq<Request>)
    ensures |r| == |urls| && forall i :: 0 <= i < |urls| ==> r[i] == Probe(urls[i])
  {
    seq(|urls|, i requires 0 <= i < |urls| => Probe(urls[i]))
  }

  /** What `testWordPressEndpoints` returns or throws. */
  function Discover(siteUrl: string, live: set<string>): Result<string, Failure> {
    var clean := NormalizeUrl(siteUrl);
    match FirstAccepted(Candidates(clean), live)
    case Some(k) => Ok(Candidates(clean)[k])
    case None => Err(SiteUnreachable(clean))
  }

  /** The three candidates are tried in their fixed order and the first one
      that answers wins; discovery fails only when none does. */
  lemma DiscoverOrder(siteUrl: string, live: set<string>)
    ensures var c := Candidates(NormalizeUrl(siteUrl));
      (c[0] in live ==> Discover(siteUrl, live) == Ok(c[0])) &&
      (c[0] !in live && c[1] in live ==> Discover(siteUrl, live) == Ok(c[1])) &&
      (c[0] !in live && c[1] !in live && c[2] in live ==> Discover(siteUrl, live) == Ok(c[2])) &&
      (c[0] !in live && c[1] !in live && c[2] !in live <==>
         Discover(siteUrl, live) == Err(SiteUnreachable(NormalizeUrl(siteUrl))))
  {
    FirstOfThree(Candidates(NormalizeUrl(siteUrl)), live);
  }

  /** Requests the URLs in order and stops at the first one that answers. */
  method ProbeInOrder(site: Site, urls: seq<string>) returns (k: Option<nat>)
    requires site.Valid()
    modifies site`log
    ensures site.Valid()
    ensures k == FirstAccepted(urls, site.config.liveUrls)
    ensures site.log == old(site.log) + Probes(Attempted(urls, site.config.liveUrls))
  {
    for i := 0 to |urls|
      invariant site.Valid()
      invariant forall j :: 0 <= j < i ==> urls[j] !in site.config.liveUrls
      invariant site.log == old(site.log) + Probes(urls[..i])
    {
      var ok := site.Get(urls[i]);
      assert Probes(urls[..i + 1]) == Probes(urls[..i]) + [Probe(urls[i])];
      if ok {
        assert FirstAccepted(urls, site.config.liveUrls) == Some(i);
        return Some(i);
      }
    }
    assert urls[..|urls|] == urls;
    k := None;
  }

  /** `testWordPressEndpoints`: probe the candidates in order and stop at the
      first one that answers; no later candidate is requested. */
  method TestWordPressEndpoints(site: Site, siteUrl: string) returns (r: Result<string, Failure>)
    requires site.Valid()
    modifies site`log
    ensures site.Valid()
    ensures r == Discover(siteUrl, site.config.liveUrls)
    ensures site.log == old(site.log) + Probes(Attempted(Candidates(NormalizeUrl(siteUrl)), site.config.liveUrls))
  {
    var clean := NormalizeUrl(siteUrl);
    var endpoints := Candidates(clean);
    var k := ProbeInOrder(site, endpoints);
    if k.Some? {
      r := Ok(endpoints[k.value]);
    } else {
      r := Err(SiteUnreachable(clean));
    }
  }

  // ---------------------------------------------------------------------------
  // Authentication

  /** The three ways of writing the credentials, in the order they are tried:
      verbatim, both trimmed, and the password without any white space. */
  function CredentialVariants(username: string, password: string): seq<string> {
    [username + ":" + password,
     Trim(username) + ":" + Trim(password),
     username + ":" + RemoveSpaces(password)]
  }

  function BasicHeader(credential: string): string
    requires IsLatin1(credential)
  {
    "Basic " + Encode(credential)
  }

  lemma Latin1Slice(s: string, i: nat, j: nat)
    requires IsLatin1(s) && i <= j <= |s|
    ensures IsLatin1(s[i..j])
  {
    assert forall k :: 0 <= k < j - i ==> s[i..j][k] == s[i + k];
  }

  lemma Latin1Append(a: string, b: string)
    requires IsLatin1(a) && IsLatin1(b)
    ensures IsLatin1(a + b)
  {
    assert forall k :: |a| <= k < |a + b| ==> (a + b)[k] == b[k - |a|];
  }

  lemma Latin1Trim(s: string)
    requires IsLatin1(s)
    ensures IsLatin1(Trim(s))
  {
    var t := TrimStart(s);
    TrimStartShape(s);
    TrimEndShape(t);
    Latin1Slice(s, |s| - |t|, |s|);
    Latin1Slice(t, 0, |TrimEnd(t)|);
  }

  lemma Latin1RemoveSpaces(s: string)
    requires IsLatin1(s)
    ensures IsLatin1(RemoveSpaces(s))
  {
    var r := RemoveSpaces(s);
    RemoveSpacesShape(s);
    forall k | 0 <= k < |r| ensures r[k] as int < 256 {
      assert r[k] in s;
    }
  }

  predicate AllLatin1(variants: seq<string>) {
    forall i :: 0 <= i < |variants| ==> IsLatin1(variants[i])
  }

  /** When the username and password are Latin-1 so are all three variants:
      `btoa` either throws on the first variant or on none. */
  lemma Latin1Variants(username: string, password: string)
    requires IsLatin1(username) && IsLatin1(password)
    ensures AllLatin1(CredentialVariants(username, password))
  {
    var colon := ":";
    assert IsLatin1(colon);
    Latin1Trim(username);
    Latin1Trim(password);
    Latin1RemoveSpaces(password);
    Latin1Append(username, colon);
    Latin1Append(username + colon, password);
    Latin1Append(Trim(username), colon);
    Latin1Append(Trim(username) + colon, Trim(password));
    Latin1Append(username + colon, RemoveSpaces(password));
  }

  /** `'Basic ' + btoa(v)` for each variant. */
  function Headers(variants: seq<string>): (r: seq<string>)
    requires AllLatin1(variants)
    ensures |r| == |variants|
    ensures forall i :: 0 <= i < |variants| ==> r[i] == BasicHeader(variants[i])
  {
    seq(|variants|, i requires 0 <= i < |variants| => BasicHeader(variants[i]))
  }

  /** The three `Authorization` values, or None when `btoa` throws. The array
      is built before the request loop and outside its `try`, so the exception
      ends authentication. */
  function AuthHeaders(username: string, password: string): (r: Option<seq<string>>)
    ensures r.Some? <==> IsLatin1(username) && IsLatin1(password)
    ensures r.Some? ==>
      AllLatin1(CredentialVariants(username, password)) &&
      r.value == Headers(CredentialVariants(username, password))
  {
    if IsLatin1(username) && IsLatin1(password) then
      Latin1Variants(username, password);
      Some(Headers(CredentialVariants(username, password)))
    else None
  }

  /** The first accepted header of `headers`, or the authentication error. */
  function Pick(headers: seq<string>, accepted: set<string>, username: string): Result<string, Failure> {
    match FirstAccepted(headers, accepted)
    case Some(k) => Ok(headers[k])
    case None => Err(AuthenticationFailed(username))
  }

  /** The header `testAuthentication` settles on, or what it throws. */
  function Authenticate(creds: Credentials, accepted: set<string>): Result<string, Failure> {
    match AuthHeaders(creds.username, creds.password)
    case None => Err(InvalidCharacter)
    case Some(headers) => Pick(headers, accepted, creds.username)
  }

  lemma PickOfThree(h: seq<string>, accepted: set<string>, username: string)
    requires |h| == 3
    ensures h[0] in accepted ==> Pick(h, accepted, username) == Ok(h[0])
    ensures h[0] !in accepted && h[1] in accepted ==> Pick(h, accepted, username) == Ok(h[1])
    ensures h[0] !in accepted && h[1] !in accepted && h[2] in accepted ==>
      Pick(h, accepted, username) == Ok(h[2])
    ensures h[0] !in accepted && h[1] !in accepted && h[2] !in accepted <==>
      Pick(h, accepted, username) == Err(AuthenticationFailed(username))
  {
    FirstOfThree(h, accepted);
  }

  /** The variants are tried in order and the first accepted one wins:
      credentials that work only without the password's white space
      authenticate with the third header. */
  lemma AuthenticateOrder(creds: Credentials, accepted: set<string>)
    requires IsLatin1(creds.username) && IsLatin1(creds.password)
    ensures var h := AuthHeaders(creds.username, creds.password).value;
      (h[0] in accepted ==> Authenticate(creds, accepted) == Ok(h[0])) &&
      (h[0] !in accepted && h[1] in accepted ==> Authenticate(creds, accepted) == Ok(h[1])) &&
      (h[0] !in accepted && h[1] !in accepted && h[2] in accepted ==>
         Authenticate(creds, accepted) == Ok(h[2])) &&
      (h[0] !in accepted && h[1] !in accepted && h[2] !in accepted <==>
         Authenticate(creds, accepted) == Err(AuthenticationFailed(creds.username)))
  {
    var h := AuthHeaders(creds.username, creds.password).value;
    assert Authenticate(creds, accepted) == Pick(h, accepted, creds.username);
    PickOfThree(h, accepted, creds.username);
  }

  /** The header that authenticates is `Basic ` followed by the base64 of one
      of the three credential variants, which it decodes back to. */
  lemma AuthenticatedHeaderDecodes(creds: Credentials, accepted: set<string>)
    requires Authenticate(creds, accepted).Ok?
    ensures var h := Authenticate(creds, accepted).value;
      StartsWith(h, "Basic ") && h in accepted &&
      exists i :: 0 <= i < 3 && Decode(h[6..]) == Some(CredentialVariants(creds.username, creds.password)[i])
  {
    var vs := CredentialVariants(creds.username, creds.password);
    var hs := AuthHeaders(creds.username, creds.password).value;
    assert Authenticate(creds, accepted) == Pick(hs, accepted, creds.username);
    var k := FirstAccepted(hs, accepted).value;
    assert Authenticate(creds, accepted).value == hs[k] == BasicHeader(vs[k]);
    HeaderDecodes(vs[k]);
  }

  /** A `Basic` header decodes back to the credential it was built from. */
  lemma HeaderDecodes(credential: string)
    requires IsLatin1(credential)
    ensures StartsWith(BasicHeader(credential), "Basic ")
    ensures Decode(BasicHeader(credential)[6..]) == Some(credential)
  {
    assert BasicHeader(credential)[6..] == Encode(credential);
    DecodeEncode(credential);
  }

  /** Only a non-Latin-1 character makes authentication throw without sending
      a request; otherwise it fails only when all three headers are rejected. */
  lemma AuthenticateFailure(creds: Credentials, accepted: set<string>)
    ensures Authenticate(creds, accepted) == Err(InvalidCharacter) <==>
      !(IsLatin1(creds.username) && IsLatin1(creds.password))
    ensures Authenticate(creds, accepted) == Err(AuthenticationFailed(creds.username)) <==>
      IsLatin1(creds.username) && IsLatin1(creds.password) &&
      forall i :: 0 <= i < 3 ==> AuthHeaders(creds.username, creds.password).value[i] !in accepted
  {
    if IsLatin1(creds.username) && IsLatin1(creds.password) {
      var hs := AuthHeaders(creds.username, creds.password).value;
      assert Authenticate(creds, accepted) == Pick(hs, accepted, creds.username);
      PickOfThree(hs, accepted, creds.username);
    }
  }

  function ReadMes(endpoint: string, headers: seq<string>): (r: seq<Request>)
    ensures |r| == |headers| &&
      forall i :: 0 <= i < |headers| ==> r[i] == Request.ReadMe(endpoint, headers[i])
  {
    seq(|headers|, i requires 0 <= i < |headers| => Request.ReadMe(endpoint, headers[i]))
  }

  /** The `/users/me` requests authentication sends. */
  function AuthRequests(creds: Credentials, endpoint: string, accepted: set<string>): seq<Request> {
    match AuthHeaders(creds.username, creds.password)
    case None => []
    case Some(headers) => ReadMes(endpoint, Attempted(headers, accepted))
  }

  /** Sends `/users/me` with each header in turn and stops at the first one
      accepted. */
  method TryHeaders(site: Site, endpoint: string, headers: seq<string>) returns (k: Option<nat>)
    requires site.Valid()
    modifies site`log
    ensures site.Valid()
    ensures k == FirstAccepted(headers, site.config.acceptedAuth)
    ensures site.log == old(site.log) + ReadMes(endpoint, Attempted(headers, site.config.acceptedAuth))
  {
    for i := 0 to |headers|
      invariant site.Valid()
      invariant forall j :: 0 <= j < i ==> headers[j] !in site.config.acceptedAuth
      invariant site.log == old(site.log) + ReadMes(endpoint, headers[..i])
    {
      var user := site.ReadMe(endpoint, headers[i]);
      assert ReadMes(endpoint, headers[..i + 1]) ==
        ReadMes(endpoint, headers[..i]) + [Request.ReadMe(endpoint, headers[i])];
      if user.Some? {
        assert FirstAccepted(headers, site.config.acceptedAuth) == Some(i);
        return Some(i);
      }
    }
    assert headers[..|headers|] == headers;
    k := None;
  }

  /** `testAuthentication`: send `/users/me` with each header in turn and
      return the identity with the first header accepted. */
  method TestAuthentication(site: Site, creds: Credentials, endpoint: string)
    returns (r: Result<(User, string), Failure>)
    requires site.Valid()
    modifies site`log
    ensures site.Valid()
    ensures r == match Authenticate(creds, site.config.acceptedAuth)
                 case Ok(h) => Ok((site.config.me, h))
                 case Err(e) => Err(e)
    ensures site.log == old(site.log) + AuthRequests(creds, endpoint, site.config.acceptedAuth)
  {
    var variants := AuthHeaders(creds.username, creds.password);
    if variants.None? {
      return Err(InvalidCharacter);
    }
    var headers := variants.value;
    var k := TryHeaders(site, endpoint, headers);
    if k.Some? {
      r := Ok((site.config.me, headers[k.value]));
    } else {
      r := Err(AuthenticationFailed(creds.username));
    }
  }
}
