/** The authenticated part of `src/services/wordpressApi.ts`: the permission
    check every operation starts with, the category list, the featured image
    upload and the final post creation. */
module Publisher {
  import opened Wrappers
  import opened Text
  import opened Payload
  import opened Remote
  import opened WordPressApi
  import opened Tags

  // ---------------------------------------------------------------------------
  // Permission check

  /** The draft created to test publishing rights when no roles are known. */
  const ProbeTitle: string := "Test Draft - Please Ignore"
  const ProbeContent: string := "This is a test draft to verify publishing permissions."

  /** What `checkUserPermissions` hands back: the user, the REST root and the
      `Authorization` value that worked. */
  datatype Session = Session(user: User, endpoint: string, header: string)

  /** One of the roles that may publish posts. */
  predicate CanPublish(roles: seq<string>) {
    "administrator" in roles || "editor" in roles || "author" in roles
  }

  /** The roles the check decides on: those of `/users/me`; when that list is
      empty, a non-empty list from `/users/{id}`; otherwise none. */
  function EffectiveRoles(meRoles: seq<string>, detailed: Option<seq<string>>): seq<string> {
    if meRoles != [] then meRoles
    else if detailed.Some? then detailed.value
    else []
  }

  /** The decision once discovery and authentication have run: their
      failures are thrown on; otherwise known roles without a publishing role
      are refused. */
  function Decide(found: Result<string, Failure>, auth: Result<string, Failure>, username: string,
                  c: Config): Result<Session, Failure>
  {
    match found
    case Err(e) => Err(e)
    case Ok(endpoint) =>
      match auth
      case Err(e) => Err(e)
      case Ok(header) =>
        var roles := EffectiveRoles(c.me.roles, c.detailedRoles);
        if roles != [] && !CanPublish(roles) then Err(InsufficientPermission(username, roles))
        else Ok(Session(c.me.(roles := roles), endpoint, header))
  }

  /** What `checkUserPermissions` returns or throws on a site configured as `c`. */
  function Permission(creds: Credentials, c: Config): Result<Session, Failure> {
    Decide(Discover(creds.siteUrl, c.liveUrls), Authenticate(creds, c.acceptedAuth), creds.username, c)
  }

  /** Whether the check gets as far as creating the test draft. */
  predicate Probing(found: Result<string, Failure>, auth: Result<string, Failure>, c: Config) {
    found.Ok? && auth.Ok? && EffectiveRoles(c.me.roles, c.detailedRoles) == []
  }

  predicate ProbeMade(creds: Credentials, c: Config) {
    Probing(Discover(creds.siteUrl, c.liveUrls), Authenticate(creds, c.acceptedAuth), c)
  }

  /** The requests of the draft test: the draft, then its deletion when the
      draft was created with id `id`. */
  function ProbeRequests(endpoint: string, header: string, reply: Reply, id: nat): seq<Request> {
    [CreateDraft(endpoint, ProbeTitle, ProbeContent, header)] +
    (if reply.Accepted? then [DeletePost(endpoint, id, header)] else [])
  }

  /** The requests sent after authentication: the detailed user when
      `/users/me` has no roles, the draft test when there are still none. */
  function RoleRequests(endpoint: string, header: string, c: Config, nextPostId: nat): seq<Request> {
    (if c.me.roles == [] then [ReadUser(endpoint, c.me.id, header)] else []) +
    (if EffectiveRoles(c.me.roles, c.detailedRoles) == []
     then ProbeRequests(endpoint, header, c.draftReply, nextPostId) else [])
  }

  /** The requests sent once an endpoint is found. */
  function AfterDiscoveryRequests(creds: Credentials, endpoint: string, c: Config, nextPostId: nat)
    : seq<Request>
  {
    AuthRequests(creds, endpoint, c.acceptedAuth) +
    match Authenticate(creds, c.acceptedAuth)
    case Err(_) => []
    case Ok(header) => RoleRequests(endpoint, header, c, nextPostId)
  }

  /** Every request `checkUserPermissions` sends, in order. */
  function PermissionRequests(creds: Credentials, c: Config, nextPostId: nat): seq<Request> {
    Probes(Attempted(Candidates(NormalizeUrl(creds.siteUrl)), c.liveUrls)) +
    match Discover(creds.siteUrl, c.liveUrls)
    case Err(_) => []
    case Ok(endpoint) => AfterDiscoveryRequests(creds, endpoint, c, nextPostId)
  }

  /** The stored posts after the check: the test draft stays behind only
      when it was created and its deletion did not take effect. */
  function PostsAfter(probing: bool, c: Config, posts: seq<StoredPost>, nextPostId: nat): seq<StoredPost> {
    if probing && c.draftReply.Accepted? && !c.deleteWorks
    then posts + [ProbeDraft(nextPostId, ProbeTitle, ProbeContent)]
    else posts
  }

  function NextPostAfter(probing: bool, c: Config, nextPostId: nat): nat {
    if probing && c.draftReply.Accepted? then nextPostId + 1 else nextPostId
  }

  function PostsAfterCheck(creds: Credentials, c: Config, posts: seq<StoredPost>, nextPostId: nat)
    : seq<StoredPost>
  {
    PostsAfter(ProbeMade(creds, c), c, posts, nextPostId)
  }

  function NextPostAfterCheck(creds: Credentials, c: Config, nextPostId: nat): nat {
    NextPostAfter(ProbeMade(creds, c), c, nextPostId)
  }

  /** The check succeeds exactly when the site is found, the credentials are
      accepted and the roles, if any are known, include a publishing role;
      with known roles and none of them publishing, it refuses with those
      roles. */
  lemma DecideRule(found: Result<string, Failure>, auth: Result<string, Failure>, username: string,
                   c: Config)
    ensures var roles := EffectiveRoles(c.me.roles, c.detailedRoles);
      (Decide(found, auth, username, c).Ok? <==>
         found.Ok? && auth.Ok? && (roles == [] || CanPublish(roles))) &&
      (found.Ok? && auth.Ok? ==>
         (Decide(found, auth, username, c) == Err(InsufficientPermission(username, roles)) <==>
          roles != [] && !CanPublish(roles)))
    ensures found.Err? ==> Decide(found, auth, username, c) == Err(found.error)
    ensures found.Ok? && auth.Err? ==> Decide(found, auth, username, c) == Err(auth.error)
  {
  }

  /** The same for the whole check. */
  lemma PermissionRule(creds: Credentials, c: Config)
    ensures var roles := EffectiveRoles(c.me.roles, c.detailedRoles);
      (Permission(creds, c).Ok? <==>
         Discover(creds.siteUrl, c.liveUrls).Ok? && Authenticate(creds, c.acceptedAuth).Ok? &&
         (roles == [] || CanPublish(roles))) &&
      (Permission(creds, c) == Err(InsufficientPermission(creds.username, roles)) <==>
         Discover(creds.siteUrl, c.liveUrls).Ok? && Authenticate(creds, c.acceptedAuth).Ok? &&
         roles != [] && !CanPublish(roles))
  {
    DecideRule(Discover(creds.siteUrl, c.liveUrls), Authenticate(creds, c.acceptedAuth), creds.username, c);
  }

  /** The session carries the discovered endpoint, the accepted header and
      the user with the roles the check decided on. */
  lemma SessionRule(creds: Credentials, c: Config)
    requires Permission(creds, c).Ok?
    ensures var s := Permission(creds, c).value;
      Discover(creds.siteUrl, c.liveUrls) == Ok(s.endpoint) &&
      Authenticate(creds, c.acceptedAuth) == Ok(s.header) && s.header in c.acceptedAuth &&
      s.user.id == c.me.id && s.user.name == c.me.name &&
      s.user.roles == EffectiveRoles(c.me.roles, c.detailedRoles)
  {
    AuthenticatedHeaderDecodes(creds, c.acceptedAuth);
  }

  /** Whatever the test draft's answer, and whether or not it can be deleted,
      the check's outcome is the same: it never denies on its evidence. */
  lemma ProbeNeverDecides(found: Result<string, Failure>, auth: Result<string, Failure>,
                          username: string, c: Config, reply: Reply, deleteWorks: bool)
    ensures Decide(found, auth, username, c.(draftReply := reply, deleteWorks := deleteWorks)) ==
      Decide(found, auth, username, c)
  {
  }

  /** With no roles known at all, the check succeeds once the user is
      authenticated, and so does every draft test. */
  lemma EmptyRolesAlwaysPass(found: Result<string, Failure>, auth: Result<string, Failure>,
                             username: string, c: Config)
    requires found.Ok? && auth.Ok?
    requires c.me.roles == [] && (c.detailedRoles.None? || c.detailedRoles == Some([]))
    ensures Probing(found, auth, c)
    ensures Decide(found, auth, username, c) == Ok(Session(c.me, found.value, auth.value))
  {
  }

  /** The detailed user is consulted only when `/users/me` lists no roles. */
  lemma DetailedRolesOnlyWhenEmpty(found: Result<string, Failure>, auth: Result<string, Failure>,
                                   username: string, c: Config, detailed: Option<seq<string>>)
    requires c.me.roles != []
    ensures Decide(found, auth, username, c.(detailedRoles := detailed)) == Decide(found, auth, username, c)
    ensures !Probing(found, auth, c)
    ensures forall endpoint, header, id :: RoleRequests(endpoint, header, c, id) == []
  {
  }

  /** The check leaves at most one post behind, and only the test draft. */
  lemma ProbeResidue(probing: bool, c: Config, posts: seq<StoredPost>, nextPostId: nat)
    ensures var after := PostsAfter(probing, c, posts, nextPostId);
      posts <= after && |after| <= |posts| + 1 &&
      (|after| == |posts| + 1 <==> probing && c.draftReply.Accepted? && !c.deleteWorks) &&
      (|after| == |posts| + 1 ==> after[|posts|] == ProbeDraft(nextPostId, ProbeTitle, ProbeContent))
  {
  }

  /** The roles lookup after authentication. */
  method ReadRoles(site: Site, endpoint: string, user: User, header: string) returns (roles: seq<string>)
    requires site.Valid()
    modifies site`log
    ensures site.Valid()
    ensures roles == EffectiveRoles(user.roles, site.config.detailedRoles)
    ensures site.log == old(site.log) +
      (if user.roles == [] then [ReadUser(endpoint, user.id, header)] else [])
  {
    roles := user.roles;
    if roles == [] {
      var detailed := site.ReadUser(endpoint, user.id, header);
      if detailed.Some? && detailed.value != [] {
        roles := detailed.value;
      }
    }
  }

  /** The test draft: created, then deleted when its creation succeeded. Its
      outcome is logged and otherwise ignored. */
  method ProbeDrafting(site: Site, endpoint: string, header: string)
    requires site.Valid()
    modifies site`posts, site`nextPostId, site`log
    ensures site.Valid()
    ensures site.posts ==
      if site.config.draftReply.Accepted? && !site.config.deleteWorks
      then old(site.posts) + [ProbeDraft(old(site.nextPostId), ProbeTitle, ProbeContent)]
      else old(site.posts)
    ensures site.nextPostId == old(site.nextPostId) + (if site.config.draftReply.Accepted? then 1 else 0)
    ensures site.log == old(site.log) +
      ProbeRequests(endpoint, header, site.config.draftReply, old(site.nextPostId))
  {
    var reply, id := site.CreateDraft(endpoint, ProbeTitle, ProbeContent, header);
    if reply.Accepted? {
      WithoutLast(old(site.posts), ProbeDraft(id, ProbeTitle, ProbeContent));
      site.DeletePost(endpoint, id, header);
    }
  }

  /** The part of the check after authentication. */
  method CheckRoles(site: Site, endpoint: string, header: string, username: string)
    returns (r: Result<Session, Failure>)
    requires site.Valid()
    modifies site`posts, site`nextPostId, site`log
    ensures site.Valid()
    ensures r == Decide(Ok(endpoint), Ok(header), username, site.config)
    ensures var probing := Probing(Ok(endpoint), Ok(header), site.config);
      site.posts == PostsAfter(probing, site.config, old(site.posts), old(site.nextPostId)) &&
      site.nextPostId == NextPostAfter(probing, site.config, old(site.nextPostId))
    ensures site.log == old(site.log) + RoleRequests(endpoint, header, site.config, old(site.nextPostId))
  {
    var user := site.config.me;
    var roles := ReadRoles(site, endpoint, user, header);
    if roles == [] {
      ProbeDrafting(site, endpoint, header);
      return Ok(Session(user.(roles := roles), endpoint, header));
    }
    if !CanPublish(roles) {
      return Err(InsufficientPermission(username, roles));
    }
    r := Ok(Session(user.(roles := roles), endpoint, header));
  }

  /** The part of the check after discovery. */
  method CheckFromEndpoint(site: Site, creds: Credentials, endpoint: string)
    returns (r: Result<Session, Failure>)
    requires site.Valid()
    modifies site`posts, site`nextPostId, site`log
    ensures site.Valid()
    ensures r == Decide(Ok(endpoint), Authenticate(creds, site.config.acceptedAuth), creds.username, site.config)
    ensures var probing := Probing(Ok(endpoint), Authenticate(creds, site.config.acceptedAuth), site.config);
      site.posts == PostsAfter(probing, site.config, old(site.posts), old(site.nextPostId)) &&
      site.nextPostId == NextPostAfter(probing, site.config, old(site.nextPostId))
    ensures site.log == old(site.log) + AfterDiscoveryRequests(creds, endpoint, site.config, old(site.nextPostId))
  {
    ghost var log0 := site.log;
    var auth := TestAuthentication(site, creds, endpoint);
    if auth.Err? {
      LogAppendNothing(log0, AuthRequests(creds, endpoint, site.config.acceptedAuth), site.log);
      return Err(auth.error);
    }
    ghost var log1 := site.log;
    r := CheckRoles(site, endpoint, auth.value.1, creds.username);
    LogAppend(log0, AuthRequests(creds, endpoint, site.config.acceptedAuth), log1,
              RoleRequests(endpoint, auth.value.1, site.config, old(site.nextPostId)), site.log);
  }

  /** `checkUserPermissions`: discovery, authentication, roles and, without
      roles, the draft test. */
  method CheckUserPermissions(site: Site, creds: Credentials) returns (r: Result<Session, Failure>)
    requires site.Valid()
    modifies site`posts, site`nextPostId, site`log
    ensures site.Valid()
    ensures r == Permission(creds, site.config)
    ensures site.posts == PostsAfterCheck(creds, site.config, old(site.posts), old(site.nextPostId))
    ensures site.nextPostId == NextPostAfterCheck(creds, site.config, old(site.nextPostId))
    ensures site.log == old(site.log) + PermissionRequests(creds, site.config, old(site.nextPostId))
  {
    ghost var log0 := site.log;
    var found := TestWordPressEndpoints(site, creds.siteUrl);
    if found.Err? {
      LogAppendNothing(log0, Probes(Attempted(Candidates(NormalizeUrl(creds.siteUrl)), site.config.liveUrls)),
                       site.log);
      return Err(found.error);
    }
    ghost var log1 := site.log;
    r := CheckFromEndpoint(site, creds, found.value);
    LogAppend(log0, Probes(Attempted(Candidates(NormalizeUrl(creds.siteUrl)), site.config.liveUrls)), log1,
              AfterDiscoveryRequests(creds, found.value, site.config, old(site.nextPostId)), site.log);
  }

  // ---------------------------------------------------------------------------
  // Categories

  /** The `{id, name}` pairs `getWordPressCategories` returns. */
  datatype CategoryRef = CategoryRef(id: nat, name: string)

  function CategoryRefs(categories: seq<Category>): (r: seq<CategoryRef>)
    ensures |r| == |categories|
    ensures forall i :: 0 <= i < |r| ==> r[i].id == categories[i].id && r[i].name == categories[i].name
  {
    seq(|categories|, i requires 0 <= i < |categories| => CategoryRef(categories[i].id, categories[i].name))
  }

  /** The answer to the category request, read as `getWordPressCategories`
      reads it. */
  function ListingOutcome(reply: Reply, categories: seq<Category>): Result<seq<CategoryRef>, Failure> {
    match reply
    case Accepted => Ok(CategoryRefs(categories))
    case Refused(status) => Err(RequestFailed(status))
    case NoResponse => Err(NetworkError)
  }

  /** What `getWordPressCategories` returns or throws. */
  function CategoryListing(creds: Credentials, c: Config, categories: seq<Category>)
    : Result<seq<CategoryRef>, Failure>
  {
    match Permission(creds, c)
    case Err(e) => Err(e)
    case Ok(_) => ListingOutcome(c.categoriesReply, categories)
  }

  /** The category request, sent once the check has passed. */
  function ListingRequests(creds: Credentials, c: Config): seq<Request> {
    match Permission(creds, c)
    case Ok(s) => [ListCategories(s.endpoint, s.header)]
    case Err(_) => []
  }

  /** A category picked from the list, passed on as `id.toString()`, is the
      one category of the published post. */
  lemma ChosenCategoryIsSent(categories: seq<Category>, i: nat, post: GeneratedPost,
                             publishDate: Option<int>, now: int, tagIds: seq<nat>, mediaId: Option<nat>)
    requires i < |categories|
    ensures var id := CategoryRefs(categories)[i].id;
      BuildPayload(post, NatToString(id), publishDate, now, tagIds, mediaId).categories ==
        [Some(categories[i].id)]
  {
    CategoryRule(NatToString(categories[i].id), categories[i].id);
  }

  /** The listing needs both a granted permission and a 2xx answer. */
  lemma ListingRule(creds: Credentials, c: Config, categories: seq<Category>)
    ensures CategoryListing(creds, c, categories).Ok? <==>
      Permission(creds, c).Ok? && c.categoriesReply.Accepted?
    ensures Permission(creds, c).Err? ==>
      CategoryListing(creds, c, categories) == Err(Permission(creds, c).error)
  {
  }

  /** `getWordPressCategories` */
  method GetWordPressCategories(site: Site, creds: Credentials) returns (r: Result<seq<CategoryRef>, Failure>)
    requires site.Valid()
    modifies site`posts, site`nextPostId, site`log
    ensures site.Valid()
    ensures r == CategoryListing(creds, site.config, site.categories)
    ensures site.posts == PostsAfterCheck(creds, site.config, old(site.posts), old(site.nextPostId))
    ensures site.nextPostId == NextPostAfterCheck(creds, site.config, old(site.nextPostId))
    ensures site.log == old(site.log) + PermissionRequests(creds, site.config, old(site.nextPostId)) +
      ListingRequests(creds, site.config)
  {
    var session := CheckUserPermissions(site, creds);
    if session.Err? {
      NothingAppended(site.log);
      return Err(session.error);
    }
    var reply, found := site.ListCategories(session.value.endpoint, session.value.header);
    r := ListingOutcome(reply, found);
  }

  // ---------------------------------------------------------------------------
  // Featured image

  /** The uploaded file's name: the title with each run of white space
      replaced by `-`, lower-cased, with `.jpg` appended. */
  function MediaFilename(title: string): string {
    Lower(Hyphenate(title)) + ".jpg"
  }

  /** The image's file name is the slug a tag with the title as name would
      get, so it has no white space and ends in `.jpg`. */
  lemma MediaFilenameIsSlug(title: string)
    ensures MediaFilename(title) == Slug(title) + ".jpg"
    ensures NoSpace(MediaFilename(title)) && EndsWith(MediaFilename(title), ".jpg")
  {
    HyphenateLower(title);
    HyphenateShape(Lower(title));
    var f := MediaFilename(title);
    assert f[|f| - 4..] == ".jpg";
    assert forall i :: 0 <= i < |f| - 4 ==> f[i] == Slug(title)[i];
  }

  /** What `uploadImageToWordPress` returns or throws: the id the site gives
      the new media item. */
  function UploadOutcome(imageUrl: string, c: Config, nextMediaId: nat): Result<nat, Failure> {
    if imageUrl !in c.downloadable then Err(ImageDownloadFailed)
    else match c.mediaReply
      case Accepted => Ok(nextMediaId)
      case Refused(status) => Err(UploadFailed(status))
      case NoResponse => Err(NetworkError)
  }

  function UploadRequests(imageUrl: string, title: string, c: Config, endpoint: string, header: string)
    : seq<Request>
  {
    [DownloadImage(imageUrl)] +
    (if imageUrl in c.downloadable then [UploadMedia(endpoint, MediaFilename(title), title, title, header)]
     else [])
  }

  /** `uploadImageToWordPress`: download, then upload under the derived file
      name with the title as title and alternative text, sending only the
      `Authorization` header. */
  method UploadImageToWordPress(site: Site, imageUrl: string, title: string, endpoint: string, header: string)
    returns (r: Result<nat, Failure>)
    requires site.Valid()
    modifies site`media, site`nextMediaId, site`log
    ensures site.Valid()
    ensures r == UploadOutcome(imageUrl, site.config, old(site.nextMediaId))
    ensures r.Ok? ==>
      site.media == old(site.media) + [MediaItem(r.value, MediaFilename(title), title, title)] &&
      site.nextMediaId == r.value + 1
    ensures r.Err? ==> site.media == old(site.media) && site.nextMediaId == old(site.nextMediaId)
    ensures site.log == old(site.log) + UploadRequests(imageUrl, title, site.config, endpoint, header)
  {
    var ok := site.Download(imageUrl);
    if !ok {
      return Err(ImageDownloadFailed);
    }
    var reply, id := site.UploadMedia(endpoint, MediaFilename(title), title, title, header);
    match reply
    case Accepted => r := Ok(id);
    case Refused(status) => r := Err(UploadFailed(status));
    case NoResponse => r := Err(NetworkError);
  }

  // ---------------------------------------------------------------------------
  // Publishing

  /** The body of the final request once the check has passed: the tag ids of
      the tag run and the uploaded image's id, when the upload worked. */
  function PublishedPayload(post: GeneratedPost, categoryId: string, publishDate: Option<int>, now: int,
                            c: Config, session: Session, tags: seq<Tag>, nextTagId: nat,
                            nextMediaId: nat): PostPayload
  {
    var run := Resolve(post.tags, c.tagPolicy, session.endpoint, session.header,
                       TagRun(tags, nextTagId, [], []));
    var upload := UploadOutcome(post.imageUrl, c, nextMediaId);
    BuildPayload(post, categoryId, publishDate, now, run.ids,
                 if upload.Ok? then Some(upload.value) else None)
  }

  /** Every tag id sent with the post names a tag the site stores after the
      run; tag and image failures never stop the publication. */
  lemma PublishedTagsExist(post: GeneratedPost, categoryId: string, publishDate: Option<int>, now: int,
                           c: Config, session: Session, tags: seq<Tag>, nextTagId: nat, nextMediaId: nat)
    ensures var run := Resolve(post.tags, c.tagPolicy, session.endpoint, session.header,
                               TagRun(tags, nextTagId, [], []));
      var p := PublishedPayload(post, categoryId, publishDate, now, c, session, tags, nextTagId, nextMediaId);
      |p.tags| <= |post.tags| &&
      forall k :: 0 <= k < |p.tags| ==> Known(run.table, p.tags[k])
  {
    var start := TagRun(tags, nextTagId, [], []);
    IdsAreKnown(post.tags, c.tagPolicy, session.endpoint, session.header, start);
    ResolveGrows(post.tags, c.tagPolicy, session.endpoint, session.header, start);
  }

  /** The image is featured exactly when it was uploaded and got a non-zero
      id. */
  lemma PublishedImage(post: GeneratedPost, categoryId: string, publishDate: Option<int>, now: int,
                       c: Config, session: Session, tags: seq<Tag>, nextTagId: nat, nextMediaId: nat)
    ensures var p := PublishedPayload(post, categoryId, publishDate, now, c, session, tags, nextTagId, nextMediaId);
      (p.featuredMedia.Some? <==>
         post.imageUrl in c.downloadable && c.mediaReply.Accepted? && nextMediaId != 0) &&
      (p.featuredMedia.Some? ==> p.featuredMedia.value == nextMediaId)
  {
  }

  /** The requests sent after the check: the tag run, the image, the post. */
  function PublishRequests(post: GeneratedPost, c: Config, session: Session, tags: seq<Tag>,
                           nextTagId: nat, payload: PostPayload): seq<Request>
  {
    Resolve(post.tags, c.tagPolicy, session.endpoint, session.header, TagRun(tags, nextTagId, [], [])).sent +
    UploadRequests(post.imageUrl, post.title, c, session.endpoint, session.header) +
    [CreatePost(session.endpoint, payload, session.header)]
  }

  /** What the final request returns or throws. */
  function PublishOutcome(reply: Reply, id: nat, payload: PostPayload): Result<StoredPost, Failure> {
    match reply
    case Accepted => Ok(Created(id, payload))
    case Refused(status) => Err(PublishFailed(status))
    case NoResponse => Err(NetworkError)
  }

  /** The media table and next media id after the image step: one new item,
      named from the title, when the download and the upload both worked. */
  function MediaAfterUpload(imageUrl: string, title: string, c: Config, media: seq<MediaItem>,
                            nextMediaId: nat): (seq<MediaItem>, nat)
  {
    match UploadOutcome(imageUrl, c, nextMediaId)
    case Ok(id) => (media + [MediaItem(id, MediaFilename(title), title, title)], id + 1)
    case Err(_) => (media, nextMediaId)
  }

  /** Everything after a passed check. */
  method PublishWithSession(site: Site, post: GeneratedPost, session: Session, categoryId: string,
                            publishDate: Option<int>, now: int)
    returns (r: Result<StoredPost, Failure>)
    requires site.Valid()
    modifies site`posts, site`nextPostId, site`tags, site`nextTagId, site`media, site`nextMediaId, site`log
    ensures site.Valid()
    ensures var c := site.config;
      var run := Resolve(post.tags, c.tagPolicy, session.endpoint, session.header,
                         TagRun(old(site.tags), old(site.nextTagId), [], []));
      var payload := PublishedPayload(post, categoryId, publishDate, now, c, session,
                                      old(site.tags), old(site.nextTagId), old(site.nextMediaId));
      site.tags == run.table && site.nextTagId == run.next &&
      r == PublishOutcome(c.publishReply, old(site.nextPostId), payload) &&
      site.posts == old(site.posts) + (if r.Ok? then [r.value] else []) &&
      site.log == old(site.log) + PublishRequests(post, c, session, old(site.tags), old(site.nextTagId), payload)
    ensures (site.media, site.nextMediaId) ==
      MediaAfterUpload(post.imageUrl, post.title, site.config, old(site.media), old(site.nextMediaId))
    ensures site.nextPostId == old(site.nextPostId) + (if r.Ok? then 1 else 0)
  {
    ghost var log0 := site.log;
    ghost var tags0, nextTag0, nextMedia0 := site.tags, site.nextTagId, site.nextMediaId;
    var tagIds := GetOrCreateTags(site, post.tags, session.endpoint, session.header);
    ghost var log1 := site.log;
    var upload := UploadImageToWordPress(site, post.imageUrl, post.title, session.endpoint, session.header);
    var mediaId := if upload.Ok? then Some(upload.value) else None;
    var payload := BuildPayload(post, categoryId, publishDate, now, tagIds, mediaId);
    assert payload == PublishedPayload(post, categoryId, publishDate, now, site.config, session,
                                       tags0, nextTag0, nextMedia0);
    ghost var log2 := site.log;
    var reply, stored := site.CreatePost(session.endpoint, payload, session.header);
    match reply
    case Accepted => r := Ok(stored);
    case Refused(status) => r := Err(PublishFailed(status));
    case NoResponse => r := Err(NetworkError);
  }

  /** What `publishToWordPress` returns or throws: the check's failure, or the
      outcome of the final request, whose body holds the tag run's ids and the
      uploaded image. The post's id follows the test draft's, if one was made. */
  function Publish(creds: Credentials, c: Config, post: GeneratedPost, categoryId: string,
                   publishDate: Option<int>, now: int, tags: seq<Tag>, nextTagId: nat,
                   nextPostId: nat, nextMediaId: nat): Result<StoredPost, Failure>
  {
    match Permission(creds, c)
    case Err(e) => Err(e)
    case Ok(session) =>
      PublishOutcome(c.publishReply, NextPostAfterCheck(creds, c, nextPostId),
                     PublishedPayload(post, categoryId, publishDate, now, c, session, tags, nextTagId, nextMediaId))
  }

  /** The tag table and next tag id after `publishToWordPress`: those the
      tag run leaves when the check passed, the old ones otherwise. */
  function TagsAfterPublish(creds: Credentials, c: Config, post: GeneratedPost, tags: seq<Tag>,
                            nextTagId: nat): (seq<Tag>, nat)
  {
    match Permission(creds, c)
    case Err(_) => (tags, nextTagId)
    case Ok(s) =>
      var run := Resolve(post.tags, c.tagPolicy, s.endpoint, s.header, TagRun(tags, nextTagId, [], []));
      (run.table, run.next)
  }

  /** The media table and next media id after `publishToWordPress`: the image
      step runs only once the check has passed. */
  function MediaAfterPublish(creds: Credentials, c: Config, post: GeneratedPost, media: seq<MediaItem>,
                             nextMediaId: nat): (seq<MediaItem>, nat)
  {
    if Permission(creds, c).Err? then (media, nextMediaId)
    else MediaAfterUpload(post.imageUrl, post.title, c, media, nextMediaId)
  }

  /** Every request `publishToWordPress` sends: the check's, then, once it
      has passed, the tag run's, the image's and the final post. */
  function PublishLog(creds: Credentials, c: Config, post: GeneratedPost, categoryId: string,
                      publishDate: Option<int>, now: int, tags: seq<Tag>, nextTagId: nat,
                      nextPostId: nat, nextMediaId: nat): seq<Request>
  {
    PermissionRequests(creds, c, nextPostId) +
    match Permission(creds, c)
    case Err(_) => []
    case Ok(s) =>
      PublishRequests(post, c, s, tags, nextTagId,
                      PublishedPayload(post, categoryId, publishDate, now, c, s, tags, nextTagId, nextMediaId))
  }

  /** `publishToWordPress`: the check, then the tags, the image and the post.
      A failed check is thrown on; tag and image failures are not. */
  method PublishToWordPress(site: Site, post: GeneratedPost, creds: Credentials, categoryId: string,
                            publishDate: Option<int>, now: int)
    returns (r: Result<StoredPost, Failure>)
    requires site.Valid()
    modifies site`posts, site`nextPostId, site`tags, site`nextTagId, site`media, site`nextMediaId, site`log
    ensures site.Valid()
    ensures r == Publish(creds, site.config, post, categoryId, publishDate, now, old(site.tags),
                         old(site.nextTagId), old(site.nextPostId), old(site.nextMediaId))
    ensures site.posts == PostsAfterCheck(creds, site.config, old(site.posts), old(site.nextPostId)) +
      (if r.Ok? then [r.value] else [])
    ensures site.nextPostId == NextPostAfterCheck(creds, site.config, old(site.nextPostId)) +
      (if r.Ok? then 1 else 0)
    ensures (site.tags, site.nextTagId) ==
      TagsAfterPublish(creds, site.config, post, old(site.tags), old(site.nextTagId))
    ensures (site.media, site.nextMediaId) ==
      MediaAfterPublish(creds, site.config, post, old(site.media), old(site.nextMediaId))
    ensures site.log == old(site.log) +
      PublishLog(creds, site.config, post, categoryId, publishDate, now, old(site.tags), old(site.nextTagId),
                 old(site.nextPostId), old(site.nextMediaId))
    ensures Permission(creds, site.config).Err? ==> site.tags == old(site.tags) && site.media == old(site.media)
  {
    ghost var log0 := site.log;
    var session := CheckUserPermissions(site, creds);
    if session.Err? {
      NothingAppended(site.log);
      return Err(session.error);
    }
    ghost var log1 := site.log;
    ghost var tags0, nextTag0, nextPost0 := site.tags, site.nextTagId, site.nextPostId;
    ghost var media0, nextMedia0 := site.media, site.nextMediaId;
    r := PublishWithSession(site, post, session.value, categoryId, publishDate, now);
    PublishPassed(creds, site.config, post, categoryId, publishDate, now, tags0, nextTag0, old(site.nextPostId),
                  media0, nextMedia0, session.value);
    LogAppend(log0, PermissionRequests(creds, site.config, old(site.nextPostId)), log1,
              PublishRequests(post, site.config, session.value, tags0, nextTag0,
                              PublishedPayload(post, categoryId, publishDate, now, site.config, session.value,
                                               tags0, nextTag0, nextMedia0)), site.log);
  }

  /** After a passed check, the outcome is that of the final request, and the
      tags, the image and the requests are those of the steps after it. */
  lemma PublishPassed(creds: Credentials, c: Config, post: GeneratedPost, categoryId: string,
                      publishDate: Option<int>, now: int, tags: seq<Tag>, nextTagId: nat,
                      nextPostId: nat, media: seq<MediaItem>, nextMediaId: nat, session: Session)
    requires Permission(creds, c) == Ok(session)
    ensures Publish(creds, c, post, categoryId, publishDate, now, tags, nextTagId, nextPostId, nextMediaId) ==
      PublishOutcome(c.publishReply, NextPostAfterCheck(creds, c, nextPostId),
                     PublishedPayload(post, categoryId, publishDate, now, c, session, tags, nextTagId, nextMediaId))
    ensures var run := Resolve(post.tags, c.tagPolicy, session.endpoint, session.header,
                               TagRun(tags, nextTagId, [], []));
      TagsAfterPublish(creds, c, post, tags, nextTagId) == (run.table, run.next)
    ensures MediaAfterPublish(creds, c, post, media, nextMediaId) ==
      MediaAfterUpload(post.imageUrl, post.title, c, media, nextMediaId)
    ensures PublishLog(creds, c, post, categoryId, publishDate, now, tags, nextTagId, nextPostId, nextMediaId) ==
      PermissionRequests(creds, c, nextPostId) +
      PublishRequests(post, c, session, tags, nextTagId,
                      PublishedPayload(post, categoryId, publishDate, now, c, session, tags, nextTagId, nextMediaId))
  {
  }
}
