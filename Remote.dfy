/** The remote WordPress installation, standing in for every `fetch` the
    publisher makes. Each request is a method of `Site`: it answers as the
    site's configuration says, changes the site's tables as the REST API
    would, and appends the request to `log`. */
module Remote {
  import opened Wrappers
  import opened Payload

  /** The identity returned by `GET {endpoint}/users/me`; a missing `roles`
      member reads as the empty list. */
  datatype User = User(id: nat, name: string, roles: seq<string>)

  datatype Tag = Tag(id: nat, name: string, slug: string)

  /** The members of a category the listing reads. */
  datatype Category = Category(id: nat, name: string)

  datatype MediaItem = MediaItem(id: nat, filename: string, title: string, altText: string)

  datatype StoredPost =
    | ProbeDraft(id: nat, title: string, content: string)
    | Created(id: nat, payload: PostPayload)

  /** How a request that may change or read data is answered: a 2xx reply with
      a JSON body, another status, or no reply at all (`fetch` or `json()`
      threw). */
  datatype Reply = Accepted | Refused(status: nat) | NoResponse

  /** How the site answers the tag requests made for one tag name. */
  datatype TagPolicy = TagPolicy(
    searchRefused: set<string>,      // `GET /tags?search=` answers non-2xx
    searchUnreachable: set<string>,  // the search request throws
    createRefused: set<string>)      // `POST /tags` answers non-2xx or throws

  /** Every request the publisher sends, with the Authorization value used. */
  datatype Request =
    | Probe(url: string)
    | ReadMe(endpoint: string, auth: string)
    | ReadUser(endpoint: string, id: nat, auth: string)
    | CreateDraft(endpoint: string, title: string, content: string, auth: string)
    | DeletePost(endpoint: string, id: nat, auth: string)
    | ListCategories(endpoint: string, auth: string)
    | SearchTags(endpoint: string, term: string, auth: string)
    | CreateTag(endpoint: string, name: string, slug: string, auth: string)
    | DownloadImage(url: string)
    | UploadMedia(endpoint: string, filename: string, title: string, altText: string, auth: string)
    | CreatePost(endpoint: string, payload: PostPayload, auth: string)

  /** How the site answers; fixed for the life of a `Site`. */
  datatype Config = Config(
    liveUrls: set<string>,               // unauthenticated GETs answered 2xx with JSON
    acceptedAuth: set<string>,           // Authorization values `/users/me` accepts
    me: User,                            // the `/users/me` body
    detailedRoles: Option<seq<string>>,  // `/users/{id}` roles; None: non-2xx or threw
    draftReply: Reply,                   // answer to a draft creation
    deleteWorks: bool,                   // whether a delete removes the post
    categoriesReply: Reply,
    tagPolicy: TagPolicy,
    downloadable: set<string>,           // image URLs that download with 2xx
    mediaReply: Reply,
    publishReply: Reply)                 // answer to the final post creation

  class Site {
    const config: Config

    // What the site stores.
    var categories: seq<Category>
    var tags: seq<Tag>
    var nextTagId: nat
    var posts: seq<StoredPost>
    var nextPostId: nat
    var media: seq<MediaItem>
    var nextMediaId: nat

    // What the site was asked, oldest first.
    var log: seq<Request>

    /** Ids the site hands out are fresh. */
    ghost predicate Valid()
      reads this`tags, this`nextTagId, this`posts, this`nextPostId, this`media, this`nextMediaId
    {
      (forall i :: 0 <= i < |tags| ==> tags[i].id < nextTagId) &&
      (forall i :: 0 <= i < |posts| ==> posts[i].id < nextPostId) &&
      (forall i :: 0 <= i < |media| ==> media[i].id < nextMediaId)
    }

    constructor (config: Config, categories: seq<Category>)
      ensures Valid()
      ensures this.config == config && this.categories == categories
      ensures tags == [] && posts == [] && media == [] && log == []
    {
      this.config, this.categories := config, categories;
      tags, nextTagId, posts, nextPostId, media, nextMediaId := [], 1, [], 1, [], 1;
      log := [];
    }

    /** An unauthenticated GET during endpoint discovery. */
    method Get(url: string) returns (ok: bool)
      requires Valid()
      modifies this`log
      ensures Valid()
      ensures ok <==> url in config.liveUrls
      ensures log == old(log) + [Probe(url)]
    {
      ok := url in config.liveUrls;
      log := log + [Probe(url)];
    }

    /** `GET {endpoint}/users/me` */
    method ReadMe(endpoint: string, auth: string) returns (user: Option<User>)
      requires Valid()
      modifies this`log
      ensures Valid()
      ensures user == if auth in config.acceptedAuth then Some(config.me) else None
      ensures log == old(log) + [Request.ReadMe(endpoint, auth)]
    {
      user := if auth in config.acceptedAuth then Some(config.me) else None;
      log := log + [Request.ReadMe(endpoint, auth)];
    }

    /** `GET {endpoint}/users/{id}` */
    method ReadUser(endpoint: string, id: nat, auth: string) returns (roles: Option<seq<string>>)
      requires Valid()
      modifies this`log
      ensures Valid()
      ensures roles == config.detailedRoles
      ensures log == old(log) + [Request.ReadUser(endpoint, id, auth)]
    {
      roles := config.detailedRoles;
      log := log + [Request.ReadUser(endpoint, id, auth)];
    }

    /** `POST {endpoint}/posts` with a draft; on success the new post's id. */
    method CreateDraft(endpoint: string, title: string, content: string, auth: string)
      returns (reply: Reply, id: nat)
      requires Valid()
      modifies this`posts, this`nextPostId, this`log
      ensures Valid()
      ensures reply == config.draftReply
      ensures reply.Accepted? ==>
        id == old(nextPostId) && nextPostId == id + 1 &&
        posts == old(posts) + [ProbeDraft(id, title, content)]
      ensures !reply.Accepted? ==> posts == old(posts) && nextPostId == old(nextPostId)
      ensures log == old(log) + [Request.CreateDraft(endpoint, title, content, auth)]
    {
      reply, id := config.draftReply, nextPostId;
      if reply.Accepted? {
        posts := posts + [ProbeDraft(id, title, content)];
        nextPostId := nextPostId + 1;
      }
      log := log + [Request.CreateDraft(endpoint, title, content, auth)];
    }

    /** `DELETE {endpoint}/posts/{id}`; its answer is never read. */
    method DeletePost(endpoint: string, id: nat, auth: string)
      requires Valid()
      modifies this`posts, this`log
      ensures Valid()
      ensures posts == if config.deleteWorks then Without(old(posts), id) else old(posts)
      ensures log == old(log) + [Request.DeletePost(endpoint, id, auth)]
    {
      if config.deleteWorks {
        posts := Without(posts, id);
      }
      log := log + [Request.DeletePost(endpoint, id, auth)];
    }

    /** `GET {endpoint}/categories` */
    method ListCategories(endpoint: string, auth: string) returns (reply: Reply, found: seq<Category>)
      requires Valid()
      modifies this`log
      ensures Valid()
      ensures reply == config.categoriesReply && found == categories
      ensures log == old(log) + [Request.ListCategories(endpoint, auth)]
    {
      reply, found := config.categoriesReply, categories;
      log := log + [Request.ListCategories(endpoint, auth)];
    }

    /** `GET {endpoint}/tags?search=<term>`: Some(tags) for a 2xx reply, None
        for any other status; `thrown` when the request throws. */
    method SearchTags(endpoint: string, term: string, auth: string)
      returns (thrown: bool, found: Option<seq<Tag>>)
      requires Valid()
      modifies this`log
      ensures Valid()
      ensures thrown <==> term in config.tagPolicy.searchUnreachable
      ensures !thrown ==> found == if term in config.tagPolicy.searchRefused then None else Some(tags)
      ensures log == old(log) + [Request.SearchTags(endpoint, term, auth)]
    {
      thrown := term in config.tagPolicy.searchUnreachable;
      found := if term in config.tagPolicy.searchRefused then None else Some(tags);
      log := log + [Request.SearchTags(endpoint, term, auth)];
    }

    /** `POST {endpoint}/tags` with `{name, slug}`; the new tag's id on success. */
    method CreateTag(endpoint: string, name: string, slug: string, auth: string)
      returns (id: Option<nat>)
      requires Valid()
      modifies this`tags, this`nextTagId, this`log
      ensures Valid()
      ensures name in config.tagPolicy.createRefused ==>
        id.None? && tags == old(tags) && nextTagId == old(nextTagId)
      ensures name !in config.tagPolicy.createRefused ==>
        id == Some(old(nextTagId)) && nextTagId == old(nextTagId) + 1 &&
        tags == old(tags) + [Tag(old(nextTagId), name, slug)]
      ensures log == old(log) + [Request.CreateTag(endpoint, name, slug, auth)]
    {
      if name in config.tagPolicy.createRefused {
        id := None;
      } else {
        id := Some(nextTagId);
        tags := tags + [Tag(nextTagId, name, slug)];
        nextTagId := nextTagId + 1;
      }
      log := log + [Request.CreateTag(endpoint, name, slug, auth)];
    }

    /** `fetch(imageUrl)`: whether the image downloads with a 2xx status. */
    method Download(url: string) returns (ok: bool)
      requires Valid()
      modifies this`log
      ensures Valid()
      ensures ok <==> url in config.downloadable
      ensures log == old(log) + [DownloadImage(url)]
    {
      ok := url in config.downloadable;
      log := log + [DownloadImage(url)];
    }

    /** `POST {endpoint}/media` with a multipart body. */
    method UploadMedia(endpoint: string, filename: string, title: string, altText: string, auth: string)
      returns (reply: Reply, id: nat)
      requires Valid()
      modifies this`media, this`nextMediaId, this`log
      ensures Valid()
      ensures reply == config.mediaReply
      ensures reply.Accepted? ==>
        id == old(nextMediaId) && nextMediaId == id + 1 &&
        media == old(media) + [MediaItem(id, filename, title, altText)]
      ensures !reply.Accepted? ==> media == old(media) && nextMediaId == old(nextMediaId)
      ensures log == old(log) + [Request.UploadMedia(endpoint, filename, title, altText, auth)]
    {
      reply, id := config.mediaReply, nextMediaId;
      if reply.Accepted? {
        media := media + [MediaItem(id, filename, title, altText)];
        nextMediaId := nextMediaId + 1;
      }
      log := log + [Request.UploadMedia(endpoint, filename, title, altText, auth)];
    }

    /** `POST {endpoint}/posts` with the assembled payload. */
    method CreatePost(endpoint: string, payload: PostPayload, auth: string)
      returns (reply: Reply, post: StoredPost)
      requires Valid()
      modifies this`posts, this`nextPostId, this`log
      ensures Valid()
      ensures reply == config.publishReply
      ensures reply.Accepted? ==>
        post == Created(old(nextPostId), payload) &&
        nextPostId == old(nextPostId) + 1 && posts == old(posts) + [post]
      ensures !reply.Accepted? ==> posts == old(posts) && nextPostId == old(nextPostId)
      ensures log == old(log) + [Request.CreatePost(endpoint, payload, auth)]
    {
      reply, post := config.publishReply, Created(nextPostId, payload);
      if reply.Accepted? {
        posts := posts + [post];
        nextPostId := nextPostId + 1;
      }
      log := log + [Request.CreatePost(endpoint, payload, auth)];
    }
  }

  /** The posts without the one that has the given id. */
  function Without(posts: seq<StoredPost>, id: nat): (r: seq<StoredPost>)
    ensures forall i :: 0 <= i < |r| ==> r[i] in posts && r[i].id != id
    ensures forall p :: p in posts && p.id != id ==> p in r
  {
    if posts == [] then []
    else if posts[0].id == id then Without(posts[1..], id)
    else [posts[0]] + Without(posts[1..], id)
  }

  /** Deleting an id no stored post has changes nothing; in particular,
      deleting a just-created post restores the table it was added to. */
  lemma {:induction false} WithoutAbsent(posts: seq<StoredPost>, id: nat)
    requires forall i :: 0 <= i < |posts| ==> posts[i].id != id
    ensures Without(posts, id) == posts
  {
    if posts != [] {
      WithoutAbsent(posts[1..], id);
    }
  }

  lemma {:induction false} WithoutLast(posts: seq<StoredPost>, p: StoredPost)
    requires forall i :: 0 <= i < |posts| ==> posts[i].id != p.id
    ensures Without(posts + [p], p.id) == posts
  {
    if posts == [] {
      assert [p][1..] == [];
    } else {
      assert (posts + [p])[1..] == posts[1..] + [p];
      WithoutLast(posts[1..], p);
    }
  }

  /** Two batches of requests appended one after the other form one batch. */
  lemma LogAppend(log0: seq<Request>, a: seq<Request>, log1: seq<Request>, b: seq<Request>, log2: seq<Request>)
    requires log1 == log0 + a && log2 == log1 + b
    ensures log2 == log0 + (a + b)
  {
  }

  lemma LogAppendNothing(log0: seq<Request>, a: seq<Request>, log1: seq<Request>)
    requires log1 == log0 + a
    ensures log1 == log0 + (a + [])
  {
    assert a + [] == a;
  }

  lemma NothingAppended(log: seq<Request>)
    ensures log + [] == log
  {
  }
}
