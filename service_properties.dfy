/** What decoding promises: it is lossless against the API's own JSON
    shape, it fails fast and as a whole, and it touches nothing but the
    one URL of its collection. */
module ServiceProperties {
  import opened Errors
  import opened JsonData
  import opened Comprehension
  import opened Client
  import opened Records
  import opened Service

  /** A post served in the API's shape decodes to itself, whatever kind of
      JSON value each field holds. */
  lemma PostRoundTrip(p: Post)
    ensures ToPost(PostJson(p)) == Ok(p)
  {
  }

  /** Decoding a post keeps every value it reads: the object agrees with
      the API's shape of the result on each key the element expression
      reads, with `id` in `postId` and `userId` in `userId`. */
  lemma PostLossless(post: Json, p: Post)
    requires ToPost(post) == Ok(p)
    ensures forall k :: k in PostKeys ==> post.fields[k] == PostJson(p).fields[k]
  {
  }

  /** What the API's user object holds under each key it has. */
  lemma UserJsonFields(u: User)
    ensures var fields := UserJson(u).fields;
      && fields.Keys == {"id", "name", "username", "email", "address", "phone", "website", "company"}
      && fields["id"] == u.userId && fields["name"] == u.name && fields["username"] == u.username
      && fields["email"] == u.email && fields["phone"] == u.phone && fields["website"] == u.website
      && fields["address"] == AddressJson(u.address) && fields["company"] == CompanyJson(u.company)
  {
  }

  /** A user object whose `address` and `company` are in the API's shape
      yields the geo, address and company they were written from. */
  lemma NestedPartsDecode(userData: Json, u: User)
    requires userData.JObject? && "address" in userData.fields && "company" in userData.fields
    requires userData.fields["address"] == AddressJson(u.address)
    requires userData.fields["company"] == CompanyJson(u.company)
    ensures GeoOf(userData) == Ok(u.address.geo)
    ensures AddressOf(userData, u.address.geo) == Ok(u.address)
    ensures CompanyOf(userData) == Ok(u.company)
  {
  }

  /** A user served in the API's shape decodes to itself: the nested geo,
      address and company come back unchanged. */
  lemma UserRoundTrip(u: User)
    ensures CreateUser(UserJson(u)) == Ok(u)
  {
    UserJsonFields(u);
    NestedPartsDecode(UserJson(u), u);
  }

  /** The geo of a user keeps `lat` and `lng` as they were. */
  lemma GeoLossless(userData: Json, g: Geo)
    requires GeoOf(userData) == Ok(g)
    ensures userData.fields["address"].fields["geo"].fields["lat"] == GeoJson(g).fields["lat"]
    ensures userData.fields["address"].fields["geo"].fields["lng"] == GeoJson(g).fields["lng"]
  {
  }

  /** The address of a user keeps its four strings as they were. */
  lemma AddressLossless(userData: Json, g: Geo, a: Address)
    requires AddressOf(userData, g) == Ok(a)
    ensures forall k :: k in AddressKeys ==> userData.fields["address"].fields[k] == AddressJson(a).fields[k]
  {
  }

  /** The company of a user keeps its three strings as they were, with
      `catchPhrase` held in `cFrase`. */
  lemma CompanyLossless(userData: Json, c: Company)
    requires CompanyOf(userData) == Ok(c)
    ensures forall k :: k in CompanyKeys ==> userData.fields["company"].fields[k] == CompanyJson(c).fields[k]
  {
  }

  /** Decoding a user keeps every value it reads from the user object
      itself; the nested records are covered by the three lemmas above,
      through the ensures of `CreateUser`. */
  lemma UserLossless(userData: Json, u: User)
    requires CreateUser(userData) == Ok(u)
    ensures forall k :: k in UserKeys ==> userData.fields[k] == UserJson(u).fields[k]
  {
    UserJsonFields(u);
  }

  /** A user object without `email` is rejected with KeyError('email'),
      and no user is returned. */
  lemma MissingEmailFails(u: User)
    ensures CreateUser(JObject(UserJson(u).fields - {"email"})) == Err(KeyError("email"))
  {
    UserJsonFields(u);
    var j := JObject(UserJson(u).fields - {"email"});
    NestedPartsDecode(j, u);
  }

  /** The element expressions subscript before anything else, so any
      string is rejected with TypeError: the condition under which the
      collection decoder may treat dict and string bodies as it does. */
  lemma StringsRejected(s: string)
    ensures ToPost(JString(s)) == Err(TypeError)
    ensures CreateUser(JString(s)) == Err(TypeError)
  {
  }

  /** Element `i` of the posts copies the values of element `i` of the
      fetched list: `id`, `userId`, `title` and `body`, in that order of
      roles and without a swap. */
  lemma GetPostsCopiesFields(service: DataService, http: Http, items: seq<Json>, i: nat)
    requires FetchData(service.client, "posts", http) == Ok(JArray(items))
    requires GetPosts(service, http).Ok? && i < |items|
    ensures var post := GetPosts(service, http).value[i];
      && items[i].JObject?
      && post.postId == items[i].fields["id"]
      && post.userId == items[i].fields["userId"]
      && post.title == items[i].fields["title"]
      && post.body == items[i].fields["body"]
  {
  }

  /** Conversely, a fetched list whose every element builds a post gives
      exactly those posts, in the same order. */
  lemma GetPostsDecodesAll(service: DataService, http: Http, items: seq<Json>, posts: seq<Post>)
    requires FetchData(service.client, "posts", http) == Ok(JArray(items))
    requires |posts| == |items| && forall i :: 0 <= i < |items| ==> ToPost(items[i]) == Ok(posts[i])
    ensures GetPosts(service, http) == Ok(posts)
  {
    var r := GetPosts(service, http);
    assert r.Ok? && |r.value| == |posts|;
    assert forall i :: 0 <= i < |posts| ==> r.value[i] == posts[i];
    assert r.value == posts;
  }

  /** A fetched list whose every element builds a user gives exactly
      those users, in the same order. */
  lemma GetUsersDecodesAll(service: DataService, http: Http, items: seq<Json>, users: seq<User>)
    requires FetchData(service.client, "users", http) == Ok(JArray(items))
    requires |users| == |items| && forall i :: 0 <= i < |items| ==> CreateUser(items[i]) == Ok(users[i])
    ensures GetUsers(service, http) == Ok(users)
  {
    var r := GetUsers(service, http);
    assert r.Ok? && |r.value| == |users|;
    assert forall i :: 0 <= i < |users| ==> r.value[i] == users[i];
    assert r.value == users;
  }

  /** The mappers never raise HTTPError: an HTTPError out of `get_posts`
      or `get_users` is the one `fetch_data` raised. */
  lemma HttpErrorOnlyFromFetch(service: DataService, http: Http)
    ensures var posts := GetPosts(service, http);
      posts.Err? && posts.error.HttpError? ==> FetchData(service.client, "posts", http) == Err(posts.error)
    ensures var users := GetUsers(service, http);
      users.Err? && users.error.HttpError? ==> FetchData(service.client, "users", http) == Err(users.error)
  {
    var posts, fetchedPosts := GetPosts(service, http), FetchData(service.client, "posts", http);
    if posts.Err? && fetchedPosts.Ok? && fetchedPosts.value.JArray? {
      FailureHasCause(fetchedPosts.value.items, ToPost);
    }
    var users, fetchedUsers := GetUsers(service, http), FetchData(service.client, "users", http);
    if users.Err? && fetchedUsers.Ok? && fetchedUsers.value.JArray? {
      FailureHasCause(fetchedUsers.value.items, CreateUser);
    }
  }

  /** Fail-fast: when element `i` is the first post that cannot be built,
      `get_posts` raises exactly its exception and returns no list. */
  lemma GetPostsFailsFast(service: DataService, http: Http, items: seq<Json>, i: nat)
    requires FetchData(service.client, "posts", http) == Ok(JArray(items))
    requires i < |items| && ToPost(items[i]).Err? && Succeeds(items[..i], ToPost)
    ensures GetPosts(service, http) == Err(ToPost(items[i]).error)
  {
    FirstFailureDecides(items, ToPost, i);
  }

  /** Fail-fast for users, as for posts. */
  lemma GetUsersFailsFast(service: DataService, http: Http, items: seq<Json>, i: nat)
    requires FetchData(service.client, "users", http) == Ok(JArray(items))
    requires i < |items| && CreateUser(items[i]).Err? && Succeeds(items[..i], CreateUser)
    ensures GetUsers(service, http) == Err(CreateUser(items[i]).error)
  {
    FirstFailureDecides(items, CreateUser, i);
  }

  /** A status other than 200 that `raise_for_status` lets through gives
      no posts, or no users, rather than an error. */
  lemma PassingStatusGivesNothing(service: DataService, http: Http)
    ensures var status := http.get(RequestUrl(service.client.baseUrl, "posts")).status;
      status != 200 && !http.raiseForStatus(status) ==> GetPosts(service, http) == Ok([])
    ensures var status := http.get(RequestUrl(service.client.baseUrl, "users")).status;
      status != 200 && !http.raiseForStatus(status) ==> GetUsers(service, http) == Ok([])
  {
  }

  /** `get_posts` requests `base_url + "/posts"` and nothing else: two
      transports that answer that URL alike give the same outcome. */
  lemma GetPostsReadsPostsUrl(service: DataService, h1: Http, h2: Http)
    requires var url := RequestUrl(service.client.baseUrl, "posts");
      h1.get(url) == h2.get(url) && h1.raiseForStatus(h1.get(url).status) == h2.raiseForStatus(h2.get(url).status)
    ensures GetPosts(service, h1) == GetPosts(service, h2)
  {
    FetchReadsOneUrl(service.client, "posts", h1, h2);
  }

  /** `get_users` requests `base_url + "/users"` and nothing else. */
  lemma GetUsersReadsUsersUrl(service: DataService, h1: Http, h2: Http)
    requires var url := RequestUrl(service.client.baseUrl, "users");
      h1.get(url) == h2.get(url) && h1.raiseForStatus(h1.get(url).status) == h2.raiseForStatus(h2.get(url).status)
    ensures GetUsers(service, h1) == GetUsers(service, h2)
  {
    FetchReadsOneUrl(service.client, "users", h1, h2);
  }
}
