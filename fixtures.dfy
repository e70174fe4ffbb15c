/** The repository's test scenarios, stated over the model: the two mock
    posts and two mock users, served by a transport that answers one
    registered URL. */
module Fixtures {
  import opened Errors
  import opened JsonData
  import opened Client
  import opened Records
  import opened Service
  import opened ServiceProperties

  const TestBaseUrl: string := "https://jsonplaceholder.typicode.com"
  const MainBaseUrl: string := "https://jsonplaceholder.typicode.com/"

  const MockPosts: Json := JArray([
    JObject(map["userId" := JInt(1), "id" := JInt(1), "title" := JString("Post 1"), "body" := JString("Body 1")]),
    JObject(map["userId" := JInt(2), "id" := JInt(2), "title" := JString("Post 2"), "body" := JString("Body 2")])
  ])

  /** One mock user, as the API would serve it: the fixture's objects have
      exactly the keys and nesting of `UserJson`. */
  function MockUser(id: int, name: string, username: string, email: string, street: string, suite: string,
                    zipcode: string, lat: string, lng: string, phone: string, website: string,
                    company: string, catchPhrase: string, bs: string): User
  {
    User(JInt(id), JString(name), JString(username), JString(email),
         Address(JString(street), JString(suite), JString("Copenhagen"), JString(zipcode),
                 Geo(JString(lat), JString(lng))),
         JString(phone), JString(website),
         Company(JString(company), JString(catchPhrase), JString(bs)))
  }

  const MockUser1: User :=
    MockUser(1, "User 1", "user1", "user1@example.com", "123 Main St", "Apt. 1", "55555-1234",
             "-37.3159", "81.1496", "1-333-333-4444 x12345", "example1.org",
             "Company User 1", "Multi-layered client-server neural-net", "harness real-time e-markets")

  const MockUser2: User :=
    MockUser(2, "User 2", "user2", "user2@example.com", "456 Main St", "Apt. 2", "55555-5678",
             "-43.9509", "-34.4618", "1-333-333-4444 x67890", "example2.org",
             "Company User 2", "Proactive didactic contingency", "synergize scalable supply-chain")

  const MockUsers: Json := JArray([UserJson(MockUser1), UserJson(MockUser2)])

  /** A transport that serves `body` with status 200 at `url` only, using
      the status rule of `requests`. */
  function Mock(url: string, body: Json): Http {
    Http(u => if u == url then Response(200, body) else Response(404, JNull), RequestsRaiseForStatus)
  }

  /** A transport that answers `url` with `status` and no body. */
  function MockStatus(url: string, status: int): Http {
    Http(u => if u == url then Response(status, JNull) else Response(404, JNull), RequestsRaiseForStatus)
  }

  const TestService: DataService := DataService(APIClient(TestBaseUrl))

  /** Fetching two posts: the first is titled "Post 1", the second belongs
      to user 2. */
  lemma GetPostsSuccess()
    ensures var posts := GetPosts(TestService, Mock(TestBaseUrl + "/posts", MockPosts));
      && posts.Ok? && |posts.value| == 2
      && posts.value[0].title == JString("Post 1")
      && posts.value[1].userId == JInt(2)
  {
    var items := MockPosts.items;
    assert ToPost(items[0]).Ok? && ToPost(items[1]).Ok?;
  }

  /** The mocked users endpoint serves the fixture list. */
  lemma MockServesUsers()
    ensures FetchData(TestService.client, "users", Mock(TestBaseUrl + "/users", MockUsers)) == Ok(MockUsers)
  {
    assert RequestUrl(TestService.client.baseUrl, "users") == TestBaseUrl + "/users";
  }

  /** Two users served in the API's shape come back as those two users. */
  lemma TwoServedUsers(http: Http, u1: User, u2: User)
    requires FetchData(TestService.client, "users", http) == Ok(JArray([UserJson(u1), UserJson(u2)]))
    ensures GetUsers(TestService, http) == Ok([u1, u2])
  {
    UserRoundTrip(u1);
    UserRoundTrip(u2);
    GetUsersDecodesAll(TestService, http, [UserJson(u1), UserJson(u2)], [u1, u2]);
  }

  /** Fetching two users: the first is named "User 1", the second has
      email "user2@example.com". */
  lemma GetUsersSuccess()
    ensures var users := GetUsers(TestService, Mock(TestBaseUrl + "/users", MockUsers));
      && users.Ok? && |users.value| == 2
      && users.value[0].name == JString("User 1")
      && users.value[1].email == JString("user2@example.com")
  {
    MockServesUsers();
    TwoServedUsers(Mock(TestBaseUrl + "/users", MockUsers), MockUser1, MockUser2);
  }

  /** `fetch_data` hands back the mocked list for both endpoints, two
      elements each. */
  lemma FetchDataParametrized()
    ensures var posts := FetchData(TestService.client, "posts", Mock(TestBaseUrl + "/posts", MockPosts));
      posts.Ok? && posts.value.JArray? && |posts.value.items| == 2
    ensures var users := FetchData(TestService.client, "users", Mock(TestBaseUrl + "/users", MockUsers));
      users.Ok? && users.value.JArray? && |users.value.items| == 2
  {
  }

  /** A 404 on "posts" raises HTTPError, and `get_posts` passes it on. */
  lemma FetchDataFailure()
    ensures FetchData(TestService.client, "posts", MockStatus(TestBaseUrl + "/posts", 404)) == Err(HttpError(404))
    ensures GetPosts(TestService, MockStatus(TestBaseUrl + "/posts", 404)) == Err(HttpError(404))
  {
  }

  /** The base URL of `main` ends in a slash, so its requests carry a
      double slash and miss the URL the tests register. */
  lemma MainRequestsDoubleSlash()
    ensures RequestUrl(MainBaseUrl, "posts") == "https://jsonplaceholder.typicode.com//posts"
    ensures RequestUrl(MainBaseUrl, "posts") != TestBaseUrl + "/posts"
  {
  }
}
