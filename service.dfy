/** `DataService`: fetch a collection and turn every element into a
    record. */
module Service {
  import opened Errors
  import opened JsonData
  import opened Comprehension
  import opened Client
  import opened Records

  datatype DataService = DataService(client: APIClient)

  /** The keys a post is read from, in the order they are subscripted. */
  const PostKeys: seq<string> := ["id", "userId", "title", "body"]

  /** The element expression of `get_posts`:
      `Post(post['id'], post['userId'], post['title'], post['body'])`. */
  function ToPost(post: Json): (r: Result<Post>)
    ensures r.Ok? <==> && post.JObject?
                       && "id" in post.fields && "userId" in post.fields
                       && "title" in post.fields && "body" in post.fields
    ensures r.Ok? ==> && r.value.postId == post.fields["id"]
                      && r.value.userId == post.fields["userId"]
                      && r.value.title == post.fields["title"]
                      && r.value.body == post.fields["body"]
    ensures !post.JObject? ==> r == Err(TypeError)
    ensures r.Err? && post.JObject? ==> r.error.KeyError? && r.error.key in PostKeys && r.error.key !in post.fields
  {
    var id :- Subscript(post, "id");
    var userId :- Subscript(post, "userId");
    var title :- Subscript(post, "title");
    var body :- Subscript(post, "body");
    Ok(Post(id, userId, title, body))
  }

  /** The keys `_create_user` reads from the user object itself. */
  const UserKeys: seq<string> := ["id", "name", "username", "email", "phone", "website"]
  /** The keys of `user_data['address']` that hold the address strings. */
  const AddressKeys: seq<string> := ["street", "suite", "city", "zipcode"]
  /** The keys read from `user_data['company']`. */
  const CompanyKeys: seq<string> := ["name", "catchPhrase", "bs"]

  /** `u['address']['geo']` can be subscripted by `lat` and `lng`. */
  predicate GeoShaped(u: Json) {
    && u.JObject? && "address" in u.fields
    && var address := u.fields["address"];
    && address.JObject? && "geo" in address.fields
    && var geo := address.fields["geo"];
    && geo.JObject? && "lat" in geo.fields && "lng" in geo.fields
  }

  /** `u['address']` is an object holding the four address strings. */
  predicate AddressShaped(u: Json) {
    && u.JObject? && "address" in u.fields
    && var address := u.fields["address"];
    && address.JObject?
    && "street" in address.fields && "suite" in address.fields
    && "city" in address.fields && "zipcode" in address.fields
  }

  /** `u['company']` is an object holding every company key. */
  predicate CompanyShaped(u: Json) {
    && u.JObject? && "company" in u.fields
    && var company := u.fields["company"];
    && company.JObject?
    && "name" in company.fields && "catchPhrase" in company.fields && "bs" in company.fields
  }

  /** Whether `_create_user` finds everything it subscripts. */
  predicate UserShaped(u: Json) {
    && GeoShaped(u) && AddressShaped(u) && CompanyShaped(u)
    && "id" in u.fields && "name" in u.fields && "username" in u.fields && "email" in u.fields
    && "phone" in u.fields && "website" in u.fields
  }

  /** The `Geo` of `_create_user`, from `user_data['address']['geo']`. */
  function GeoOf(userData: Json): (r: Result<Geo>)
    ensures r.Ok? <==> GeoShaped(userData)
    ensures r.Ok? ==> var geo := userData.fields["address"].fields["geo"];
      r.value == Geo(geo.fields["lat"], geo.fields["lng"])
    ensures !userData.JObject? ==> r == Err(TypeError)
    ensures r.Err? ==> r.error == TypeError || r.error.KeyError?
  {
    var address :- Subscript(userData, "address");
    var geo :- Subscript(address, "geo");
    var lat :- Subscript(geo, "lat");
    var lng :- Subscript(geo, "lng");
    Ok(Geo(lat, lng))
  }

  /** The `Address` of `_create_user`: the four strings of
      `user_data['address']` around an already built `Geo`. */
  function AddressOf(userData: Json, geo: Geo): (r: Result<Address>)
    ensures r.Ok? <==> AddressShaped(userData)
    ensures r.Ok? ==> var address := userData.fields["address"];
      && r.value.street == address.fields["street"]
      && r.value.suite == address.fields["suite"]
      && r.value.city == address.fields["city"]
      && r.value.zipcode == address.fields["zipcode"]
      && r.value.geo == geo
    ensures r.Err? ==> r.error == TypeError || r.error.KeyError?
  {
    var address :- Subscript(userData, "address");
    var street :- Subscript(address, "street");
    var suite :- Subscript(address, "suite");
    var city :- Subscript(address, "city");
    var zipcode :- Subscript(address, "zipcode");
    Ok(Address(street, suite, city, zipcode, geo))
  }

  /** The `Company` of `_create_user`, from `user_data['company']`;
      `catchPhrase` lands in `cFrase`. */
  function CompanyOf(userData: Json): (r: Result<Company>)
    ensures r.Ok? <==> CompanyShaped(userData)
    ensures r.Ok? ==> var company := userData.fields["company"];
      r.value == Company(company.fields["name"], company.fields["catchPhrase"], company.fields["bs"])
    ensures r.Err? ==> r.error == TypeError || r.error.KeyError?
  {
    var company :- Subscript(userData, "company");
    var name :- Subscript(company, "name");
    var cFrase :- Subscript(company, "catchPhrase");
    var bs :- Subscript(company, "bs");
    Ok(Company(name, cFrase, bs))
  }

  /** `_create_user`: the geo, the address, the company and then the user,
      each argument evaluated left to right. */
  function CreateUser(userData: Json): (r: Result<User>)
    ensures r.Ok? <==> UserShaped(userData)
    ensures r.Ok? ==>
      && GeoOf(userData) == Ok(r.value.address.geo)
      && AddressOf(userData, r.value.address.geo) == Ok(r.value.address)
      && CompanyOf(userData) == Ok(r.value.company)
      && r.value.userId == userData.fields["id"]
      && r.value.name == userData.fields["name"]
      && r.value.username == userData.fields["username"]
      && r.value.email == userData.fields["email"]
      && r.value.phone == userData.fields["phone"]
      && r.value.website == userData.fields["website"]
    ensures !userData.JObject? ==> r == Err(TypeError)
    ensures r.Err? ==> r.error == TypeError || r.error.KeyError?
  {
    var geo :- GeoOf(userData);
    var address :- AddressOf(userData, geo);
    var company :- CompanyOf(userData);
    var id :- Subscript(userData, "id");
    var name :- Subscript(userData, "name");
    var username :- Subscript(userData, "username");
    var email :- Subscript(userData, "email");
    var phone :- Subscript(userData, "phone");
    var website :- Subscript(userData, "website");
    Ok(User(id, name, username, email, address, phone, website, company))
  }

  /** The comprehension `[f(x) for x in data]` over the fetched body.
      A list is mapped element by element. Iterating a dict yields its
      keys and iterating a string yields one-character strings, so on a
      non-empty dict or string the first element is a string, which the
      element expression rejects with TypeError whatever the key order; an
      empty dict or string gives an empty list. Any other value is not
      iterable. */
  function DecodeCollection<T>(data: Json, f: Json -> Result<T>): (r: Result<seq<T>>)
    requires forall s :: f(JString(s)) == Err(TypeError)
    ensures data.JArray? ==> r == MapAll(data.items, f)
    ensures !data.JArray? ==> (r.Ok? <==> data == JObject(map[]) || data == JString(""))
    ensures !data.JArray? && r.Ok? ==> r.value == []
    ensures !data.JArray? && r.Err? ==> r.error == TypeError
  {
    match data
    case JArray(items) => MapAll(items, f)
    case JObject(fields) => if fields == map[] then Ok([]) else Err(TypeError)
    case JString(s) => if s == "" then Ok([]) else Err(TypeError)
    case _ => Err(TypeError)
  }

  /** `get_posts`: fetch "posts", then build one `Post` per element. */
  function GetPosts(service: DataService, http: Http): (r: Result<seq<Post>>)
    ensures var fetched := FetchData(service.client, "posts", http);
      && (fetched.Err? ==> r == Err(fetched.error))
      && (fetched.Ok? && fetched.value.JArray? ==>
            var items := fetched.value.items;
            && (r.Ok? <==> forall i :: 0 <= i < |items| ==> ToPost(items[i]).Ok?)
            && (r.Ok? ==> |r.value| == |items| && forall i :: 0 <= i < |items| ==> ToPost(items[i]) == Ok(r.value[i])))
  {
    var data :- FetchData(service.client, "posts", http);
    DecodeCollection(data, ToPost)
  }

  /** `get_users`: fetch "users", then `_create_user` on every element. */
  function GetUsers(service: DataService, http: Http): (r: Result<seq<User>>)
    ensures var fetched := FetchData(service.client, "users", http);
      && (fetched.Err? ==> r == Err(fetched.error))
      && (fetched.Ok? && fetched.value.JArray? ==>
            var items := fetched.value.items;
            && (r.Ok? <==> forall i :: 0 <= i < |items| ==> CreateUser(items[i]).Ok?)
            && (r.Ok? ==> |r.value| == |items| && forall i :: 0 <= i < |items| ==> CreateUser(items[i]) == Ok(r.value[i])))
  {
    var data :- FetchData(service.client, "users", http);
    DecodeCollection(data, CreateUser)
  }
}
