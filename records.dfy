/** The domain records. Each field holds the JSON value it was read from,
    whatever its kind: the source annotates `int` and `str` but checks
    nothing. */
module Records {
  import opened JsonData

  datatype Post = Post(postId: Json, userId: Json, title: Json, body: Json)

  datatype Geo = Geo(lat: Json, lng: Json)

  datatype Address = Address(street: Json, suite: Json, city: Json, zipcode: Json, geo: Geo)

  /** `cFrase` holds the company's `catchPhrase`. */
  datatype Company = Company(name: Json, cFrase: Json, bs: Json)

  datatype User = User(userId: Json, name: Json, username: Json, email: Json,
                       address: Address, phone: Json, website: Json, company: Company)

  /* The JSON objects the API serves for these records, keyed as the API
     names them. They are the reference against which decoding is proved
     lossless. */

  function PostJson(p: Post): Json {
    JObject(map["userId" := p.userId, "id" := p.postId, "title" := p.title, "body" := p.body])
  }

  function GeoJson(g: Geo): Json {
    JObject(map["lat" := g.lat, "lng" := g.lng])
  }

  function AddressJson(a: Address): Json {
    JObject(map["street" := a.street, "suite" := a.suite, "city" := a.city,
                "zipcode" := a.zipcode, "geo" := GeoJson(a.geo)])
  }

  function CompanyJson(c: Company): Json {
    JObject(map["name" := c.name, "catchPhrase" := c.cFrase, "bs" := c.bs])
  }

  function UserJson(u: User): Json {
    JObject(map["id" := u.userId, "name" := u.name, "username" := u.username, "email" := u.email,
                "address" := AddressJson(u.address), "phone" := u.phone, "website" := u.website,
                "company" := CompanyJson(u.company)])
  }
}
