/** The decoders in the order Python evaluates the source expressions:
    every argument of a constructor is its own chain of subscripts,
    started afresh from the element (the source re-reads
    `user_data['address']` for each address field), and the arguments are
    evaluated left to right. The decoders of `Service` read each nested
    object once; the lemmas here show that they return the same records
    and raise the same first exception. */
module SourceOrder {
  import opened Errors
  import opened JsonData
  import opened Comprehension
  import opened Records
  import opened Service

  /* Each chain list below reads the keys of the matching key list of
     `Service`, one chain per key in the same order: `PostPaths` the
     `PostKeys`, `AddressPaths` the `AddressKeys` below `address`,
     `CompanyPaths` the `CompanyKeys` below `company`, and `TopPaths` the
     `UserKeys`. `KeyChains` states it. */

  /** The subscript chains of the `get_posts` element expression. */
  const PostPaths: seq<seq<string>> := [["id"], ["userId"], ["title"], ["body"]]

  /** The chains of the `Geo(...)` line of `_create_user`. */
  const GeoPaths: seq<seq<string>> := [["address", "geo", "lat"], ["address", "geo", "lng"]]

  /** The chains of the `Address(...)` line. */
  const AddressPaths: seq<seq<string>> :=
    [["address", "street"], ["address", "suite"], ["address", "city"], ["address", "zipcode"]]

  /** The chains of the `Company(...)` line. */
  const CompanyPaths: seq<seq<string>> := [["company", "name"], ["company", "catchPhrase"], ["company", "bs"]]

  /** The chains of the `User(...)` line. */
  const TopPaths: seq<seq<string>> := [["id"], ["name"], ["username"], ["email"], ["phone"], ["website"]]

  /** Every chain `_create_user` evaluates, in evaluation order. */
  const UserPaths: seq<seq<string>> := GeoPaths + AddressPaths + CompanyPaths + TopPaths

  function WalkFrom(j: Json): seq<string> -> Result<Json> {
    path => Walk(j, path)
  }

  /** Evaluate the chains one after the other, each from `j`, stopping at
      the first exception. */
  function Walks(j: Json, paths: seq<seq<string>>): (r: Result<seq<Json>>)
    ensures r.Ok? <==> forall i :: 0 <= i < |paths| ==> Walk(j, paths[i]).Ok?
    ensures r.Ok? ==> |r.value| == |paths| && forall i :: 0 <= i < |paths| ==> Walk(j, paths[i]) == Ok(r.value[i])
  {
    MapAll(paths, WalkFrom(j))
  }

  /** The chains read, key for key, the keys `Service` names. */
  lemma KeyChains()
    ensures |PostPaths| == |PostKeys| && forall i :: 0 <= i < |PostKeys| ==> PostPaths[i] == [PostKeys[i]]
    ensures |TopPaths| == |UserKeys| && forall i :: 0 <= i < |UserKeys| ==> TopPaths[i] == [UserKeys[i]]
    ensures |AddressPaths| == |AddressKeys|
      && forall i :: 0 <= i < |AddressKeys| ==> AddressPaths[i] == ["address", AddressKeys[i]]
    ensures |CompanyPaths| == |CompanyKeys|
      && forall i :: 0 <= i < |CompanyKeys| ==> CompanyPaths[i] == ["company", CompanyKeys[i]]
  {
  }

  lemma WalksCons(j: Json, path: seq<string>, rest: seq<seq<string>>)
    ensures var head, tail := Walk(j, path), Walks(j, rest);
      Walks(j, [path] + rest) ==
        if head.Err? then Err(head.error) else if tail.Err? then tail else Ok([head.value] + tail.value)
  {
    MapAllCons(path, rest, WalkFrom(j));
  }

  lemma Walk1(j: Json, a: string)
    ensures Walk(j, [a]) == Subscript(j, a)
  {
    WalkCons(j, a, []);
    assert [a] == [a] + [];
  }

  lemma Walk2(j: Json, a: string, b: string)
    ensures var first := Subscript(j, a);
      Walk(j, [a, b]) == if first.Err? then first else Subscript(first.value, b)
  {
    assert [a, b] == [a] + [b];
    WalkCons(j, a, [b]);
    if Subscript(j, a).Ok? {
      Walk1(Subscript(j, a).value, b);
    }
  }

  lemma Walk3(j: Json, a: string, b: string, c: string)
    ensures var first := Subscript(j, a);
      var second := if first.Err? then first else Subscript(first.value, b);
      Walk(j, [a, b, c]) == if second.Err? then second else Subscript(second.value, c)
  {
    assert [a, b, c] == [a] + [b, c];
    WalkCons(j, a, [b, c]);
    if Subscript(j, a).Ok? {
      Walk2(Subscript(j, a).value, b, c);
    }
  }

  /** The element expression of `get_posts`, read key by key in the
      source's order, gives the same post or the same first exception. */
  lemma ToPostInSourceOrder(post: Json)
    ensures var w := Walks(post, PostPaths);
      && (ToPost(post).Err? <==> w.Err?)
      && (w.Err? ==> ToPost(post).error == w.error)
      && (w.Ok? ==> |w.value| == 4 && ToPost(post) == Ok(Post(w.value[0], w.value[1], w.value[2], w.value[3])))
  {
    var p3: seq<seq<string>> := [["body"]];
    var p2 := [["title"]] + p3;
    var p1 := [["userId"]] + p2;
    assert PostPaths == [["id"]] + p1;
    WalksCons(post, ["body"], []);
    assert p3 == [["body"]] + [];
    WalksCons(post, ["title"], p3);
    WalksCons(post, ["userId"], p2);
    WalksCons(post, ["id"], p1);
    Walk1(post, "id");
    Walk1(post, "userId");
    Walk1(post, "title");
    Walk1(post, "body");
  }

  /** The `Geo(...)` line, with `user_data['address']['geo']` evaluated
      once per argument. */
  lemma GeoOfInSourceOrder(userData: Json)
    ensures var w := Walks(userData, GeoPaths);
      && (GeoOf(userData).Err? <==> w.Err?)
      && (w.Err? ==> GeoOf(userData).error == w.error)
      && (w.Ok? ==> |w.value| == 2 && GeoOf(userData) == Ok(Geo(w.value[0], w.value[1])))
  {
    var p1: seq<seq<string>> := [["address", "geo", "lng"]];
    assert GeoPaths == [["address", "geo", "lat"]] + p1;
    assert p1 == [["address", "geo", "lng"]] + [];
    WalksCons(userData, ["address", "geo", "lng"], []);
    WalksCons(userData, ["address", "geo", "lat"], p1);
    Walk3(userData, "address", "geo", "lat");
    Walk3(userData, "address", "geo", "lng");
  }

  /** The `Address(...)` line, with `user_data['address']` evaluated once
      per argument. */
  lemma AddressOfInSourceOrder(userData: Json, geo: Geo)
    ensures var w := Walks(userData, AddressPaths);
      && (AddressOf(userData, geo).Err? <==> w.Err?)
      && (w.Err? ==> AddressOf(userData, geo).error == w.error)
      && (w.Ok? ==> |w.value| == 4 && AddressOf(userData, geo) == Ok(Address(w.value[0], w.value[1], w.value[2], w.value[3], geo)))
  {
    var p3: seq<seq<string>> := [["address", "zipcode"]];
    var p2 := [["address", "city"]] + p3;
    var p1 := [["address", "suite"]] + p2;
    assert AddressPaths == [["address", "street"]] + p1;
    assert p3 == [["address", "zipcode"]] + [];
    WalksCons(userData, ["address", "zipcode"], []);
    WalksCons(userData, ["address", "city"], p3);
    WalksCons(userData, ["address", "suite"], p2);
    WalksCons(userData, ["address", "street"], p1);
    Walk2(userData, "address", "street");
    Walk2(userData, "address", "suite");
    Walk2(userData, "address", "city");
    Walk2(userData, "address", "zipcode");
  }

  /** The `Company(...)` line, with `user_data['company']` evaluated once
      per argument. */
  lemma CompanyOfInSourceOrder(userData: Json)
    ensures var w := Walks(userData, CompanyPaths);
      && (CompanyOf(userData).Err? <==> w.Err?)
      && (w.Err? ==> CompanyOf(userData).error == w.error)
      && (w.Ok? ==> |w.value| == 3 && CompanyOf(userData) == Ok(Company(w.value[0], w.value[1], w.value[2])))
  {
    var p2: seq<seq<string>> := [["company", "bs"]];
    var p1 := [["company", "catchPhrase"]] + p2;
    assert CompanyPaths == [["company", "name"]] + p1;
    assert p2 == [["company", "bs"]] + [];
    WalksCons(userData, ["company", "bs"], []);
    WalksCons(userData, ["company", "catchPhrase"], p2);
    WalksCons(userData, ["company", "name"], p1);
    Walk2(userData, "company", "name");
    Walk2(userData, "company", "catchPhrase");
    Walk2(userData, "company", "bs");
  }

  /** The six direct reads of the `User(...)` line, left to right. */
  lemma TopInSourceOrder(userData: Json)
    ensures Walks(userData, TopPaths) ==
      var id :- Subscript(userData, "id");
      var name :- Subscript(userData, "name");
      var username :- Subscript(userData, "username");
      var email :- Subscript(userData, "email");
      var phone :- Subscript(userData, "phone");
      var website :- Subscript(userData, "website");
      Ok([id, name, username, email, phone, website])
  {
    var p5: seq<seq<string>> := [["website"]];
    var p4 := [["phone"]] + p5;
    var p3 := [["email"]] + p4;
    var p2 := [["username"]] + p3;
    var p1 := [["name"]] + p2;
    assert TopPaths == [["id"]] + p1;
    assert p5 == [["website"]] + [];
    WalksCons(userData, ["website"], []);
    WalksCons(userData, ["phone"], p5);
    WalksCons(userData, ["email"], p4);
    WalksCons(userData, ["username"], p3);
    WalksCons(userData, ["name"], p2);
    WalksCons(userData, ["id"], p1);
    Walk1(userData, "id");
    Walk1(userData, "name");
    Walk1(userData, "username");
    Walk1(userData, "email");
    Walk1(userData, "phone");
    Walk1(userData, "website");
    var id, name, username := Subscript(userData, "id"), Subscript(userData, "name"), Subscript(userData, "username");
    var email, phone, website := Subscript(userData, "email"), Subscript(userData, "phone"), Subscript(userData, "website");
    if id.Ok? && name.Ok? && username.Ok? && email.Ok? && phone.Ok? && website.Ok? {
      assert [id.value] + ([name.value] + ([username.value] + ([email.value] + ([phone.value] + ([website.value] + [])))))
        == [id.value, name.value, username.value, email.value, phone.value, website.value];
    }
  }

  /** `CreateUser` line by line: the geo, the address, the company, then
      the six direct reads as `Walks` performs them. */
  lemma CreateUserByLines(userData: Json)
    ensures Walks(userData, TopPaths).Ok? ==> |Walks(userData, TopPaths).value| == 6
    ensures CreateUser(userData) ==
      var geo :- GeoOf(userData);
      var address :- AddressOf(userData, geo);
      var company :- CompanyOf(userData);
      var top :- Walks(userData, TopPaths);
      Ok(User(top[0], top[1], top[2], top[3], address, top[4], top[5], company))
  {
    TopInSourceOrder(userData);
  }

  lemma WalksAppend(j: Json, xs: seq<seq<string>>, ys: seq<seq<string>>)
    ensures var a, b := Walks(j, xs), Walks(j, ys);
      Walks(j, xs + ys) == if a.Err? then a else if b.Err? then b else Ok(a.value + b.value)
  {
    MapAllAppend(xs, ys, WalkFrom(j));
  }

  /** The fifteen chains are the four lines' chains, one line after the
      other. */
  lemma UserWalksByLines(userData: Json)
    ensures var g, a, c, t := Walks(userData, GeoPaths), Walks(userData, AddressPaths),
                              Walks(userData, CompanyPaths), Walks(userData, TopPaths);
      Walks(userData, UserPaths) ==
        if g.Err? then g else if a.Err? then a else if c.Err? then c else if t.Err? then t
        else Ok(g.value + a.value + c.value + t.value)
  {
    WalksAppend(userData, GeoPaths + AddressPaths + CompanyPaths, TopPaths);
    WalksAppend(userData, GeoPaths + AddressPaths, CompanyPaths);
    WalksAppend(userData, GeoPaths, AddressPaths);
  }

  /** When every line's chains succeed, the user is built from the
      values of each line. */
  lemma CreateUserFromLines(userData: Json)
    requires Walks(userData, GeoPaths).Ok? && Walks(userData, AddressPaths).Ok?
    requires Walks(userData, CompanyPaths).Ok? && Walks(userData, TopPaths).Ok?
    ensures var gv, av := Walks(userData, GeoPaths).value, Walks(userData, AddressPaths).value;
      var cv, tv := Walks(userData, CompanyPaths).value, Walks(userData, TopPaths).value;
      && |gv| == 2 && |av| == 4 && |cv| == 3 && |tv| == 6
      && CreateUser(userData) ==
           Ok(User(tv[0], tv[1], tv[2], tv[3], Address(av[0], av[1], av[2], av[3], Geo(gv[0], gv[1])),
                   tv[4], tv[5], Company(cv[0], cv[1], cv[2])))
  {
    var gv := Walks(userData, GeoPaths).value;
    GeoOfInSourceOrder(userData);
    AddressOfInSourceOrder(userData, Geo(gv[0], gv[1]));
    CompanyOfInSourceOrder(userData);
    TopInSourceOrder(userData);
    CreateUserByLines(userData);
  }

  /** When every chain succeeds, the user is built from their values. */
  lemma CreateUserValuesInSourceOrder(userData: Json)
    requires Walks(userData, UserPaths).Ok?
    ensures var vs := Walks(userData, UserPaths).value;
      && |vs| == 15
      && CreateUser(userData) ==
           Ok(User(vs[9], vs[10], vs[11], vs[12], Address(vs[2], vs[3], vs[4], vs[5], Geo(vs[0], vs[1])),
                   vs[13], vs[14], Company(vs[6], vs[7], vs[8])))
  {
    UserWalksByLines(userData);
    CreateUserFromLines(userData);
    var gv, av := Walks(userData, GeoPaths).value, Walks(userData, AddressPaths).value;
    var cv, tv := Walks(userData, CompanyPaths).value, Walks(userData, TopPaths).value;
    LinesConcatenated(gv, av, cv, tv);
  }

  /** Where each line's values sit among the fifteen. */
  lemma LinesConcatenated<X>(gv: seq<X>, av: seq<X>, cv: seq<X>, tv: seq<X>)
    requires |gv| == 2 && |av| == 4 && |cv| == 3 && |tv| == 6
    ensures var vs := gv + av + cv + tv;
      && |vs| == 15
      && vs[0] == gv[0] && vs[1] == gv[1]
      && vs[2] == av[0] && vs[3] == av[1] && vs[4] == av[2] && vs[5] == av[3]
      && vs[6] == cv[0] && vs[7] == cv[1] && vs[8] == cv[2]
      && vs[9] == tv[0] && vs[10] == tv[1] && vs[11] == tv[2] && vs[12] == tv[3] && vs[13] == tv[4] && vs[14] == tv[5]
  {
  }

  /** When a chain raises, `CreateUser` raises the same exception. */
  lemma CreateUserErrorInSourceOrder(userData: Json)
    ensures Walks(userData, UserPaths).Err? ==> CreateUser(userData) == Err(Walks(userData, UserPaths).error)
  {
    var g, a, c, t := Walks(userData, GeoPaths), Walks(userData, AddressPaths),
                      Walks(userData, CompanyPaths), Walks(userData, TopPaths);
    UserWalksByLines(userData);
    GeoOfInSourceOrder(userData);
    CompanyOfInSourceOrder(userData);
    TopInSourceOrder(userData);
    CreateUserByLines(userData);
    if g.Ok? {
      AddressOfInSourceOrder(userData, Geo(g.value[0], g.value[1]));
    }
  }
}
