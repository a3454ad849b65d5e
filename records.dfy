/** The two records of the forum API, `Post` and `User`, and their
    construction from decoded JSON (the `from_json` class methods). */
module Records {
  import opened JsonValue

  /** A post. The field `userId` stands for the source's `user_id`, filled from
      the JSON key `userId`. The field annotations of the source are not checked
      at run time, so each field holds whatever value its key carried. */
  datatype Post = Post(id: Json, userId: Json, title: Json, body: Json)

  /** The value of a `User` object: its four copied fields and its post list. */
  datatype UserRecord = UserRecord(id: Json, name: Json, email: Json, phone: Json, posts: seq<Post>)

  /** The keys `Post.from_json` reads, in the order it reads them. */
  const PostKeys: seq<string> := ["id", "userId", "title", "body"]

  /** The keys `User.from_json` reads, in the order it reads them. */
  const UserKeys: seq<string> := ["id", "name", "email", "phone"]

  /** `Post.from_json`: copies the values of the keys `id`, `userId`, `title` and
      `body` unchanged into `id`, `userId` (the source's `user_id`), `title` and
      `body`. The first absent key, in that order,
      raises KeyError; a value that is not an object raises TypeError. */
  function ParsePost(data: Json): (r: Result<Post>)
    ensures r.Success? <==> data.JObject? && MissingKeys(PostKeys, data.fields) == []
    ensures r.Success? ==> data.JObject? && PostKeys[0] in data.fields && PostKeys[1] in data.fields
                           && PostKeys[2] in data.fields && PostKeys[3] in data.fields
                           && r.value.id == data.fields["id"] && r.value.userId == data.fields["userId"]
                           && r.value.title == data.fields["title"] && r.value.body == data.fields["body"]
    ensures !data.JObject? ==> r == Failure(NotSubscriptable)
    ensures data.JObject? && r.Failure? ==>
              MissingKeys(PostKeys, data.fields) != [] && r.error == KeyError(MissingKeys(PostKeys, data.fields)[0])
  {
    MissingKeysOfFour("id", "userId", "title", "body", if data.JObject? then data.fields else map[]);
    var id :- Subscript(data, "id");
    var userId :- Subscript(data, "userId");
    var title :- Subscript(data, "title");
    var body :- Subscript(data, "body");
    Success(Post(id, userId, title, body))
  }

  /** Keys other than the four `Post.from_json` reads play no part in the result. */
  lemma ParsePostIgnoresOtherKeys(fields: map<string, Json>, other: map<string, Json>)
    requires forall k :: k in other ==> k !in PostKeys
    ensures ParsePost(JObject(fields + other)) == ParsePost(JObject(fields))
  {
    assert forall k :: k in PostKeys ==> (k in fields + other <==> k in fields);
    assert forall k :: k in PostKeys && k in fields ==> (fields + other)[k] == fields[k];
  }

  /** `User.from_json`: copies `id`, `name`, `email` and `phone` unchanged and
      starts with no posts. The first absent key, in that order, raises
      KeyError; a value that is not an object raises TypeError. */
  function ParseUser(data: Json): (r: Result<UserRecord>)
    ensures r.Success? <==> data.JObject? && MissingKeys(UserKeys, data.fields) == []
    ensures r.Success? ==> data.JObject? && UserKeys[0] in data.fields && UserKeys[1] in data.fields
                           && UserKeys[2] in data.fields && UserKeys[3] in data.fields
                           && r.value.id == data.fields["id"] && r.value.name == data.fields["name"]
                           && r.value.email == data.fields["email"] && r.value.phone == data.fields["phone"]
                           && r.value.posts == []
    ensures !data.JObject? ==> r == Failure(NotSubscriptable)
    ensures data.JObject? && r.Failure? ==>
              MissingKeys(UserKeys, data.fields) != [] && r.error == KeyError(MissingKeys(UserKeys, data.fields)[0])
  {
    MissingKeysOfFour("id", "name", "email", "phone", if data.JObject? then data.fields else map[]);
    var id :- Subscript(data, "id");
    var name :- Subscript(data, "name");
    var email :- Subscript(data, "email");
    var phone :- Subscript(data, "phone");
    Success(UserRecord(id, name, email, phone, []))
  }

  /** The list comprehension `[Post.from_json(p) for p in items]`: one post per
      element, in order; the first element that fails to parse fails the whole list. */
  function ParseEach(items: seq<Json>): (r: Result<seq<Post>>)
    ensures r.Success? <==> forall i :: 0 <= i < |items| ==> ParsePost(items[i]).Success?
    ensures r.Success? ==>
              && |r.value| == |items|
              && forall i :: 0 <= i < |items| ==> ParsePost(items[i]).Success? && r.value[i] == ParsePost(items[i]).value
    ensures r.Failure? ==>
              exists i :: 0 <= i < |items| && ParsePost(items[i]) == Failure(r.error) &&
                          forall j :: 0 <= j < i ==> ParsePost(items[j]).Success?
  {
    if items == [] then Success([])
    else
      var first :- ParsePost(items[0]);
      var rest :- ParseEach(items[1..]);
      Success([first] + rest)
  }

  /** Iterating the decoded body of the posts response and parsing each element.
      A list is parsed element by element. Iterating an object yields its keys
      and iterating a string its characters; subscripting a string raises
      TypeError, so only the empty object and the empty string give no posts.
      Numbers, booleans and null are not iterable. */
  function ParsePosts(body: Json): (r: Result<seq<Post>>)
    ensures body.JArray? ==> r == ParseEach(body.items)
    ensures body.JArray? ==>
              (r.Success? <==> forall i :: 0 <= i < |body.items| ==> ParsePost(body.items[i]).Success?)
    ensures body.JArray? && r.Success? ==>
              && |r.value| == |body.items|
              && forall i :: 0 <= i < |body.items| ==> ParsePost(body.items[i]).Success? && r.value[i] == ParsePost(body.items[i]).value
    ensures body.JObject? ==> r == if body.fields == map[] then Success([]) else Failure(NotSubscriptable)
    ensures body.JString? ==> r == if body.s == "" then Success([]) else Failure(NotSubscriptable)
    ensures body.JInt? || body.JBool? || body.JNull? ==> r == Failure(NotIterable)
  {
    match body
    case JArray(items) => ParseEach(items)
    case JObject(fields) => if |fields| == 0 then Success([]) else Failure(NotSubscriptable)
    case JString(s) => if |s| == 0 then Success([]) else Failure(NotSubscriptable)
    case _ => Failure(NotIterable)
  }

  /** A user. The four copied fields never change (the source's record is frozen);
      its post list is a mutable list that callers extend in place. */
  class User {
    const id: Json
    const name: Json
    const email: Json
    const phone: Json
    var posts: seq<Post>

    constructor (id: Json, name: Json, email: Json, phone: Json, posts: seq<Post>)
      ensures Record() == UserRecord(id, name, email, phone, posts)
    {
      this.id := id;
      this.name := name;
      this.email := email;
      this.phone := phone;
      this.posts := posts;
    }

    /** The current value of this user. */
    function Record(): UserRecord
      reads this
    {
      UserRecord(id, name, email, phone, posts)
    }

    /** `User.from_json`, allocating the new user. */
    static method FromJson(data: Json) returns (r: Result<User>)
      ensures r.Success? <==> ParseUser(data).Success?
      ensures r.Failure? ==> r.error == ParseUser(data).error
      ensures r.Success? ==> fresh(r.value) && r.value.Record() == ParseUser(data).value
    {
      var parsed := ParseUser(data);
      if parsed.Failure? {
        return Failure(parsed.error);
      }
      var rec := parsed.value;
      var user := new User(rec.id, rec.name, rec.email, rec.phone, []);
      return Success(user);
    }

    /** `posts.extend(more)`: appends every post of `more`, in order, and
        leaves the four copied fields as they were. */
    method ExtendPosts(more: seq<Post>)
      modifies this
      ensures posts == old(posts) + more
      ensures Record() == old(Record()).(posts := old(posts) + more)
    {
      posts := posts + more;
    }
  }
}
