/** `ForumClient`: builds request URLs from the normalised base URL, checks the
    status of each answer and turns the decoded bodies into records. The HTTP
    exchange itself is a parameter: a server maps each request to its answer. */
module Client {
  import opened JsonValue
  import opened Records
  import opened Urls

  /** A GET request as the server receives it: the URL and the query parameters sent. */
  datatype Request = Request(url: string, query: map<string, int>)

  /** The server's answer: the status code and the body, already decoded from JSON. */
  datatype Response = Response(status: int, body: Json)

  /** The HTTP exchange seen from the client: the last answer the transport
      received for a request, after any retries. */
  type Server = Request -> Response

  /** The statuses the client's default retry policy retries. */
  const RetryStatuses: set<int> := {429, 500, 502, 503, 504}

  /** The error a final answer with this status raises, if any. A retried
      status that is still the answer after the last retry makes the retry
      policy give up with a RetryError, which carries no status; any other 4xx
      or 5xx status reaches `raise_for_status`, which raises an HTTPError. */
  function StatusError(status: int): Option<Error> {
    if status in RetryStatuses then Some(RetriesExhausted)
    else if 400 <= status < 600 then Some(HttpError(status))
    else None
  }

  /** The decoded body of an answer, or the error its status raises. */
  function Checked(response: Response): Result<Json> {
    match StatusError(response.status)
    case Some(e) => Failure(e)
    case None => Success(response.body)
  }

  class ForumClient {
    /** The normalised base URL every request URL starts with. */
    const baseUrl: string

    /** `ForumClient(host)`: stores the normalised base URL (the session and
        its retry policy are not modelled). */
    constructor (host: string)
      ensures baseUrl == Normalize(host)
    {
      baseUrl := Normalize(host);
    }

    /** `_get(path, params)`: one GET of `base_url + "/" + path`, failing on an
        error status before anything is parsed. */
    function Get(server: Server, path: string, query: map<string, int>): Result<Json> {
      Checked(server(Request(baseUrl + "/" + path, query)))
    }

    /** The value `get_user(n)` returns. */
    function FetchUser(server: Server, userId: int): (r: Result<UserRecord>)
      ensures r.Success? ==> r.value.posts == []
    {
      var body :- Get(server, "/users/" + IntToDecimal(userId), map[]);
      ParseUser(body)
    }

    /** `get_user(n)` asks for `base_url + "//users/" + str(n)`, with no query:
        the path already starts with a slash and `_get` adds another. An error
        status fails before the body is parsed. */
    lemma FetchUserRequest(server: Server, userId: int)
      ensures var answer := server(Request(baseUrl + "//users/" + IntToDecimal(userId), map[]));
              FetchUser(server, userId) ==
                if StatusError(answer.status).Some? then Failure(StatusError(answer.status).value)
                else ParseUser(answer.body)
    {
      var path := "/users/" + IntToDecimal(userId);
      var url := baseUrl + "/" + path;
      assert url == baseUrl + "//users/" + IntToDecimal(userId);
      assert Get(server, path, map[]) == Checked(server(Request(url, map[])));
    }

    /** `get_user(n)`: a new user with the four fields of the answer and no posts. */
    method GetUser(server: Server, userId: int) returns (r: Result<User>)
      ensures r.Success? <==> FetchUser(server, userId).Success?
      ensures r.Failure? ==> r.error == FetchUser(server, userId).error
      ensures r.Success? ==> fresh(r.value) && r.value.Record() == FetchUser(server, userId).value
    {
      var body := Get(server, "/users/" + IntToDecimal(userId), map[]);
      if body.Failure? {
        return Failure(body.error);
      }
      r := User.FromJson(body.value);
    }

    /** `get_posts(user_id)`. It passes an absolute URL as the path, so it asks
        for `base_url + "/" + base_url + "/posts"`. `requests` drops a query
        parameter whose value is None, so the user id, when given, is the only
        query parameter and otherwise no filter is sent. An error status fails
        before the body is parsed. */
    function GetPosts(server: Server, userId: Option<int>): (r: Result<seq<Post>>)
      ensures var answer := server(Request(baseUrl + "/" + baseUrl + "/posts",
                                           if userId.Some? then map["userId" := userId.value] else map[]));
              r == if StatusError(answer.status).Some? then Failure(StatusError(answer.status).value)
                   else ParsePosts(answer.body)
    {
      assert baseUrl + "/" + (baseUrl + "/posts") == baseUrl + "/" + baseUrl + "/posts";
      var body :- Get(server, baseUrl + "/posts", if userId.Some? then map["userId" := userId.value] else map[]);
      ParsePosts(body)
    }

    /** A `get_posts` answered with a JSON array and no error status gives one
        post per element, in the same order; it succeeds only if every element
        parses, and otherwise fails with the error of the first that does not. */
    lemma GetPostsOnePerElement(server: Server, userId: Option<int>, items: seq<Json>)
      requires var answer := server(Request(baseUrl + "/" + baseUrl + "/posts",
                                            if userId.Some? then map["userId" := userId.value] else map[]));
               StatusError(answer.status).None? && answer.body == JArray(items)
      ensures GetPosts(server, userId).Success? <==> forall i :: 0 <= i < |items| ==> ParsePost(items[i]).Success?
      ensures GetPosts(server, userId).Success? ==>
                && |GetPosts(server, userId).value| == |items|
                && forall i :: 0 <= i < |items| ==>
                     ParsePost(items[i]).Success? && GetPosts(server, userId).value[i] == ParsePost(items[i]).value
      ensures GetPosts(server, userId).Failure? ==>
                exists i :: 0 <= i < |items| && ParsePost(items[i]) == Failure(GetPosts(server, userId).error) &&
                            forall j :: 0 <= j < i ==> ParsePost(items[j]).Success?
    {
      assert GetPosts(server, userId) == ParseEach(items);
    }

    /** The value `get_user_posts(n)` returns: the user of `get_user(n)` with
        the whole unfiltered post list of `get_posts()` appended. */
    function FetchUserPosts(server: Server, userId: int): (r: Result<UserRecord>)
      ensures r.Success? <==> FetchUser(server, userId).Success? && GetPosts(server, None).Success?
      ensures r.Failure? ==>
                r.error == if FetchUser(server, userId).Failure? then FetchUser(server, userId).error
                           else GetPosts(server, None).error
      ensures r.Success? ==>
                && r.value.id == FetchUser(server, userId).value.id
                && r.value.name == FetchUser(server, userId).value.name
                && r.value.email == FetchUser(server, userId).value.email
                && r.value.phone == FetchUser(server, userId).value.phone
                && r.value.posts == GetPosts(server, None).value
    {
      var user :- FetchUser(server, userId);
      var posts :- GetPosts(server, None);
      Success(user.(posts := user.posts + posts))
    }

    /** No filtering by owner: every user gets the same post list, that of an
        unfiltered `get_posts()`, posts of other users included, and as many
        posts as it returned. */
    lemma UserPostsUnfiltered(server: Server, userId: int, otherId: int)
      requires FetchUserPosts(server, userId).Success? && FetchUserPosts(server, otherId).Success?
      ensures FetchUserPosts(server, userId).value.posts == FetchUserPosts(server, otherId).value.posts
      ensures |FetchUserPosts(server, userId).value.posts| == |GetPosts(server, None).value|
      ensures forall p :: p in GetPosts(server, None).value ==> p in FetchUserPosts(server, userId).value.posts
    {
    }

    /** The user is fetched first: when its answer has an error status,
        `get_user_posts` fails with that error whatever the posts request would answer. */
    lemma UserPostsUserErrorFirst(server: Server, userId: int)
      requires StatusError(server(Request(baseUrl + "//users/" + IntToDecimal(userId), map[])).status).Some?
      ensures FetchUserPosts(server, userId) ==
                Failure(StatusError(server(Request(baseUrl + "//users/" + IntToDecimal(userId), map[])).status).value)
    {
      FetchUserRequest(server, userId);
    }

    /** A server answering user 1 with a user object: `get_user(1)` copies its
        four fields and starts with no posts. */
    lemma GetUserMockExchange(server: Server)
      requires server(Request(baseUrl + "//users/1", map[])) ==
                 Response(200, JObject(map["id" := JInt(1), "name" := JString("A"),
                                           "email" := JString("a@x.com"), "phone" := JString("555")]))
      ensures FetchUser(server, 1) == Success(UserRecord(JInt(1), JString("A"), JString("a@x.com"), JString("555"), []))
    {
      assert IntToDecimal(1) == "1" by { assert NatToDecimal(1) == [DigitChar(1)]; }
      assert baseUrl + "//users/" + IntToDecimal(1) == baseUrl + "//users/1";
      FetchUserRequest(server, 1);
    }

    /** A server answering the post list with a post of user 1 and a post of
        user 2: `get_posts()` gives both, in order, field by field. */
    lemma GetPostsMockExchange(server: Server)
      requires server(Request(baseUrl + "/" + baseUrl + "/posts", map[])) ==
                 Response(200, JArray([JObject(map["id" := JInt(1), "userId" := JInt(1), "title" := JString("t"), "body" := JString("b")]),
                                       JObject(map["id" := JInt(2), "userId" := JInt(2), "title" := JString("u"), "body" := JString("c")])]))
      ensures GetPosts(server, None) == Success([Post(JInt(1), JInt(1), JString("t"), JString("b")),
                                                 Post(JInt(2), JInt(2), JString("u"), JString("c"))])
    {
      var ownPost := Post(JInt(1), JInt(1), JString("t"), JString("b"));
      var foreignPost := Post(JInt(2), JInt(2), JString("u"), JString("c"));
      var items := [JObject(map["id" := JInt(1), "userId" := JInt(1), "title" := JString("t"), "body" := JString("b")]),
                    JObject(map["id" := JInt(2), "userId" := JInt(2), "title" := JString("u"), "body" := JString("c")])];
      assert ParsePosts(JArray(items)) == Success([ownPost, foreignPost]) by {
        assert ParsePost(items[0]) == Success(ownPost);
        assert ParsePost(items[1]) == Success(foreignPost);
        assert forall i :: 0 <= i < |items| ==> ParsePost(items[i]).Success?;
        var posts := ParsePosts(JArray(items)).value;
        assert posts == [ownPost, foreignPost];
      }
      assert StatusError(200) == None;
    }

    /** With both answers above, `get_user_posts(1)` attaches both posts to
        user 1, the post of user 2 included. */
    lemma UserPostsMockExchange(server: Server)
      requires server(Request(baseUrl + "//users/1", map[])) ==
                 Response(200, JObject(map["id" := JInt(1), "name" := JString("A"),
                                           "email" := JString("a@x.com"), "phone" := JString("555")]))
      requires server(Request(baseUrl + "/" + baseUrl + "/posts", map[])) ==
                 Response(200, JArray([JObject(map["id" := JInt(1), "userId" := JInt(1), "title" := JString("t"), "body" := JString("b")]),
                                       JObject(map["id" := JInt(2), "userId" := JInt(2), "title" := JString("u"), "body" := JString("c")])]))
      ensures FetchUserPosts(server, 1) ==
                Success(UserRecord(JInt(1), JString("A"), JString("a@x.com"), JString("555"),
                                   [Post(JInt(1), JInt(1), JString("t"), JString("b")),
                                    Post(JInt(2), JInt(2), JString("u"), JString("c"))]))
    {
      GetUserMockExchange(server);
      GetPostsMockExchange(server);
    }

    /** `get_user_posts(n)`: fetches the user, then all posts, and extends the
        user's own post list with them in place. */
    method GetUserPosts(server: Server, userId: int) returns (r: Result<User>)
      ensures r.Success? <==> FetchUserPosts(server, userId).Success?
      ensures r.Failure? ==> r.error == FetchUserPosts(server, userId).error
      ensures r.Success? ==> fresh(r.value) && r.value.Record() == FetchUserPosts(server, userId).value
    {
      var user := GetUser(server, userId);
      if user.Failure? {
        return Failure(user.error);
      }
      var posts := GetPosts(server, None);
      if posts.Failure? {
        return Failure(posts.error);
      }
      user.value.ExtendPosts(posts.value);
      r := Success(user.value);
    }
  }
}
