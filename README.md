# Forum client model

A Dafny model of `ForumClient`, a small synchronous client for a forum-style REST API with users and posts. The model covers four parts:

- **Base-URL normalisation.** The constructor puts `https://` in front of the host unless it is already there. It then strips every trailing slash.
- **Request URLs.** Every request URL is `base_url + "/" + path`.
- **Records.** Decoded JSON objects become `Post` and `User` records.
- **Composition.** `get_user_posts` extends a user's post list in place with the full, unfiltered post list.

The HTTP exchange is a parameter, `Server = Request -> Response`. It maps the request the client sends (URL and query parameters) to the last answer the transport received for it, after any retries: a status code and an already-decoded JSON body. The client's default retry policy retries statuses 429, 500, 502, 503 and 504. A final answer with one of those statuses therefore means the retries were used up. The client then raises a RetryError that carries no status, which the model calls `RetriesExhausted`. Any other 4xx or 5xx status reaches `raise_for_status`, which raises an HTTP error with that status. Sessions, JSON decoding and the network are not in the model.

Modules:

- `JsonValue` (`json_value.dfy`):
  - `Json`: the decoded JSON value.
  - `Error`: what the client raises. This is an HTTP error, a RetryError, a KeyError for a missing key, or one of two TypeErrors.
  - `Result` and `Option`.
  - `Subscript`: Python's `data[key]` (clients/forum_client.py:17-20, :35-38). It is a KeyError for a missing key and a TypeError for a value that is not an object. Its behaviour is stated by the rows of `ParsePost` and `ParseUser`.
- `Records` (`records.dfy`):
  - `Post` and `UserRecord`, which are values.
  - `User`, a class whose four copied fields are constants and whose `posts` is mutable.
  - The `from_json` parsers and the parsing of the post list.
- `Urls` (`urls.dfy`):
  - `StartsWith`: Python's `str.startswith` (clients/forum_client.py:46).
  - `RStrip`: `rstrip`.
  - The normalisation and its properties.
  - `str(int)`, with the digit value `DecimalValue`.
- `Client` (`client.dfy`):
  - `StatusError` and `Checked`: the retry policy's give-up and `raise_for_status` (clients/forum_client.py:50-53, :72). The rows of `FetchUserRequest` and `GetPosts` state their effect.
  - The `ForumClient` class. It holds the normalised base URL and offers `Get` (the model of `_get`, clients/forum_client.py:70-73), `get_user`, `get_posts` and `get_user_posts`, plus the lemmas about the requests they send.

Behaviour of the source that the model keeps as written:

- Only a final status of 400–599 fails. A 1xx or 3xx final status is parsed like a 2xx one.
- `rstrip("/")` strips every trailing slash, even when the input already starts with `https://`. So `"https://"` becomes `"https:"`, and normalising that again gives `"https://https:"`.
- `get_user(n)` requests `base//users/n`, with two slashes.
- `get_posts` requests `base/` followed by the whole base URL again and then `/posts`, because it passes an absolute URL as the path.
- `get_user_posts` attaches every post the server returns, including posts of other users.

Record fields hold whatever JSON value their key carried. The field annotations of the source are not checked at run time.

## Model

| member | source | states |
|---|---|---|
| `Records.ParsePost` | clients/forum_client.py:14-21 | `Post.from_json` succeeds exactly when the value is an object holding `id`, `userId`, `title` and `body`. It then copies those four values unchanged into `id`, `userId` (the source's `user_id`), `title` and `body`. If a key is missing, it fails with KeyError for the first missing key in that order. A non-object fails with TypeError. |
| `Records.ParsePostIgnoresOtherKeys` | clients/forum_client.py:15-21 | Adding keys other than the four read ones to a post object does not change the parse result. |
| `Records.ParseUser` | clients/forum_client.py:32-40 | `User.from_json` succeeds exactly when the object holds `id`, `name`, `email` and `phone`. It copies all four unchanged and starts with an empty post list. If a key is missing, it fails with KeyError for the first missing key in that order. A non-object fails with TypeError. |
| `Records.ParseEach` | clients/forum_client.py:62 | The list comprehension succeeds exactly when every element parses. It then gives one post per element, in the same order. Otherwise it fails with the error of the first element that does not parse. |
| `Records.ParsePosts` | clients/forum_client.py:62 | Iterating the decoded body of the posts answer works as follows. A JSON array gives exactly the result of the list comprehension: one post per element, in order, or the error of the first element that does not parse. The empty object and the empty string give no posts. Any other object or string fails with TypeError, because its keys or characters are strings. A number, boolean or null fails as not iterable. |
| `Records.User.constructor` | clients/forum_client.py:24-30 | A new user holds exactly the given id, name, email, phone and posts. |
| `Records.User.FromJson` | clients/forum_client.py:32-40 | Allocates a fresh user whose value is `ParseUser` of the data. It fails exactly when `ParseUser` fails, with the same error. |
| `Records.User.ExtendPosts` | clients/forum_client.py:67 | `posts.extend(more)` appends every post of `more` in order. It leaves id, name, email and phone unchanged. |
| `Urls.RStrip` | clients/forum_client.py:46 | `rstrip("/")` returns the longest prefix of its input that does not end in a slash. Everything it removes is a slash. |
| `Urls.RStripUnique` | clients/forum_client.py:46 | Those three properties determine the `rstrip` result uniquely. |
| `Urls.Normalize` | clients/forum_client.py:44-46 | The normalised base URL always starts with `https:` and never ends in a slash. It is a prefix of `https://` plus the host part, and only slashes are cut from that. |
| `Urls.NormalizeFormula` | clients/forum_client.py:45-46 | Exact result: `https://` followed by the host part with all trailing slashes removed. The host part is the input without a leading `https://`. If the host part is only slashes, the result is `https:`. |
| `Urls.NormalizeIdempotentIff` | clients/forum_client.py:45-46 | Normalising twice equals normalising once exactly when something other than slashes follows the scheme. Otherwise the two results are `https:` and `https://https:`. |
| `Urls.NormalizeSchemelessHost` | clients/forum_client.py:45-46 | A host without the scheme and with one trailing slash becomes `https://` plus the host. |
| `Urls.NormalizeDemoHost` | main.py:5 | The demo host `DemoHost`, `"jsonplaceholder.typicode.com/"`, normalises to `https://` followed by the host without its trailing slash, that is `"https://jsonplaceholder.typicode.com"`. |
| `Urls.NormalizeBareSchemeExamples` | clients/forum_client.py:45-46 | `"https://"` normalises to `"https:"`, and `"https:"` normalises to `"https://https:"`. |
| `Urls.NatToDecimal` | clients/forum_client.py:57 | `str(n)` of a natural number is a non-empty string of decimal digits. Those digits denote exactly n, with no leading zero except for n = 0. |
| `Urls.IntToDecimal` | clients/forum_client.py:57 | `str(n)` of an integer contains no slash. It starts with `-` exactly when n is negative, and the digits after any sign denote the magnitude of n, without leading zeros: the only rendering that starts with `0` is `"0"` itself. |
| `Urls.IntToDecimalInjective` | clients/forum_client.py:57 | Distinct user ids render differently, so they request distinct user URLs. |
| `Client.ForumClient.constructor` | clients/forum_client.py:44-46 | The client's base URL is the normalisation of the host it was given. |
| `Client.ForumClient.FetchUser` | clients/forum_client.py:56-58 | The user returned by `get_user` has no posts. |
| `Client.ForumClient.FetchUserRequest` | clients/forum_client.py:56-58 | `get_user(n)` depends only on the answer to `base_url + "//users/" + str(n)`, sent by `Get` (the model of `_get`, clients/forum_client.py:70-73) without query parameters. A final status of 429, 500, 502, 503 or 504 fails as retries exhausted, and any other 4xx or 5xx status fails with an HTTP error carrying that status. Both happen before any parsing. Otherwise the result is `User.from_json` of the body. |
| `Client.ForumClient.GetUser` | clients/forum_client.py:56-58 | Returns a fresh user whose value is `FetchUser`, or fails with the same error. |
| `Client.ForumClient.GetPosts` | clients/forum_client.py:60-62 | `get_posts` depends only on the answer to `base_url + "/" + base_url + "/posts"`, sent by `Get` (the model of `_get`, clients/forum_client.py:70-73). The query is `userId` when a user id is given and empty otherwise. A retried status fails as retries exhausted, and any other 4xx or 5xx status fails as an HTTP error, both before any parsing. Otherwise the result is the parsed post list. |
| `Client.ForumClient.GetPostsOnePerElement` | clients/forum_client.py:60-62 | A JSON-array answer without an error status gives exactly one post per element, in order. The call succeeds only if every element parses. Otherwise it fails with the error of the first element that does not parse. |
| `Client.ForumClient.FetchUserPosts` | clients/forum_client.py:64-68 | `get_user_posts(n)` succeeds exactly when `get_user(n)` and an unfiltered `get_posts()` both succeed. It keeps the user's four fields unchanged, and its posts are exactly the unfiltered post list. On failure the error is the user request's error if that failed, and otherwise the posts request's error. |
| `Client.ForumClient.UserPostsUnfiltered` | clients/forum_client.py:64-68 | Every user gets the same post list. That list has as many posts as `get_posts()` returned and contains every one of them, whoever owns it. |
| `Client.ForumClient.UserPostsUserErrorFirst` | clients/forum_client.py:64-66 | If the user request's answer has an error status, `get_user_posts` fails with that status's error whatever the posts request would answer. |
| `Client.ForumClient.GetUserMockExchange` | clients/forum_client.py:56-58 | The answer `{"id":1,"name":"A","email":"a@x.com","phone":"555"}` to `get_user(1)` gives that user with no posts. |
| `Client.ForumClient.GetPostsMockExchange` | clients/forum_client.py:60-62 | An array answer holding one post of user 1 and one of user 2 gives those two posts, in order, field by field. |
| `Client.ForumClient.UserPostsMockExchange` | clients/forum_client.py:64-68 | With the two answers above, `get_user_posts(1)` gives user 1 with both posts attached, including the post of user 2. |
| `Client.ForumClient.GetUserPosts` | clients/forum_client.py:64-68 | Returns a fresh user whose value is `FetchUserPosts`: the user from `get_user`, with its own post list extended in place. Otherwise it fails with the same error. |

## Left out

- The `requests.Session` and the `HTTPAdapter` (clients/forum_client.py:47-54). The number of retries and the backoff between them are transport timing. The model keeps only the outcome: a final retried status raises RetryError.
- The `retry` constructor argument. The model fixes the default policy and its retried statuses 429, 500, 502, 503 and 504. A caller-supplied policy with other statuses or `raise_on_status=False` is not represented.
- JSON decoding of response bodies (`response.json()`). Bodies arrive already decoded. A body that is not valid JSON is not modelled.
- JSON numbers with a fraction or an exponent. `Json` has integers only, because floating point is out of scope.
- The encoding of query parameters into the URL. The request carries the parameters that are actually sent. `requests` drops `None`-valued parameters, so `get_posts()` without a user id sends no filter.
- Network, DNS and TLS failures, exceptions `requests` raises while preparing a URL before anything is sent (such as InvalidURL for the hostless base URL `https:`), and thread safety of the shared session. These are I/O and concurrency concerns that the client does not handle.
- `Urls.IntToDecimal`: renders every integer. Python refuses to convert an integer of more than 4300 digits to a string by default and raises ValueError, so `get_user` with such an id fails before any request is sent. That interpreter limit is not modelled.
- `main.py` apart from its host string, because it only constructs a client and prints.
- `Records.User.ExtendPosts`: the post list is modelled as a sequence value owned by the user. Aliasing of the Python list object by another reference is not represented. `from_json` always creates a fresh list, so the source does not share it.
