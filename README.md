# AppAPI client, modelled in Dafny

AppAPI is a small client for the JSONPlaceholder REST API. It has two parts:

- `APIClient.fetch_data` performs one GET on `base_url + "/" + endpoint`. On status 200 it returns the parsed JSON body. On any other status it calls `raise_for_status()`, and returns `[]` if that does not raise.
- `DataService` fetches the `posts` or `users` collection. It turns each element into a `Post`, or into a `User` built from a `Geo`, an `Address` and a `Company`. Each record is built by subscripting the element's dicts in a list comprehension.

The model is purely functional, as the source is: besides the fetch, every operation only computes a value.

- `errors.dfy`: the three exceptions the model represents, `HTTPError` (with its status), `KeyError` (with its key) and `TypeError`. It also holds a `Result` type for the error path.
- `json.dfy`: the JSON values `response.json()` can return. It defines Python's `j[key]` on them (`Subscript`) and a chain of subscripts `j[k1][k2]…` (`Walk`).
- `comprehension.dfy`: the list comprehension `[f(x) for x in xs]` (`MapAll`). It maps elements in order and fails as a whole at the first exception.
- `client.dfy`: the URL, and `fetch_data` as a function of the transport. The `requests` library is a value `Http(get, raiseForStatus)`:
  - `get` answers a URL with a status and an already parsed body;
  - `raiseForStatus` says whether `raise_for_status()` raises for a status.

  `RequestsRaiseForStatus` (4xx and 5xx raise) is the concrete rule of `requests`; `Client.FetchUnderRequests` and the fixtures use it.
- `records.dfy`: the five records. Each field holds the JSON value it was read from, because the source annotates `int`/`str` but checks nothing. The file also has the API's JSON shape of each record (`PostJson` … `UserJson`), against which decoding is proved lossless.
- `service.dfy`: the element expressions `ToPost` and `CreateUser`, with `GeoOf`, `AddressOf` and `CompanyOf` as the three lines of `_create_user` before the `User(...)` line. Also the iteration over the fetched body (`DecodeCollection`), and `get_posts`/`get_users`.
- `service_properties.dfy`: round trips, losslessness, fail-fast, error provenance, and which URL each call reads.
- `source_order.dfy`: a reference evaluation in Python's literal order. Every constructor argument is a fresh subscript chain from the element (`user_data['address']` is re-read for each address field), and arguments are evaluated left to right. `CreateUser` reads each nested object once. The lemmas here prove it returns the same user and raises the same first exception as the literal evaluation.
- `fixtures.dfy`: the scenarios of `AppAPI_test.py` and the base URL of `main`.

### Behaviours modelled as the code has them

- **URL joining.** The URL is `f"{base_url}/{endpoint}"` with no normalisation. A base URL ending in `/` gives `…//posts`, and `main` uses such a base URL (`Fixtures.MainRequestsDoubleSlash`).
- **Status handling.** Only status 200 returns the body. Under the rule of `requests`, a 4xx or 5xx raises, and every other status other than 200 (1xx, 201–299, 3xx) returns an empty list. The source comment on line 15 says otherwise; the model follows the code (`Client.FetchUnderRequests`).
- **Non-list bodies.** A body that is not a list is still iterated.
  - A dict yields its keys.
  - A string yields one-character strings.
  - The element expression subscripts a string and raises `TypeError`, whichever element comes first.
  - An empty dict or string gives `[]`.
  - Numbers, booleans and `None` are not iterable and raise `TypeError`.

## Model

| member | source | states |
|---|---|---|
| JsonData.Subscript | AppAPI.py:83 | `j[key]` succeeds exactly on a dict holding the key and yields its value; a missing key raises KeyError(key); subscripting any non-dict raises TypeError |
| JsonData.Walk | AppAPI.py:92-95 | a chain of subscripts stops at the first that raises; the empty chain is the value itself; a KeyError names a key of the chain; only KeyError or TypeError can arise |
| JsonData.WalkAppend | AppAPI.py:92-93 | subscripting along `p + q` is subscripting along `p`, then along `q` from the value reached, or `p`'s exception |
| JsonData.WalkCons | AppAPI.py:92 | the first subscript of a chain is evaluated first and the rest from its value |
| Comprehension.MapAll | AppAPI.py:83 | the comprehension succeeds iff every element maps; then it has one result per element, in order, each the element's own result |
| Comprehension.FirstFailureDecides | AppAPI.py:88 | when element `i` is the first to raise, the comprehension raises exactly that exception, whatever follows |
| Comprehension.FailureHasCause | AppAPI.py:83 | a failed comprehension raised the exception of some element all of whose predecessors mapped |
| Comprehension.MapAllCons | AppAPI.py:88 | the head is mapped before the rest; its exception wins |
| Comprehension.MapAllAppend | AppAPI.py:88 | mapping a concatenation maps the front, then the back, and concatenates the results; the front's exception comes first |
| Client.RequestUrl | AppAPI.py:11 | the URL is the base URL unchanged, one `/`, then the endpoint unchanged |
| Client.TrailingSlashDoubles | AppAPI.py:11 | a base URL ending in `/` puts `//` before the endpoint |
| Client.RequestUrlInjective | AppAPI.py:11 | on one client, distinct endpoints are requested at distinct URLs |
| Client.FetchData | AppAPI.py:9-16 | status 200 gives the parsed body; the call raises iff the status is not 200 and `raise_for_status` raises, and then with HTTPError of that status; a non-200 status that passes gives `[]` |
| Client.FetchReadsOneUrl | AppAPI.py:11-16 | the outcome depends only on the response to the one requested URL and the status rule applied to it |
| Client.FetchUnderRequests | AppAPI.py:12-16 | under the `requests` rule the fetch raises iff the status is 4xx or 5xx; any other status but 200 gives `[]` |
| Service.ToPost | AppAPI.py:83 | a post is built iff the element is a dict with `id`, `userId`, `title` and `body`, copying those values into `post_id`, `user_id`, `title`, `body`; a non-dict raises TypeError; a dict missing a key raises KeyError naming a missing one |
| Service.GeoOf | AppAPI.py:92 | `Geo` is built iff `user_data['address']['geo']` has `lat` and `lng`, from those values; errors are KeyError or TypeError |
| Service.AddressOf | AppAPI.py:93 | `Address` is built iff `user_data['address']` is a dict with `street`, `suite`, `city`, `zipcode`, from those values and the given geo |
| Service.CompanyOf | AppAPI.py:94 | `Company` is built iff `user_data['company']` has `name`, `catchPhrase`, `bs`; `catchPhrase` lands in `c_frase` |
| Service.CreateUser | AppAPI.py:90-95 | a user is built iff every key `_create_user` subscripts is present at its level; geo, address and company are those of the three lines; the six direct fields are copied; a non-dict raises TypeError; only KeyError or TypeError can arise |
| Service.DecodeCollection | AppAPI.py:83 | a list body is mapped by the comprehension; an empty dict or string gives `[]`; any other non-list raises TypeError |
| Service.GetPosts | AppAPI.py:80-83 | a fetch exception propagates unchanged; on a fetched list, posts are returned iff every element builds, one per element, in order |
| Service.GetUsers | AppAPI.py:85-88 | as `get_posts`, with `_create_user` on every element of the `users` list |
| ServiceProperties.UserJsonFields | AppAPI.py:62-70 | the API's user object holds exactly the eight keys, each with the matching record field |
| ServiceProperties.NestedPartsDecode | AppAPI.py:92-94 | address and company objects in the API's shape decode to the geo, address and company they were written from |
| ServiceProperties.PostRoundTrip | AppAPI.py:20-24 | a post served in the API's shape decodes back to the same post, whatever the kinds of its values |
| ServiceProperties.PostLossless | AppAPI.py:83 | a decoded post agrees with its object on every key the element expression reads |
| ServiceProperties.UserRoundTrip | AppAPI.py:90-95 | a user served in the API's shape decodes back to the same user |
| ServiceProperties.GeoLossless | AppAPI.py:92 | a decoded geo keeps `lat` and `lng` as they were |
| ServiceProperties.AddressLossless | AppAPI.py:93 | a decoded address keeps its four strings as they were |
| ServiceProperties.CompanyLossless | AppAPI.py:94 | a decoded company keeps its three values, `catchPhrase` included |
| ServiceProperties.UserLossless | AppAPI.py:95 | a decoded user agrees with the user object on every direct key `_create_user` reads |
| ServiceProperties.MissingEmailFails | AppAPI.py:95 | a user object lacking only `email` raises KeyError('email') |
| ServiceProperties.StringsRejected | AppAPI.py:83 | both element expressions raise TypeError on any string, the fact that makes dict and string bodies behave as described |
| ServiceProperties.GetPostsCopiesFields | AppAPI.py:83 | post `i` holds the `id`, `userId`, `title` and `body` of element `i` of the fetched list |
| ServiceProperties.GetPostsDecodesAll | AppAPI.py:80-83 | a fetched list whose every element builds a post gives exactly those posts in order |
| ServiceProperties.GetUsersDecodesAll | AppAPI.py:85-88 | a fetched list whose every element builds a user gives exactly those users in order |
| ServiceProperties.HttpErrorOnlyFromFetch | AppAPI.py:80-88 | an HTTPError out of `get_posts` or `get_users` is the one `fetch_data` raised |
| ServiceProperties.GetPostsFailsFast | AppAPI.py:83 | the first post that cannot be built decides the exception of `get_posts` |
| ServiceProperties.GetUsersFailsFast | AppAPI.py:88 | the first user that cannot be built decides the exception of `get_users` |
| ServiceProperties.PassingStatusGivesNothing | AppAPI.py:14-16 | a non-200 status that `raise_for_status` lets through gives no posts, and no users, rather than an error |
| ServiceProperties.GetPostsReadsPostsUrl | AppAPI.py:82 | `get_posts` depends only on the answer for `base_url + "/posts"` |
| ServiceProperties.GetUsersReadsUsersUrl | AppAPI.py:87 | `get_users` depends only on the answer for `base_url + "/users"` |
| SourceOrder.Walks | AppAPI.py:92-95 | argument chains evaluated left to right from the element, stopping at the first exception: it succeeds iff every chain does, and then holds each chain's value in order |
| SourceOrder.KeyChains | AppAPI.py:83 | the literal-order chains read, key for key and in the same order, the keys the decoders of `Service` read: one key per post argument, `address`/`company` then a key for the nested ones |
| SourceOrder.WalksCons | AppAPI.py:83 | the arguments' chains are evaluated head first |
| SourceOrder.Walk1 | AppAPI.py:83 | a one-key chain is one subscript |
| SourceOrder.Walk2 | AppAPI.py:93 | a two-key chain subscripts twice, stopping at the first exception |
| SourceOrder.Walk3 | AppAPI.py:92 | a three-key chain subscripts three times, stopping at the first exception |
| SourceOrder.ToPostInSourceOrder | AppAPI.py:83 | the post expression evaluated argument by argument gives the same post or the same first exception as `ToPost` |
| SourceOrder.GeoOfInSourceOrder | AppAPI.py:92 | re-reading `address` and `geo` for each argument gives the same geo or exception as `GeoOf` |
| SourceOrder.AddressOfInSourceOrder | AppAPI.py:93 | re-reading `address` for each argument gives the same address or exception as `AddressOf` |
| SourceOrder.CompanyOfInSourceOrder | AppAPI.py:94 | re-reading `company` for each argument gives the same company or exception as `CompanyOf` |
| SourceOrder.TopInSourceOrder | AppAPI.py:95 | the six direct reads of the `User(...)` line, left to right, stopping at the first exception |
| SourceOrder.CreateUserByLines | AppAPI.py:92-95 | `_create_user` is its four lines in order, the last one's reads as evaluated in the source |
| SourceOrder.WalksAppend | AppAPI.py:92-95 | evaluating two lines' chains one after the other concatenates their values, the earlier exception first |
| SourceOrder.UserWalksByLines | AppAPI.py:92-95 | the fifteen chains of `_create_user` are the four lines' chains in order |
| SourceOrder.CreateUserFromLines | AppAPI.py:92-95 | when every line's chains succeed, the user is built from each line's values |
| SourceOrder.CreateUserValuesInSourceOrder | AppAPI.py:92-95 | when all fifteen chains succeed, the user holds their values in the source's argument positions |
| SourceOrder.LinesConcatenated | AppAPI.py:92-95 | positions of each line's values among the fifteen |
| SourceOrder.CreateUserErrorInSourceOrder | AppAPI.py:92-95 | when a chain raises, `CreateUser` raises that same first exception |
| Fixtures.GetPostsSuccess | AppAPI_test.py:78-83 | the two mock posts decode; the first is titled "Post 1", the second belongs to user 2 |
| Fixtures.MockServesUsers | AppAPI_test.py:87 | the registered users URL serves the mock users |
| Fixtures.TwoServedUsers | AppAPI_test.py:86-89 | two users served in the API's shape come back as those two users |
| Fixtures.GetUsersSuccess | AppAPI_test.py:86-91 | the two mock users decode; the first is "User 1", the second has email "user2@example.com" |
| Fixtures.FetchDataParametrized | AppAPI_test.py:94-101 | `fetch_data` returns both mocked lists, two elements each |
| Fixtures.FetchDataFailure | AppAPI_test.py:104-107 | a 404 on `posts` raises HTTPError(404), and `get_posts` passes it on |
| Fixtures.MainRequestsDoubleSlash | AppAPI.py:100 | `main`'s base URL requests `…//posts`, not the URL the tests register |

## Left out

- The network exchange of `requests.get`: it is the parameter `Http.get`, which always yields a status and a parsed body. The exceptions `requests.get` raises itself (`ConnectionError`, `Timeout`, `TooManyRedirects` and the like) are not modelled.
- `response.json()`: parsing, and the JSONDecodeError a 200 answer with a non-JSON body would raise. The body arrives already parsed.
- The exact status rule of `raise_for_status`: it is the parameter `Http.raiseForStatus`, and the general lemmas hold for any rule. `RequestsRaiseForStatus` is the rule of `requests`, used by `Client.FetchUnderRequests` and the fixtures.
- The `__repr__` methods. They only format strings for printing.
- `main`: its printing, and the IndexError that `posts[0]` would raise on an empty list. Only its base URL is modelled.
- Floating-point numbers in bodies: `JFloat` holds a `real`, and no rounding is modelled. Decoding copies values and never computes with them.
- The order in which a dict yields its keys: it is not modelled. On a non-empty dict body the first key is rejected whatever it is, which `ServiceProperties.StringsRejected` shows.
- DecodeCollection: its requires demands that the element expression reject every string with TypeError. The source makes no such demand because it has only two element expressions; both meet it, as `ServiceProperties.StringsRejected` proves.
- Records are values, not mutable objects: the source's constructors only store their arguments, and nothing updates the records afterwards.
- The pytest harness and its markers. The integration test and the unit test at AppAPI_test.py:110-120 repeat the length checks of `Fixtures.GetPostsSuccess` and `Fixtures.GetUsersSuccess`.
- `requests_mock`'s exception for an unregistered URL: the mock transport here answers such a URL with 404 instead.
