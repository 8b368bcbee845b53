/** The upstream chat-completion client: round-robin choice of the API
    key, the base address without its trailing slash, and the message of
    a failed request. */
module UpstreamClient {
  import opened Common
  import opened Json

  const NoApiKeyMessage := "未找到可用的上游 API Key"

  /** The base address requests go to. */
  function BaseUrl(upstreamBaseUrl: string): (r: string)
    ensures EndsWith(upstreamBaseUrl, "/") ==> r + "/" == upstreamBaseUrl
    ensures !EndsWith(upstreamBaseUrl, "/") ==> r == upstreamBaseUrl
  {
    StripTrailingSlash(upstreamBaseUrl)
  }

  /** How a request failed: an HTTP-client error with the response status
      and the `error.message` of the response body when they exist, or any
      other error, which is passed on unchanged. */
  datatype RequestFailure =
    | HttpError(status: Option<nat>, bodyMessage: Option<string>)
    | OtherError(message: string)

  /** The message of the error a failed request raises. */
  function FailureMessage(failure: RequestFailure): (r: string)
    ensures failure.HttpError? && failure.bodyMessage.Some? ==> r == failure.bodyMessage.value
    ensures failure.HttpError? && failure.bodyMessage.None? ==>
      StartsWith(r, "Upstream request failed with status ") &&
      r[|"Upstream request failed with status "|..] ==
        (if failure.status.Some? then NatToString(failure.status.value) else "unknown")
    ensures failure.OtherError? ==> r == failure.message
  {
    match failure
    case HttpError(status, bodyMessage) =>
      if bodyMessage.Some? then bodyMessage.value
      else "Upstream request failed with status " + (if status.Some? then NatToString(status.value) else "unknown")
    case OtherError(message) => message
  }

  /** The `Authorization` header a request carries for an API key. */
  function AuthorizationHeader(apiKey: string): (h: string)
    ensures StartsWith(h, "Bearer ") && h[|"Bearer "|..] == apiKey
  {
    "Bearer " + apiKey
  }

  /** `response.data.choices.length` can be read: the body is an object
      whose `choices` is present and not null. */
  predicate ChoicesReadable(data: Json) {
    data.JObj? && Get(data.fields, "choices").Some? && !Get(data.fields, "choices").value.JNull?
  }

  /** Reading `response.data.choices.length` for the success log: a
      TypeError, whose message is the engine's, when the body is null or
      its `choices` is missing or null. That error is not an HTTP-client
      error, so it is passed on as the failure of the request. */
  function ReadChoicesLength(data: Json): (r: Result<(), string>)
    ensures r.Success? <==> ChoicesReadable(data)
    ensures data.JNull? ==> r == Failure("Cannot read properties of null (reading 'choices')")
  {
    if data.JNull? then Failure("Cannot read properties of null (reading 'choices')")
    else if !data.JObj? || Get(data.fields, "choices").None? then
      Failure("Cannot read properties of undefined (reading 'length')")
    else if Get(data.fields, "choices").value.JNull? then
      Failure("Cannot read properties of null (reading 'length')")
    else Success(())
  }

  /** `(i + 1) % n` for an index below `n`: the next index, wrapping to 0. */
  function NextIndex(i: nat, n: nat): (r: nat)
    requires i < n
    ensures r < n
    ensures r == (i + 1) % n
  {
    ModOfSmall(i + 1, n);
    if i + 1 < n then i + 1 else 0
  }

  /** The remainder of a number below twice the divisor. */
  lemma ModOfSmall(a: nat, n: nat)
    requires 0 < n && a <= n
    ensures a % n == if a < n then a else 0
  {
  }

  /** The key index after `k` picks starting from `start`. */
  function IndexAfter(start: nat, k: nat, n: nat): (r: nat)
    requires start < n
    ensures r < n
  {
    if k == 0 then start else NextIndex(IndexAfter(start, k - 1, n), n)
  }

  /** Within one round, `k` picks move the index `k` places on, wrapping
      once past the end. */
  lemma {:induction false} IndexAfterIsSum(start: nat, k: nat, n: nat)
    requires start < n && k <= n
    ensures IndexAfter(start, k, n) == if start + k < n then start + k else start + k - n
  {
    if k > 0 {
      IndexAfterIsSum(start, k - 1, n);
    }
  }

  /** After as many picks as there are keys the index is back where it
      started. */
  lemma FullCycle(start: nat, n: nat)
    requires start < n
    ensures IndexAfter(start, n, n) == start
  {
    IndexAfterIsSum(start, n, n);
  }

  /** The keys handed out by `count` successive picks from index `start`. */
  function KeysPicked(keys: seq<string>, start: nat, count: nat): (r: seq<string>)
    requires start < |keys|
    ensures |r| == count
  {
    if count == 0 then [] else KeysPicked(keys, start, count - 1) + [keys[IndexAfter(start, count - 1, |keys|)]]
  }

  /** The `j`-th pick returns the key at the `j`-th index after `start`. */
  lemma {:induction false} PicksInOrder(keys: seq<string>, start: nat, count: nat)
    requires start < |keys|
    ensures forall j :: 0 <= j < count ==> KeysPicked(keys, start, count)[j] == keys[IndexAfter(start, j, |keys|)]
  {
    if count > 0 {
      PicksInOrder(keys, start, count - 1);
    }
  }

  /** The picks hand out the keys cyclically in list order: a full round
      from index `start` is the list rotated to begin at `start`. */
  lemma PicksAreRotation(keys: seq<string>, start: nat)
    requires start < |keys|
    ensures KeysPicked(keys, start, |keys|) == keys[start..] + keys[..start]
  {
    var n := |keys|;
    var rotated := keys[start..] + keys[..start];
    PicksInOrder(keys, start, n);
    forall j | 0 <= j < n
      ensures KeysPicked(keys, start, n)[j] == rotated[j]
    {
      IndexAfterIsSum(start, j, n);
    }
  }

  /** The module-level key rotation: the configured keys, which the
      configuration guarantees are not empty, and the index of the next
      key to use. */
  class KeyPool {
    const keys: seq<string>
    var keyIndex: nat

    ghost predicate Valid()
      reads this
    {
      |keys| > 0 && keyIndex < |keys|
    }

    constructor(keys: seq<string>)
      requires |keys| > 0
      ensures Valid() && this.keys == keys && keyIndex == 0
    {
      this.keys := keys;
      keyIndex := 0;
    }

    /** `pickApiKey()`: takes the key at the index and moves the index on
        before looking at the key; an empty key is an error. */
    method PickApiKey() returns (r: Result<string, string>)
      requires Valid()
      modifies this`keyIndex
      ensures Valid()
      ensures keyIndex == NextIndex(old(keyIndex), |keys|)
      ensures keys[old(keyIndex)] == "" ==> r == Failure(NoApiKeyMessage)
      ensures keys[old(keyIndex)] != "" ==> r == Success(keys[old(keyIndex)])
    {
      ModOfSmall(keyIndex, |keys|);
      var key := keys[keyIndex % |keys|];
      keyIndex := (keyIndex + 1) % |keys|;
      if key == "" {
        return Failure(NoApiKeyMessage);
      }
      return Success(key);
    }

    /** `requestChatCompletion()`: picks exactly one key, then sends the
        request with the header `Bearer <key>` (`send` stands for the HTTP
        call and receives the header value). A reply whose `choices` cannot
        be read for the log fails the request as well. */
    method RequestChatCompletion(send: string -> Result<Json, RequestFailure>) returns (r: Result<Json, string>)
      requires Valid()
      modifies this`keyIndex
      ensures Valid()
      ensures keyIndex == NextIndex(old(keyIndex), |keys|)
      ensures keys[old(keyIndex)] == "" ==> r == Failure(NoApiKeyMessage)
      ensures keys[old(keyIndex)] != "" ==>
        var outcome := send(AuthorizationHeader(keys[old(keyIndex)]));
        r == (if outcome.Failure? then Failure(FailureMessage(outcome.error))
              else if ReadChoicesLength(outcome.value).Failure? then Failure(ReadChoicesLength(outcome.value).error)
              else Success(outcome.value))
      ensures r.Success? ==> ChoicesReadable(r.value)
    {
      var apiKey := PickApiKey();
      if apiKey.Failure? {
        return Failure(apiKey.error);
      }
      var outcome := send(AuthorizationHeader(apiKey.value));
      if outcome.Failure? {
        return Failure(FailureMessage(outcome.error));
      }
      var logged := ReadChoicesLength(outcome.value);
      if logged.Failure? {
        return Failure(logged.error);
      }
      return Success(outcome.value);
    }
  }
}
