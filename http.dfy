/** The HTTP side of a request as the SDK sees it: the outcome of one attempt,
    the request that is sent, the backoff between attempts and the slash
    trimming applied to URLs. The transport itself is not part of the model. */
module Http {
  import opened Wrappers
  import opened Json

  /** The body of an HTTP response: `response.json()` either parses or raises. */
  datatype ReplyBody = Parsed(doc: Value) | Unparsable

  /** What one attempt at sending a request produced: a response (status,
      body and raw `response.text`), an httpx timeout, an httpx network error,
      or some other exception raised by the transport. */
  datatype Attempt =
    | Reply(status: int, body: ReplyBody, text: string)
    | TimedOut
    | NetworkDown
    | Failed(name: string)

  /** `urljoin(base, path)`, kept as its two parts. */
  datatype Url = Url(base: string, path: string)

  /** The body of a request: form fields (`data=`) or a JSON document (`json=`). */
  datatype Payload = Form(fields: map<string, Value>) | JsonPayload(doc: Option<map<string, Value>>)

  datatype Request = Request(
    verb: string,
    url: Url,
    headers: map<string, string>,
    payload: Payload,
    params: Option<map<string, Value>>,
    timeout: real)

  const BearerPrefix := "Bearer "

  function Pow2(n: nat): (p: nat)
    ensures p >= 1
  {
    if n == 0 then 1 else 2 * Pow2(n - 1)
  }

  lemma {:induction false} Pow2AtLeast16(n: nat)
    requires n >= 4
    ensures Pow2(n) >= 16
  {
    if n > 4 {
      Pow2AtLeast16(n - 1);
    }
  }

  /** The pause before the next attempt: `min(2**attempt, 10)` seconds, so
      1, 2, 4, 8 and then 10 for ever. */
  function Backoff(attempt: nat): (d: nat)
    ensures 1 <= d <= 10
    ensures attempt <= 3 ==> d == Pow2(attempt)
    ensures attempt >= 4 ==> d == 10
  {
    if attempt >= 4 then Pow2AtLeast16(attempt); 10
    else var p := Pow2(attempt); if p < 10 then p else 10
  }

  /** Each pause is twice the one before it, until the cap of 10 seconds. */
  lemma BackoffDoubles(attempt: nat)
    ensures Backoff(attempt + 1) == if 2 * Backoff(attempt) < 10 then 2 * Backoff(attempt) else 10
  {
    if attempt >= 3 {
      assert Backoff(attempt) >= 8 by {
        if attempt == 3 {
          assert Pow2(3) == 2 * Pow2(2) == 4 * Pow2(1) == 8;
        }
      }
    } else {
      assert Pow2(attempt + 1) == 2 * Pow2(attempt);
    }
  }

  /** `s.rstrip("/")`: the longest prefix of s that does not end in a slash
      and leaves only slashes behind. */
  function StripTrailingSlashes(s: string): (r: string)
    ensures |r| <= |s| && r == s[..|r|]
    ensures r == [] || r[|r| - 1] != '/'
    ensures forall i :: |r| <= i < |s| ==> s[i] == '/'
  {
    if |s| > 0 && s[|s| - 1] == '/' then StripTrailingSlashes(s[..|s| - 1]) else s
  }

  /** `s.lstrip("/")`: the longest suffix of s that does not start with a
      slash and has only slashes before it. */
  function StripLeadingSlashes(s: string): (r: string)
    ensures |r| <= |s| && r == s[|s| - |r|..]
    ensures r == [] || r[0] != '/'
    ensures forall i :: 0 <= i < |s| - |r| ==> s[i] == '/'
  {
    if |s| > 0 && s[0] == '/' then StripLeadingSlashes(s[1..]) else s
  }
}
