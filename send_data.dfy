/** One delivery attempt over XMLHttpRequest: which request headers are set,
    and how the final HTTP status is reported to the caller's callback.
 */
module SendData {
  import opened Js

  /** What the callback receives once the request is done: an error
      carrying its message, or success together with the response status. */
  datatype Completion = Failure(error: string) | Success(status: nat)

  /** The statuses reported as errors: 429 (too many requests) and every 5xx. */
  predicate IsErrorStatus(status: nat) {
    status == 429 || 500 <= status < 600
  }

  /** The decimal spelling of a number, as JavaScript's string concatenation writes it. */
  function Decimal(n: nat): (s: string)
    ensures |s| > 0
    ensures forall i :: 0 <= i < |s| ==> '0' <= s[i] <= '9'
    ensures |s| > 1 ==> s[0] != '0'
  {
    if n < 10 then [Digit(n)]
    else
      var prefix := Decimal(n / 10);
      assert forall i :: 0 <= i < |prefix| ==> (prefix + [Digit(n % 10)])[i] == prefix[i];
      prefix + [Digit(n % 10)]
  }

  function Digit(d: nat): (c: char)
    requires d < 10
    ensures '0' <= c <= '9'
  {
    ('0' as int + d) as char
  }

  /** The number a string of decimal digits spells. */
  function ParseDecimal(s: string): nat
    requires forall i :: 0 <= i < |s| ==> '0' <= s[i] <= '9'
  {
    if s == [] then 0
    else ParseDecimal(s[..|s| - 1]) * 10 + (s[|s| - 1] as int - '0' as int)
  }

  /** The decimal spelling of a status can be read back: the status in an
      error message is exactly the one received. */
  lemma {:induction false} DecimalRoundTrip(n: nat)
    ensures ParseDecimal(Decimal(n)) == n
  {
    if n >= 10 {
      DecimalRoundTrip(n / 10);
      assert Decimal(n)[..|Decimal(n)| - 1] == Decimal(n / 10);
    }
  }

  /** `'HTTP Error ' + status + ' (' + statusText + ')'`. */
  function ErrorMessage(status: nat, statusText: string): string {
    "HTTP Error " + Decimal(status) + " (" + statusText + ")"
  }

  /** The outcome of a finished request with the given status. */
  function Classify(status: nat, statusText: string): (c: Completion)
    ensures c.Failure? <==> IsErrorStatus(status)
    ensures c.Failure? ==> c.error == ErrorMessage(status, statusText)
    ensures c.Success? ==> c.status == status
  {
    if status == 429 || (status >= 500 && status < 600) then
      Failure(ErrorMessage(status, statusText))
    else
      Success(status)
  }

  /** Every status outside 429 and 5xx is reported as success: 2xx, 3xx,
      every 4xx other than 429, and anything from 600 up. */
  lemma SuccessStatuses(status: nat, statusText: string)
    ensures status < 429 ==> Classify(status, statusText).Success?
    ensures 430 <= status < 500 ==> Classify(status, statusText).Success?
    ensures status >= 600 ==> Classify(status, statusText).Success?
  {
  }

  /** The `onreadystatechange` handler: the callback fires only when the
      request reaches `readyState` 4 (DONE), with the classified outcome. */
  function OnReadyStateChange(readyState: nat, status: nat, statusText: string): (r: Option<Completion>)
    ensures r.Some? <==> readyState == 4
    ensures r.Some? ==> r.value == Classify(status, statusText)
  {
    if readyState == 4 then Some(Classify(status, statusText)) else None
  }

  /** The headers `sendData` sets on the request, in the order they are set:
      those entries whose name is non-empty and whose value is truthy. */
  function SentHeaders(headers: seq<(string, JsString)>): seq<(string, string)> {
    if headers == [] then []
    else
      var (key, value) := headers[0];
      (if key != "" && Truthy(value) then [(key, value.value)] else []) + SentHeaders(headers[1..])
  }

  /** Filtering a concatenation is concatenating the filtered parts. */
  lemma {:induction false} SentHeadersAppend(a: seq<(string, JsString)>, b: seq<(string, JsString)>)
    ensures SentHeaders(a + b) == SentHeaders(a) + SentHeaders(b)
  {
    if a == [] {
      assert a + b == b;
    } else {
      SentHeadersAppend(a[1..], b);
      assert (a + b)[0] == a[0];
      assert (a + b)[1..] == a[1..] + b;
    }
  }

  /** A header is set exactly when an entry with a non-empty name carries it
      as a truthy value. */
  lemma {:induction false} SentHeadersExactly(headers: seq<(string, JsString)>, key: string, value: string)
    ensures (key, value) in SentHeaders(headers) <==> key != "" && value != "" && (key, Some(value)) in headers
  {
    if headers != [] {
      SentHeadersExactly(headers[1..], key, value);
      var (k, v) := headers[0];
      var head := if k != "" && Truthy(v) then [(k, v.value)] else [];
      assert SentHeaders(headers) == head + SentHeaders(headers[1..]);
      assert (key, value) in head <==> key == k && key != "" && value != "" && v == Some(value);
      assert (key, Some(value)) in headers <==> headers[0] == (key, Some(value)) || (key, Some(value)) in headers[1..] by {
        assert headers == [headers[0]] + headers[1..];
      }
    }
  }

  /** A request being prepared: the `setRequestHeader` calls made on it so far. */
  class Request {
    var requestHeaders: seq<(string, string)>

    constructor ()
      ensures requestHeaders == []
    {
      requestHeaders := [];
    }

    /** `setRequestHeader(name, value)`. */
    method SetRequestHeader(name: string, value: string)
      modifies this
      ensures requestHeaders == old(requestHeaders) + [(name, value)]
    {
      requestHeaders := requestHeaders + [(name, value)];
    }
  }

  /** The `for (const key in headers)` loop of `sendData`. */
  method SetHeaders(request: Request, headers: seq<(string, JsString)>)
    modifies request
    ensures request.requestHeaders == old(request.requestHeaders) + SentHeaders(headers)
  {
    for i := 0 to |headers|
      invariant request.requestHeaders == old(request.requestHeaders) + SentHeaders(headers[..i])
    {
      var (key, value) := headers[i];
      SentHeadersAppend(headers[..i], [headers[i]]);
      assert headers[..i + 1] == headers[..i] + [headers[i]];
      if key != "" && Truthy(value) {
        request.SetRequestHeader(key, value.value);
      }
    }
    assert headers[..|headers|] == headers;
  }
}
