/** Go error values and the one structured error the library hands to its
    callers. */
module Errors {
  import opened Common
  import opened Decimal
  import opened Response

  /** A Go error value. The sentinels are compared by identity in Go, so
      each is its own constructor: an Other error whose message happens to
      equal a sentinel's is still a different error. */
  datatype Error =
    | ErrInvalidResponseHeaders     // missing or malformed status headers
    | ErrResponseError              // the server reported status Error
    | ErrUnlockingKeyring           // the keyring exists but cannot be unlocked
    | ErrNotFound                   // the keyring holds no entry for the user
    | Classified(re: ResponseErr)   // a *ResponseErr used as an error
    | Other(message: string)        // any other error, known by its message

  /** ResponseErr: the response, if one was received, and the cause. */
  datatype ResponseErr = ResponseErr(response: Option<RestRequestResponse>, err: Option<Error>)

  /** err.Error(): the sentinels' fixed texts, a ResponseErr's rendering,
      and any other error's own message. */
  function Message(e: Error): (m: string)
    decreases e, 1
    ensures e == ErrInvalidResponseHeaders ==> m == "Invalid response headers"
    ensures e == ErrResponseError ==> m == "response returned an error"
    ensures e.Classified? ==> m == ErrorString(e.re)
    ensures e.Other? ==> m == e.message
  {
    match e
    case ErrInvalidResponseHeaders => "Invalid response headers"
    case ErrResponseError => "response returned an error"
    case ErrUnlockingKeyring => "Error unlocking keyring"
    case ErrNotFound => "secret not found in keyring"
    case Classified(re) => ErrorString(re)
    case Other(m) => m
  }

  /** The text (*ResponseErr).Error() gives for a received response. */
  function ResponseText(code: int, message: string): string {
    "HTTPCode: " + Itoa(code) + "; Message: " + message
  }

  /** (*ResponseErr).Error(): a received response wins over the cause; with
      neither, a fixed fallback. */
  function ErrorString(re: ResponseErr): (s: string)
    decreases re, 0
    ensures re.response.Some? ==> s == ResponseText(re.response.value.httpCode, re.response.value.message)
    ensures re.response.None? && re.err.Some? ==> s == Message(re.err.value)
    ensures re.response.None? && re.err.None? ==> s == "Unexpected error"
  {
    if re.response.Some? then
      ResponseText(re.response.value.httpCode, re.response.value.message)
    else if re.err.Some? then
      Message(re.err.value)
    else
      "Unexpected error"
  }

  /** The text before the first ';'. */
  function UpToSemicolon(s: string): string {
    if s == [] || s[0] == ';' then [] else [s[0]] + UpToSemicolon(s[1..])
  }

  lemma {:induction false} UpToSemicolonAppend(d: string, r: string)
    requires forall i :: 0 <= i < |d| ==> d[i] != ';'
    ensures UpToSemicolon(d + r) == d + UpToSemicolon(r)
  {
    if d != [] {
      assert d[0] != ';' && (d + r)[0] == d[0] && (d + r)[1..] == d[1..] + r;
      assert UpToSemicolon(d + r) == [d[0]] + UpToSemicolon(d[1..] + r);
      UpToSemicolonAppend(d[1..], r);
      assert d + UpToSemicolon(r) == [d[0]] + (d[1..] + UpToSemicolon(r));
    } else {
      assert d + r == r;
    }
  }

  /** A common prefix can be cancelled. */
  lemma PrefixCancel(p: string, x: string, y: string)
    requires p + x == p + y
    ensures x == y
  {
    assert x == (p + x)[|p|..];
    assert y == (p + y)[|p|..];
  }

  /** A printed code followed by text opening with ';' can be cut off at
      that ';', since %d never writes one. */
  lemma CodeCut(c1: int, r1: string, c2: int, r2: string)
    requires Itoa(c1) + r1 == Itoa(c2) + r2
    requires r1 != [] && r1[0] == ';' && r2 != [] && r2[0] == ';'
    ensures Itoa(c1) == Itoa(c2)
  {
    ItoaAlphabet(c1);
    ItoaAlphabet(c2);
    UpToSemicolonAppend(Itoa(c1), r1);
    UpToSemicolonAppend(Itoa(c2), r2);
    assert UpToSemicolon(r1) == [] == UpToSemicolon(r2);
    assert Itoa(c1) + [] == Itoa(c1) && Itoa(c2) + [] == Itoa(c2);
  }

  /** The rendering of a received response identifies its HTTP code and its
      message: two responses print alike only if both agree. */
  lemma ResponseTextInjective(c1: int, m1: string, c2: int, m2: string)
    requires ResponseText(c1, m1) == ResponseText(c2, m2)
    ensures c1 == c2 && m1 == m2
  {
    var p, q := "HTTPCode: ", "; Message: ";
    var t1, t2 := Itoa(c1) + (q + m1), Itoa(c2) + (q + m2);
    assert ResponseText(c1, m1) == p + t1;
    assert ResponseText(c2, m2) == p + t2;
    PrefixCancel(p, t1, t2);
    CodeCut(c1, q + m1, c2, q + m2);
    ItoaInjective(c1, c2);
    PrefixCancel(Itoa(c1), q + m1, q + m2);
    PrefixCancel(q, m1, m2);
  }

  /** The error passed in the variadic slot: the first one, nil counting as
      none. */
  function FirstError(errs: seq<Option<Error>>): (e: Option<Error>)
    ensures e.Some? <==> |errs| > 0 && errs[0].Some?
    ensures e.Some? ==> e == errs[0]
  {
    if |errs| > 0 && errs[0].Some? then errs[0] else None
  }

  /** NewErrorFromResponse(r, err...). */
  function NewErrorFromResponse(r: Option<RestRequestResponse>, errs: seq<Option<Error>>): (re: ResponseErr)
    ensures re.response == r
    ensures FirstError(errs).Some? ==> re.err == FirstError(errs)
    ensures FirstError(errs).None? && r.Some? && r.value.status == ResponseError
            ==> re.err == Some(ErrResponseError)
    ensures FirstError(errs).None? && (r.None? || r.value.status != ResponseError)
            ==> re.err.None?
  {
    var e := FirstError(errs);
    if r.Some? then
      var e' := if r.value.status == ResponseError && e.None? then Some(ErrResponseError) else e;
      ResponseErr(r, e')
    else
      ResponseErr(None, e)
  }

  /** A classified error always has something to say: it is never the
      fallback text when a response or a cause is present. */
  lemma ClassifiedText(r: Option<RestRequestResponse>, errs: seq<Option<Error>>)
    requires r.Some? || FirstError(errs).Some?
    ensures ErrorString(NewErrorFromResponse(r, errs)) != "Unexpected error"
            || (r.None? && Message(FirstError(errs).value) == "Unexpected error")
  {
  }
}
