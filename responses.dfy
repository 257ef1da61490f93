/**
 * The response record a context writes to: status code, headers, body and
 * whether the status line has been committed. The network writer behind it
 * is not modelled; writes to it are taken to succeed.
 */
module Responses {

  const HeaderContentType := "Content-Type"
  const HeaderLocation := "Location"

  const MIMEApplicationJSONCharsetUTF8 := "application/json; charset=UTF-8"
  const MIMEApplicationJavaScriptCharsetUTF8 := "application/javascript; charset=UTF-8"
  const MIMETextPlainCharsetUTF8 := "text/plain; charset=UTF-8"
  const MIMETextHTMLCharsetUTF8 := "text/html; charset=UTF-8"

  const StatusOK := 200
  const StatusMovedPermanently := 301

  datatype Response = Response(status: int, header: map<string, string>, body: string, committed: bool)

  /** A response nothing has been written to yet. */
  const Initial := Response(StatusOK, map[], "", false)

  /** Sets one header, replacing any earlier value under that name. */
  function SetHeader(r: Response, key: string, value: string): (r': Response)
    ensures key in r'.header && r'.header[key] == value
    ensures forall k :: k in r.header && k != key ==> k in r'.header && r'.header[k] == r.header[k]
    ensures r'.header.Keys == r.header.Keys + {key}
    ensures r'.status == r.status && r'.body == r.body && r'.committed == r.committed
  {
    r.(header := r.header[key := value])
  }

  /** The status is written once: a second `WriteHeader` leaves it as it was. */
  function WriteHeader(r: Response, code: int): (r': Response)
    ensures r'.committed
    ensures r'.status == (if r.committed then r.status else code)
    ensures r'.header == r.header && r'.body == r.body
  {
    if r.committed then r else r.(status := code, committed := true)
  }

  /** Appends to the body, committing status 200 first if nothing was committed. */
  function Write(r: Response, b: string): (r': Response)
    ensures r'.committed
    ensures r'.status == (if r.committed then r.status else StatusOK)
    ensures r'.body == r.body + b && r'.header == r.header
  {
    WriteHeader(r, StatusOK).(body := r.body + b)
  }

  /** `Blob`: content type, then status, then the bytes. */
  function Blob(r: Response, code: int, contentType: string, b: string): (r': Response)
    ensures r'.committed && r'.body == r.body + b
    ensures r'.header == r.header[HeaderContentType := contentType]
    ensures r'.status == (if r.committed then r.status else code)
  {
    Write(WriteHeader(SetHeader(r, HeaderContentType, contentType), code), b)
  }

  /**
   * `JSONP` wraps the encoded payload in a call of the callback: the frame
   * starts with the callback and an opening parenthesis, ends with ");", and
   * holds the body unchanged in between.
   */
  function JSONPFrame(callback: string, body: string): (f: string)
    ensures |f| == |callback| + |body| + 3
    ensures f[..|callback|] == callback && f[|callback|] == '('
    ensures f[|callback| + 1..|f| - 2] == body && f[|f| - 2..] == ");"
  {
    callback + "(" + body + ");"
  }

  /** For a fixed callback, different payloads give different frames. */
  lemma JSONPFrameInjective(callback: string, b1: string, b2: string)
    requires JSONPFrame(callback, b1) == JSONPFrame(callback, b2)
    ensures b1 == b2
  {
    var f := JSONPFrame(callback, b1);
    assert b1 == f[|callback| + 1..|f| - 2];
  }

  /** The status codes `Redirect` accepts: 300 to 308. */
  function ValidRedirectCode(code: int): (valid: bool)
    ensures valid ==> code / 100 == 3
    ensures code == StatusMovedPermanently ==> valid
  {
    300 <= code <= 308
  }

  /** What a valid redirect writes: the `Location` header, then the status. */
  function Redirect(r: Response, code: int, url: string): (r': Response)
    requires ValidRedirectCode(code)
    ensures r'.header == r.header[HeaderLocation := url] && r'.body == r.body && r'.committed
    ensures r'.status == (if r.committed then r.status else code)
  {
    WriteHeader(SetHeader(r, HeaderLocation, url), code)
  }
}
