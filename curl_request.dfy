/**
 * The cURL request wrapper: the option array a request is configured with,
 * the split of a raw response into its header block and body, the parsing
 * of the header block into a header map, and header lookup.
 *
 * The cURL calls themselves are not modelled: the raw response `curl_exec`
 * returns is an input to `Exec` (`None` when it returns FALSE), and the
 * header map starts empty instead of with `curl_getinfo`'s fields. A
 * caller's callback is a function on the body.
 */
module CurlRequest {
  import opened Wrappers
  import opened Php

  /** The integer values of the three option constants the constructor sets. */
  const CurloptUrl := 10002
  const CurloptReturnTransfer := 19913
  const CurloptHeader := 42

  /** The options every request starts with. */
  function DefaultOptions(url: string): map<Key, Value> {
    map[IntKey(CurloptUrl) := Str(url), IntKey(CurloptReturnTransfer) := Int(1), IntKey(CurloptHeader) := Int(1)]
  }

  /** `substr($key, 0, 7) == "CURLOPT"`, on the key's string form. */
  predicate IsOptionName(k: Key) {
    Prefix(KeyString(k), 7) == "CURLOPT"
  }

  /** The constructor's filter over the caller's data, entry by entry. */
  function Configure(url: string, data: seq<(Key, Value)>): (config: map<Key, Value>)
    ensures DefaultOptions(url).Keys <= config.Keys
    decreases |data|
  {
    if data == [] then DefaultOptions(url)
    else
      var config := Configure(url, data[..|data| - 1]);
      var (k, v) := data[|data| - 1];
      if IsOptionName(k) then config[k := v] else config
  }

  /** The CRLF that separates header lines, and the blank line that ends the header block. */
  const LineBreak := "\r\n"
  const BlankLine := "\r\n\r\n"
  const HeaderSeparator := ": "

  /** The part of a response before the first blank line; `explode` on FALSE gives one empty piece. */
  function HeaderBlock(response: Option<string>): string {
    if response.None? then "" else ExplodeOnce(response.value, BlankLine)[0]
  }

  /** The part after the first blank line, or NULL when there is none. */
  function Body(response: Option<string>): Option<string> {
    if response.None? then None
    else
      var parts := ExplodeOnce(response.value, BlankLine);
      if |parts| == 2 then Some(parts[1]) else None
  }

  /** The key of a header line: the text before the first `: `. */
  function HeaderKey(line: string): string {
    Explode(line, HeaderSeparator)[0]
  }

  /** The value of a header line: the text between the first and second `: `, or NULL when there is no `: `. */
  function HeaderValue(line: string): Option<string> {
    var parts := Explode(line, HeaderSeparator);
    if |parts| >= 2 then Some(parts[1]) else None
  }

  /** The header map after reading `lines` in order: a later line overwrites an earlier one with the same key. */
  function HeaderMap(lines: seq<string>): map<string, Option<string>>
    decreases |lines|
  {
    if lines == [] then map[]
    else
      var line := lines[|lines| - 1];
      HeaderMap(lines[..|lines| - 1])[HeaderKey(line) := HeaderValue(line)]
  }

  /** `setHeaders`: every line of the block but the first (the status line). */
  function ParseHeaders(block: string): map<string, Option<string>> {
    HeaderMap(Explode(block, LineBreak)[1..])
  }

  /** The default `callback`: the body, unchanged. */
  function IdentityCallback(data: Option<string>): Option<string> {
    data
  }

  /** What `exec` returns for a raw response: the body, passed through the caller's callback when there is one. */
  function ExecResult(callback: Option<Option<string> -> Option<string>>, response: Option<string>): Option<string> {
    if callback.Some? then callback.value(Body(response)) else IdentityCallback(Body(response))
  }

  /** `getHeader`: the stored value; FALSE (`None`) for a key that is absent or stored as NULL. */
  function HeaderLookup(headers: map<string, Option<string>>, key: string): (r: Option<string>)
    ensures r.Some? <==> key in headers && headers[key].Some?
    ensures r.Some? ==> r == headers[key]
  {
    if key in headers then headers[key] else None
  }

  class Request {
    var config: map<Key, Value>
    var headers: map<string, Option<string>>
    var callback: Option<Option<string> -> Option<string>>

    /** The three defaults, then every entry of `data` whose key starts with `CURLOPT`. */
    constructor (url: string, data: seq<(Key, Value)>, callback: Option<Option<string> -> Option<string>>)
      ensures config == Configure(url, data)
      ensures headers == map[]
      ensures this.callback == callback
    {
      var options := DefaultOptions(url);
      var i := 0;
      while i < |data|
        invariant 0 <= i <= |data|
        invariant options == Configure(url, data[..i])
      {
        var (k, v) := data[i];
        if Prefix(KeyString(k), 7) == "CURLOPT" {
          options := options[k := v];
        }
        assert data[..i + 1][..i] == data[..i];
        i := i + 1;
      }
      assert data[..i] == data;
      config := options;
      headers := map[];
      this.callback := callback;
    }

    /** `setHeaders`, starting from an empty map: each line after the status line is split at `: ` and stored. */
    method SetHeaders(block: string)
      modifies this
      ensures headers == ParseHeaders(block)
      ensures config == old(config) && callback == old(callback)
    {
      var lines := Explode(block, LineBreak);
      headers := map[];
      var i := 0;
      while i < |lines|
        invariant 0 <= i <= |lines|
        invariant headers == HeaderMap(if i == 0 then [] else lines[1..i])
        invariant config == old(config) && callback == old(callback)
      {
        if i == 0 {
          i := i + 1;
          continue;
        }
        var parts := Explode(lines[i], HeaderSeparator);
        var value: Option<string> := if |parts| >= 2 then Some(parts[1]) else None;
        headers := headers[parts[0] := value];
        assert lines[1..i + 1][..i - 1] == lines[1..i];
        i := i + 1;
      }
      if i > 0 {
        assert lines[1..i] == lines[1..];
      }
    }

    /** `exec` once `curl_exec` has returned `response`: store the headers and return the (called-back) body. */
    method Exec(response: Option<string>) returns (result: Option<string>)
      modifies this
      ensures headers == ParseHeaders(HeaderBlock(response))
      ensures result == ExecResult(callback, response)
      ensures config == old(config) && callback == old(callback)
    {
      var block := "";
      var data: Option<string> := None;
      if response.Some? {
        var parts := ExplodeOnce(response.value, BlankLine);
        block := parts[0];
        if |parts| == 2 {
          data := Some(parts[1]);
        }
      }
      SetHeaders(block);
      if callback.Some? {
        return callback.value(data);
      }
      return IdentityCallback(data);
    }

    /** `getHeader($key)`. */
    function GetHeader(key: string): (r: Option<string>)
      reads this
      ensures r.Some? <==> key in headers && headers[key].Some?
      ensures r.Some? ==> r == headers[key]
    {
      HeaderLookup(headers, key)
    }
  }
}
