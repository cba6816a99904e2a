/**
 * What the request wrapper guarantees: which options a request is
 * configured with, and that a well-formed response is split and parsed back
 * into the header fields and body it was written from.
 */
module CurlRequestProofs {
  import opened Wrappers
  import opened Php
  import opened CurlRequest

  // =====================================================================
  // Options

  /** Entry `i` of `data` is the last one with its key. */
  predicate LastEntry(data: seq<(Key, Value)>, i: int) {
    0 <= i < |data| && forall j :: i < j < |data| ==> data[j].0 != data[i].0
  }

  /** The string form of an integer key starts with a digit or `-`, never with `CURLOPT`. */
  lemma IntegerKeysAreNotOptionNames(i: int)
    ensures !IsOptionName(IntKey(i))
  {
    IntToStringChars(i);
    var s := IntToString(i);
    if |s| > 0 {
      assert Prefix(s, 7)[0] == s[0];
    }
  }

  /** Some entry of `data` has key `k`, and `k` starts with `CURLOPT`. */
  predicate Copied(data: seq<(Key, Value)>, k: Key) {
    IsOptionName(k) && exists i :: 0 <= i < |data| && data[i].0 == k
  }

  lemma CopiedSnoc(data: seq<(Key, Value)>)
    requires data != []
    ensures forall k :: Copied(data, k) <==>
      Copied(data[..|data| - 1], k) || (k == data[|data| - 1].0 && IsOptionName(k))
  {
    var n := |data| - 1;
    forall k | Copied(data, k) ensures Copied(data[..n], k) || k == data[n].0 {
      var i :| 0 <= i < |data| && data[i].0 == k;
      if i < n {
        assert data[..n][i] == data[i];
      }
    }
    forall k | Copied(data[..n], k) ensures Copied(data, k) {
      var i :| 0 <= i < n && data[..n][i].0 == k;
      assert data[i] == data[..n][i];
    }
  }

  /**
   * The configuration holds the three defaults and every key of the
   * caller's data that starts with `CURLOPT`; nothing else.
   */
  lemma {:induction false} ConfigureKeys(url: string, data: seq<(Key, Value)>)
    ensures forall k :: k in Configure(url, data) <==> k in DefaultOptions(url) || Copied(data, k)
    decreases |data|
  {
    if data != [] {
      ConfigureKeys(url, data[..|data| - 1]);
      CopiedSnoc(data);
    }
  }

  /** A copied key holds the value of the last entry with that key. */
  lemma {:induction false} ConfigureValue(url: string, data: seq<(Key, Value)>, i: int)
    requires LastEntry(data, i) && IsOptionName(data[i].0)
    ensures data[i].0 in Configure(url, data) && Configure(url, data)[data[i].0] == data[i].1
    decreases |data|
  {
    var n := |data| - 1;
    if i < n {
      var front := data[..n];
      assert front[i] == data[i];
      assert LastEntry(front, i) by {
        forall j | i < j < n ensures front[j].0 != front[i].0 {
          assert front[j] == data[j];
        }
      }
      ConfigureValue(url, front, i);
      assert data[n].0 != data[i].0;
    }
  }

  lemma ConfigureValues(url: string, data: seq<(Key, Value)>)
    ensures forall i :: LastEntry(data, i) && IsOptionName(data[i].0) ==>
      data[i].0 in Configure(url, data) && Configure(url, data)[data[i].0] == data[i].1
  {
    forall i | LastEntry(data, i) && IsOptionName(data[i].0)
      ensures data[i].0 in Configure(url, data) && Configure(url, data)[data[i].0] == data[i].1
    {
      ConfigureValue(url, data, i);
    }
  }

  /**
   * The defaults are never replaced, and no integer-keyed entry of the
   * caller's data is copied: the option constants are integers, while the
   * filter only lets through keys whose text starts with `CURLOPT`.
   */
  lemma DefaultsAlwaysKept(url: string, data: seq<(Key, Value)>)
    ensures var c := Configure(url, data);
      c[IntKey(CurloptUrl)] == Str(url) && c[IntKey(CurloptReturnTransfer)] == Int(1) && c[IntKey(CurloptHeader)] == Int(1)
      && forall i :: IntKey(i) in c ==> IntKey(i) in DefaultOptions(url)
  {
    ConfigureKeys(url, data);
    forall i ensures !IsOptionName(IntKey(i)) {
      IntegerKeysAreNotOptionNames(i);
    }
    DefaultsUntouched(url, data);
  }

  /** Entries that are not let through leave the defaults as they were. */
  lemma {:induction false} DefaultsUntouched(url: string, data: seq<(Key, Value)>)
    requires forall i :: !IsOptionName(IntKey(i))
    ensures var c := Configure(url, data);
      c[IntKey(CurloptUrl)] == Str(url) && c[IntKey(CurloptReturnTransfer)] == Int(1) && c[IntKey(CurloptHeader)] == Int(1)
    decreases |data|
  {
    if data != [] {
      DefaultsUntouched(url, data[..|data| - 1]);
    }
  }

  // =====================================================================
  // Splitting at a separator

  /** `sep` does not occur in `s`. */
  ghost predicate Free(s: string, sep: string) {
    forall j :: !OccursAt(s, sep, j)
  }

  /** No carriage return and no line feed: what a status line, header name or header value holds. */
  predicate Clean(s: string) {
    forall k :: 0 <= k < |s| ==> s[k] != '\r' && s[k] != '\n'
  }

  lemma CleanIsFree(s: string, sep: string)
    requires Clean(s) && |sep| > 0 && sep[0] == '\r'
    ensures Free(s, sep)
  {
    forall j ensures !OccursAt(s, sep, j) {
      if 0 <= j && j + |sep| <= |s| {
        assert s[j..j + |sep|][0] == s[j];
      }
    }
  }

  /** With no occurrence starting inside `a`, the first occurrence in `a + sep + b` is the one after `a`. */
  lemma FirstOccurrence(a: string, sep: string, b: string)
    requires |sep| > 0
    requires forall j :: 0 <= j < |a| ==> !OccursAt(a + sep + b, sep, j)
    ensures FindFrom(a + sep + b, sep, 0) == Some(|a|)
  {
    var s := a + sep + b;
    assert s[|a|..|a| + |sep|] == sep;
    assert OccursAt(s, sep, |a|);
  }

  /** A string without the separator is one piece. */
  lemma ExplodeFree(s: string, sep: string)
    requires |sep| > 0 && Free(s, sep)
    ensures Explode(s, sep) == [s]
  {
    assert FindFrom(s, sep, 0).None?;
  }

  /** For a two-character separator whose characters differ, `explode` cuts `a + sep + b` right after `a` when `a` is free of it. */
  lemma SplitAfter(a: string, sep: string, b: string)
    requires |sep| == 2 && sep[0] != sep[1] && Free(a, sep)
    ensures Explode(a + sep + b, sep) == [a] + Explode(b, sep)
  {
    var s := a + sep + b;
    forall j | 0 <= j < |a| ensures !OccursAt(s, sep, j) {
      if j + 2 <= |a| {
        assert s[j..j + 2] == a[j..j + 2];
        assert !OccursAt(a, sep, j);
      } else if j + 2 <= |s| {
        assert s[j..j + 2][1] == s[j + 1] == sep[0];
      }
    }
    FirstOccurrence(a, sep, b);
    assert s[..|a|] == a;
    assert s[|a| + 2..] == b;
  }

  // =====================================================================
  // Header blocks

  /** A header line as a server writes it. */
  function HeaderLine(f: (string, string)): string {
    f.0 + HeaderSeparator + f.1
  }

  /** A header block: the status line, then one line per field, separated by CRLF. */
  function HeaderText(first: string, fields: seq<(string, string)>): string
    decreases |fields|
  {
    if fields == [] then first else first + LineBreak + HeaderText(HeaderLine(fields[0]), fields[1..])
  }

  function Lines(fields: seq<(string, string)>): (r: seq<string>)
    ensures |r| == |fields|
  {
    seq(|fields|, i requires 0 <= i < |fields| => HeaderLine(fields[i]))
  }

  lemma LinesCons(fields: seq<(string, string)>)
    requires fields != []
    ensures Lines(fields) == [HeaderLine(fields[0])] + Lines(fields[1..])
  {
    var r := [HeaderLine(fields[0])] + Lines(fields[1..]);
    forall i | 0 <= i < |fields| ensures Lines(fields)[i] == r[i] {
      if i > 0 {
        assert r[i] == Lines(fields[1..])[i - 1] == HeaderLine(fields[1..][i - 1]);
      }
    }
  }

  /** The fields as one map, a later field overwriting an earlier one of the same name. */
  function FieldsMap(fields: seq<(string, string)>): map<string, Option<string>>
    decreases |fields|
  {
    if fields == [] then map[]
    else FieldsMap(fields[..|fields| - 1])[fields[|fields| - 1].0 := Some(fields[|fields| - 1].1)]
  }

  /** Names and values that can be written on one header line and read back. */
  ghost predicate WellFormed(fields: seq<(string, string)>) {
    forall i :: 0 <= i < |fields| ==>
      Clean(fields[i].0) && Clean(fields[i].1) && Free(fields[i].0, HeaderSeparator) && Free(fields[i].1, HeaderSeparator)
  }

  lemma HeaderLineClean(f: (string, string))
    requires Clean(f.0) && Clean(f.1)
    ensures Clean(HeaderLine(f)) && |HeaderLine(f)| >= 2
  {
  }

  /** The lines of a header block are its status line and its field lines. */
  lemma {:induction false} ExplodeHeaderText(first: string, fields: seq<(string, string)>)
    requires Clean(first) && WellFormed(fields)
    ensures Explode(HeaderText(first, fields), LineBreak) == [first] + Lines(fields)
    decreases |fields|
  {
    if fields == [] {
      CleanIsFree(first, LineBreak);
      ExplodeFree(first, LineBreak);
    } else {
      var line := HeaderLine(fields[0]);
      var rest := fields[1..];
      HeaderLineClean(fields[0]);
      assert WellFormed(rest) by {
        forall i | 0 <= i < |rest| ensures rest[i] == fields[i + 1] { }
      }
      var tail := HeaderText(line, rest);
      assert HeaderText(first, fields) == first + LineBreak + tail;
      ExplodeHeaderText(line, rest);
      CleanIsFree(first, LineBreak);
      SplitAfter(first, LineBreak, tail);
      LinesCons(fields);
    }
  }

  /** A field line reads back as its name and value. */
  lemma HeaderLineParts(f: (string, string))
    requires Free(f.0, HeaderSeparator) && Free(f.1, HeaderSeparator)
    ensures HeaderKey(HeaderLine(f)) == f.0 && HeaderValue(HeaderLine(f)) == Some(f.1)
  {
    SplitAfter(f.0, HeaderSeparator, f.1);
    ExplodeFree(f.1, HeaderSeparator);
  }

  lemma {:induction false} HeaderMapOfLines(fields: seq<(string, string)>)
    requires WellFormed(fields)
    ensures HeaderMap(Lines(fields)) == FieldsMap(fields)
    decreases |fields|
  {
    if fields != [] {
      var n := |fields| - 1;
      assert Lines(fields)[..n] == Lines(fields[..n]);
      assert WellFormed(fields[..n]) by {
        forall i | 0 <= i < n ensures fields[..n][i] == fields[i] { }
      }
      HeaderMapOfLines(fields[..n]);
      HeaderLineParts(fields[n]);
    }
  }

  /**
   * `setHeaders` reads a well-formed header block back into its fields:
   * the status line is skipped and a repeated field keeps its last value.
   */
  lemma ParseHeaderText(status: string, fields: seq<(string, string)>)
    requires Clean(status) && WellFormed(fields)
    ensures ParseHeaders(HeaderText(status, fields)) == FieldsMap(fields)
  {
    ExplodeHeaderText(status, fields);
    assert Explode(HeaderText(status, fields), LineBreak)[1..] == Lines(fields);
    HeaderMapOfLines(fields);
  }

  // =====================================================================
  // Responses

  /** Every carriage return in `h` starts a line break followed by a non-empty line: no blank line inside. */
  predicate NoBlankLineInside(h: string) {
    forall p :: 0 <= p < |h| && h[p] == '\r' ==> p + 2 < |h| && h[p + 2] != '\r'
  }

  lemma {:induction false} HeaderTextStartsWith(first: string, fields: seq<(string, string)>)
    ensures |HeaderText(first, fields)| >= |first| && HeaderText(first, fields)[..|first|] == first
    decreases |fields|
  {
    if fields != [] {
      HeaderTextStartsWith(HeaderLine(fields[0]), fields[1..]);
    }
  }

  lemma {:induction false} HeaderTextHasNoBlankLine(first: string, fields: seq<(string, string)>)
    requires Clean(first) && WellFormed(fields)
    ensures NoBlankLineInside(HeaderText(first, fields))
    decreases |fields|
  {
    if fields != [] {
      var line := HeaderLine(fields[0]);
      var rest := fields[1..];
      HeaderLineClean(fields[0]);
      assert WellFormed(rest) by {
        forall i | 0 <= i < |rest| ensures rest[i] == fields[i + 1] { }
      }
      HeaderTextHasNoBlankLine(line, rest);
      HeaderTextStartsWith(line, rest);
      var tail := HeaderText(line, rest);
      var h := HeaderText(first, fields);
      assert h == first + LineBreak + tail;
      assert tail[0] == line[0];
      forall p | 0 <= p < |h| && h[p] == '\r' ensures p + 2 < |h| && h[p + 2] != '\r' {
        if p >= |first| + 2 {
          assert h[p] == tail[p - |first| - 2];
          assert h[p + 2] == tail[p - |first|];
        }
      }
    }
  }

  /** With no blank line inside the header block, the response splits right after it. */
  lemma SplitResponse(h: string, body: string)
    requires NoBlankLineInside(h)
    ensures ExplodeOnce(h + BlankLine + body, BlankLine) == [h, body]
  {
    var s := h + BlankLine + body;
    forall j | 0 <= j < |h| ensures !OccursAt(s, BlankLine, j) {
      assert s[j..j + 4][0] == s[j] == h[j];
      if h[j] == '\r' {
        assert s[j..j + 4][2] == s[j + 2] == h[j + 2];
      }
    }
    FirstOccurrence(h, BlankLine, body);
    assert s[..|h|] == h;
    assert s[|h| + 4..] == body;
  }

  /**
   * For a response made of a well-formed header block, a blank line and a
   * body, `exec` stores exactly the block's fields and, without a caller's
   * callback, returns exactly the body.
   */
  lemma ExecRoundTrip(status: string, fields: seq<(string, string)>, body: string)
    requires Clean(status) && WellFormed(fields)
    ensures var response := Some(HeaderText(status, fields) + BlankLine + body);
      ParseHeaders(HeaderBlock(response)) == FieldsMap(fields)
      && ExecResult(None, response) == Some(body)
  {
    HeaderTextHasNoBlankLine(status, fields);
    SplitResponse(HeaderText(status, fields), body);
    ParseHeaderText(status, fields);
  }

  /** Whatever the response, the block and body `exec` uses are its parts around the first blank line. */
  lemma ExecSplitsAtFirstBlankLine(response: string)
    ensures var body := Body(Some(response));
      (body.Some? ==> response == HeaderBlock(Some(response)) + BlankLine + body.value
                      && Free(HeaderBlock(Some(response)), BlankLine))
      && (body.None? ==> HeaderBlock(Some(response)) == response && Free(response, BlankLine))
  {
  }

  /** A missing response leaves no headers and gives the callback NULL. */
  lemma ExecWithoutResponse(callback: Option<Option<string> -> Option<string>>)
    ensures ParseHeaders(HeaderBlock(None)) == map[]
    ensures ExecResult(callback, None) == if callback.Some? then callback.value(None) else None
  {
    assert Explode("", LineBreak) == [""];
  }
}
