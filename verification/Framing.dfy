/** Line framing of chunk files and of the download: what is written, and exactly when it reads back. */
module Framing {
  import opened Domain
  import opened Text
  import opened Jsonl

  // ------------------------------------------------------------------ writing

  /** One record per line, and a final newline also when there are no records. */
  function Lines(records: seq<ResultRecord>): string
    requires records != []
  {
    Put(records[0], "\n" + if |records| == 1 then "" else Lines(records[1..]))
  }

  function Payload(records: seq<ResultRecord>): string {
    if records == [] then "\n" else Lines(records)
  }

  // ------------------------------------------------------------------ reading

  /** The first line of `str.splitlines()`. */
  function Head(s: string): string {
    if s == "" || IsLineBreak(s[0]) then "" else [s[0]] + Head(s[1..])
  }

  /** What remains after the first line and its boundary; CR LF is one boundary. */
  function Tail(s: string): string {
    if s == "" then ""
    else if s[0] == '\U{000D}' && |s| > 1 && s[1] == '\U{000A}' then s[2..]
    else if IsLineBreak(s[0]) then s[1..]
    else Tail(s[1..])
  }

  lemma {:induction false} TailShorter(s: string)
    requires s != ""
    ensures |Tail(s)| < |s|
  {
    if !IsLineBreak(s[0]) && |s| > 1 { TailShorter(s[1..]); }
  }

  function SplitLines(s: string): seq<string>
    decreases |s|
  {
    if s == "" then [] else (TailShorter(s); [Head(s)] + SplitLines(Tail(s)))
  }

  /** `json.loads` of a whole line into a record. */
  function ParseLine(line: string): Option<ResultRecord> {
    var r := Get(line);
    if r.Some? && r.value.1 == "" then Some(r.value.0) else None
  }

  /** Blank lines are skipped; a line that does not parse aborts the reading. */
  function ParseLines(lines: seq<string>): Option<seq<ResultRecord>> {
    if lines == [] then Some([])
    else if Strip(lines[0]) == "" then ParseLines(lines[1..])
    else
      var r := ParseLine(lines[0]);
      if r.None? then None
      else
        var rest := ParseLines(lines[1..]);
        if rest.None? then None else Some([r.value] + rest.value)
  }

  function ReadBack(payload: string): Option<seq<ResultRecord>> {
    ParseLines(SplitLines(payload))
  }

  /** The records before the first line that does not parse, and whether there is none. */
  function ParseUpTo(lines: seq<string>): (seq<ResultRecord>, bool) {
    if lines == [] then ([], true)
    else if Strip(lines[0]) == "" then ParseUpTo(lines[1..])
    else
      var r := ParseLine(lines[0]);
      if r.None? then ([], false)
      else
        var (rest, whole) := ParseUpTo(lines[1..]);
        ([r.value] + rest, whole)
  }

  lemma {:induction false} ParseUpToIs(lines: seq<string>)
    ensures ParseLines(lines) == if ParseUpTo(lines).1 then Some(ParseUpTo(lines).0) else None
  {
    if lines != [] { ParseUpToIs(lines[1..]); }
  }

  // ------------------------------------------- which characters break a line

  /** The line boundaries JSON escaping leaves raw. */
  predicate RawBreak(c: char) {
    c == '\U{0085}' || c == '\U{2028}' || c == '\U{2029}'
  }

  predicate Whole(s: string) {
    forall k :: 0 <= k < |s| ==> !RawBreak(s[k])
  }

  predicate WholeOption(s: Option<string>) {
    s.Some? ==> Whole(s.value)
  }

  /** No text of the record contains one of them. */
  predicate WholeRecord(r: ResultRecord) {
    Whole(r.externalId) && WholeOption(r.response) && WholeOption(r.error)
  }

  predicate NoBreak(s: string) {
    forall k :: 0 <= k < |s| ==> !IsLineBreak(s[k])
  }

  lemma EscapeCharBreaks(c: char)
    ensures NoBreak(EscapeChar(c)) <==> !RawBreak(c)
    ensures RawBreak(c) ==> EscapeChar(c) == [c] && IsLineBreak(c)
  {
    var e := EscapeChar(c);
    if c < '\U{0020}' && |e| == 6 {
      assert e == "\\u00" + [Hex(c as int / 16), Hex(c as int % 16)];
      HexPlain(c as int / 16);
      HexPlain(c as int % 16);
      assert e[0] == '\\' && e[1] == 'u' && e[2] == '0' && e[3] == '0';
    } else if |e| == 2 {
      assert e[0] == '\\' && !IsLineBreak(e[1]);
    } else {
      assert e == [c] && e[0] == c;
    }
  }

  lemma HexPlain(n: nat)
    requires n < 16
    ensures !IsLineBreak(Hex(n))
  {}

  lemma {:induction false} HeadSkips(p: string, k: string)
    requires NoBreak(p)
    ensures Head(p + k) == p + Head(k) && Tail(p + k) == Tail(k)
    decreases |p|
  {
    if p == "" {
      assert p + k == k;
    } else {
      assert (p + k)[1..] == p[1..] + k;
      HeadSkips(p[1..], k);
      if |p| > 1 || k != "" { assert (p + k)[0] == p[0] && !IsLineBreak(p[0]); }
    }
  }

  /** The text before the first raw line boundary. */
  function Before(s: string): string {
    if s == "" || RawBreak(s[0]) then "" else [s[0]] + Before(s[1..])
  }

  /** An escaped text is passed over if it is whole, and cut at its first raw boundary if not. */
  lemma {:induction false} HeadEscape(s: string, k: string)
    ensures Whole(s) ==> Head(Escape(s, k)) == Escape(s, Head(k)) && Tail(Escape(s, k)) == Tail(k)
    ensures !Whole(s) ==> Head(Escape(s, k)) == Escape(Before(s), "")
    decreases |s|
  {
    if s != "" {
      EscapeCharBreaks(s[0]);
      HeadEscape(s[1..], k);
      assert Whole(s) <==> !RawBreak(s[0]) && Whole(s[1..]) by {
        assert s == [s[0]] + s[1..];
      }
      if !RawBreak(s[0]) { HeadSkips(EscapeChar(s[0]), Escape(s[1..], k)); }
    }
  }

  // ---------------------------------------------------- a line of a whole record

  lemma HeadString(s: string, k: string)
    ensures Whole(s) ==> Head(PutString(s, k)) == PutString(s, Head(k)) && Tail(PutString(s, k)) == Tail(k)
    ensures !Whole(s) ==> Head(PutString(s, k)) == "\"" + Escape(Before(s), "")
  {
    HeadEscape(s, "\"" + k);
    HeadSkips("\"", Escape(s, "\"" + k));
    HeadSkips("\"", k);
  }

  lemma HeadOptional(s: Option<string>, k: string)
    ensures WholeOption(s) ==> Head(PutOptional(s, k)) == PutOptional(s, Head(k)) && Tail(PutOptional(s, k)) == Tail(k)
    ensures !WholeOption(s) ==> Head(PutOptional(s, k)) == "\"" + Escape(Before(s.value), "")
  {
    match s
    case None => HeadSkips("null", k);
    case Some(v) => HeadString(v, k);
  }

  lemma DigitsNoBreak(n: nat)
    ensures NoBreak(NatToString(n))
  {
    NatToStringDigits(n);
  }

  lemma HeadNat(n: Option<nat>, k: string)
    ensures Head(PutNat(n, k)) == PutNat(n, Head(k)) && Tail(PutNat(n, k)) == Tail(k)
  {
    match n
    case None => HeadSkips("null", k);
    case Some(v) =>
      DigitsNoBreak(v);
      HeadSkips(NatToString(v), k);
  }

  lemma KeysPlain()
    ensures NoBreak(ID_KEY) && NoBreak(STATUS_KEY) && NoBreak(RESPONSE_KEY)
    ensures NoBreak(ERROR_KEY) && NoBreak(ATTEMPTS_KEY) && NoBreak(LATENCY_KEY)
  {}

  lemma HeadLatency(r: ResultRecord, k: string)
    ensures Head(PutLatency(r, k)) == PutLatency(r, Head(k)) && Tail(PutLatency(r, k)) == Tail(k)
  {
    KeysPlain();
    HeadSkips(LATENCY_KEY, PutNat(r.latencyMs, "}" + k));
    HeadNat(r.latencyMs, "}" + k);
    HeadSkips("}", k);
  }

  lemma HeadAttempts(r: ResultRecord, k: string)
    ensures Head(PutAttempts(r, k)) == PutAttempts(r, Head(k)) && Tail(PutAttempts(r, k)) == Tail(k)
  {
    KeysPlain();
    HeadSkips(ATTEMPTS_KEY, PutNat(Some(r.attempts), PutLatency(r, k)));
    HeadNat(Some(r.attempts), PutLatency(r, k));
    HeadLatency(r, k);
  }

  /** A key and its optional text: passed over if the text is whole, cut inside it if not. */
  lemma HeadField(key: string, v: Option<string>, k: string)
    requires NoBreak(key)
    ensures WholeOption(v) ==>
              Head(key + PutOptional(v, k)) == key + PutOptional(v, Head(k)) && Tail(key + PutOptional(v, k)) == Tail(k)
    ensures !WholeOption(v) ==> Head(key + PutOptional(v, k)) == key + Fragment(v.value)
  {
    HeadSkips(key, PutOptional(v, k));
    HeadOptional(v, k);
  }

  /** A string literal cut before its first raw boundary. */
  function Fragment(s: string): string {
    "\"" + Escape(Before(s), "")
  }

  lemma HeadError(r: ResultRecord, k: string)
    requires WholeOption(r.error)
    ensures Head(PutError(r, k)) == PutError(r, Head(k)) && Tail(PutError(r, k)) == Tail(k)
  {
    KeysPlain();
    HeadField(ERROR_KEY, r.error, PutAttempts(r, k));
    HeadAttempts(r, k);
  }

  lemma HeadResponse(r: ResultRecord, k: string)
    requires WholeOption(r.response) && WholeOption(r.error)
    ensures Head(PutResponse(r, k)) == PutResponse(r, Head(k)) && Tail(PutResponse(r, k)) == Tail(k)
  {
    KeysPlain();
    HeadField(RESPONSE_KEY, r.response, PutError(r, k));
    HeadError(r, k);
  }

  lemma StatusNoBreak(status: FinalStatus, k: string)
    ensures Head(PutStatus(status, k)) == PutStatus(status, Head(k)) && Tail(PutStatus(status, k)) == Tail(k)
  {
    HeadSkips("\"SUCCEEDED\"", k);
    HeadSkips("\"FAILED\"", k);
  }

  /** The line up to the response, when the rest of it is `tail`. */
  function Start(r: ResultRecord, tail: string): string {
    ID_KEY + PutString(r.externalId, STATUS_KEY + PutStatus(r.status, tail))
  }

  lemma HeadStart(r: ResultRecord, tail: string)
    ensures Whole(r.externalId) ==> Head(Start(r, tail)) == Start(r, Head(tail)) && Tail(Start(r, tail)) == Tail(tail)
    ensures !Whole(r.externalId) ==> Head(Start(r, tail)) == ID_KEY + Fragment(r.externalId)
  {
    var k := STATUS_KEY + PutStatus(r.status, tail);
    KeysPlain();
    HeadSkips(ID_KEY, PutString(r.externalId, k));
    HeadString(r.externalId, k);
    HeadSkips(STATUS_KEY, PutStatus(r.status, tail));
    StatusNoBreak(r.status, tail);
  }

  lemma PutStart(r: ResultRecord, k: string)
    ensures Put(r, k) == Start(r, PutResponse(r, k))
  {}

  /** A whole record fills exactly one line. */
  lemma HeadRecord(r: ResultRecord, k: string)
    requires WholeRecord(r)
    ensures Head(Put(r, k)) == Put(r, Head(k)) && Tail(Put(r, k)) == Tail(k)
  {
    PutStart(r, k);
    PutStart(r, Head(k));
    HeadStart(r, PutResponse(r, k));
    HeadResponse(r, k);
  }

  // ---------------------------------------------------- a line of a broken record

  lemma {:induction false} EscapeNoQuote(s: string)
    ensures ParseChars(Escape(s, "")) == None
  {
    EscapeThenParse(s, "");
  }

  /** A fragment that ends inside a string literal does not parse. */
  lemma FragmentFails(s: string)
    ensures GetString(Fragment(s)) == None && GetOptional(Fragment(s)) == None
  {
    EscapeNoQuote(Before(s));
    var f := Fragment(s);
    assert f[1..] == Escape(Before(s), "") && f[0] == '"' && "null"[0] == 'n';
  }

  lemma FragmentField(key: string, s: string)
    ensures GetField(key, key + Fragment(s)) == None
  {
    ExpectRoundTrip(key, Fragment(s));
    FragmentFails(s);
  }

  lemma FragmentId(s: string)
    ensures GetId(ID_KEY + Fragment(s)) == None
  {
    ExpectRoundTrip(ID_KEY, Fragment(s));
    FragmentFails(s);
  }

  lemma GetStart(r: ResultRecord, tail: string)
    ensures GetId(Start(r, tail)) == Some((r.externalId, STATUS_KEY + PutStatus(r.status, tail)))
    ensures GetVerdict(STATUS_KEY + PutStatus(r.status, tail)) == Some((r.status, tail))
  {
    ExpectRoundTrip(ID_KEY, PutString(r.externalId, STATUS_KEY + PutStatus(r.status, tail)));
    GetStringRoundTrip(r.externalId, STATUS_KEY + PutStatus(r.status, tail));
    ExpectRoundTrip(STATUS_KEY, PutStatus(r.status, tail));
    GetStatusRoundTrip(r.status, tail);
  }

  lemma FragmentResponse(r: ResultRecord, tail: string)
    requires GetField(RESPONSE_KEY, tail) == None
    ensures Get(Start(r, tail)) == None
  {
    GetStart(r, tail);
  }

  lemma FragmentError(r: ResultRecord, tail: string)
    requires GetField(ERROR_KEY, tail) == None
    ensures Get(Start(r, RESPONSE_KEY + PutOptional(r.response, tail))) == None
  {
    GetStart(r, RESPONSE_KEY + PutOptional(r.response, tail));
    FieldRoundTrip(RESPONSE_KEY, r.response, tail);
  }

  /** The first line of a record with a raw boundary in a text does not parse. */
  lemma HeadBroken(r: ResultRecord, k: string)
    requires !WholeRecord(r)
    ensures Get(Head(Put(r, k))) == None
  {
    KeysPlain();
    PutStart(r, k);
    HeadStart(r, PutResponse(r, k));
    if !Whole(r.externalId) {
      FragmentId(r.externalId);
    } else {
      HeadField(RESPONSE_KEY, r.response, PutError(r, k));
      if !WholeOption(r.response) {
        FragmentField(RESPONSE_KEY, r.response.value);
        FragmentResponse(r, RESPONSE_KEY + Fragment(r.response.value));
      } else {
        HeadField(ERROR_KEY, r.error, PutAttempts(r, k));
        FragmentField(ERROR_KEY, r.error.value);
        FragmentError(r, ERROR_KEY + Fragment(r.error.value));
      }
    }
  }

  lemma NotBlank(r: ResultRecord, k: string)
    ensures Put(r, k) != "" && Head(Put(r, k)) != "" && Strip(Head(Put(r, k))) != ""
  {
    BraceNotBlank(PutString(r.externalId, PutVerdict(r, k)));
  }

  lemma BraceNotBlank(s: string)
    ensures ID_KEY + s != "" && Head(ID_KEY + s) != "" && Strip(Head(ID_KEY + s)) != ""
  {
    HeadSkips(ID_KEY, s);
    assert Head(ID_KEY + s)[0] == '{';
    StripBlank(Head(ID_KEY + s));
  }

  // -------------------------------------------------------------- whole chunks

  predicate WholeRecords(records: seq<ResultRecord>) {
    forall k :: 0 <= k < |records| ==> WholeRecord(records[k])
  }

  lemma FirstLineParses(line: string, rest: seq<string>)
    requires Strip(line) != ""
    ensures ParseLine(line).None? ==> ParseLines([line] + rest) == None
    ensures ParseLine(line).Some? && ParseLines(rest).Some? ==>
              ParseLines([line] + rest) == Some([ParseLine(line).value] + ParseLines(rest).value)
    ensures ParseLine(line).Some? && ParseLines(rest).None? ==> ParseLines([line] + rest) == None
  {
    assert ([line] + rest)[1..] == rest;
  }

  /** The first line of a chunk: parsed if its record is whole, and fatal if not. */
  lemma FirstRecord(r: ResultRecord, rest: string)
    ensures var s := Put(r, "\n" + rest);
            && (!WholeRecord(r) ==> ReadBack(s) == None)
            && (WholeRecord(r) && ReadBack(rest).Some? ==> ReadBack(s) == Some([r] + ReadBack(rest).value))
            && (WholeRecord(r) && ReadBack(rest).None? ==> ReadBack(s) == None)
  {
    var k := "\n" + rest;
    var s := Put(r, k);
    NotBlank(r, k);
    assert SplitLines(s) == [Head(s)] + SplitLines(Tail(s));
    FirstLineParses(Head(s), SplitLines(Tail(s)));
    if WholeRecord(r) {
      HeadRecord(r, k);
      assert Head(k) == "" && Tail(k) == rest by { assert k[0] == '\n' && k[1..] == rest; }
      RecordRoundTrip(r, "");
    } else {
      HeadBroken(r, k);
    }
  }

  lemma {:induction false} LinesRoundTrip(records: seq<ResultRecord>)
    requires records != []
    ensures WholeRecords(records) ==> ReadBack(Lines(records)) == Some(records)
    ensures !WholeRecords(records) ==> ReadBack(Lines(records)) == None
    decreases |records|
  {
    HeadAndTail(records);
    if |records| == 1 {
      FirstRecord(records[0], "");
    } else {
      FirstRecord(records[0], Lines(records[1..]));
      LinesRoundTrip(records[1..]);
    }
  }

  /** Reading back a written chunk yields exactly its records, the empty list included, if and only if no text in them
      contains U+0085, U+2028 or U+2029; otherwise reading fails. */
  lemma ChunkRoundTrip(records: seq<ResultRecord>)
    ensures ReadBack(Payload(records)) == Some(records) <==> WholeRecords(records)
    ensures !WholeRecords(records) ==> ReadBack(Payload(records)) == None
  {
    if records == [] {
      assert SplitLines("\n") == [""] by { assert Tail("\n") == "" && Head("\n") == ""; }
      StripBlank("");
      assert ParseLines([""]) == ParseLines([]);
    } else {
      LinesRoundTrip(records);
    }
  }

  // ---------------------------------------------------------------- the download

  /** The download: the records as one JSON array, `first` telling whether a comma goes before the next one. */
  function Stream(records: seq<ResultRecord>, first: bool): string {
    if records == [] then "]"
    else (if first then "" else ",") + Put(records[0], Stream(records[1..], false))
  }

  function Download(records: seq<ResultRecord>): string {
    "[" + Stream(records, true)
  }

  function GetMore(s: string): Option<seq<ResultRecord>>
    decreases |s|
  {
    if s == "]" then Some([])
    else if s == "" || s[0] != ',' then None
    else
      var r := Get(s[1..]);
      if r.None? || |r.value.1| >= |s| then None
      else
        var rest := GetMore(r.value.1);
        if rest.None? then None else Some([r.value.0] + rest.value)
  }

  /** Reads a JSON array of records. */
  function GetArray(s: string): Option<seq<ResultRecord>> {
    if s == "[]" then Some([])
    else if s == "" || s[0] != '[' then None
    else
      var r := Get(s[1..]);
      if r.None? then None
      else
        var rest := GetMore(r.value.1);
        if rest.None? then None else Some([r.value.0] + rest.value)
  }

  lemma {:induction false} EscapeLonger(s: string, k: string)
    ensures |Escape(s, k)| >= |k|
  {
    if s != "" { EscapeLonger(s[1..], k); }
  }

  lemma PutLonger(r: ResultRecord, k: string)
    ensures |Put(r, k)| > |k|
  {
    EscapeLonger(r.externalId, "\"" + PutVerdict(r, k));
    if r.response.Some? { EscapeLonger(r.response.value, "\"" + PutError(r, k)); }
    if r.error.Some? { EscapeLonger(r.error.value, "\"" + PutAttempts(r, k)); }
    assert |PutResponse(r, k)| >= |PutError(r, k)| >= |PutAttempts(r, k)| >= |PutLatency(r, k)| > |k|;
  }

  lemma NextElement(r: ResultRecord, k: string)
    ensures GetMore("," + Put(r, k)) == if GetMore(k).None? then None else Some([r] + GetMore(k).value)
  {
    var s := "," + Put(r, k);
    assert s[1..] == Put(r, k) && s[0] == ',' && "]"[0] == ']';
    RecordRoundTrip(r, k);
    PutLonger(r, k);
  }

  lemma StreamCons(records: seq<ResultRecord>)
    requires records != []
    ensures Stream(records, false) == "," + Put(records[0], Stream(records[1..], false))
  {}

  lemma MoreCons(records: seq<ResultRecord>, k: string, s: string)
    requires records != [] && s == "," + Put(records[0], k) && GetMore(k) == Some(records[1..])
    ensures GetMore(s) == Some(records)
  {
    HeadAndTail(records);
    NextElement(records[0], k);
  }

  lemma HeadAndTail(records: seq<ResultRecord>)
    requires records != []
    ensures [records[0]] + records[1..] == records
  {}

  lemma {:induction false} MoreRoundTrip(records: seq<ResultRecord>)
    ensures GetMore(Stream(records, false)) == Some(records)
    decreases |records|
  {
    if records != [] {
      StreamCons(records);
      MoreRoundTrip(records[1..]);
      MoreCons(records, Stream(records[1..], false), Stream(records, false));
    }
  }

  lemma FirstElement(r: ResultRecord, k: string)
    ensures GetArray("[" + Put(r, k)) ==
            if GetMore(k).None? then None else Some([r] + GetMore(k).value)
  {
    var s := "[" + Put(r, k);
    assert s[1..] == Put(r, k) && s[0] == '[';
    PutLonger(r, k);
    assert s[1] == Put(r, k)[0] == ID_KEY[0] == '{' && "[]"[1] == ']';
    RecordRoundTrip(r, k);
  }

  lemma DownloadCons(records: seq<ResultRecord>)
    requires records != []
    ensures Download(records) == "[" + Put(records[0], Stream(records[1..], false))
  {
    assert "" + Put(records[0], Stream(records[1..], false)) == Put(records[0], Stream(records[1..], false));
  }

  /** The download is one JSON array of exactly the records, without restriction on their texts. */
  lemma DownloadRoundTrip(records: seq<ResultRecord>)
    ensures GetArray(Download(records)) == Some(records)
  {
    if records == [] {
      assert Download(records) == "[]";
    } else {
      DownloadCons(records);
      FirstElement(records[0], Stream(records[1..], false));
      MoreRoundTrip(records[1..]);
      HeadAndTail(records);
    }
  }
}
