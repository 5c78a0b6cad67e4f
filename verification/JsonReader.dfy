/** What is written, read by a reader that knows JSON (RFC 8259) but nothing of records: the members of each object, by
    name. Only the values that occur are read: null, strings and natural numbers, without insignificant white space. */
module JsonReader {
  import opened Domain
  import opened Text
  import opened Jsonl
  import opened Framing

  datatype Value = Null | String(text: string) | Number(n: nat)

  type Member = (string, Value)

  function ReadValue(s: string): Option<(Value, string)> {
    if "null" <= s then Some((Null, s[4..]))
    else if s != "" && s[0] == '"' then
      var text := ParseChars(s[1..]);
      if text.None? then None else Some((String(text.value.0), text.value.1))
    else if s != "" && IsDigit(s[0]) then
      var (n, k) := ParseDigits(0, s);
      Some((Number(n), k))
    else None
  }

  /** "name":value */
  function ReadMember(s: string): Option<(Member, string)> {
    if s == "" || s[0] != '"' then None
    else
      var name := ParseChars(s[1..]);
      if name.None? || name.value.1 == "" || name.value.1[0] != ':' then None
      else
        var value := ReadValue(name.value.1[1..]);
        if value.None? then None else Some(((name.value.0, value.value.0), value.value.1))
  }

  /** The members up to the closing brace, and what follows it. */
  function ReadMembers(s: string): Option<(seq<Member>, string)>
    decreases |s|
  {
    var first := ReadMember(s);
    if first.None? || first.value.1 == "" || |first.value.1| > |s| then None
    else if first.value.1[0] == '}' then Some(([first.value.0], first.value.1[1..]))
    else if first.value.1[0] != ',' then None
    else
      var rest := ReadMembers(first.value.1[1..]);
      if rest.None? then None else Some(([first.value.0] + rest.value.0, rest.value.1))
  }

  function ReadObject(s: string): Option<(seq<Member>, string)> {
    if s == "" || s[0] != '{' then None
    else if |s| > 1 && s[1] == '}' then Some(([], s[2..]))
    else ReadMembers(s[1..])
  }

  /** The objects of an array after its first one. */
  function ReadRest(s: string): Option<seq<seq<Member>>>
    decreases |s|
  {
    if s == "]" then Some([])
    else if s == "" || s[0] != ',' then None
    else
      var first := ReadObject(s[1..]);
      if first.None? || |first.value.1| >= |s| then None
      else
        var rest := ReadRest(first.value.1);
        if rest.None? then None else Some([first.value.0] + rest.value)
  }

  /** The objects of a whole array. */
  function ReadObjects(s: string): Option<seq<seq<Member>>> {
    if s == "[]" then Some([])
    else if s == "" || s[0] != '[' then None
    else
      var first := ReadObject(s[1..]);
      if first.None? then None
      else
        var rest := ReadRest(first.value.1);
        if rest.None? then None else Some([first.value.0] + rest.value)
  }

  // ------------------------------------------------------------ what is expected

  function Optional(text: Option<string>): Value {
    if text.None? then Null else String(text.value)
  }

  /** The fields of a result record, by name and in this order. */
  function Members(r: ResultRecord): seq<Member> {
    [("external_id", String(r.externalId)),
     ("status", String(if r.status.Succeeded? then "SUCCEEDED" else "FAILED")),
     ("response", Optional(r.response)),
     ("error", Optional(r.error)),
     ("attempts", Number(r.attempts)),
     ("latency_ms", if r.latencyMs.None? then Null else Number(r.latencyMs.value))]
  }

  function AllMembers(records: seq<ResultRecord>): (a: seq<seq<Member>>)
    ensures |a| == |records| && forall k :: 0 <= k < |a| ==> a[k] == Members(records[k])
  {
    seq(|records|, k requires 0 <= k < |records| => Members(records[k]))
  }

  // ---------------------------------------------------------------- one member

  /** Written without escapes. */
  predicate Plain(s: string) {
    forall k :: 0 <= k < |s| ==> s[k] >= '\U{0020}' && s[k] != '"' && s[k] != '\\'
  }

  lemma PlainChar(c: char)
    requires c >= '\U{0020}' && c != '"' && c != '\\'
    ensures EscapeChar(c) == [c]
  {}

  lemma {:induction false} PlainEscape(s: string, k: string)
    requires Plain(s)
    ensures Escape(s, k) == s + k
  {
    if s == "" {
      assert s + k == k;
    } else {
      PlainChar(s[0]);
      PlainEscape(s[1..], k);
      EscapeCons(s, k);
      Jsonl.HeadAndTail(s, k);
    }
  }

  lemma PlainRead(name: string, after: string)
    requires Plain(name)
    ensures ParseChars(name + ("\"" + after)) == Some((name, after))
  {
    PlainEscape(name, "\"" + after);
    StringRoundTrip(name, after);
  }

  lemma MemberIs(s: string, tail: string, name: string, after: string, k: string)
    requires s != "" && s[0] == '"' && s[1..] == tail && ParseChars(tail) == Some((name, after))
    requires after != "" && after[0] == ':' && after[1..] == k
    ensures ReadMember(s) ==
            if ReadValue(k).None? then None else Some(((name, ReadValue(k).value.0), ReadValue(k).value.1))
  {}

  lemma NameText(name: string, k: string) returns (s: string, tail: string, after: string)
    ensures s == "\"" + name + "\":" + k && s != "" && s[0] == '"' && s[1..] == tail
    ensures tail == name + ("\"" + after) && after != "" && after[0] == ':' && after[1..] == k
  {
    s, after := "\"" + name + "\":" + k, ":" + k;
    tail := name + ("\"" + after);
    assert s == "\"" + tail;
  }

  /** A plain name, its colon, and a value. */
  lemma NameRead(name: string, k: string) returns (s: string)
    requires Plain(name)
    ensures s == "\"" + name + "\":" + k && |s| > |k| && s[0] == '"'
    ensures ReadMember(s) ==
            if ReadValue(k).None? then None else Some(((name, ReadValue(k).value.0), ReadValue(k).value.1))
  {
    var tail, after: string;
    s, tail, after := NameText(name, k);
    PlainRead(name, after);
    MemberIs(s, tail, name, after, k);
  }

  lemma StringValue(text: string, k: string)
    ensures ReadValue(PutString(text, k)) == Some((String(text), k))
  {
    StringRoundTrip(text, k);
    var s := PutString(text, k);
    assert s[0] == '"' && s[1..] == Escape(text, "\"" + k) && "null"[0] == 'n';
  }

  lemma NullValue(k: string)
    ensures ReadValue("null" + k) == Some((Null, k))
  {
    assert ("null" + k)[4..] == k;
  }

  lemma OptionalValue(text: Option<string>, k: string)
    ensures ReadValue(PutOptional(text, k)) == Some((Optional(text), k))
  {
    match text
    case None => NullValue(k);
    case Some(t) => StringValue(t, k);
  }

  lemma NumberValue(n: nat, k: string)
    requires k != "" && !IsDigit(k[0])
    ensures ReadValue(NatToString(n) + k) == Some((Number(n), k))
  {
    var s := NatToString(n) + k;
    DigitsRoundTrip(n, k);
    NatToStringDigits(n);
    assert s[0] == NatToString(n)[0] && "null"[0] == 'n';
  }

  lemma PlainValue(name: string, s: string, k: string)
    requires Plain(name) && s == "\"" + (name + ("\"" + k))
    ensures ReadValue(s) == Some((String(name), k))
  {
    PlainRead(name, k);
    PlainString(name + ("\"" + k), s, name, k);
  }

  lemma PlainString(tail: string, s: string, name: string, k: string)
    requires s == "\"" + tail && ParseChars(tail) == Some((name, k))
    ensures ReadValue(s) == Some((String(name), k))
  {
    assert s[0] == '"' && s[1..] == tail && "null"[0] == 'n';
  }

  function StatusName(status: FinalStatus): string {
    if status.Succeeded? then "SUCCEEDED" else "FAILED"
  }

  lemma StatusText(status: FinalStatus, k: string)
    ensures PutStatus(status, k) == "\"" + (StatusName(status) + ("\"" + k)) && Plain(StatusName(status))
  {}

  lemma StatusValue(status: FinalStatus, k: string)
    ensures ReadValue(PutStatus(status, k)) == Some((String(StatusName(status)), k)) && |PutStatus(status, k)| > |k|
  {
    StatusText(status, k);
    PlainValue(StatusName(status), PutStatus(status, k), k);
  }

  /** One member, and the comma before the next. */
  lemma MemberThen(s: string, m: Member, k: string, rest: seq<Member>, end: string)
    requires ReadMember(s) == Some((m, "," + k)) && |k| < |s|
    requires ReadMembers(k) == Some((rest, end))
    ensures ReadMembers(s) == Some(([m] + rest, end))
  {
    assert ("," + k)[1..] == k && ("," + k)[0] == ',';
  }

  lemma MemberLast(s: string, m: Member, k: string)
    requires ReadMember(s) == Some((m, "}" + k)) && |k| < |s|
    ensures ReadMembers(s) == Some(([m], k))
  {
    assert ("}" + k)[1..] == k && ("}" + k)[0] == '}';
  }

  // --------------------------------------------------------------- one record

  /** One field with the comma before it, its value, and the members after it. */
  lemma FieldThen(key: string, name: string, value: string, v: Value, k: string, rest: seq<Member>, end: string)
    returns (s: string)
    requires Plain(name) && key == ",\"" + name + "\":" && ReadValue(value) == Some((v, "," + k)) && |value| > |k|
    requires ReadMembers(k) == Some((rest, end))
    ensures key + value == "," + s && ReadMembers(s) == Some(([(name, v)] + rest, end)) && |s| > |k|
  {
    s := NameRead(name, value);
    MemberThen(s, (name, v), k, rest, end);
    CommaFirst(key, name, value, s);
  }

  lemma CommaFirst(key: string, name: string, value: string, s: string)
    requires key == ",\"" + name + "\":" && s == "\"" + name + "\":" + value
    ensures key + value == "," + s
  {}

  lemma BraceFirst(key: string, name: string, value: string, s: string)
    requires key == "{\"" + name + "\":" && s == "\"" + name + "\":" + value
    ensures key + value == "{" + s
  {}

  lemma FieldLast(key: string, name: string, value: string, v: Value, k: string) returns (s: string)
    requires Plain(name) && key == ",\"" + name + "\":" && ReadValue(value) == Some((v, "}" + k)) && |value| > |k|
    ensures key + value == "," + s && ReadMembers(s) == Some(([(name, v)], k)) && |s| > |k|
  {
    s := NameRead(name, value);
    MemberLast(s, (name, v), k);
    CommaFirst(key, name, value, s);
  }

  lemma NumberKeys()
    ensures LATENCY_KEY == ",\"" + "latency_ms" + "\":" && Plain("latency_ms")
    ensures ATTEMPTS_KEY == ",\"" + "attempts" + "\":" && Plain("attempts")
  {}

  lemma TextKeys()
    ensures ERROR_KEY == ",\"" + "error" + "\":" && Plain("error")
    ensures RESPONSE_KEY == ",\"" + "response" + "\":" && Plain("response")
  {}

  lemma StartKeys()
    ensures STATUS_KEY == ",\"" + "status" + "\":" && Plain("status")
    ensures ID_KEY == "{\"" + "external_id" + "\":" && Plain("external_id")
  {}

  function NumberOrNull(n: Option<nat>): Value {
    if n.None? then Null else Number(n.value)
  }

  lemma NumberOrNullValue(n: Option<nat>, k: string)
    requires k != "" && !IsDigit(k[0])
    ensures ReadValue(PutNat(n, k)) == Some((NumberOrNull(n), k)) && |PutNat(n, k)| >= |k|
  {
    if n.None? { NullValue(k); } else { NumberValue(n.value, k); }
  }

  lemma OptionalLonger(text: Option<string>, k: string)
    ensures |PutOptional(text, k)| >= |k|
  {
    if text.Some? { EscapeLonger(text.value, "\"" + k); }
  }

  /** A text field. */
  lemma TextField(key: string, name: string, text: Option<string>, next: string, k: string, rest: seq<Member>,
                  end: string) returns (s: string)
    requires Plain(name) && key == ",\"" + name + "\":" && next == "," + k && ReadMembers(k) == Some((rest, end))
    ensures key + PutOptional(text, next) == "," + s && |s| > |k|
    ensures ReadMembers(s) == Some(([(name, Optional(text))] + rest, end))
  {
    OptionalValue(text, next);
    OptionalLonger(text, next);
    s := FieldThen(key, name, PutOptional(text, next), Optional(text), k, rest, end);
  }

  lemma LastField(key: string, name: string, n: Option<nat>, k: string) returns (s: string)
    requires Plain(name) && key == ",\"" + name + "\":"
    ensures key + PutNat(n, "}" + k) == "," + s && ReadMembers(s) == Some(([(name, NumberOrNull(n))], k)) && |s| > |k|
  {
    NumberOrNullValue(n, "}" + k);
    s := FieldLast(key, name, PutNat(n, "}" + k), NumberOrNull(n), k);
  }

  lemma NumberField(key: string, name: string, n: nat, next: string, k: string, rest: seq<Member>, end: string)
    returns (s: string)
    requires Plain(name) && key == ",\"" + name + "\":" && next == "," + k && ReadMembers(k) == Some((rest, end))
    ensures key + PutNat(Some(n), next) == "," + s && |s| > |k|
    ensures ReadMembers(s) == Some(([(name, Number(n))] + rest, end))
  {
    NumberOrNullValue(Some(n), next);
    s := FieldThen(key, name, PutNat(Some(n), next), Number(n), k, rest, end);
  }

  lemma StatusField(key: string, name: string, status: FinalStatus, next: string, k: string, rest: seq<Member>,
                    end: string) returns (s: string)
    requires Plain(name) && key == ",\"" + name + "\":" && next == "," + k && ReadMembers(k) == Some((rest, end))
    ensures key + PutStatus(status, next) == "," + s && |s| > |k|
    ensures ReadMembers(s) == Some(([(name, String(StatusName(status)))] + rest, end))
  {
    StatusValue(status, next);
    s := FieldThen(key, name, PutStatus(status, next), String(StatusName(status)), k, rest, end);
  }

  /** The last two fields. */
  lemma NumbersText(r: ResultRecord, k: string) returns (s: string)
    ensures PutAttempts(r, k) == "," + s
    ensures ReadMembers(s)
            == Some(([("attempts", Number(r.attempts))] + [("latency_ms", NumberOrNull(r.latencyMs))], k))
  {
    NumberKeys();
    var t := LastField(LATENCY_KEY, "latency_ms", r.latencyMs, k);
    s := NumberField(ATTEMPTS_KEY, "attempts", r.attempts, PutLatency(r, k), t,
                     [("latency_ms", NumberOrNull(r.latencyMs))], k);
  }

  /** The texts of a record and what follows them. */
  lemma TextsText(r: ResultRecord, next: string, t: string, rest: seq<Member>, end: string) returns (s: string)
    requires next == "," + t && ReadMembers(t) == Some((rest, end))
    ensures RESPONSE_KEY + PutOptional(r.response, ERROR_KEY + PutOptional(r.error, next)) == "," + s
    ensures ReadMembers(s)
            == Some(([("response", Optional(r.response))] + ([("error", Optional(r.error))] + rest), end))
  {
    TextKeys();
    var e := TextField(ERROR_KEY, "error", r.error, next, t, rest, end);
    s := TextField(RESPONSE_KEY, "response", r.response, ERROR_KEY + PutOptional(r.error, next), e,
                   [("error", Optional(r.error))] + rest, end);
  }

  lemma StartText(r: ResultRecord, next: string, t: string, rest: seq<Member>, end: string)
    requires next == "," + t && ReadMembers(t) == Some((rest, end))
    ensures ReadObject(Framing.Start(r, next))
            == Some(([("external_id", String(r.externalId))] + ([("status", String(StatusName(r.status)))] + rest),
                     end))
  {
    StartKeys();
    var e := StatusField(STATUS_KEY, "status", r.status, next, t, rest, end);
    var after := STATUS_KEY + PutStatus(r.status, next);
    var members := [("status", String(StatusName(r.status)))] + rest;
    StringValue(r.externalId, after);
    EscapeLonger(r.externalId, "\"" + after);
    FirstField(ID_KEY, "external_id", PutString(r.externalId, after), String(r.externalId), e, members, end);
  }

  lemma FirstField(key: string, name: string, value: string, v: Value, k: string, rest: seq<Member>, end: string)
    requires Plain(name) && key == "{\"" + name + "\":"
    requires ReadValue(value) == Some((v, "," + k)) && |value| > |k| && ReadMembers(k) == Some((rest, end))
    ensures ReadObject(key + value) == Some(([(name, v)] + rest, end))
  {
    var s := NameRead(name, value);
    MemberThen(s, (name, v), k, rest, end);
    BraceFirst(key, name, value, s);
    ObjectOf(s, [(name, v)] + rest, end);
  }

  lemma ObjectOf(s: string, members: seq<Member>, k: string)
    requires ReadMembers(s) == Some((members, k)) && s != "" && s[0] == '"'
    ensures ReadObject("{" + s) == Some((members, k))
  {
    assert ("{" + s)[1..] == s;
  }

  lemma Sixfold(a: Member, b: Member, c: Member, d: Member, e: Member, f: Member)
    ensures [a] + ([b] + ([c] + ([d] + ([e] + [f])))) == [a, b, c, d, e, f]
  {}

  lemma PutParts(r: ResultRecord, k: string)
    ensures Put(r, k) == Framing.Start(r, RESPONSE_KEY + PutOptional(r.response, ERROR_KEY
                         + PutOptional(r.error, PutAttempts(r, k))))
  {}

  /** A serialised record is the JSON object of its fields, whatever its strings contain and whatever follows. */
  lemma RecordMembers(r: ResultRecord, k: string)
    ensures ReadObject(Put(r, k)) == Some((Members(r), k))
  {
    var e, f := ("attempts", Number(r.attempts)), ("latency_ms", NumberOrNull(r.latencyMs));
    var c, d := ("response", Optional(r.response)), ("error", Optional(r.error));
    var a, b := ("external_id", String(r.externalId)), ("status", String(StatusName(r.status)));
    var numbers := NumbersText(r, k);
    var texts := TextsText(r, PutAttempts(r, k), numbers, [e] + [f], k);
    StartText(r, RESPONSE_KEY + PutOptional(r.response, ERROR_KEY + PutOptional(r.error, PutAttempts(r, k))), texts,
              [c] + ([d] + ([e] + [f])), k);
    PutParts(r, k);
    Sixfold(a, b, c, d, e, f);
  }

  // ------------------------------------------------------------- the download

  lemma {:induction false} RestMembers(records: seq<ResultRecord>)
    ensures ReadRest(Stream(records, false)) == Some(AllMembers(records))
    decreases |records|
  {
    if records != [] {
      StreamCons(records);
      RestMembers(records[1..]);
      RestCons(records[0], Stream(records[1..], false), AllMembers(records[1..]));
      MembersCons(records);
    }
  }

  lemma RestCons(r: ResultRecord, k: string, rest: seq<seq<Member>>)
    requires ReadRest(k) == Some(rest)
    ensures ReadRest("," + Put(r, k)) == Some([Members(r)] + rest)
  {
    var s := "," + Put(r, k);
    assert s[1..] == Put(r, k) && s[0] == ',' && "]"[0] == ']';
    RecordMembers(r, k);
    PutLonger(r, k);
  }

  lemma FirstMembers(r: ResultRecord, k: string, rest: seq<seq<Member>>) returns (d: string)
    requires ReadRest(k) == Some(rest)
    ensures d == "[" + Put(r, k) && ReadObjects(d) == Some([Members(r)] + rest)
  {
    d := "[" + Put(r, k);
    RecordMembers(r, k);
    assert d[1..] == Put(r, k) && d[0] == '[';
    assert Put(r, k)[0] == '{' && d[1] == '{' && "[]"[1] == ']';
  }

  lemma MembersCons(records: seq<ResultRecord>)
    requires records != []
    ensures [Members(records[0])] + AllMembers(records[1..]) == AllMembers(records)
  {}

  /** The streamed download is a JSON array of the objects of the records. */
  lemma DownloadMembers(records: seq<ResultRecord>)
    ensures ReadObjects(Framing.Download(records)) == Some(AllMembers(records))
  {
    if records == [] {
      assert Framing.Download(records) == "[]";
      assert AllMembers(records) == [];
    } else {
      RestMembers(records[1..]);
      var d := FirstMembers(records[0], Stream(records[1..], false), AllMembers(records[1..]));
      DownloadCons(records);
      MembersCons(records);
    }
  }

  // ---------------------------------------------------------------- the files

  /** Each line is the JSON object of one record. */
  ghost predicate LinesAre(lines: seq<string>, records: seq<ResultRecord>) {
    |lines| == |records| && forall k :: 0 <= k < |lines| ==> ReadObject(lines[k]) == Some((Members(records[k]), ""))
  }

  lemma LinesCons(line: string, lines: seq<string>, r: ResultRecord, records: seq<ResultRecord>)
    requires ReadObject(line) == Some((Members(r), "")) && LinesAre(lines, records)
    ensures LinesAre([line] + lines, [r] + records)
  {}

  lemma FirstLine(r: ResultRecord, rest: string) returns (line: string)
    requires WholeRecord(r)
    ensures SplitLines(Put(r, "\n" + rest)) == [line] + SplitLines(rest)
    ensures ReadObject(line) == Some((Members(r), ""))
  {
    var k := "\n" + rest;
    NotBlank(r, k);
    HeadRecord(r, k);
    assert Head(k) == "" && Tail(k) == rest by { assert k[0] == '\n' && k[1..] == rest; }
    line := Put(r, "");
    RecordMembers(r, "");
  }

  lemma {:induction false} LinesMembers(records: seq<ResultRecord>)
    requires records != [] && WholeRecords(records)
    ensures LinesAre(SplitLines(Lines(records)), records)
    decreases |records|
  {
    var rest := if |records| == 1 then "" else Lines(records[1..]);
    var line := FirstLine(records[0], rest);
    var none: seq<string> := SplitLines("");
    if |records| > 1 { LinesMembers(records[1..]); }
    LinesCons(line, SplitLines(rest), records[0], records[1..]);
    assert [records[0]] + records[1..] == records;
  }

  lemma {:induction false} LinesEnd(records: seq<ResultRecord>) returns (front: string)
    requires records != []
    ensures Lines(records) == front + "\n"
    decreases |records|
  {
    if |records| == 1 {
      front := Put(records[0], "");
      PutSplit(records[0], "\n" + "");
    } else {
      var rest := LinesEnd(records[1..]);
      front := Put(records[0], "") + ("\n" + rest);
      PutSplit(records[0], "\n" + Lines(records[1..]));
      Joined(Put(records[0], ""), rest);
    }
  }

  lemma Joined(a: string, b: string)
    ensures a + ("\n" + (b + "\n")) == (a + ("\n" + b)) + "\n"
  {}

  /** A chunk file ends with a newline, and holds one JSON object per record and line, unless a text holds a raw line
      boundary. */
  lemma PayloadMembers(records: seq<ResultRecord>)
    requires records != []
    ensures Payload(records) != "" && Payload(records)[|Payload(records)| - 1] == '\n'
    ensures WholeRecords(records) ==> LinesAre(SplitLines(Payload(records)), records)
  {
    var front := LinesEnd(records);
    assert Payload(records) == front + "\n";
    if WholeRecords(records) { LinesMembers(records); }
  }

  // ----------------------------------------------------------------- escapes

  /** The escapes of section 7 of RFC 8259, as the reader takes them. */
  lemma EscapesOfJson(k: string)
    ensures Unescape("\\\"" + k) == Some(('"', 2)) && Unescape("\\\\" + k) == Some(('\\', 2))
    ensures Unescape("\\/" + k) == Some(('/', 2)) && Unescape("\\b" + k) == Some(('\U{0008}', 2))
    ensures Unescape("\\f" + k) == Some(('\U{000C}', 2)) && Unescape("\\n" + k) == Some(('\U{000A}', 2))
    ensures Unescape("\\r" + k) == Some(('\U{000D}', 2)) && Unescape("\\t" + k) == Some(('\U{0009}', 2))
  {}

  /** Four hexadecimal digits give the code. */
  lemma CodeEscape(a: nat, b: nat, c: nat, d: nat, k: string)
    requires a < 16 && b < 16 && c < 16 && d < 16 && 4096 * a + 256 * b + 16 * c + d < 0xD800
    ensures Unescape("\\u" + [Hex(a), Hex(b), Hex(c), Hex(d)] + k)
            == Some(((4096 * a + 256 * b + 16 * c + d) as char, 6))
  {
    var s := "\\u" + [Hex(a), Hex(b), Hex(c), Hex(d)] + k;
    assert s[2..6] == [Hex(a), Hex(b), Hex(c), Hex(d)];
    HexRoundTrip(a);
    HexRoundTrip(b);
    HexRoundTrip(c);
    HexRoundTrip(d);
  }
}
