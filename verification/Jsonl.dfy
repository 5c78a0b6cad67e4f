/** JSONL chunk files: JSON string escaping (RFC 8259, section 7) and line framing for result records. */
module Jsonl {
  import opened Domain
  import opened Text

  // ---------------------------------------------------------------- escaping

  function Hex(n: nat): char
    requires n < 16
  {
    if n < 10 then Digit(n) else ['a', 'b', 'c', 'd', 'e', 'f'][n - 10]
  }

  /** Quotes, backslashes and control characters are escaped; everything else is written raw. */
  function EscapeChar(c: char): string {
    if c == '"' then "\\\""
    else if c == '\\' then "\\\\"
    else if c == '\U{0008}' then "\\b"
    else if c == '\U{0009}' then "\\t"
    else if c == '\U{000A}' then "\\n"
    else if c == '\U{000C}' then "\\f"
    else if c == '\U{000D}' then "\\r"
    else if c < '\U{0020}' then "\\u00" + [Hex(c as int / 16), Hex(c as int % 16)]
    else [c]
  }

  /** The escaped text followed by `k`. */
  function Escape(s: string, k: string): string {
    if s == "" then k else EscapeChar(s[0]) + Escape(s[1..], k)
  }

  function HexValue(c: char): Option<nat> {
    if IsDigit(c) then Some(DigitValue(c))
    else if 'a' <= c <= 'f' then Some(c as int - 'a' as int + 10)
    else if 'A' <= c <= 'F' then Some(c as int - 'A' as int + 10)
    else None
  }

  function Hex4(s: string): Option<nat>
    requires |s| == 4
  {
    match (HexValue(s[0]), HexValue(s[1]), HexValue(s[2]), HexValue(s[3]))
    case (Some(a), Some(b), Some(c), Some(d)) => Some(((a * 16 + b) * 16 + c) * 16 + d)
    case _ => None
  }

  /** The character an escape stands for, and how many characters of the input it takes. */
  function Unescape(s: string): Option<(char, nat)>
    requires s != ""
  {
    if s[0] == '"' || s[0] < '\U{0020}' then None
    else if s[0] != '\\' then Some((s[0], 1))
    else if |s| < 2 then None
    else match s[1]
      case '"' => Some(('"', 2))
      case '\\' => Some(('\\', 2))
      case '/' => Some(('/', 2))
      case 'b' => Some(('\U{0008}', 2))
      case 't' => Some(('\U{0009}', 2))
      case 'n' => Some(('\U{000A}', 2))
      case 'f' => Some(('\U{000C}', 2))
      case 'r' => Some(('\U{000D}', 2))
      case 'u' =>
        if |s| < 6 then None
        else
          var code := Hex4(s[2..6]);
          if code.Some? && code.value < 0xD800 then Some((code.value as char, 6)) else None
      case _ => None
  }

  /** The rest of a string literal after its opening quote, and what follows the closing one. */
  function ParseChars(s: string): Option<(string, string)>
    decreases |s|
  {
    if s == "" then None
    else if s[0] == '"' then Some(("", s[1..]))
    else
      var c := Unescape(s);
      if c.None? || c.value.1 == 0 || c.value.1 > |s| then None
      else
        var rest := ParseChars(s[c.value.1..]);
        if rest.None? then None else Some(([c.value.0] + rest.value.0, rest.value.1))
  }

  lemma ControlRoundTrip(c: char, k: string)
    requires c < '\U{0020}'
    ensures var s := "\\u00" + [Hex(c as int / 16), Hex(c as int % 16)] + k; Unescape(s) == Some((c, 6))
  {
    var a, b := c as int / 16, c as int % 16;
    var s := "\\u00" + [Hex(a), Hex(b)] + k;
    assert s[2..6] == ['0', '0', Hex(a), Hex(b)];
    HexRoundTrip(a);
    HexRoundTrip(b);
    assert Hex4(s[2..6]) == Some(a * 16 + b);
  }

  lemma HexRoundTrip(n: nat)
    requires n < 16
    ensures HexValue(Hex(n)) == Some(n)
  {}

  /** An escaped character reads back as itself, whatever follows. */
  lemma EscapeCharRoundTrip(c: char, k: string)
    ensures var s := EscapeChar(c) + k;
            && s != "" && s[0] != '"' && Unescape(s) == Some((c, |EscapeChar(c)|)) && s[|EscapeChar(c)|..] == k
  {
    var s := EscapeChar(c) + k;
    if c < '\U{0020}' && |EscapeChar(c)| == 6 {
      ControlRoundTrip(c, k);
      assert s == "\\u00" + [Hex(c as int / 16), Hex(c as int % 16)] + k;
    }
  }

  lemma ParseOne(s: string, c: char, n: nat, rest: string)
    requires s != "" && s[0] != '"' && Unescape(s) == Some((c, n)) && 0 < n <= |s| && s[n..] == rest
    ensures ParseChars(s) ==
            if ParseChars(rest).None? then None else Some(([c] + ParseChars(rest).value.0, ParseChars(rest).value.1))
  {}

  lemma EscapeOneThenParse(c: char, k: string)
    ensures ParseChars(EscapeChar(c) + k) ==
            if ParseChars(k).None? then None else Some(([c] + ParseChars(k).value.0, ParseChars(k).value.1))
  {
    EscapeCharRoundTrip(c, k);
    ParseOne(EscapeChar(c) + k, c, |EscapeChar(c)|, k);
  }

  lemma EscapeCons(s: string, k: string)
    requires s != ""
    ensures Escape(s, k) == EscapeChar(s[0]) + Escape(s[1..], k)
  {}

  lemma HeadAndTail(s: string, t: string)
    requires s != ""
    ensures [s[0]] + (s[1..] + t) == s + t
  {}

  /** Reading an escaped text continues with what follows it. */
  lemma {:induction false} EscapeThenParse(s: string, k: string)
    ensures ParseChars(Escape(s, k)) ==
            if ParseChars(k).None? then None else Some((s + ParseChars(k).value.0, ParseChars(k).value.1))
    decreases |s|
  {
    if s == "" {
      if ParseChars(k).Some? { assert s + ParseChars(k).value.0 == ParseChars(k).value.0; }
    } else {
      EscapeCons(s, k);
      EscapeOneThenParse(s[0], Escape(s[1..], k));
      EscapeThenParse(s[1..], k);
      if ParseChars(k).Some? { HeadAndTail(s, ParseChars(k).value.0); }
    }
  }

  /** String literals round-trip. */
  lemma StringRoundTrip(s: string, k: string)
    ensures ParseChars(Escape(s, "\"" + k)) == Some((s, k))
  {
    EscapeThenParse(s, "\"" + k);
    assert ("\"" + k)[1..] == k && s + "" == s;
  }

  // ------------------------------------------------------------------ values

  function ParseDigits(acc: nat, s: string): (nat, string)
    decreases |s|
  {
    if s != "" && IsDigit(s[0]) then ParseDigits(acc * 10 + DigitValue(s[0]), s[1..]) else (acc, s)
  }

  lemma {:induction false} DigitsRoundTrip(n: nat, k: string)
    ensures ParseDigits(0, NatToString(n) + k) == ParseDigits(n, k)
    decreases n
  {
    var d := Digit(n % 10);
    assert DigitValue(d) == n % 10;
    if n < 10 {
      assert (NatToString(n) + k)[1..] == k;
    } else {
      DigitsRoundTrip(n / 10, [d] + k);
      assert NatToString(n) + k == NatToString(n / 10) + ([d] + k);
      assert ([d] + k)[1..] == k;
    }
  }

  /** `k` follows the literal `p`. */
  function Expect(p: string, s: string): Option<string> {
    if p <= s then Some(s[|p|..]) else None
  }

  lemma ExpectRoundTrip(p: string, k: string)
    ensures Expect(p, p + k) == Some(k)
  {}

  function PutString(s: string, k: string): string {
    "\"" + Escape(s, "\"" + k)
  }

  function GetString(s: string): Option<(string, string)> {
    if s == "" || s[0] != '"' then None else ParseChars(s[1..])
  }

  function PutOptional(s: Option<string>, k: string): string {
    match s
    case None => "null" + k
    case Some(v) => PutString(v, k)
  }

  function GetOptional(s: string): Option<(Option<string>, string)> {
    var rest := Expect("null", s);
    if rest.Some? then Some((None, rest.value))
    else
      var v := GetString(s);
      if v.None? then None else Some((Some(v.value.0), v.value.1))
  }

  function PutNat(n: Option<nat>, k: string): string {
    match n
    case None => "null" + k
    case Some(v) => NatToString(v) + k
  }

  function GetNat(s: string): Option<(Option<nat>, string)> {
    var rest := Expect("null", s);
    if rest.Some? then Some((None, rest.value))
    else if s == "" || !IsDigit(s[0]) then None
    else
      var (n, k) := ParseDigits(0, s);
      Some((Some(n), k))
  }

  function PutStatus(status: FinalStatus, k: string): string {
    (if status.Succeeded? then "\"SUCCEEDED\"" else "\"FAILED\"") + k
  }

  function GetStatus(s: string): Option<(FinalStatus, string)> {
    var ok, bad := Expect("\"SUCCEEDED\"", s), Expect("\"FAILED\"", s);
    if ok.Some? then Some((Succeeded, ok.value))
    else if bad.Some? then Some((Failed, bad.value))
    else None
  }

  lemma GetStringRoundTrip(s: string, k: string)
    ensures GetString(PutString(s, k)) == Some((s, k))
  {
    StringRoundTrip(s, k);
    assert PutString(s, k)[1..] == Escape(s, "\"" + k);
  }

  lemma GetOptionalRoundTrip(s: Option<string>, k: string)
    ensures GetOptional(PutOptional(s, k)) == Some((s, k))
  {
    match s
    case None => ExpectRoundTrip("null", k);
    case Some(v) =>
      GetStringRoundTrip(v, k);
      assert PutString(v, k)[0] == '"' && "null"[0] == 'n';
  }

  lemma GetNatRoundTrip(n: Option<nat>, k: string)
    requires k != "" && !IsDigit(k[0])
    ensures GetNat(PutNat(n, k)) == Some((n, k))
  {
    match n
    case None => ExpectRoundTrip("null", k);
    case Some(v) =>
      DigitsRoundTrip(v, k);
      NatToStringDigits(v);
      var s := NatToString(v) + k;
      assert s[0] == NatToString(v)[0] && "null"[0] == 'n';
  }

  lemma GetStatusRoundTrip(status: FinalStatus, k: string)
    ensures GetStatus(PutStatus(status, k)) == Some((status, k))
  {
    if status.Succeeded? {
      ExpectRoundTrip("\"SUCCEEDED\"", k);
    } else {
      ExpectRoundTrip("\"FAILED\"", k);
      assert ("\"FAILED\"" + k)[1] == 'F' && "\"SUCCEEDED\""[1] == 'S';
    }
  }

  // ------------------------------------------------------------------ records

  const ID_KEY := "{\"external_id\":"
  const STATUS_KEY := ",\"status\":"
  const RESPONSE_KEY := ",\"response\":"
  const ERROR_KEY := ",\"error\":"
  const ATTEMPTS_KEY := ",\"attempts\":"
  const LATENCY_KEY := ",\"latency_ms\":"

  /** `model_dump_json()` of a record, followed by `k`; written from the last field to the first. */
  function PutLatency(r: ResultRecord, k: string): string { LATENCY_KEY + PutNat(r.latencyMs, "}" + k) }
  function PutAttempts(r: ResultRecord, k: string): string { ATTEMPTS_KEY + PutNat(Some(r.attempts), PutLatency(r, k)) }
  function PutError(r: ResultRecord, k: string): string { ERROR_KEY + PutOptional(r.error, PutAttempts(r, k)) }
  function PutResponse(r: ResultRecord, k: string): string { RESPONSE_KEY + PutOptional(r.response, PutError(r, k)) }
  function PutVerdict(r: ResultRecord, k: string): string { STATUS_KEY + PutStatus(r.status, PutResponse(r, k)) }
  function Put(r: ResultRecord, k: string): string { ID_KEY + PutString(r.externalId, PutVerdict(r, k)) }

  function GetLatency(s: string): Option<(Option<nat>, string)> {
    var a := Expect(LATENCY_KEY, s);
    if a.None? then None
    else
      var n := GetNat(a.value);
      if n.None? then None
      else
        var k := Expect("}", n.value.1);
        if k.None? then None else Some((n.value.0, k.value))
  }

  function GetAttempts(s: string): Option<(nat, string)> {
    var a := Expect(ATTEMPTS_KEY, s);
    if a.None? then None
    else
      var n := GetNat(a.value);
      if n.None? || n.value.0.None? then None else Some((n.value.0.value, n.value.1))
  }

  function GetField(key: string, s: string): Option<(Option<string>, string)> {
    var a := Expect(key, s);
    if a.None? then None else GetOptional(a.value)
  }

  function GetVerdict(s: string): Option<(FinalStatus, string)> {
    var a := Expect(STATUS_KEY, s);
    if a.None? then None else GetStatus(a.value)
  }

  function GetId(s: string): Option<(string, string)> {
    var a := Expect(ID_KEY, s);
    if a.None? then None else GetString(a.value)
  }

  /** `json.loads` on a record of this shape, and what follows it. */
  function Get(s: string): Option<(ResultRecord, string)> {
    var id := GetId(s);
    if id.None? then None else
    var status := GetVerdict(id.value.1);
    if status.None? then None else
    var response := GetField(RESPONSE_KEY, status.value.1);
    if response.None? then None else
    var error := GetField(ERROR_KEY, response.value.1);
    if error.None? then None else
    var attempts := GetAttempts(error.value.1);
    if attempts.None? then None else
    var latency := GetLatency(attempts.value.1);
    if latency.None? then None else
    Some((ResultRecord(id.value.0, status.value.0, response.value.0, error.value.0, attempts.value.0, latency.value.0),
          latency.value.1))
  }

  lemma LatencyRoundTrip(r: ResultRecord, k: string)
    ensures GetLatency(PutLatency(r, k)) == Some((r.latencyMs, k))
  {
    ExpectRoundTrip(LATENCY_KEY, PutNat(r.latencyMs, "}" + k));
    GetNatRoundTrip(r.latencyMs, "}" + k);
    ExpectRoundTrip("}", k);
  }

  lemma AttemptsRoundTrip(r: ResultRecord, k: string)
    ensures GetAttempts(PutAttempts(r, k)) == Some((r.attempts, PutLatency(r, k)))
  {
    ExpectRoundTrip(ATTEMPTS_KEY, PutNat(Some(r.attempts), PutLatency(r, k)));
    assert PutLatency(r, k)[0] == ',';
    GetNatRoundTrip(Some(r.attempts), PutLatency(r, k));
  }

  lemma FieldRoundTrip(key: string, v: Option<string>, k: string)
    ensures GetField(key, key + PutOptional(v, k)) == Some((v, k))
  {
    ExpectRoundTrip(key, PutOptional(v, k));
    GetOptionalRoundTrip(v, k);
  }

  lemma VerdictRoundTrip(r: ResultRecord, k: string)
    ensures GetVerdict(PutVerdict(r, k)) == Some((r.status, PutResponse(r, k)))
  {
    ExpectRoundTrip(STATUS_KEY, PutStatus(r.status, PutResponse(r, k)));
    GetStatusRoundTrip(r.status, PutResponse(r, k));
  }

  lemma IdRoundTrip(r: ResultRecord, k: string)
    ensures GetId(Put(r, k)) == Some((r.externalId, PutVerdict(r, k)))
  {
    ExpectRoundTrip(ID_KEY, PutString(r.externalId, PutVerdict(r, k)));
    GetStringRoundTrip(r.externalId, PutVerdict(r, k));
  }

  /** Every record reads back as itself, whatever its strings contain and whatever follows. */
  lemma RecordRoundTrip(r: ResultRecord, k: string)
    ensures Get(Put(r, k)) == Some((r, k))
  {
    IdRoundTrip(r, k);
    VerdictRoundTrip(r, k);
    FieldRoundTrip(RESPONSE_KEY, r.response, PutError(r, k));
    FieldRoundTrip(ERROR_KEY, r.error, PutAttempts(r, k));
    AttemptsRoundTrip(r, k);
    LatencyRoundTrip(r, k);
  }

  lemma {:induction false} EscapeSplit(s: string, k: string)
    ensures Escape(s, k) == Escape(s, "") + k
  {
    if s != "" { EscapeSplit(s[1..], k); }
  }

  lemma StringSplit(s: string, k: string)
    ensures PutString(s, k) == PutString(s, "") + k
  {
    EscapeSplit(s, "\"" + k);
    EscapeSplit(s, "\"" + "");
  }

  lemma OptionalSplit(s: Option<string>, k: string)
    ensures PutOptional(s, k) == PutOptional(s, "") + k
  {
    if s.Some? { StringSplit(s.value, k); }
  }

  lemma FieldSplit(key: string, v: Option<string>, e: string, ek: string, k: string)
    requires ek == e + k
    ensures key + PutOptional(v, ek) == key + PutOptional(v, e) + k
  {
    OptionalSplit(v, ek);
    OptionalSplit(v, e);
  }

  lemma NatSplit(key: string, n: Option<nat>, e: string, ek: string, k: string)
    requires ek == e + k
    ensures key + PutNat(n, ek) == key + PutNat(n, e) + k
  {}

  lemma LatencySplit(r: ResultRecord, k: string)
    ensures PutLatency(r, k) == PutLatency(r, "") + k
  {
    NatSplit(LATENCY_KEY, r.latencyMs, "}" + "", "}" + k, k);
  }

  lemma AttemptsSplit(r: ResultRecord, k: string)
    ensures PutAttempts(r, k) == PutAttempts(r, "") + k
  {
    LatencySplit(r, k);
    NatSplit(ATTEMPTS_KEY, Some(r.attempts), PutLatency(r, ""), PutLatency(r, k), k);
  }

  lemma ErrorSplit(r: ResultRecord, k: string)
    ensures PutError(r, k) == PutError(r, "") + k
  {
    AttemptsSplit(r, k);
    FieldSplit(ERROR_KEY, r.error, PutAttempts(r, ""), PutAttempts(r, k), k);
  }

  lemma ResponseSplit(r: ResultRecord, k: string)
    ensures PutResponse(r, k) == PutResponse(r, "") + k
  {
    ErrorSplit(r, k);
    FieldSplit(RESPONSE_KEY, r.response, PutError(r, ""), PutError(r, k), k);
  }

  lemma StatusSplit(status: FinalStatus, e: string, ek: string, k: string)
    requires ek == e + k
    ensures STATUS_KEY + PutStatus(status, ek) == STATUS_KEY + PutStatus(status, e) + k
  {}

  lemma VerdictSplit(r: ResultRecord, k: string)
    ensures PutVerdict(r, k) == PutVerdict(r, "") + k
  {
    ResponseSplit(r, k);
    StatusSplit(r.status, PutResponse(r, ""), PutResponse(r, k), k);
  }

  lemma IdSplit(id: string, e: string, ek: string, k: string)
    requires ek == e + k
    ensures ID_KEY + PutString(id, ek) == ID_KEY + PutString(id, e) + k
  {
    StringSplit(id, ek);
    StringSplit(id, e);
  }

  /** A record's text does not depend on what follows it. */
  lemma PutSplit(r: ResultRecord, k: string)
    ensures Put(r, k) == Put(r, "") + k
  {
    VerdictSplit(r, k);
    IdSplit(r.externalId, PutVerdict(r, ""), PutVerdict(r, k), k);
  }
}
