/** A chunk file whose write broke off: what is read of it, and exactly when it is read at all. */
module Torn {
  import opened Domain
  import opened Text
  import opened Jsonl
  import opened Framing

  // ------------------------------------------- what is parsed stays parsed

  lemma ExpectMore(p: string, s: string, t: string)
    requires Expect(p, s).Some?
    ensures Expect(p, s + t) == Some(Expect(p, s).value + t)
  {
    assert (s + t)[|p|..] == s[|p|..] + t && p <= s + t;
  }

  lemma UnescapeMore(s: string, t: string)
    requires s != "" && Unescape(s).Some?
    ensures Unescape(s).value.1 <= |s| && Unescape(s + t) == Unescape(s)
  {
    if |s| >= 6 { assert (s + t)[2..6] == s[2..6]; }
  }

  lemma {:induction false} ParseCharsMore(s: string, t: string)
    requires ParseChars(s).Some?
    ensures ParseChars(s + t) == Some((ParseChars(s).value.0, ParseChars(s).value.1 + t))
    decreases |s|
  {
    if s[0] == '"' {
      assert (s + t)[1..] == s[1..] + t;
    } else {
      UnescapeMore(s, t);
      var n := Unescape(s).value.1;
      ParseCharsMore(s[n..], t);
      assert (s + t)[n..] == s[n..] + t;
    }
  }

  lemma GetStringMore(s: string, t: string)
    requires GetString(s).Some?
    ensures GetString(s + t) == Some((GetString(s).value.0, GetString(s).value.1 + t))
  {
    ParseCharsMore(s[1..], t);
    assert (s + t)[1..] == s[1..] + t;
  }

  lemma GetOptionalMore(s: string, t: string)
    requires GetOptional(s).Some?
    ensures GetOptional(s + t) == Some((GetOptional(s).value.0, GetOptional(s).value.1 + t))
  {
    if Expect("null", s).Some? {
      ExpectMore("null", s, t);
    } else {
      GetStringMore(s, t);
      assert (s + t)[0] == '"' && "null"[0] == 'n';
    }
  }

  lemma {:induction false} ParseDigitsMore(acc: nat, s: string, t: string)
    requires ParseDigits(acc, s).1 != ""
    ensures ParseDigits(acc, s + t) == (ParseDigits(acc, s).0, ParseDigits(acc, s).1 + t)
    decreases |s|
  {
    assert (s + t)[0] == s[0];
    if IsDigit(s[0]) {
      assert (s + t)[1..] == s[1..] + t;
      ParseDigitsMore(acc * 10 + DigitValue(s[0]), s[1..], t);
    }
  }

  /** A number is only known to be complete when something follows it. */
  lemma GetNatMore(s: string, t: string)
    requires GetNat(s).Some? && GetNat(s).value.1 != ""
    ensures GetNat(s + t) == Some((GetNat(s).value.0, GetNat(s).value.1 + t))
  {
    if Expect("null", s).Some? {
      ExpectMore("null", s, t);
    } else {
      ParseDigitsMore(0, s, t);
      assert (s + t)[0] == s[0] && "null"[0] == 'n';
    }
  }

  lemma GetStatusMore(s: string, t: string)
    requires GetStatus(s).Some?
    ensures GetStatus(s + t) == Some((GetStatus(s).value.0, GetStatus(s).value.1 + t))
  {
    if Expect("\"SUCCEEDED\"", s).Some? {
      ExpectMore("\"SUCCEEDED\"", s, t);
    } else {
      ExpectMore("\"FAILED\"", s, t);
      assert (s + t)[1] == 'F' && "\"SUCCEEDED\""[1] == 'S';
    }
  }

  lemma GetIdMore(s: string, t: string)
    requires GetId(s).Some?
    ensures GetId(s + t) == Some((GetId(s).value.0, GetId(s).value.1 + t))
  {
    ExpectMore(ID_KEY, s, t);
    GetStringMore(Expect(ID_KEY, s).value, t);
  }

  lemma GetVerdictMore(s: string, t: string)
    requires GetVerdict(s).Some?
    ensures GetVerdict(s + t) == Some((GetVerdict(s).value.0, GetVerdict(s).value.1 + t))
  {
    ExpectMore(STATUS_KEY, s, t);
    GetStatusMore(Expect(STATUS_KEY, s).value, t);
  }

  lemma GetFieldMore(key: string, s: string, t: string)
    requires GetField(key, s).Some?
    ensures GetField(key, s + t) == Some((GetField(key, s).value.0, GetField(key, s).value.1 + t))
  {
    ExpectMore(key, s, t);
    GetOptionalMore(Expect(key, s).value, t);
  }

  lemma GetAttemptsMore(s: string, t: string)
    requires GetAttempts(s).Some? && GetAttempts(s).value.1 != ""
    ensures GetAttempts(s + t) == Some((GetAttempts(s).value.0, GetAttempts(s).value.1 + t))
  {
    ExpectMore(ATTEMPTS_KEY, s, t);
    GetNatMore(Expect(ATTEMPTS_KEY, s).value, t);
  }

  lemma GetLatencyMore(s: string, t: string)
    requires GetLatency(s).Some?
    ensures GetLatency(s + t) == Some((GetLatency(s).value.0, GetLatency(s).value.1 + t))
  {
    ExpectMore(LATENCY_KEY, s, t);
    var a := Expect(LATENCY_KEY, s).value;
    GetNatMore(a, t);
    ExpectMore("}", GetNat(a).value.1, t);
  }

  lemma LatencyFollows(s: string)
    requires GetLatency(s).Some?
    ensures s != ""
  {}

  /** A record that has been read is read again whatever is appended. */
  lemma GetMoreText(s: string, t: string)
    requires Get(s).Some?
    ensures Get(s + t) == Some((Get(s).value.0, Get(s).value.1 + t))
  {
    var id := GetId(s).value;
    GetIdMore(s, t);
    var status := GetVerdict(id.1).value;
    GetVerdictMore(id.1, t);
    var response := GetField(RESPONSE_KEY, status.1).value;
    GetFieldMore(RESPONSE_KEY, status.1, t);
    var error := GetField(ERROR_KEY, response.1).value;
    GetFieldMore(ERROR_KEY, response.1, t);
    var attempts := GetAttempts(error.1).value;
    LatencyFollows(attempts.1);
    GetAttemptsMore(error.1, t);
    GetLatencyMore(attempts.1, t);
  }

  /** No proper prefix of a record's text is a record. */
  lemma PrefixFails(r: ResultRecord, p: string)
    requires p < Put(r, "")
    ensures ParseLine(p) == None
  {
    var t := Put(r, "")[|p|..];
    assert p + t == Put(r, "");
    RecordRoundTrip(r, "");
    if Get(p).Some? { GetMoreText(p, t); }
  }

  // ---------------------------------------------------------- a torn first line

  lemma {:induction false} HeadPrefix(s: string)
    ensures Head(s) <= s && NoBreak(Head(s)) && (Head(s) == s <==> NoBreak(s))
  {
    if s != "" && !IsLineBreak(s[0]) {
      HeadPrefix(s[1..]);
      assert s == [s[0]] + s[1..];
      assert Head(s)[1..] == Head(s[1..]);
    }
  }

  lemma StartsWithBrace(r: ResultRecord, p: string)
    requires p != "" && p <= Put(r, "")
    ensures Head(p) != "" && Strip(Head(p)) != ""
  {
    assert p[0] == Put(r, "")[0] == ID_KEY[0] == '{';
    StripBlank(Head(p));
  }

  /** Cut inside its first record, a file yields nothing and fails. */
  lemma TornFirst(r: ResultRecord, p: string)
    requires p != "" && p < Put(r, "")
    ensures ParseUpTo(SplitLines(p)) == ([], false)
  {
    StartsWithBrace(r, p);
    HeadPrefix(p);
    PrefixFails(r, Head(p));
    assert SplitLines(p)[0] == Head(p);
  }

  /** The first line of a file that goes on with `k`: its record, if that is whole. */
  lemma FirstUpTo(r: ResultRecord, k: string)
    requires k == "" || k[0] == '\n'
    ensures var up, rest := ParseUpTo(SplitLines(Put(r, k))), ParseUpTo(SplitLines(if k == "" then "" else k[1..]));
            if WholeRecord(r) then up == ([r] + rest.0, rest.1) else up == ([], false)
  {
    var s := Put(r, k);
    NotBlank(r, k);
    assert SplitLines(s) == [Head(s)] + SplitLines(Tail(s));
    assert SplitLines(s)[1..] == SplitLines(Tail(s));
    if WholeRecord(r) {
      HeadRecord(r, k);
      assert Head(k) == "" && Tail(k) == if k == "" then "" else k[1..];
      RecordRoundTrip(r, "");
    } else {
      HeadBroken(r, k);
    }
  }

  // ------------------------------------------------------------- a torn file

  /** The lines of a file. */
  function Body(records: seq<ResultRecord>): string {
    if records == [] then "" else Lines(records)
  }

  /** How many records are complete in the first `n` characters, and whether the cut is at the end of a record, before
      or after its newline. */
  function CompleteIn(records: seq<ResultRecord>, n: nat): (r: (nat, bool))
    ensures r.0 <= |records|
  {
    if records == [] || n == 0 then (0, true)
    else
      var size := |Put(records[0], "")|;
      if n < size then (0, false)
      else if n == size then (1, true)
      else
        var rest := CompleteIn(records[1..], n - size - 1);
        (1 + rest.0, rest.1)
  }

  lemma BodyCons(records: seq<ResultRecord>)
    requires records != []
    ensures Body(records) == Put(records[0], "") + ("\n" + Body(records[1..]))
  {
    PutSplit(records[0], "\n" + if |records| == 1 then "" else Lines(records[1..]));
  }

  /** The first `m` records, if they are whole. */
  ghost predicate Yields(records: seq<ResultRecord>, m: nat, end: bool, up: (seq<ResultRecord>, bool))
    requires m <= |records|
  {
    if WholeRecords(records[..m]) then up == (records[..m], end) else !up.1
  }

  /** What a file cut after `n` characters yields: the records complete in it. */
  ghost predicate TornAs(records: seq<ResultRecord>, n: nat, up: (seq<ResultRecord>, bool)) {
    Yields(records, CompleteIn(records, n).0, CompleteIn(records, n).1, up)
  }

  lemma YieldsMore(records: seq<ResultRecord>, m: nat, end: bool, rest: (seq<ResultRecord>, bool),
                   up: (seq<ResultRecord>, bool))
    requires m < |records| && Yields(records[1..], m, end, rest)
    requires if WholeRecord(records[0]) then up == ([records[0]] + rest.0, rest.1) else up == ([], false)
    ensures Yields(records, m + 1, end, up)
  {
    var all, later := records[..m + 1], records[1..][..m];
    assert all == [records[0]] + later;
    assert forall k :: 0 <= k < m ==> later[k] == all[k + 1];
    assert WholeRecords(all) <==> WholeRecord(all[0]) && WholeRecords(later);
  }

  lemma CutInside(records: seq<ResultRecord>, n: nat, text: string, k: string)
    requires records != [] && text == Put(records[0], "") && 0 < n < |text|
    ensures TornAs(records, n, ParseUpTo(SplitLines((text + k)[..n])))
  {
    assert (text + k)[..n] == text[..n];
    TornFirst(records[0], text[..n]);
  }

  lemma CutAt(records: seq<ResultRecord>, n: nat, text: string, k: string)
    requires records != [] && text == Put(records[0], "") && 0 < n == |text|
    ensures TornAs(records, n, ParseUpTo(SplitLines((text + k)[..n])))
  {
    CutExactly(text, k);
    LineUpTo(records[0], text, "", "");
    CompleteAt(records, n);
    CombineAt(records, n, ParseUpTo(SplitLines(text + "")));
  }

  lemma CutExactly(text: string, k: string)
    ensures (text + k)[..|text|] == text + ""
  {}

  lemma CombineAt(records: seq<ResultRecord>, n: nat, up: (seq<ResultRecord>, bool))
    requires records != [] && CompleteIn(records, n) == (1, true)
    requires var later := ParseUpTo(SplitLines(""));
             if WholeRecord(records[0]) then up == ([records[0]] + later.0, later.1) else up == ([], false)
    ensures TornAs(records, n, up)
  {
    NoMore(records, ParseUpTo(SplitLines("")));
    YieldsMore(records, 0, true, ParseUpTo(SplitLines("")), up);
  }

  lemma NoMore(records: seq<ResultRecord>, up: (seq<ResultRecord>, bool))
    requires records != [] && up == ParseUpTo(SplitLines(""))
    ensures Yields(records[1..], 0, true, up)
  {}

  lemma CompleteAt(records: seq<ResultRecord>, n: nat)
    requires records != [] && 0 < n == |Put(records[0], "")|
    ensures CompleteIn(records, n) == (1, true)
  {}

  lemma CompleteAfter(records: seq<ResultRecord>, n: nat)
    requires records != [] && n > |Put(records[0], "")|
    ensures var later := CompleteIn(records[1..], n - |Put(records[0], "")| - 1);
            CompleteIn(records, n) == (1 + later.0, later.1)
  {}

  lemma LineUpTo(r: ResultRecord, text: string, k: string, rest: string)
    requires text == Put(r, "") && (k == rest == "" || (k != "" && k[0] == '\n' && k[1..] == rest))
    ensures var up, later := ParseUpTo(SplitLines(text + k)), ParseUpTo(SplitLines(rest));
            if WholeRecord(r) then up == ([r] + later.0, later.1) else up == ([], false)
  {
    PutSplit(r, k);
    FirstUpTo(r, k);
  }

  /** The text of a record, its newline, and a part of the rest. */
  lemma CutText(text: string, rest: string, n: nat) returns (k: string)
    requires |text| < n <= |text| + 1 + |rest|
    ensures (text + ("\n" + rest))[..n] == text + k && k != "" && k[0] == '\n' && k[1..] == rest[..n - |text| - 1]
  {
    k := "\n" + rest[..n - |text| - 1];
  }

  lemma CutAfter(records: seq<ResultRecord>, n: nat, text: string, k: string, rest: string)
    requires records != [] && text == Put(records[0], "") && n > |text| && k != "" && k[0] == '\n' && k[1..] == rest
    requires TornAs(records[1..], n - |text| - 1, ParseUpTo(SplitLines(rest)))
    ensures TornAs(records, n, ParseUpTo(SplitLines(text + k)))
  {
    CompleteAfter(records, n);
    LineUpTo(records[0], text, k, rest);
    Combine(records, n, n - |text| - 1, ParseUpTo(SplitLines(rest)), ParseUpTo(SplitLines(text + k)));
  }

  lemma Combine(records: seq<ResultRecord>, n: nat, n': nat, rest: (seq<ResultRecord>, bool),
                up: (seq<ResultRecord>, bool))
    requires records != [] && TornAs(records[1..], n', rest)
    requires CompleteIn(records, n) == (1 + CompleteIn(records[1..], n').0, CompleteIn(records[1..], n').1)
    requires if WholeRecord(records[0]) then up == ([records[0]] + rest.0, rest.1) else up == ([], false)
    ensures TornAs(records, n, up)
  {
    YieldsMore(records, CompleteIn(records[1..], n').0, CompleteIn(records[1..], n').1, rest, up);
  }

  lemma {:induction false} TornBody(records: seq<ResultRecord>, n: nat)
    requires n <= |Body(records)|
    ensures TornAs(records, n, ParseUpTo(SplitLines(Body(records)[..n])))
    decreases |records|
  {
    if records != [] && n > 0 {
      BodyCons(records);
      var text, rest := Put(records[0], ""), Body(records[1..]);
      if n < |text| {
        CutInside(records, n, text, "\n" + rest);
      } else if n == |text| {
        CutAt(records, n, text, "\n" + rest);
      } else {
        var k := CutText(text, rest, n);
        TornBody(records[1..], n - |text| - 1);
        CutAfter(records, n, text, k, rest[..n - |text| - 1]);
      }
    }
  }

  /** A chunk file cut anywhere yields the records that are complete in it, and fails unless the cut is at the end of a
      record; a record with a raw line boundary in a text makes it fail in any case. */
  lemma TornChunk(records: seq<ResultRecord>, n: nat)
    requires n <= |Payload(records)|
    ensures TornAs(records, n, ParseUpTo(SplitLines(Payload(records)[..n])))
  {
    if records == [] {
      OnlyNewline(Payload(records)[..n]);
    } else {
      TornBody(records, n);
    }
  }

  lemma OnlyNewline(p: string)
    requires p <= "\n"
    ensures ParseUpTo(SplitLines(p)) == ([], true)
  {
    if p != "" {
      assert p == "\n" && Head(p) == "" && Tail(p) == "";
      assert SplitLines(p) == [""] + SplitLines("");
    }
  }

  /** A torn file is read at all if and only if the cut is at the end of a record and the records before it are whole.
      */
  lemma TornReads(records: seq<ResultRecord>, n: nat)
    requires n <= |Payload(records)|
    ensures var (m, end) := CompleteIn(records, n);
            ReadBack(Payload(records)[..n]) ==
            if end && WholeRecords(records[..m]) then Some(records[..m]) else None
  {
    TornChunk(records, n);
    ParseUpToIs(SplitLines(Payload(records)[..n]));
  }
}
