/** Logger::log: bounded formatting of the message and of the line around it. */
module LogLine {
  import Types

  const MAX_BUF_SIZE: nat := 1024
  const NUL: char := '\0'

  /** The first n characters, or all of them. */
  function Take(s: string, n: nat): string { if |s| <= n then s else s[..n] }

  /** What "%s" prints: the characters before the first NUL. */
  function CStr(s: string): (r: string)
    ensures r <= s && NUL !in r && (r == s || s[|r|] == NUL)
  {
    if s == "" || s[0] == NUL then "" else [s[0]] + CStr(s[1..])
  }

  function Decimal(n: nat): string {
    if n < 10 then [('0' as int + n) as char] else Decimal(n / 10) + [('0' as int + n % 10) as char]
  }

  function DigitValue(c: char): int { c as int - '0' as int }

  function ParseDecimal(s: string): int {
    if s == "" then 0 else 10 * ParseDecimal(s[..|s| - 1]) + DigitValue(s[|s| - 1])
  }

  lemma {:induction false} DecimalRoundTrip(n: nat)
    ensures ParseDecimal(Decimal(n)) == n
  {
    if n < 10 {
      assert Decimal(n)[..0] == "";
    } else {
      DecimalRoundTrip(n / 10);
      assert Decimal(n)[..|Decimal(n)| - 1] == Decimal(n / 10);
    }
  }

  lemma {:induction false} DecimalDigits(n: nat)
    ensures Decimal(n) != "" && forall i :: 0 <= i < |Decimal(n)| ==> '0' <= Decimal(n)[i] <= '9'
    ensures n > 0 ==> Decimal(n)[0] != '0'
    ensures n == 0 ==> Decimal(n) == "0"
  {
    if n >= 10 { DecimalDigits(n / 10); }
  }

  /** A trailing newline is dropped. */
  function Chomp(s: string): string {
    if s != "" && s[|s| - 1] == '\n' then s[..|s| - 1] else s
  }

  datatype Format = Format(ts: bool, location: bool, func: bool, thread: bool)

  /** The arguments of one log call, with the time and the thread id. */
  datatype Record = Record(
    time: string, moduleName: string, level: string, file: string, line: nat,
    func: string, tid: nat, text: string)

  function Stamp(f: Format, r: Record): string { if f.ts then CStr(r.time) + ": " else "" }

  function Tag(r: Record): string { "[FireboltNative|" + CStr(r.moduleName) + "|" + CStr(r.level) + "]" }

  function Where(f: Format, r: Record): string {
    if f.location && f.func then "[" + CStr(r.file) + ":" + Decimal(r.line) + "," + CStr(r.func) + "]"
    else if f.location then "[" + CStr(r.file) + ":" + Decimal(r.line) + "]"
    else if f.func then "[" + CStr(r.func) + "()]"
    else ""
  }

  function Thread(f: Format, r: Record): string { if f.thread then "<tid:" + Decimal(r.tid) + ">" else "" }

  /** Everything before the message. */
  function Prefix(f: Format, r: Record): string { Stamp(f, r) + Tag(r) + Where(f, r) + Thread(f, r) }

  /** The line as it would be with unlimited buffers. */
  function FullLine(f: Format, r: Record): string {
    Prefix(f, r) + ": " + CStr(Chomp(r.text))
  }

  /** snprintf(buf + at, buf.Length - at, "%s", text) and its return value. */
  method SnPrintf(buf: array<char>, at: nat, text: string) returns (ret: nat)
    requires at < buf.Length
    modifies buf
    ensures ret == |text|
    ensures buf[..at] == old(buf[..at])
    ensures var n := |Take(text, buf.Length - at - 1)|;
            buf[at..at + n] == Take(text, buf.Length - at - 1) && buf[at + n] == NUL
  {
    var n := if |text| <= buf.Length - at - 1 then |text| else buf.Length - at - 1;
    for i := 0 to n
      invariant buf[..at] == old(buf[..at])
      invariant buf[at..at + i] == text[..i]
    {
      buf[at + i] := text[i];
    }
    buf[at + n] := NUL;
    ret := |text|;
  }

  lemma TakeAppended(a: string, b: string, n: nat)
    ensures Take(a + b, n) == Take(a, n) + Take(b, n - |Take(a, n)|)
  {
  }

  class LineBuffer {
    const buf: array<char>
    var len: nat
    /** Everything appended so far, untruncated. */
    ghost var all: string

    ghost predicate Valid()
      reads this, buf
    {
      buf.Length == MAX_BUF_SIZE && len == |Take(all, MAX_BUF_SIZE - 1)|
      && buf[..len] == Take(all, MAX_BUF_SIZE - 1) && buf[len] == NUL
    }

    constructor ()
      ensures Valid() && fresh(buf) && all == ""
    {
      var b := new char[MAX_BUF_SIZE](i => NUL);
      buf := b;
      len := 0;
      all := "";
    }

    /** snAppend: advance by what was really written, never past the last NUL. */
    method Append(text: string)
      requires Valid()
      modifies this, buf
      ensures Valid() && all == old(all) + text
    {
      var ret := SnPrintf(buf, len, text);
      ghost var n := |Take(text, buf.Length - len - 1)|;
      assert buf[..len + n] == buf[..len] + buf[len..len + n];
      TakeAppended(all, text, MAX_BUF_SIZE - 1);
      if ret > 0 && len < MAX_BUF_SIZE - 1 {
        len := len + (if ret < MAX_BUF_SIZE - len - 1 then ret else MAX_BUF_SIZE - len - 1);
      }
      all := all + text;
    }
  }

  /** vsnprintf into the message buffer, then the newline check at the truncated end. */
  function Message(text: string): string { Chomp(Take(text, MAX_BUF_SIZE - 1)) }

  method AppendWhere(b: LineBuffer, f: Format, r: Record)
    requires b.Valid()
    modifies b, b.buf
    ensures b.Valid() && b.all == old(b.all) + Where(f, r)
  {
    if f.location || f.func {
      if f.location && f.func {
        b.Append("[" + CStr(r.file) + ":" + Decimal(r.line) + "," + CStr(r.func) + "]");
      } else if f.location {
        b.Append("[" + CStr(r.file) + ":" + Decimal(r.line) + "]");
      } else {
        b.Append("[" + CStr(r.func) + "()]");
      }
    }
  }

  method AppendPrefix(b: LineBuffer, f: Format, r: Record)
    requires b.Valid() && b.all == ""
    modifies b, b.buf
    ensures b.Valid() && b.all == Prefix(f, r)
  {
    if f.ts {
      b.Append(CStr(r.time) + ": ");
    }
    assert b.all == Stamp(f, r);
    b.Append("[FireboltNative|" + CStr(r.moduleName) + "|" + CStr(r.level) + "]");
    assert b.all == Stamp(f, r) + Tag(r);
    AppendWhere(b, f, r);
    if f.thread {
      b.Append("<tid:" + Decimal(r.tid) + ">");
    }
  }

  /** What the appends add up to is the full line, as far as the buffer goes. */
  lemma AppendedLine(f: Format, r: Record)
    ensures Take(Prefix(f, r) + (": " + CStr(Message(r.text))), MAX_BUF_SIZE - 1)
            == Take(FullLine(f, r), MAX_BUF_SIZE - 1)
  {
    Types.Assoc(Prefix(f, r), ": ", CStr(Message(r.text)));
    TwoStagesAreOne(Prefix(f, r) + ": ", r.text);
  }

  /** The formatting part of log(), append by append. */
  method FormatLine(f: Format, r: Record) returns (b: LineBuffer)
    ensures b.Valid() && fresh(b) && fresh(b.buf)
    ensures b.buf[..b.len] == Take(FullLine(f, r), MAX_BUF_SIZE - 1)
  {
    b := new LineBuffer();
    AppendPrefix(b, f, r);
    b.Append(": " + CStr(Message(r.text)));
    AppendedLine(f, r);
  }

  // ----- two truncations are as good as one

  lemma {:induction false} CStrOfPrefix(x: string, y: string, n: nat)
    requires n <= |x| && n <= |y| && x[..n] == y[..n]
    ensures Take(CStr(x), n) == Take(CStr(y), n)
  {
    if n > 0 {
      assert x[0] == x[..n][0] && y[0] == y[..n][0];
      if x[0] != NUL {
        assert x[1..][..n - 1] == x[..n][1..] && y[1..][..n - 1] == y[..n][1..];
        CStrOfPrefix(x[1..], y[1..], n - 1);
        TakeCons(x[0], CStr(x[1..]), n);
        TakeCons(y[0], CStr(y[1..]), n);
      }
    }
  }

  lemma TakeCons(c: char, s: string, n: nat)
    requires n > 0
    ensures Take([c] + s, n) == [c] + Take(s, n - 1)
  {
  }

  lemma TakeConcat(a: string, s: string, t: string, m: nat, n: nat)
    requires Take(s, n) == Take(t, n) && m <= |a| + n
    ensures Take(a + s, m) == Take(a + t, m)
  {
  }

  /** Cutting the message at 1023 characters before its newline check does not show in the line:
      what it loses or changes lies beyond the line's own limit. */
  lemma TwoStagesAreOne(head: string, text: string)
    requires head != ""
    ensures Take(head + CStr(Message(text)), MAX_BUF_SIZE - 1) == Take(head + CStr(Chomp(text)), MAX_BUF_SIZE - 1)
  {
    if |text| >= MAX_BUF_SIZE {
      var n := MAX_BUF_SIZE - 2;
      assert Message(text)[..n] == text[..n] && Chomp(text)[..n] == text[..n];
      CStrOfPrefix(Message(text), Chomp(text), n);
      TakeConcat(head, CStr(Message(text)), CStr(Chomp(text)), MAX_BUF_SIZE - 1, n);
    }
  }

  // ----- reading a line back

  /** What follows the text `lit`, which must come first. */
  function Expect(s: string, lit: string): string { if lit <= s then s[|lit|..] else "" }

  /** What comes before the first c, and what comes after it. */
  function CutAt(s: string, c: char): (string, string) {
    if s == "" then ("", "")
    else if s[0] == c then ("", s[1..])
    else ([s[0]] + CutAt(s[1..], c).0, CutAt(s[1..], c).1)
  }

  lemma {:induction false} CutField(a: string, c: char, b: string)
    requires c !in a
    ensures CutAt(a + [c] + b, c) == (a, b)
  {
    var s := a + [c] + b;
    if a == "" {
      assert s == [c] + b;
    } else {
      CutField(a[1..], c, b);
      assert s[1..] == a[1..] + [c] + b && a == [a[0]] + a[1..];
    }
  }

  lemma ExpectLiteral(lit: string, b: string)
    ensures Expect(lit + b, lit) == b
  {
  }

  /** A field between a literal and a delimiter. */
  lemma FieldBetween(lit: string, a: string, c: char, b: string)
    requires c !in a
    ensures CutAt(Expect(lit + (a + [c] + b), lit), c) == (a, b)
  {
    ExpectLiteral(lit, a + [c] + b);
    CutField(a, c, b);
  }

  datatype Shown = Shown(
    time: string, moduleName: string, level: string, file: string, line: string, func: string, tid: string,
    text: string)

  /** The time has no blank in it, and its colon comes last. */
  function ReadStamp(f: Format, s: string): (string, string) {
    if f.ts then var (t, rest) := CutAt(s, ' '); (if t == "" then "" else t[..|t| - 1], rest) else ("", s)
  }

  function ReadTag(s: string): (string, string, string) {
    var (m, rest) := CutAt(Expect(s, "[FireboltNative|"), '|');
    var (l, rest') := CutAt(rest, ']');
    (m, l, rest')
  }

  /** File, line and function. */
  function ReadWhere(f: Format, s: string): (string, string, string, string) {
    if f.location then
      var (file, rest) := CutAt(Expect(s, "["), ':');
      if f.func then
        var (line, rest') := CutAt(rest, ',');
        var (func, rest'') := CutAt(rest', ']');
        (file, line, func, rest'')
      else
        var (line, rest') := CutAt(rest, ']');
        (file, line, "", rest')
    else if f.func then
      var (func, rest) := CutAt(Expect(s, "["), '(');
      ("", "", func, Expect(rest, ")]"))
    else ("", "", "", s)
  }

  function ReadThread(f: Format, s: string): (string, string) {
    if f.thread then CutAt(Expect(s, "<tid:"), '>') else ("", s)
  }

  function ReadLine(f: Format, s: string): Shown {
    var (time, s1) := ReadStamp(f, s);
    var (moduleName, level, s2) := ReadTag(s1);
    var (file, line, func, s3) := ReadWhere(f, s2);
    var (tid, s4) := ReadThread(f, s3);
    Shown(time, moduleName, level, file, line, func, tid, Expect(s4, ": "))
  }

  /** The fields do not contain the delimiters that follow them. */
  predicate Plain(f: Format, r: Record) {
    ' ' !in CStr(r.time) && '|' !in CStr(r.moduleName) && ']' !in CStr(r.level) && ':' !in CStr(r.file)
    && (if f.location then ']' !in CStr(r.func) else '(' !in CStr(r.func))
  }

  lemma ReadsStamp(f: Format, r: Record, rest: string)
    requires Plain(f, r)
    ensures ReadStamp(f, Stamp(f, r) + rest) == (if f.ts then CStr(r.time) else "", rest)
  {
    if f.ts {
      var t := CStr(r.time);
      assert t + ": " + rest == (t + ":") + [' '] + rest;
      CutField(t + ":", ' ', rest);
      assert (t + ":")[..|t|] == t;
    } else {
      assert "" + rest == rest;
    }
  }

  lemma Regroup(a: string, b: string, c: string, d: string, e: string, rest: string)
    ensures a + b + c + d + e + rest == a + (b + c + (d + e + rest))
    ensures a + b + c + d + e + rest == a + (b + (c + (d + (e + rest))))
  {
  }

  lemma ReadsTag(r: Record, rest: string)
    requires '|' !in CStr(r.moduleName) && ']' !in CStr(r.level)
    ensures ReadTag(Tag(r) + rest) == (CStr(r.moduleName), CStr(r.level), rest)
  {
    var m, l := CStr(r.moduleName), CStr(r.level);
    var tail := l + [']'] + rest;
    Regroup("[FireboltNative|", m, "|", l, "]", rest);
    FieldBetween("[FireboltNative|", m, '|', tail);
    CutField(l, ']', rest);
  }

  lemma NoDelimiter(n: nat, c: char)
    requires !('0' <= c <= '9')
    ensures c !in Decimal(n)
  {
    DecimalDigits(n);
  }

  lemma ReadsPlace(f: Format, r: Record, rest: string)
    requires f.location && !f.func && Plain(f, r)
    ensures ReadWhere(f, Where(f, r) + rest) == (CStr(r.file), Decimal(r.line), "", rest)
  {
    var file, line := CStr(r.file), Decimal(r.line);
    Regroup("[", file, ":", line, "]", rest);
    FieldBetween("[", file, ':', line + [']'] + rest);
    NoDelimiter(r.line, ']');
    CutField(line, ']', rest);
  }

  lemma ReadsPlaceAndFunction(f: Format, r: Record, rest: string)
    requires f.location && f.func && Plain(f, r)
    ensures ReadWhere(f, Where(f, r) + rest) == (CStr(r.file), Decimal(r.line), CStr(r.func), rest)
  {
    var file, line, func := CStr(r.file), Decimal(r.line), CStr(r.func);
    var tail := func + [']'] + rest;
    Types.Assoc("[" + file + ":" + line + ",", func, "]");
    Types.Assoc("[" + file + ":" + line + ",", func + "]", rest);
    Regroup("[", file, ":", line, ",", tail);
    FieldBetween("[", file, ':', line + [','] + tail);
    NoDelimiter(r.line, ',');
    CutField(line, ',', tail);
    CutField(func, ']', rest);
  }

  lemma ReadsWhere(f: Format, r: Record, rest: string)
    requires Plain(f, r)
    ensures ReadWhere(f, Where(f, r) + rest)
            == (if f.location then CStr(r.file) else "", if f.location then Decimal(r.line) else "",
                if f.func then CStr(r.func) else "", rest)
  {
    if f.location && f.func {
      ReadsPlaceAndFunction(f, r, rest);
    } else if f.location {
      ReadsPlace(f, r, rest);
    } else if f.func {
      var func := CStr(r.func);
      assert Where(f, r) + rest == "[" + (func + ['('] + (")]" + rest));
      FieldBetween("[", func, '(', ")]" + rest);
      ExpectLiteral(")]", rest);
    } else {
      assert "" + rest == rest;
    }
  }

  lemma ReadsThread(f: Format, r: Record, rest: string)
    ensures ReadThread(f, Thread(f, r) + rest) == (if f.thread then Decimal(r.tid) else "", rest)
  {
    if f.thread {
      assert Thread(f, r) + rest == "<tid:" + (Decimal(r.tid) + ['>'] + rest);
      NoDelimiter(r.tid, '>');
      FieldBetween("<tid:", Decimal(r.tid), '>', rest);
    } else {
      assert "" + rest == rest;
    }
  }

  /** t is the message without the newline at its end, if it has one there. */
  predicate Unterminated(text: string, t: string) {
    text == t + "\n" || (text == t && (t == "" || t[|t| - 1] != '\n'))
  }

  lemma ChompedIs(text: string, t: string)
    requires Unterminated(text, t)
    ensures Chomp(text) == t
  {
  }

  /** For every flag combination each field can be read back from the line, at its place and between its
      own delimiters, and the message comes last and to its end. */
  lemma LineReadsBack(f: Format, r: Record, t: string)
    requires Plain(f, r) && Unterminated(r.text, t)
    ensures ReadLine(f, FullLine(f, r))
            == Shown(if f.ts then CStr(r.time) else "", CStr(r.moduleName), CStr(r.level),
                     if f.location then CStr(r.file) else "", if f.location then Decimal(r.line) else "",
                     if f.func then CStr(r.func) else "", if f.thread then Decimal(r.tid) else "", CStr(t))
  {
    ChompedIs(r.text, t);
    var end := ": " + CStr(t);
    var s3 := Thread(f, r) + end;
    var s2 := Where(f, r) + s3;
    var s1 := Tag(r) + s2;
    Regroup(Stamp(f, r), Tag(r), Where(f, r), Thread(f, r), ": ", CStr(t));
    ReadsStamp(f, r, s1);
    ReadsTag(r, s2);
    ReadsWhere(f, r, s3);
    ReadsThread(f, r, end);
    ExpectLiteral(": ", CStr(t));
  }
}
