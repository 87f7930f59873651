/** The text operations that SDP is printed and parsed with: decimal numbers, lines, trimming, words and
    dotted addresses, as the standard library of the program's language defines them. */
module Text {
  import opened Types

  // ----- Numbers -----

  predicate Digit(c: char) {
    '0' <= c <= '9'
  }

  predicate AllDigits(s: string) {
    forall i :: 0 <= i < |s| ==> Digit(s[i])
  }

  function DigitOf(n: nat): char
    requires n < 10
  {
    '0' + n as char
  }

  function Decimal(n: nat): string {
    if n < 10 then [DigitOf(n)] else Decimal(n / 10) + [DigitOf(n % 10)]
  }

  function ValueOf(s: string): nat
    requires AllDigits(s)
  {
    if s == "" then 0 else ValueOf(s[..|s| - 1]) * 10 + (s[|s| - 1] - '0') as nat
  }

  lemma {:induction false} DecimalValue(n: nat)
    ensures AllDigits(Decimal(n)) && ValueOf(Decimal(n)) == n && Decimal(n) != ""
    ensures Decimal(n)[0] == '0' <==> n == 0
  {
    if n < 10 {
      assert Decimal(n)[..0] == "";
    } else {
      DecimalValue(n / 10);
      assert Decimal(n)[..|Decimal(n)| - 1] == Decimal(n / 10);
    }
  }

  /** `parse` of an unsigned number that may be at most `limit`: digits after an optional `+`. */
  function ParseUnsigned(s: string, limit: nat): Option<nat> {
    var digits := if s != "" && s[0] == '+' then s[1..] else s;
    if digits != "" && AllDigits(digits) && ValueOf(digits) <= limit then Some(ValueOf(digits)) else None
  }

  lemma ParseDecimal(n: nat, limit: nat)
    requires n <= limit
    ensures ParseUnsigned(Decimal(n), limit) == Some(n)
  {
    DecimalValue(n);
  }

  // ----- Lines -----

  predicate OneLine(s: string) {
    '\n' !in s
  }

  /** Lines that each end in CR LF. */
  function Document(lines: seq<string>): string {
    if lines == [] then "" else lines[0] + "\r\n" + Document(lines[1..])
  }

  lemma {:induction false} DocumentAppend(a: seq<string>, b: seq<string>)
    ensures Document(a + b) == Document(a) + Document(b)
  {
    if a == [] {
      assert a + b == b;
    } else {
      assert (a + b)[1..] == a[1..] + b;
      DocumentAppend(a[1..], b);
    }
  }

  function LineEnd(s: string): (n: nat)
    ensures n <= |s| && OneLine(s[..n]) && (n < |s| ==> s[n] == '\n')
  {
    if s == "" || s[0] == '\n' then 0 else 1 + LineEnd(s[1..])
  }

  /** `str::lines`: a line ends at LF, or at the end of the text; a CR just before the LF is dropped. */
  function Lines(s: string): seq<string>
    decreases |s|
  {
    if s == "" then []
    else
      var n := LineEnd(s);
      if n == |s| then [s]
      else [if n > 0 && s[n - 1] == '\r' then s[..n - 1] else s[..n]] + Lines(s[n + 1..])
  }

  lemma {:induction false} LineEndIs(line: string, rest: string)
    requires OneLine(line)
    ensures LineEnd(line + "\n" + rest) == |line|
  {
    if line != "" {
      assert (line + "\n" + rest)[1..] == line[1..] + "\n" + rest;
      assert '\n' !in line[1..];
      LineEndIs(line[1..], rest);
    }
  }

  /** Splitting a document gives its lines back. */
  lemma {:induction false} LinesOfDocument(lines: seq<string>)
    requires forall l :: l in lines ==> OneLine(l)
    ensures Lines(Document(lines)) == lines
  {
    if lines != [] {
      var line, rest := lines[0], Document(lines[1..]);
      assert line in lines;
      LineEndIs(line + "\r", rest);
      var doc := Document(lines);
      assert doc == (line + "\r") + "\n" + rest;
      assert doc[|line| + 2..] == rest && doc[..|line|] == line;
      LinesOfDocument(lines[1..]);
    }
  }

  // ----- Whitespace -----

  /** `char::is_whitespace` */
  predicate Space(c: char) {
    || '\U{9}' <= c <= '\U{D}' || c == ' ' || c == '\U{85}' || c == '\U{A0}' || c == '\U{1680}'
    || '\U{2000}' <= c <= '\U{200A}' || c == '\U{2028}' || c == '\U{2029}' || c == '\U{202F}'
    || c == '\U{205F}' || c == '\U{3000}'
  }

  predicate NoSpace(s: string) {
    forall i :: 0 <= i < |s| ==> !Space(s[i])
  }

  function TrimStart(s: string): string {
    if s != "" && Space(s[0]) then TrimStart(s[1..]) else s
  }

  function TrimEnd(s: string): string {
    if s != "" && Space(s[|s| - 1]) then TrimEnd(s[..|s| - 1]) else s
  }

  function Trim(s: string): string {
    TrimEnd(TrimStart(s))
  }

  /** Trimming leaves the start of a text that does not start with a space. */
  lemma {:induction false} TrimEndKeepsStart(s: string)
    requires s != "" && !Space(s[0])
    ensures TrimEnd(s) != "" && TrimEnd(s)[0] == s[0]
  {
    if Space(s[|s| - 1]) { TrimEndKeepsStart(s[..|s| - 1]); }
  }

  /** `split_whitespace` */
  function Words(s: string): seq<string>
    decreases |s|
  {
    if s == "" then []
    else if Space(s[0]) then Words(s[1..])
    else [s[..WordEnd(s)]] + Words(s[WordEnd(s)..])
  }

  function WordEnd(s: string): (n: nat)
    ensures n <= |s| && (s != "" && !Space(s[0]) ==> n > 0)
  {
    if s == "" || Space(s[0]) then 0 else 1 + WordEnd(s[1..])
  }

  lemma {:induction false} WordEndIs(w: string, rest: string)
    requires NoSpace(w) && (rest == "" || Space(rest[0]))
    ensures WordEnd(w + rest) == |w|
  {
    if w == "" {
      assert w + rest == rest;
    } else {
      assert (w + rest)[1..] == w[1..] + rest;
      WordEndIs(w[1..], rest);
    }
  }

  lemma FirstWord(w: string, rest: string)
    requires w != "" && NoSpace(w) && (rest == "" || Space(rest[0]))
    ensures Words(w + rest) == [w] + Words(rest)
  {
    WordEndIs(w, rest);
    assert (w + rest)[..|w|] == w && (w + rest)[|w|..] == rest;
    assert (w + rest)[0] == w[0];
  }

  lemma SpaceFirst(rest: string)
    ensures Words(" " + rest) == Words(rest)
  {
    assert (" " + rest)[1..] == rest;
  }

  // ----- Addresses -----

  datatype Ipv4 = Ipv4(a: nat, b: nat, c: nat, d: nat)

  predicate ValidIp(ip: Ipv4) {
    ip.a <= 255 && ip.b <= 255 && ip.c <= 255 && ip.d <= 255
  }

  function IpText(ip: Ipv4): string {
    Decimal(ip.a) + "." + Decimal(ip.b) + "." + Decimal(ip.c) + "." + Decimal(ip.d)
  }

  /** `s` up to the first `sep`, and what follows it. */
  function SplitAt(s: string, sep: char): Option<(string, string)> {
    if s == "" then None
    else if s[0] == sep then Some(("", s[1..]))
    else
      match SplitAt(s[1..], sep)
      case None => None
      case Some((before, after)) => Some(([s[0]] + before, after))
  }

  lemma {:induction false} SplitIs(before: string, sep: char, after: string)
    requires sep !in before
    ensures SplitAt(before + [sep] + after, sep) == Some((before, after))
  {
    var s := before + [sep] + after;
    if before == "" {
      assert s[1..] == after;
    } else {
      assert s[1..] == before[1..] + [sep] + after;
      SplitIs(before[1..], sep, after);
      assert [before[0]] + before[1..] == before;
    }
  }

  /** One to three digits without a leading zero, at most 255. */
  function ParseOctet(s: string): Option<nat> {
    if 1 <= |s| <= 3 && AllDigits(s) && (|s| == 1 || s[0] != '0') && ValueOf(s) <= 255 then Some(ValueOf(s)) else None
  }

  lemma OctetText(n: nat)
    requires n <= 255
    ensures ParseOctet(Decimal(n)) == Some(n)
    ensures '.' !in Decimal(n) && ':' !in Decimal(n)
  {
    DecimalValue(n);
    assert n >= 10 ==> Decimal(n) == Decimal(n / 10) + [DigitOf(n % 10)];
    assert n >= 100 ==> Decimal(n / 10) == Decimal(n / 10 / 10) + [DigitOf(n / 10 % 10)];
  }

  datatype Parts = Parts(a: string, b: string, c: string, d: string, port: string)

  /** The texts between three dots and a colon. */
  function SplitSocket(s: string): Option<Parts> {
    match SplitAt(s, '.')
    case None => None
    case Some((a, s1)) =>
      match SplitAt(s1, '.')
      case None => None
      case Some((b, s2)) =>
        match SplitAt(s2, '.')
        case None => None
        case Some((c, s3)) =>
          match SplitAt(s3, ':')
          case None => None
          case Some((d, port)) => Some(Parts(a, b, c, d, port))
  }

  function JoinSocket(p: Parts): string {
    p.a + ['.'] + (p.b + ['.'] + (p.c + ['.'] + (p.d + [':'] + p.port)))
  }

  lemma SplitJoined(p: Parts)
    requires '.' !in p.a && '.' !in p.b && '.' !in p.c && ':' !in p.d
    ensures SplitSocket(JoinSocket(p)) == Some(p)
  {
    hide SplitAt;
    var s3 := p.d + [':'] + p.port;
    var s2 := p.c + ['.'] + s3;
    var s1 := p.b + ['.'] + s2;
    SplitIs(p.d, ':', p.port);
    SplitIs(p.c, '.', s3);
    SplitIs(p.b, '.', s2);
    SplitIs(p.a, '.', s1);
  }

  function ParsePort(s: string): Option<nat> {
    if s != "" && AllDigits(s) && ValueOf(s) <= 65535 then Some(ValueOf(s)) else None
  }

  /** `SocketAddr::from_str`, for IPv4 addresses. */
  function ParseSocket(s: string): Option<(Ipv4, nat)> {
    match SplitSocket(s)
    case None => None
    case Some(p) =>
      var a, b, c, d, port := ParseOctet(p.a), ParseOctet(p.b), ParseOctet(p.c), ParseOctet(p.d), ParsePort(p.port);
      if a.Some? && b.Some? && c.Some? && d.Some? && port.Some?
      then Some((Ipv4(a.value, b.value, c.value, d.value), port.value)) else None
  }

  lemma JoinIs(a: string, b: string, c: string, d: string, port: string)
    ensures a + "." + b + "." + c + "." + d + ":" + port == JoinSocket(Parts(a, b, c, d, port))
  {
  }

  lemma SocketText(ip: Ipv4, port: nat)
    requires ValidIp(ip) && port <= 65535
    ensures ParseSocket(IpText(ip) + ":" + Decimal(port)) == Some((ip, port))
  {
    OctetText(ip.a);
    OctetText(ip.b);
    OctetText(ip.c);
    OctetText(ip.d);
    DecimalValue(port);
    var p := Parts(Decimal(ip.a), Decimal(ip.b), Decimal(ip.c), Decimal(ip.d), Decimal(port));
    hide Decimal, SplitSocket, ParseOctet, ValueOf, AllDigits;
    SplitJoined(p);
    JoinIs(p.a, p.b, p.c, p.d, p.port);
  }
}
