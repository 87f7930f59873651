/** Printing and parsing SDP (src/media.rs): what the engine offers and answers is understood as it was
    meant (sections 5.7 and 5.14 of RFC 4566). */
module Sdp {
  import opened Types
  import opened Text

  datatype Codec = Pcmu | Pcma | Opus | G729

  function PayloadType(c: Codec): nat {
    match c
    case Pcmu => 0
    case Pcma => 8
    case Opus => 111
    case G729 => 18
  }

  function Name(c: Codec): string {
    match c
    case Pcmu => "PCMU"
    case Pcma => "PCMA"
    case Opus => "opus"
    case G729 => "G729"
  }

  function ClockRate(c: Codec): nat {
    if c.Opus? then 48000 else 8000
  }

  // ----- Printing -----

  function CodecLines(c: Codec): seq<string> {
    var pt := Decimal(PayloadType(c));
    var rtpmap := "a=rtpmap:" + pt + " " + Name(c) + "/" + Decimal(ClockRate(c));
    if c.Opus? then [rtpmap + "/2", "a=fmtp:" + pt + " useinbandfec=1"] else [rtpmap]
  }

  function AllCodecLines(codecs: seq<Codec>): seq<string> {
    if codecs == [] then [] else CodecLines(codecs[0]) + AllCodecLines(codecs[1..])
  }

  function Payloads(codecs: seq<Codec>): string {
    if codecs == [] then "" else " " + Decimal(PayloadType(codecs[0])) + Payloads(codecs[1..])
  }

  function MediaLine(port: nat, profile: string, codecs: seq<Codec>): string {
    "m=audio " + Decimal(port) + " " + profile + Payloads(codecs) + " 101"
  }

  function Heading(ip: string): seq<string> {
    ["v=0", "o=aria 0 0 IN IP4 " + ip, "s=Aria Mobile", "c=IN IP4 " + ip, "t=0 0"]
  }

  const TELEPHONE_EVENTS: seq<string> := ["a=rtpmap:101 telephone-event/8000", "a=fmtp:101 0-16"]

  /** What follows the codecs; `crypto` is the attribute that offers an SRTP key. */
  function Tail(crypto: Option<string>): seq<string> {
    TELEPHONE_EVENTS + (if crypto.Some? then ["a=" + crypto.value] else []) + ["a=sendrecv"]
  }

  /** The lines of an offer or answer. */
  function SdpLines(port: nat, ip: string, profile: string, codecs: seq<Codec>, crypto: Option<string>): seq<string> {
    Heading(ip) + [MediaLine(port, profile, codecs)] + AllCodecLines(codecs) + Tail(crypto)
  }

  function Profile(crypto: Option<string>): string {
    if crypto.Some? then "RTP/SAVP" else "RTP/AVP"
  }

  function Offer(port: nat, ip: string, codecs: seq<Codec>, crypto: Option<string>): string {
    Document(SdpLines(port, ip, Profile(crypto), codecs, crypto))
  }

  function Answer(port: nat, ip: string, codec: Codec): string {
    Document(SdpLines(port, ip, "RTP/AVP", [codec], None))
  }

  lemma PushLine(lines: seq<string>, line: string)
    ensures Document(lines + [line]) == Document(lines) + (line + "\r\n")
  {
    DocumentAppend(lines, [line]);
    assert [line][1..] == [];
    assert Document([line]) == line + "\r\n" + Document([]);
  }

  lemma FiveLines(a: string, b: string, c: string, d: string, e: string)
    ensures Document([a, b, c, d, e]) ==
            (a + "\r\n") + (b + "\r\n") + (c + "\r\n") + (d + "\r\n") + (e + "\r\n")
  {
    var l0: seq<string> := [];
    var l1, l2, l3, l4 := [a], [a, b], [a, b, c], [a, b, c, d];
    PushLine(l0, a);
    PushLine(l1, b);
    PushLine(l2, c);
    PushLine(l3, d);
    PushLine(l4, e);
    assert l0 + [a] == l1 && l1 + [b] == l2 && l2 + [c] == l3 && l3 + [d] == l4 && l4 + [e] == [a, b, c, d, e];
    assert Document(l0) + (a + "\r\n") == a + "\r\n" by { assert Document(l0) == ""; }
  }

  lemma DocumentParts(heading: seq<string>, media: string, codecLines: seq<string>, tail: seq<string>)
    ensures Document(heading + [media] + codecLines + tail) ==
            Document(heading) + (media + "\r\n") + Document(codecLines) + Document(tail)
  {
    DocumentAppend(heading + [media] + codecLines, tail);
    DocumentAppend(heading + [media], codecLines);
    PushLine(heading, media);
  }

  method HeadingText(ip: string) returns (text: string)
    ensures text == Document(Heading(ip))
  {
    FiveLines("v=0", "o=aria 0 0 IN IP4 " + ip, "s=Aria Mobile", "c=IN IP4 " + ip, "t=0 0");
    text := ("v=0" + "\r\n") + ("o=aria 0 0 IN IP4 " + ip + "\r\n") + ("s=Aria Mobile" + "\r\n")
            + ("c=IN IP4 " + ip + "\r\n") + ("t=0 0" + "\r\n");
  }

  lemma NextPayload(codecs: seq<Codec>, i: nat, text: string)
    requires i < |codecs|
    ensures text + Payloads(codecs[i..]) == (text + " " + Decimal(PayloadType(codecs[i]))) + Payloads(codecs[i + 1..])
  {
    assert codecs[i..][1..] == codecs[i + 1..];
    var x, y, z := text, " " + Decimal(PayloadType(codecs[i])), Payloads(codecs[i + 1..]);
    assert x + (y + z) == (x + y) + z;
  }

  lemma NextCodecLines(codecs: seq<Codec>, i: nat, text: string)
    requires i < |codecs|
    ensures text + Document(AllCodecLines(codecs[i..])) ==
            (text + Document(CodecLines(codecs[i]))) + Document(AllCodecLines(codecs[i + 1..]))
  {
    assert codecs[i..][1..] == codecs[i + 1..];
    DocumentAppend(CodecLines(codecs[i]), AllCodecLines(codecs[i + 1..]));
    var x, y, z := text, Document(CodecLines(codecs[i])), Document(AllCodecLines(codecs[i + 1..]));
    assert x + (y + z) == (x + y) + z;
  }

  /** The text of one codec's attributes. */
  method CodecAttributes(c: Codec) returns (text: string)
    ensures text == Document(CodecLines(c))
  {
    var pt := Decimal(PayloadType(c));
    var rtpmap := "a=rtpmap:" + pt + " " + Name(c) + "/" + Decimal(ClockRate(c));
    var fmtp := "a=fmtp:" + pt + " useinbandfec=1";
    if c.Opus? {
      PushLine([], rtpmap + "/2");
      PushLine([rtpmap + "/2"], fmtp);
      assert [] + [rtpmap + "/2"] == [rtpmap + "/2"] && [rtpmap + "/2"] + [fmtp] == CodecLines(c);
      text := rtpmap + "/2" + "\r\n" + (fmtp + "\r\n");
    } else {
      PushLine([], rtpmap);
      assert [] + [rtpmap] == CodecLines(c);
      text := rtpmap + "\r\n";
    }
  }

  method TailText(crypto: Option<string>) returns (text: string)
    ensures text == Document(Tail(crypto))
  {
    var e0, e1 := TELEPHONE_EVENTS[0], TELEPHONE_EVENTS[1];
    PushLine([], e0);
    PushLine([e0], e1);
    assert [] + [e0] == [e0] && [e0] + [e1] == TELEPHONE_EVENTS;
    text := e0 + "\r\n" + (e1 + "\r\n");
    var lines := TELEPHONE_EVENTS;
    if crypto.Some? {
      PushLine(lines, "a=" + crypto.value);
      text := text + ("a=" + crypto.value + "\r\n");
      lines := lines + ["a=" + crypto.value];
    }
    PushLine(lines, "a=sendrecv");
    text := text + ("a=sendrecv" + "\r\n");
    assert lines + ["a=sendrecv"] == Tail(crypto);
  }

  method MediaText(port: nat, profile: string, codecs: seq<Codec>) returns (line: string)
    ensures line == MediaLine(port, profile, codecs)
  {
    line := "m=audio " + Decimal(port) + " " + profile;
    ghost var open := line;
    for i := 0 to |codecs|
      invariant line + Payloads(codecs[i..]) == open + Payloads(codecs)
    {
      NextPayload(codecs, i, line);
      line := line + " " + Decimal(PayloadType(codecs[i]));
    }
    assert line == open + Payloads(codecs);
    line := line + " 101";
  }

  /** `build_sdp_offer` */
  method BuildOffer(port: nat, ip: string, codecs: seq<Codec>, crypto: Option<string>) returns (sdp: string)
    ensures sdp == Offer(port, ip, codecs, crypto)
  {
    hide Document, Heading, MediaLine, AllCodecLines, Tail;
    sdp := HeadingText(ip);
    var media := MediaText(port, Profile(crypto), codecs);
    sdp := sdp + (media + "\r\n");
    ghost var head := sdp;
    for i := 0 to |codecs|
      invariant sdp + Document(AllCodecLines(codecs[i..])) == head + Document(AllCodecLines(codecs))
    {
      NextCodecLines(codecs, i, sdp);
      var attributes := CodecAttributes(codecs[i]);
      sdp := sdp + attributes;
    }
    NoCodecs(codecs, sdp);
    var tail := TailText(crypto);
    sdp := sdp + tail;
    DocumentParts(Heading(ip), MediaLine(port, Profile(crypto), codecs), AllCodecLines(codecs), Tail(crypto));
  }

  lemma NoCodecs(codecs: seq<Codec>, text: string)
    ensures text + Document(AllCodecLines(codecs[|codecs|..])) == text
  {
  }

  /** `build_sdp_answer` */
  method BuildAnswer(port: nat, ip: string, codec: Codec) returns (sdp: string)
    ensures sdp == Answer(port, ip, codec)
  {
    hide Document, Heading, MediaLine, Tail;
    sdp := HeadingText(ip);
    var media := MediaText(port, "RTP/AVP", [codec]);
    sdp := sdp + (media + "\r\n");
    var attributes := CodecAttributes(codec);
    sdp := sdp + attributes;
    assert AllCodecLines([codec]) == CodecLines(codec) by { assert [codec][1..] == []; }
    var tail := TailText(None);
    sdp := sdp + tail;
    DocumentParts(Heading(ip), MediaLine(port, "RTP/AVP", [codec]), AllCodecLines([codec]), Tail(None));
  }

  // ----- Parsing -----

  /** What the lines read so far say about the other side. */
  datatype Seen = Seen(ip: Option<string>, port: Option<nat>, codec: Option<Codec>)

  const NOTHING: Seen := Seen(None, None, None)

  function CodecOf(word: string): Option<Codec> {
    if word == "0" then Some(Pcmu)
    else if word == "8" then Some(Pcma)
    else if word == "18" then Some(G729)
    else if word == "111" then Some(Opus)
    else None
  }

  function StepLine(s: Seen, line: string): Seen {
    var l := Trim(line);
    if "c=IN IP4 " <= l then s.(ip := Some(Trim(l[9..])))
    else if "m=audio " <= l then
      var parts := Words(l);
      if |parts| >= 4 then s.(port := ParseUnsigned(parts[1], 65535), codec := CodecOf(parts[3])) else s
    else s
  }

  function Scan(lines: seq<string>): Seen {
    if lines == [] then NOTHING else StepLine(Scan(lines[..|lines| - 1]), lines[|lines| - 1])
  }

  datatype Remote = Remote(ip: Ipv4, port: nat, codec: Codec)

  function Conclude(s: Seen): Option<Remote> {
    if s.ip.Some? && s.port.Some? && s.codec.Some? then
      match ParseSocket(s.ip.value + ":" + Decimal(s.port.value))
      case None => None
      case Some((ip, port)) => Some(Remote(ip, port, s.codec.value))
    else None
  }

  function RemoteOf(sdp: string): Option<Remote> {
    Conclude(Scan(Lines(sdp)))
  }

  /** `parse_sdp_remote` */
  method ParseRemote(sdp: string) returns (r: Option<Remote>)
    ensures r == RemoteOf(sdp)
  {
    var lines := Lines(sdp);
    var ip: Option<string>, port: Option<nat>, codec: Option<Codec> := None, None, None;
    for i := 0 to |lines|
      invariant Seen(ip, port, codec) == Scan(lines[..i])
    {
      assert lines[..i + 1][..i] == lines[..i];
      var line := Trim(lines[i]);
      if "c=IN IP4 " <= line {
        ip := Some(Trim(line[9..]));
      } else if "m=audio " <= line {
        var parts := Words(line);
        if |parts| >= 4 {
          port := ParseUnsigned(parts[1], 65535);
          codec := CodecOf(parts[3]);
        }
      }
    }
    assert lines[..|lines|] == lines;
    if ip.None? || port.None? || codec.None? { return None; }
    match ParseSocket(ip.value + ":" + Decimal(port.value))
    case None => return None;
    case Some((a, p)) => return Some(Remote(a, p, codec.value));
  }

  // ----- Choosing a codec -----

  function MediaOf(lines: seq<string>): Option<string> {
    if lines == [] then None else if "m=audio" <= Trim(lines[0]) then Some(lines[0]) else MediaOf(lines[1..])
  }

  function Parsed(words: seq<string>): seq<nat> {
    if words == [] then []
    else
      var n := ParseUnsigned(words[0], 255);
      (if n.Some? then [n.value] else []) + Parsed(words[1..])
  }

  /** The payload types on the first audio line. */
  function Offered(offer: string): seq<nat> {
    match MediaOf(Lines(offer))
    case None => []
    case Some(line) => if |Words(line)| < 3 then [] else Parsed(Words(line)[3..])
  }

  /** `codec` is the earliest preference that satisfies `ok`, or PCMU when none does. */
  predicate Earliest(prefs: seq<Codec>, offered: seq<nat>, codec: Codec) {
    || (exists i :: 0 <= i < |prefs| && prefs[i] == codec && PayloadType(codec) in offered
                    && forall j :: 0 <= j < i ==> PayloadType(prefs[j]) !in offered)
    || (codec == Pcmu && forall j :: 0 <= j < |prefs| ==> PayloadType(prefs[j]) !in offered)
  }

  /** `negotiate_codec` */
  method Negotiate(offer: string, prefs: seq<Codec>) returns (codec: Codec)
    ensures Earliest(prefs, Offered(offer), codec)
  {
    var offered := Offered(offer);
    for i := 0 to |prefs|
      invariant forall j :: 0 <= j < i ==> PayloadType(prefs[j]) !in offered
    {
      if PayloadType(prefs[i]) in offered { return prefs[i]; }
    }
    return Pcmu;
  }

  // ----- What is printed is understood -----

  lemma TrimNothing(s: string)
    requires s != "" && !Space(s[0]) && !Space(s[|s| - 1])
    ensures Trim(s) == s
  {
  }

  /** Only lines that start with `c` or `m` matter. */
  predicate Ignored(line: string) {
    line != "" && !Space(line[0]) && line[0] != 'c' && line[0] != 'm'
  }

  lemma IgnoredLine(s: Seen, line: string)
    requires Ignored(line)
    ensures StepLine(s, line) == s && !("m=audio" <= Trim(line))
  {
    TrimEndKeepsStart(line);
    var l := Trim(line);
    assert l[0] == line[0];
  }

  lemma {:induction false} ScanIgnores(lines: seq<string>, more: seq<string>)
    requires forall l :: l in more ==> Ignored(l)
    ensures Scan(lines + more) == Scan(lines)
  {
    if more == [] {
      assert lines + more == lines;
    } else {
      var n := |more| - 1;
      assert (lines + more)[..|lines + more| - 1] == lines + more[..n];
      assert more[n] in more;
      IgnoredLine(Scan(lines + more[..n]), more[n]);
      ScanIgnores(lines, more[..n]);
    }
  }

  lemma DecimalOneLine(n: nat)
    ensures OneLine(Decimal(n))
  {
    DecimalValue(n);
  }

  lemma Joined(a: string, b: string, c: string, d: string)
    requires OneLine(a) && OneLine(b) && OneLine(c) && OneLine(d)
    ensures OneLine("a=rtpmap:" + a + " " + b + "/" + c + d) && OneLine("a=fmtp:" + a + " useinbandfec=1")
  {
  }

  lemma CodecIgnored(c: Codec)
    ensures forall l :: l in CodecLines(c) ==> Ignored(l) && OneLine(l)
  {
    var pt, rate := Decimal(PayloadType(c)), Decimal(ClockRate(c));
    DecimalOneLine(PayloadType(c));
    DecimalOneLine(ClockRate(c));
    hide Decimal;
    Joined(pt, Name(c), rate, "");
    Joined(pt, Name(c), rate, "/2");
    var rtpmap := "a=rtpmap:" + pt + " " + Name(c) + "/" + rate;
    assert rtpmap + "" == rtpmap;
    assert rtpmap[0] == 'a' && (rtpmap + "/2")[0] == 'a' && ("a=fmtp:" + pt + " useinbandfec=1")[0] == 'a';
    hide OneLine;
  }

  lemma {:induction false} CodecLinesIgnored(codecs: seq<Codec>)
    ensures forall l :: l in AllCodecLines(codecs) ==> Ignored(l) && OneLine(l)
  {
    hide CodecLines, Ignored, OneLine;
    if codecs != [] {
      CodecLinesIgnored(codecs[1..]);
      CodecIgnored(codecs[0]);
    }
  }

  lemma TailIgnored(crypto: Option<string>)
    requires crypto.Some? ==> OneLine(crypto.value)
    ensures forall l :: l in Tail(crypto) ==> Ignored(l) && OneLine(l)
  {
  }

  lemma IpIsPlain(ip: Ipv4)
    ensures IpText(ip) != "" && Digit(IpText(ip)[0]) && Digit(IpText(ip)[|IpText(ip)| - 1]) && OneLine(IpText(ip))
  {
    DecimalValue(ip.a);
    DecimalValue(ip.b);
    DecimalValue(ip.c);
    DecimalValue(ip.d);
  }

  lemma ConnectionLine(s: Seen, ip: Ipv4)
    ensures StepLine(s, "c=IN IP4 " + IpText(ip)) == s.(ip := Some(IpText(ip)))
  {
    IpIsPlain(ip);
    var line := "c=IN IP4 " + IpText(ip);
    TrimNothing(line);
    assert line[9..] == IpText(ip);
    TrimNothing(IpText(ip));
  }

  // ----- The audio line -----

  function PayloadWords(codecs: seq<Codec>): seq<string> {
    if codecs == [] then ["101"] else [Decimal(PayloadType(codecs[0]))] + PayloadWords(codecs[1..])
  }

  lemma DecimalIsWord(n: nat)
    ensures NoSpace(Decimal(n)) && Decimal(n) != ""
  {
    DecimalValue(n);
  }

  /** A word, and what follows it after a space. */
  lemma NextWord(w: string, rest: string)
    requires w != "" && NoSpace(w)
    ensures Words(w + (" " + rest)) == [w] + Words(rest)
  {
    FirstWord(w, " " + rest);
    SpaceFirst(rest);
  }

  lemma {:induction false} PayloadsAreWords(codecs: seq<Codec>)
    ensures Words(Payloads(codecs) + " 101") == PayloadWords(codecs)
    ensures (Payloads(codecs) + " 101")[0] == ' '
  {
    if codecs == [] {
      assert Payloads(codecs) + " 101" == " " + "101";
      SpaceFirst("101");
      FirstWord("101", "");
      assert "101" + "" == "101";
    } else {
      var w, rest := Decimal(PayloadType(codecs[0])), Payloads(codecs[1..]) + " 101";
      PayloadsAreWords(codecs[1..]);
      DecimalIsWord(PayloadType(codecs[0]));
      assert Payloads(codecs) + " 101" == " " + (w + rest);
      SpaceFirst(w + rest);
      FirstWord(w, rest);
    }
  }

  lemma MediaWords(port: nat, profile: string, codecs: seq<Codec>)
    requires profile != "" && NoSpace(profile)
    ensures Words(MediaLine(port, profile, codecs)) == ["m=audio", Decimal(port), profile] + PayloadWords(codecs)
  {
    PayloadsAreWords(codecs);
    DecimalIsWord(port);
    var r3 := Payloads(codecs) + " 101";
    var r2 := profile + r3;
    var r1 := Decimal(port) + (" " + r2);
    hide Words, Payloads, Decimal, PayloadWords;
    FirstWord(profile, r3);
    NextWord(Decimal(port), r2);
    NextWord("m=audio", r1);
    assert MediaLine(port, profile, codecs) == "m=audio" + (" " + r1);
    assert ["m=audio"] + ([Decimal(port)] + ([profile] + Words(r3))) == ["m=audio", Decimal(port), profile] + Words(r3);
  }

  lemma MediaTrim(port: nat, profile: string, codecs: seq<Codec>)
    ensures Trim(MediaLine(port, profile, codecs)) == MediaLine(port, profile, codecs)
    ensures "m=audio " <= MediaLine(port, profile, codecs) && "m=audio" <= MediaLine(port, profile, codecs)
    ensures !("c=IN IP4 " <= MediaLine(port, profile, codecs))
  {
    var line := MediaLine(port, profile, codecs);
    assert line[0] == 'm' && line[|line| - 1] == '1';
    TrimNothing(line);
    assert line[..8] == "m=audio " && line[..7] == "m=audio";
  }

  lemma CodecRoundTrip(c: Codec)
    ensures CodecOf(Decimal(PayloadType(c))) == Some(c)
  {
    assert Decimal(11) == Decimal(1) + [DigitOf(1)] == "11";
    assert Decimal(111) == Decimal(11) + [DigitOf(1)] == "111";
    assert Decimal(18) == Decimal(1) + [DigitOf(8)] == "18";
  }

  lemma AudioLine(s: Seen, port: nat, profile: string, codecs: seq<Codec>)
    requires profile != "" && NoSpace(profile) && port <= 65535
    ensures StepLine(s, MediaLine(port, profile, codecs)) ==
            s.(port := Some(port), codec := if codecs == [] then None else Some(codecs[0]))
  {
    MediaWords(port, profile, codecs);
    MediaTrim(port, profile, codecs);
    ParseDecimal(port, 65535);
    if codecs != [] { CodecRoundTrip(codecs[0]); }
    hide Words, Trim, Decimal, MediaLine, ParseUnsigned;
  }

  // ----- Whole documents -----

  lemma ScanOne(lines: seq<string>, line: string)
    ensures Scan(lines + [line]) == StepLine(Scan(lines), line)
  {
    assert (lines + [line])[..|lines|] == lines;
  }

  lemma NothingScanned()
    ensures Scan([]) == NOTHING
  {
  }

  lemma HeadingScan(ip: Ipv4)
    ensures Scan(Heading(IpText(ip))) == NOTHING.(ip := Some(IpText(ip)))
  {
    hide Scan, StepLine, IpText;
    var first: seq<string> := ["v=0", "o=aria 0 0 IN IP4 " + IpText(ip), "s=Aria Mobile"];
    var c, t := "c=IN IP4 " + IpText(ip), "t=0 0";
    ScanIgnores([], first);
    assert [] + first == first;
    NothingScanned();
    ConnectionLine(Scan(first), ip);
    ScanOne(first, c);
    ScanOne(first + [c], t);
    IgnoredLine(Scan(first + [c]), t);
    assert first + [c] + [t] == Heading(IpText(ip));
  }

  predicate NotAudio(line: string) {
    !("m=audio" <= Trim(line))
  }

  lemma HeadingHasNoAudio(ip: Ipv4)
    ensures forall l :: l in Heading(IpText(ip)) ==> NotAudio(l)
  {
    var h := Heading(IpText(ip));
    IgnoredLine(NOTHING, h[0]);
    IgnoredLine(NOTHING, h[1]);
    IgnoredLine(NOTHING, h[2]);
    ConnectionIsNotAudio(ip);
    IgnoredLine(NOTHING, h[4]);
    hide Trim, IpText;
  }

  lemma ConnectionIsNotAudio(ip: Ipv4)
    ensures NotAudio("c=IN IP4 " + IpText(ip))
  {
    IpIsPlain(ip);
    TrimNothing("c=IN IP4 " + IpText(ip));
  }

  lemma HeadingOneLines(ip: Ipv4)
    ensures forall l :: l in Heading(IpText(ip)) ==> OneLine(l)
  {
    IpIsPlain(ip);
    hide IpText;
  }

  lemma {:induction false} PayloadsOneLine(codecs: seq<Codec>)
    ensures OneLine(Payloads(codecs))
  {
    if codecs != [] {
      PayloadsOneLine(codecs[1..]);
      DecimalOneLine(PayloadType(codecs[0]));
    }
  }

  lemma SdpOneLines(port: nat, ip: Ipv4, profile: string, codecs: seq<Codec>, crypto: Option<string>)
    requires OneLine(profile) && (crypto.Some? ==> OneLine(crypto.value))
    ensures forall l :: l in SdpLines(port, IpText(ip), profile, codecs, crypto) ==> OneLine(l)
  {
    HeadingOneLines(ip);
    PayloadsOneLine(codecs);
    DecimalOneLine(port);
    assert OneLine(MediaLine(port, profile, codecs)) by { hide Decimal, Payloads; }
    CodecLinesIgnored(codecs);
    TailIgnored(crypto);
    hide OneLine, Heading, MediaLine, AllCodecLines, Tail, Trim, Ignored;
  }

  lemma SdpScan(port: nat, ip: Ipv4, profile: string, codecs: seq<Codec>, crypto: Option<string>)
    requires profile != "" && NoSpace(profile) && port <= 65535 && (crypto.Some? ==> OneLine(crypto.value))
    ensures Scan(SdpLines(port, IpText(ip), profile, codecs, crypto)) ==
            Seen(Some(IpText(ip)), Some(port), if codecs == [] then None else Some(codecs[0]))
  {
    var h, m := Heading(IpText(ip)), MediaLine(port, profile, codecs);
    var rest := AllCodecLines(codecs) + Tail(crypto);
    HeadingScan(ip);
    CodecLinesIgnored(codecs);
    TailIgnored(crypto);
    AudioLine(Scan(h), port, profile, codecs);
    ScanOne(h, m);
    hide Heading, MediaLine, AllCodecLines, Tail, Ignored, Scan, StepLine, OneLine, IpText;
    ScanIgnores(h + [m], rest);
    assert h + [m] + rest == SdpLines(port, IpText(ip), profile, codecs, crypto);
  }

  lemma SdpIsUnderstood(port: nat, ip: Ipv4, profile: string, codecs: seq<Codec>, crypto: Option<string>)
    requires ValidIp(ip) && port <= 65535 && (crypto.Some? ==> OneLine(crypto.value))
    requires profile != "" && NoSpace(profile) && OneLine(profile)
    ensures RemoteOf(Document(SdpLines(port, IpText(ip), profile, codecs, crypto))) ==
            if codecs == [] then None else Some(Remote(ip, port, codecs[0]))
  {
    SdpOneLines(port, ip, profile, codecs, crypto);
    LinesOfDocument(SdpLines(port, IpText(ip), profile, codecs, crypto));
    SdpScan(port, ip, profile, codecs, crypto);
    SocketText(ip, port);
    hide Scan, SdpLines, Lines, Document, ParseSocket, IpText;
  }

  lemma Profiles()
    ensures forall p :: p == "RTP/SAVP" || p == "RTP/AVP" ==> p != "" && NoSpace(p) && OneLine(p)
  {
  }

  /** What `build_sdp_offer` prints, `parse_sdp_remote` reads back: the address, the port and the first
      codec, and nothing if no codec was offered. An SRTP key changes none of this. */
  lemma OfferRoundTrip(port: nat, ip: Ipv4, codecs: seq<Codec>, crypto: Option<string>)
    requires ValidIp(ip) && port <= 65535 && (crypto.Some? ==> OneLine(crypto.value))
    ensures RemoteOf(Offer(port, IpText(ip), codecs, crypto)) ==
            if codecs == [] then None else Some(Remote(ip, port, codecs[0]))
  {
    Profiles();
    SdpIsUnderstood(port, ip, Profile(crypto), codecs, crypto);
  }

  lemma AnswerRoundTrip(port: nat, ip: Ipv4, codec: Codec)
    requires ValidIp(ip) && port <= 65535
    ensures RemoteOf(Answer(port, IpText(ip), codec)) == Some(Remote(ip, port, codec))
  {
    Profiles();
    SdpIsUnderstood(port, ip, "RTP/AVP", [codec], None);
  }

  // ----- Choosing from a printed offer -----

  function PayloadTypes(codecs: seq<Codec>): seq<nat> {
    if codecs == [] then [101] else [PayloadType(codecs[0])] + PayloadTypes(codecs[1..])
  }

  lemma {:induction false} PayloadsAreParsed(codecs: seq<Codec>)
    ensures Parsed(PayloadWords(codecs)) == PayloadTypes(codecs)
  {
    if codecs == [] {
      assert Decimal(1) == "1" && Decimal(10) == Decimal(1) + "0" && Decimal(101) == Decimal(10) + "1";
      assert Decimal(101) == "101";
      ParseDecimal(101, 255);
      assert Parsed(["101"]) == [101] + Parsed(["101"][1..]);
    } else {
      PayloadsAreParsed(codecs[1..]);
      ParseDecimal(PayloadType(codecs[0]), 255);
      hide Decimal, ParseUnsigned;
      assert PayloadWords(codecs)[1..] == PayloadWords(codecs[1..]);
    }
  }

  /** 101, the payload type of telephone events, is no codec's. */
  lemma {:induction false} TypesAreCodecs(codecs: seq<Codec>, c: Codec)
    ensures PayloadType(c) in PayloadTypes(codecs) <==> c in codecs
  {
    if codecs != [] { TypesAreCodecs(codecs[1..], c); }
  }

  lemma {:induction false} MediaAfter(heading: seq<string>, media: string, rest: seq<string>)
    requires (forall l :: l in heading ==> NotAudio(l)) && !NotAudio(media)
    ensures MediaOf(heading + [media] + rest) == Some(media)
  {
    var all := heading + [media] + rest;
    if heading == [] {
      assert all[0] == media;
    } else {
      assert heading[0] in heading && all[0] == heading[0] && all[1..] == heading[1..] + [media] + rest;
      MediaAfter(heading[1..], media, rest);
    }
  }

  lemma OfferedOf(offer: string, line: string, first: seq<string>, rest: seq<string>)
    requires MediaOf(Lines(offer)) == Some(line) && Words(line) == first + rest && |first| == 3
    ensures Offered(offer) == Parsed(rest)
  {
    assert (first + rest)[3..] == rest;
  }

  lemma AudioLineFound(port: nat, ip: Ipv4, codecs: seq<Codec>, crypto: Option<string>)
    requires crypto.Some? ==> OneLine(crypto.value)
    ensures MediaOf(Lines(Offer(port, IpText(ip), codecs, crypto))) == Some(MediaLine(port, Profile(crypto), codecs))
  {
    hide Trim, Lines, Document, Heading, MediaLine, AllCodecLines, Tail, IpText, OneLine, MediaOf, NotAudio, Profile;
    var profile := Profile(crypto);
    var h, m := Heading(IpText(ip)), MediaLine(port, profile, codecs);
    var rest := AllCodecLines(codecs) + Tail(crypto);
    ProfileIsPlain(crypto);
    SdpOneLines(port, ip, profile, codecs, crypto);
    HeadingHasNoAudio(ip);
    MediaIsAudio(port, profile, codecs);
    LinesOfDocument(SdpLines(port, IpText(ip), profile, codecs, crypto));
    assert h + [m] + rest == SdpLines(port, IpText(ip), profile, codecs, crypto);
    MediaAfter(h, m, rest);
  }

  lemma ProfileIsPlain(crypto: Option<string>)
    ensures Profile(crypto) != "" && NoSpace(Profile(crypto)) && OneLine(Profile(crypto))
  {
    Profiles();
  }

  lemma MediaIsAudio(port: nat, profile: string, codecs: seq<Codec>)
    ensures !NotAudio(MediaLine(port, profile, codecs))
  {
    MediaTrim(port, profile, codecs);
  }

  lemma OfferedIsPrinted(port: nat, ip: Ipv4, codecs: seq<Codec>, crypto: Option<string>)
    requires crypto.Some? ==> OneLine(crypto.value)
    ensures Offered(Offer(port, IpText(ip), codecs, crypto)) == PayloadTypes(codecs)
  {
    hide Trim, Lines, Document, MediaLine, Words, Parsed, PayloadWords, IpText, MediaOf, Decimal, Offered, Offer;
    Profiles();
    AudioLineFound(port, ip, codecs, crypto);
    MediaWords(port, Profile(crypto), codecs);
    PayloadsAreParsed(codecs);
    OfferedOf(Offer(port, IpText(ip), codecs, crypto), MediaLine(port, Profile(crypto), codecs),
              ["m=audio", Decimal(port), Profile(crypto)], PayloadWords(codecs));
  }

  /** From an offer that was printed, `negotiate_codec` picks the earliest preference among the offered
      codecs, and PCMU only if none of them is offered, or it is that preference. */
  lemma NegotiatesFromOffer(port: nat, ip: Ipv4, codecs: seq<Codec>, crypto: Option<string>, prefs: seq<Codec>,
                            chosen: Codec)
    requires crypto.Some? ==> OneLine(crypto.value)
    ensures Earliest(prefs, Offered(Offer(port, IpText(ip), codecs, crypto)), chosen) <==>
              || (exists i :: 0 <= i < |prefs| && prefs[i] == chosen && chosen in codecs
                              && forall j :: 0 <= j < i ==> prefs[j] !in codecs)
              || (chosen == Pcmu && forall j :: 0 <= j < |prefs| ==> prefs[j] !in codecs)
  {
    OfferedIsPrinted(port, ip, codecs, crypto);
    forall c: Codec ensures PayloadType(c) in PayloadTypes(codecs) <==> c in codecs { TypesAreCodecs(codecs, c); }
    hide Offered, Offer, PayloadTypes, PayloadType;
  }

  // ----- What the other lines say -----

  lemma RatesArePrinted()
    ensures Decimal(8000) == "8000" && Decimal(48000) == "48000"
  {
    assert Decimal(8) == "8" && Decimal(80) == "80" && Decimal(800) == "800";
    assert Decimal(4) == "4" && Decimal(48) == "48" && Decimal(480) == "480" && Decimal(4800) == "4800";
  }

  lemma TypesArePrinted()
    ensures Decimal(0) == "0" && Decimal(8) == "8" && Decimal(18) == "18" && Decimal(111) == "111"
  {
    assert Decimal(1) == "1" && Decimal(11) == "11";
  }

  /** Each codec is described under its registered name and clock rate, Opus with two channels. */
  lemma CodecsAreNamed()
    ensures CodecLines(Pcmu) == ["a=rtpmap:" + "0" + " " + "PCMU" + "/" + "8000"]
    ensures CodecLines(Pcma) == ["a=rtpmap:" + "8" + " " + "PCMA" + "/" + "8000"]
    ensures CodecLines(G729) == ["a=rtpmap:" + "18" + " " + "G729" + "/" + "8000"]
    ensures CodecLines(Opus) ==
            ["a=rtpmap:" + "111" + " " + "opus" + "/" + "48000" + "/2", "a=fmtp:" + "111" + " useinbandfec=1"]
  {
    hide Decimal;
    RatesArePrinted();
    TypesArePrinted();
  }
}
