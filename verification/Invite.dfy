/** The generated INVITE: its text, its size, its Content-Length, and its bytes. */
module Invite {
  import opened Common
  import opened Numerals
  import opened SipUri
  import PayloadRing
  import Text

  const ULONG_MAX_64 := 0xFFFF_FFFF_FFFF_FFFF
  const SDP_SIZE := 180
  const SMALL_SIZE := 64

  /** The random draws of one message: five unsigned longs and two host numbers. */
  datatype Random = Random(ul: seq<nat>, localHost: nat, uriHost: nat)

  predicate Drawn(r: Random) {
    |r.ul| == 5 && (forall i | 0 <= i < 5 :: r.ul[i] <= ULONG_MAX_64) && r.localHost < 255 && r.uriHost < 255
  }

  // ------------------------------------------------------------------- the texts

  function Local(r: Random): string {
    "198.51.100." + Format(r.localHost, 10)
  }

  function RandomUri(r: Random): string {
    "sip:user@203.0.113." + Format(r.uriHost, 10)
  }

  const SDP_END: string := "\r\nt=0 0\r\nm=audio 6000 RTP/AVP 0" + "\r\na=rtpmap:0 PCMU/8000\r\n"

  function Sdp(r: Random): string
    requires |r.ul| == 5
  {
    "v=0\r\no=Admin " + Format(r.ul[0] % 0x1_0000_0000, 10) + " " + Format(r.ul[1] % 0x1_0000_0000, 10) + " IN IP4 " + Local(r)
    + "\r\ns=-\r\nc=IN IP4 " + Local(r) + SDP_END
  }

  /** The start line and the header lines. */
  function Head(uri: string, r: Random): seq<string>
    requires |r.ul| == 5 && |uri| >= 4
  {
    ["INVITE " + uri + " SIP/2.0",
     "Via: SIP/2.0/UDP " + Local(r) + ";branch=" + Format(r.ul[2], 16),
     "From: <sip:" + Local(r) + ">;tag=" + Format(r.ul[3], 16),
     "To: \"" + uri[4..] + "\" <" + uri + ">",
     "Call-ID: " + Format(r.ul[4], 16) + "@" + Local(r),
     "CSeq: 1 INVITE",
     "Contact: <sip:" + Local(r) + ">",
     "Content-Type: application/sdp",
     "Content-Length: " + Format(|Sdp(r)|, 10)]
  }

  const CRLF: string := "\r\n"

  function Join(lines: seq<string>): string {
    if lines == [] then "" else lines[0] + CRLF + Join(lines[1..])
  }

  function Message(uri: string, r: Random): string
    requires |r.ul| == 5 && |uri| >= 4
  {
    Join(Head(uri, r)) + CRLF + Sdp(r)
  }

  /** What the builder returns: nothing for a URI of another scheme or when a buffer is too small. */
  function Build(given: Option<string>, r: Random): Option<string>
    requires |r.ul| == 5
  {
    if given.Some? && !("sip:" <= given.value) then None
    else if |RandomUri(r)| >= SMALL_SIZE || |Local(r)| >= SMALL_SIZE || |Sdp(r)| >= SDP_SIZE then None
    else
      var m := Message(if given.Some? then given.value else RandomUri(r), r);
      if |m| >= PayloadRing.BUFFLEN then None else Some(m)
  }

  // ------------------------------------------------------------------- sizes

  lemma SmallTexts(r: Random)
    requires Drawn(r)
    ensures |Local(r)| <= 14 && |RandomUri(r)| <= 22
    ensures forall i | 0 <= i < 5 :: |Format(r.ul[i], 16)| <= 16
    ensures |Format(r.ul[0] % 0x1_0000_0000, 10)| <= 10 && |Format(r.ul[1] % 0x1_0000_0000, 10)| <= 10
  {
    Powers();
    FormatLength(r.localHost, 10, 3);
    FormatLength(r.uriHost, 10, 3);
    forall i | 0 <= i < 5 ensures |Format(r.ul[i], 16)| <= 16 { FormatLength(r.ul[i], 16, 16); }
    FormatLength(r.ul[0] % 0x1_0000_0000, 10, 10);
    FormatLength(r.ul[1] % 0x1_0000_0000, 10, 10);
  }

  lemma {:induction false} BodyFits(r: Random)
    requires Drawn(r)
    ensures |Sdp(r)| <= 141
  {
    SmallTexts(r);
    hide Format, Local;
  }

  function TotalLength(lines: seq<string>): nat {
    if lines == [] then 0 else |lines[0]| + 2 + TotalLength(lines[1..])
  }

  lemma {:induction false} JoinLength(lines: seq<string>)
    ensures |Join(lines)| == TotalLength(lines)
  {
    if lines != [] { JoinLength(lines[1..]); }
  }

  lemma NineLines(l: seq<string>)
    requires |l| == 9
    ensures TotalLength(l) == |l[0]| + |l[1]| + |l[2]| + |l[3]| + |l[4]| + |l[5]| + |l[6]| + |l[7]| + |l[8]| + 18
  {
    assert l[8..][1..] == [] && l[7..][1..] == l[8..] && l[6..][1..] == l[7..] && l[5..][1..] == l[6..] && l[4..][1..] == l[5..];
    assert l[3..][1..] == l[4..] && l[2..][1..] == l[3..] && l[1..][1..] == l[2..] && l[0..] == l;
    assert TotalLength(l[8..]) == |l[8]| + 2;
    assert TotalLength(l[7..]) == |l[7]| + 2 + TotalLength(l[8..]);
    assert TotalLength(l[6..]) == |l[6]| + 2 + TotalLength(l[7..]);
    assert TotalLength(l[5..]) == |l[5]| + 2 + TotalLength(l[6..]);
    assert TotalLength(l[4..]) == |l[4]| + 2 + TotalLength(l[5..]);
    assert TotalLength(l[3..]) == |l[3]| + 2 + TotalLength(l[4..]);
    assert TotalLength(l[2..]) == |l[2]| + 2 + TotalLength(l[3..]);
    assert TotalLength(l[1..]) == |l[1]| + 2 + TotalLength(l[2..]);
  }

  lemma {:induction false} MessageFits(uri: string, r: Random)
    requires Drawn(r) && |uri| >= 4
    ensures |Message(uri, r)| <= 414 + 3 * |uri|
  {
    SmallTexts(r);
    BodyFits(r);
    Powers();
    FormatLength(|Sdp(r)|, 10, 3);
    var l := Head(uri, r);
    JoinLength(l);
    NineLines(l);
    hide Format, Local, Sdp, Join, TotalLength;
  }

  // ------------------------------------------------------------------- reading a message

  /** Splits a message at its first empty line; None when a line is not properly ended. */
  function SplitMessage(s: string): Option<(seq<string>, string)>
    decreases |s|
  {
    if CRLF <= s then Some(([], s[2..]))
    else
      var k := FirstCr(s);
      if k == 0 || k + 2 > |s| || s[k + 1] != '\n' then None
      else
        var rest := SplitMessage(s[k + 2..]);
        if rest.None? then None else Some(([s[..k]] + rest.value.0, rest.value.1))
  }

  function FirstCr(s: string): (k: nat)
    ensures k <= |s|
  {
    if s == "" || s[0] == '\r' then 0 else 1 + FirstCr(s[1..])
  }

  lemma {:induction false} FirstCrIs(a: string, b: string)
    requires '\r' !in a && b != "" && b[0] == '\r'
    ensures FirstCr(a + b) == |a|
  {
    if a == "" {
      assert a + b == b;
    } else {
      assert (a + b)[1..] == a[1..] + b;
      FirstCrIs(a[1..], b);
    }
  }

  predicate NoCr(s: string) {
    '\r' !in s
  }

  predicate ProperLines(lines: seq<string>) {
    forall i | 0 <= i < |lines| :: lines[i] != "" && NoCr(lines[i])
  }

  lemma SplitStep(line: string, rest: string)
    requires line != "" && NoCr(line)
    ensures var tail := SplitMessage(rest);
      SplitMessage(line + CRLF + rest) == if tail.None? then None else Some(([line] + tail.value.0, tail.value.1))
  {
    var s, k := line + CRLF + rest, |line|;
    assert s == line + (CRLF + rest);
    FirstCrIs(line, CRLF + rest);
    assert s[k + 1] == '\n' && s[k + 2..] == rest && s[..k] == line;
    assert s[0] == line[0] != '\r';
  }

  lemma Regroup(line: string, more: string, body: string)
    ensures (line + CRLF + more) + CRLF + body == line + CRLF + (more + CRLF + body)
  {
  }

  /** A head of nonempty lines is read back exactly, and the body is everything behind the blank line. */
  lemma {:induction false} SplitsBack(lines: seq<string>, body: string)
    requires ProperLines(lines)
    ensures SplitMessage(Join(lines) + CRLF + body) == Some((lines, body))
    decreases |lines|
  {
    if lines == [] {
      assert Join(lines) + CRLF + body == CRLF + body && (CRLF + body)[2..] == body;
    } else {
      var rest := Join(lines[1..]) + CRLF + body;
      assert forall i | 0 <= i < |lines[1..]| :: lines[1..][i] == lines[i + 1];
      SplitsBack(lines[1..], body);
      SplitStep(lines[0], rest);
      hide SplitMessage;
      Regroup(lines[0], Join(lines[1..]), body);
      assert [lines[0]] + lines[1..] == lines;
    }
  }

  lemma {:induction false} FormatHasNoCr(n: nat, base: nat)
    requires 2 <= base <= 16
    ensures NoCr(Format(n, base))
  {
    FormatReads(n, base);
    assert Digit('\r') == 36;
  }

  lemma NoCrConcat(a: string, b: string)
    requires NoCr(a) && NoCr(b)
    ensures NoCr(a + b)
  {
  }

  lemma NoCrLine(a: string, x: string, b: string, y: string, c: string)
    requires NoCr(a) && NoCr(x) && NoCr(b) && NoCr(y) && NoCr(c)
    ensures NoCr(a + x + b + y + c) && NoCr(a + x + b + y) && NoCr(a + x + b) && NoCr(a + x)
  {
    NoCrConcat(a, x);
    NoCrConcat(a + x, b);
    NoCrConcat(a + x + b, y);
    NoCrConcat(a + x + b + y, c);
  }

  lemma LocalHasNoCr(r: Random)
    ensures NoCr(Local(r))
  {
    FormatHasNoCr(r.localHost, 10);
    hide Format;
  }

  lemma HeadIsProper(uri: string, r: Random)
    requires |r.ul| == 5 && |uri| >= 4 && NoCr(uri)
    ensures ProperLines(Head(uri, r))
  {
    LocalHasNoCr(r);
    FormatHasNoCr(r.ul[2], 16);
    FormatHasNoCr(r.ul[3], 16);
    FormatHasNoCr(r.ul[4], 16);
    FormatHasNoCr(|Sdp(r)|, 10);
    var l, local := Head(uri, r), Local(r);
    assert NoCr(uri[4..]);
    hide Format, Sdp, Local;
    NoCrLine("INVITE ", uri, " SIP/2.0", "", "");
    NoCrLine("Via: SIP/2.0/UDP ", local, ";branch=", Format(r.ul[2], 16), "");
    NoCrLine("From: <sip:", local, ">;tag=", Format(r.ul[3], 16), "");
    NoCrLine("To: \"", uri[4..], "\" <", uri, ">");
    NoCrLine("Call-ID: ", Format(r.ul[4], 16), "@", local, "");
    NoCrLine("Contact: <sip:", local, ">", "", "");
    NoCrLine("Content-Length: ", Format(|Sdp(r)|, 10), "", "", "");
    assert NoCr(l[5]) && NoCr(l[7]);
    hide NoCr;
    forall i | 0 <= i < 9 ensures l[i] != "" && NoCr(l[i]) {}
  }

  /** Read as a SIP message, the text has its last header naming exactly the length of its body
      (section 20.14 of RFC 3261). */
  lemma {:induction false} ContentLengthIsExact(uri: string, r: Random)
    requires |r.ul| == 5 && |uri| >= 4 && NoCr(uri)
    ensures SplitMessage(Message(uri, r)) == Some((Head(uri, r), Sdp(r)))
    ensures var length := Format(|Sdp(r)|, 10);
      Head(uri, r)[8] == "Content-Length: " + length && Canonical(length) && Decimal(length) == |Sdp(r)|
  {
    HeadIsProper(uri, r);
    SplitsBack(Head(uri, r), Sdp(r));
    DecimalTextIsCanonical(|Sdp(r)|);
    hide SplitMessage, Join, Format;
  }

  /** A header line before its colon, and behind the colon and a space. */
  function FieldName(line: string): string {
    line[..Text.IndexOf(line, ':')]
  }

  function FieldValue(line: string): string {
    var k := Text.IndexOf(line, ':');
    if k + 2 <= |line| then line[k + 2..] else ""
  }

  lemma FieldIs(start: string, name: string, lead: string, rest: string)
    requires start == name + ": " + lead && ':' !in name
    ensures FieldName(start + rest) == name && FieldValue(start + rest) == lead + rest
  {
    Text.FirstSeparator(name, ": " + lead + rest, ':');
    assert start + rest == name + (": " + lead + rest);
  }

  lemma {:induction false} GroupRest(a: string, b: string, c: string, d: string, e: string)
    ensures a + b + c + d + e == a + (b + c + d + e) && a + b + c + d == a + (b + c + d) && a + b + c == a + (b + c)
  {
  }

  lemma LinesStart()
    ensures "Via: SIP/2.0/UDP " == "Via" + ": " + "SIP/2.0/UDP " && ':' !in "Via"
    ensures "From: <sip:" == "From" + ": " + "<sip:" && ':' !in "From"
    ensures "To: \"" == "To" + ": " + "\"" && ':' !in "To"
    ensures "Call-ID: " == "Call-ID" + ": " + "" && ':' !in "Call-ID"
  {
  }

  lemma LaterLinesStart()
    ensures "CSeq: 1 INVITE" == "CSeq" + ": " + "1 INVITE" && ':' !in "CSeq"
    ensures "Contact: <sip:" == "Contact" + ": " + "<sip:" && ':' !in "Contact"
    ensures "Content-Type: application/sdp" == "Content-Type" + ": " + "application/sdp" && ':' !in "Content-Type"
    ensures "Content-Length: " == "Content-Length" + ": " + "" && ':' !in "Content-Length"
  {
  }

  /** The header fields of the request, in this order and once each: what section 8.1.1 of RFC 3261 asks
      for (all but Max-Forwards), and the two that describe the body. One local host stands behind the
      path, the sender, the call and the contact. */
  lemma {:induction false} HeaderFields(uri: string, r: Random)
    requires |r.ul| == 5 && |uri| >= 4
    ensures var l, host := Head(uri, r), "198.51.100." + Format(r.localHost, 10);
      && |l| == 9
      && FieldName(l[1]) == "Via" && FieldValue(l[1]) == "SIP/2.0/UDP " + (host + ";branch=" + Format(r.ul[2], 16))
      && FieldName(l[2]) == "From" && FieldValue(l[2]) == "<sip:" + (host + ">;tag=" + Format(r.ul[3], 16))
      && FieldName(l[3]) == "To" && FieldValue(l[3]) == "\"" + (uri[4..] + "\" <" + uri + ">")
      && FieldName(l[4]) == "Call-ID" && FieldValue(l[4]) == Format(r.ul[4], 16) + "@" + host
      && FieldName(l[5]) == "CSeq" && FieldValue(l[5]) == "1 INVITE"
      && FieldName(l[6]) == "Contact" && FieldValue(l[6]) == "<sip:" + (host + ">")
      && FieldName(l[7]) == "Content-Type" && FieldValue(l[7]) == "application/sdp"
      && FieldName(l[8]) == "Content-Length" && FieldValue(l[8]) == Format(|Sdp(r)|, 10)
  {
    var host := "198.51.100." + Format(r.localHost, 10);
    HeadIs(uri, r);
    hide *;
    EarlyFields(uri, host, Format(r.ul[2], 16), Format(r.ul[3], 16), Format(r.ul[4], 16));
    LaterFields(host, Format(|Sdp(r)|, 10));
  }

  lemma HeadIs(uri: string, r: Random)
    requires |r.ul| == 5 && |uri| >= 4
    ensures var l, host := Head(uri, r), "198.51.100." + Format(r.localHost, 10);
      && |l| == 9
      && l[1] == "Via: SIP/2.0/UDP " + host + ";branch=" + Format(r.ul[2], 16)
      && l[2] == "From: <sip:" + host + ">;tag=" + Format(r.ul[3], 16)
      && l[3] == "To: \"" + uri[4..] + "\" <" + uri + ">"
      && l[4] == "Call-ID: " + Format(r.ul[4], 16) + "@" + host
      && l[5] == "CSeq: 1 INVITE"
      && l[6] == "Contact: <sip:" + host + ">"
      && l[7] == "Content-Type: application/sdp"
      && l[8] == "Content-Length: " + Format(|Sdp(r)|, 10)
  {
    hide Format, Sdp;
  }

  lemma EarlyFields(uri: string, host: string, branch: string, tag: string, call: string)
    requires |uri| >= 4
    ensures var line := "Via: SIP/2.0/UDP " + host + ";branch=" + branch;
      FieldName(line) == "Via" && FieldValue(line) == "SIP/2.0/UDP " + (host + ";branch=" + branch)
    ensures var line := "From: <sip:" + host + ">;tag=" + tag;
      FieldName(line) == "From" && FieldValue(line) == "<sip:" + (host + ">;tag=" + tag)
    ensures var line := "To: \"" + uri[4..] + "\" <" + uri + ">";
      FieldName(line) == "To" && FieldValue(line) == "\"" + (uri[4..] + "\" <" + uri + ">")
    ensures var line := "Call-ID: " + call + "@" + host; FieldName(line) == "Call-ID" && FieldValue(line) == call + "@" + host
  {
    hide FieldName, FieldValue;
    LinesStart();
    GroupRest("Via: SIP/2.0/UDP ", host, ";branch=", branch, "");
    FieldIs("Via: SIP/2.0/UDP ", "Via", "SIP/2.0/UDP ", host + ";branch=" + branch);
    GroupRest("From: <sip:", host, ">;tag=", tag, "");
    FieldIs("From: <sip:", "From", "<sip:", host + ">;tag=" + tag);
    GroupRest("To: \"", uri[4..], "\" <", uri, ">");
    FieldIs("To: \"", "To", "\"", uri[4..] + "\" <" + uri + ">");
    GroupRest("Call-ID: ", call, "@", host, "");
    FieldIs("Call-ID: ", "Call-ID", "", call + "@" + host);
    assert "" + (call + "@" + host) == call + "@" + host;
  }

  lemma LaterFields(host: string, length: string)
    ensures FieldName("CSeq: 1 INVITE") == "CSeq" && FieldValue("CSeq: 1 INVITE") == "1 INVITE"
    ensures var line := "Contact: <sip:" + host + ">"; FieldName(line) == "Contact" && FieldValue(line) == "<sip:" + (host + ">")
    ensures var line := "Content-Type: application/sdp"; FieldName(line) == "Content-Type" && FieldValue(line) == "application/sdp"
    ensures var line := "Content-Length: " + length; FieldName(line) == "Content-Length" && FieldValue(line) == length
  {
    hide FieldName, FieldValue;
    LaterLinesStart();
    FieldIs("CSeq: 1 INVITE", "CSeq", "1 INVITE", "");
    assert "CSeq: 1 INVITE" + "" == "CSeq: 1 INVITE" && "1 INVITE" + "" == "1 INVITE";
    GroupRest("Contact: <sip:", host, ">", "", "");
    FieldIs("Contact: <sip:", "Contact", "<sip:", host + ">");
    FieldIs("Content-Type: application/sdp", "Content-Type", "application/sdp", "");
    assert "Content-Type: application/sdp" + "" == "Content-Type: application/sdp" && "application/sdp" + "" == "application/sdp";
    FieldIs("Content-Length: ", "Content-Length", "", length);
    assert "" + length == length;
  }

  /** The body is the session description of one audio stream, line by line, offered from the same host. */
  lemma {:induction false} BodyLines(r: Random)
    requires |r.ul| == 5
    ensures var host := "198.51.100." + Format(r.localHost, 10);
      var origin := Format(r.ul[0] % 0x1_0000_0000, 10) + " " + Format(r.ul[1] % 0x1_0000_0000, 10);
      Sdp(r) == Join(["v=0", "o=Admin " + origin + " IN IP4 " + host, "s=-", "c=IN IP4 " + host, "t=0 0",
                      "m=audio 6000 RTP/AVP 0", "a=rtpmap:0 PCMU/8000"])
  {
    var host := Local(r);
    var x, y := Format(r.ul[0] % 0x1_0000_0000, 10), Format(r.ul[1] % 0x1_0000_0000, 10);
    hide Format, Join;
    JoinSeven("v=0", "o=Admin " + (x + " " + y) + " IN IP4 " + host, "s=-", "c=IN IP4 " + host, "t=0 0",
              "m=audio 6000 RTP/AVP 0", "a=rtpmap:0 PCMU/8000");
    SdpTexts();
    Glue("v=0", "o=Admin ", x, " ", y, " IN IP4 ", host, "s=-", "c=IN IP4 ", "t=0 0", "m=audio 6000 RTP/AVP 0",
         "a=rtpmap:0 PCMU/8000");
  }

  lemma SdpTexts()
    ensures "v=0\r\no=Admin " == "v=0" + CRLF + "o=Admin "
    ensures "\r\ns=-\r\nc=IN IP4 " == CRLF + "s=-" + CRLF + "c=IN IP4 "
    ensures SDP_END == (CRLF + "t=0 0" + CRLF + "m=audio 6000 RTP/AVP 0") + (CRLF + "a=rtpmap:0 PCMU/8000" + CRLF)
  {
    TimeAndMedia();
    MediaAttribute();
  }

  lemma TimeAndMedia()
    ensures "\r\nt=0 0\r\nm=audio 6000 RTP/AVP 0" == CRLF + "t=0 0" + CRLF + "m=audio 6000 RTP/AVP 0"
  {
  }

  lemma MediaAttribute()
    ensures "\r\na=rtpmap:0 PCMU/8000\r\n" == CRLF + "a=rtpmap:0 PCMU/8000" + CRLF
  {
  }

  lemma Glue(v: string, o: string, x: string, sp: string, y: string, ip: string, h: string, s: string, c: string, t: string,
             m: string, a: string)
    ensures (v + CRLF + o) + x + sp + y + ip + h + (CRLF + s + CRLF + c) + h + ((CRLF + t + CRLF + m) + (CRLF + a + CRLF))
         == v + CRLF + (o + (x + sp + y) + ip + h) + CRLF + s + CRLF + (c + h) + CRLF + t + CRLF + m + CRLF + a + CRLF
  {
    var left := (v + CRLF + o) + x + sp + y + ip + h;
    assert left == v + CRLF + (o + (x + sp + y) + ip + h);
    var middle := left + (CRLF + s + CRLF + c) + h;
    assert middle == left + CRLF + s + CRLF + (c + h);
    assert middle + ((CRLF + t + CRLF + m) + (CRLF + a + CRLF)) == middle + CRLF + t + CRLF + m + CRLF + a + CRLF;
  }

  lemma JoinSeven(a: string, b: string, c: string, d: string, e: string, f: string, g: string)
    ensures Join([a, b, c, d, e, f, g])
         == a + CRLF + b + CRLF + c + CRLF + d + CRLF + e + CRLF + f + CRLF + g + CRLF
  {
    assert Join([g]) == g + CRLF by { assert [g][1..] == []; }
    assert Join([f, g]) == f + CRLF + Join([g]) by { assert [f, g][1..] == [g]; }
    assert Join([e, f, g]) == e + CRLF + Join([f, g]) by { assert [e, f, g][1..] == [f, g]; }
    assert Join([d, e, f, g]) == d + CRLF + Join([e, f, g]) by { assert [d, e, f, g][1..] == [e, f, g]; }
    assert Join([c, d, e, f, g]) == c + CRLF + Join([d, e, f, g]) by { assert [c, d, e, f, g][1..] == [d, e, f, g]; }
    assert Join([b, c, d, e, f, g]) == b + CRLF + Join([c, d, e, f, g]) by { assert [b, c, d, e, f, g][1..] == [c, d, e, f, g]; }
    assert Join([a, b, c, d, e, f, g]) == a + CRLF + Join([b, c, d, e, f, g]) by {
      assert [a, b, c, d, e, f, g][1..] == [b, c, d, e, f, g];
    }
    hide Join;
  }

  /** Every URI the shell accepts, and the random default, yields a message that fits its buffer. */
  lemma {:induction false} ValidUrisBuild(given: Option<string>, r: Random)
    requires Drawn(r) && (given.Some? ==> ValidSipUri(given.value))
    ensures Build(given, r).Some?
    ensures |Build(given, r).value| <= 414 + 3 * (if given.Some? then |given.value| else 22) <= 1179
  {
    SmallTexts(r);
    BodyFits(r);
    var uri := if given.Some? then given.value else RandomUri(r);
    MessageFits(uri, r);
    hide Message, Sdp, Local;
  }

  lemma ValidUriHasNoCr(uri: string)
    requires ValidSipUri(uri)
    ensures NoCr(uri) && |uri| >= 4 && "sip:" <= uri
  {
    assert !UriChar('\r');
  }

  lemma RandomUriHasNoCr(r: Random)
    ensures NoCr(RandomUri(r)) && |RandomUri(r)| >= 4
  {
    FormatHasNoCr(r.uriHost, 10);
    hide Format;
  }

  /** What the program sends for any validated URI, or for none: a message that fits the payload
      buffer and reads back as the INVITE for that URI with a truthful Content-Length. */
  lemma {:induction false} EveryInviteIsWellFormed(given: Option<string>, r: Random)
    requires Drawn(r) && (given.Some? ==> ValidSipUri(given.value))
    ensures var uri := if given.Some? then given.value else RandomUri(r);
      && |uri| >= 4
      && Build(given, r).Some?
      && SplitMessage(Build(given, r).value) == Some((Head(uri, r), Sdp(r)))
      && Head(uri, r)[0] == "INVITE " + uri + " SIP/2.0"
      && Head(uri, r)[8] == "Content-Length: " + Format(|Sdp(r)|, 10)
      && Decimal(Format(|Sdp(r)|, 10)) == |Sdp(r)|
  {
    ValidUrisBuild(given, r);
    if given.Some? { ValidUriHasNoCr(given.value); } else { RandomUriHasNoCr(r); }
    var uri := if given.Some? then given.value else RandomUri(r);
    ContentLengthIsExact(uri, r);
    hide SplitMessage, Format, Sdp, ValidSipUri;
  }

  // ------------------------------------------------------------------- its bytes

  predicate Ascii(s: string) {
    forall i | 0 <= i < |s| :: s[i] as int < 128
  }

  /** The text as the program stores it, one byte a character. */
  function Octets(s: string): (b: Bytes)
    requires Ascii(s)
    ensures |b| == |s|
  {
    seq(|s|, i requires 0 <= i < |s| => s[i] as int)
  }

  function Chars(b: Bytes): (s: string)
    ensures |s| == |b|
  {
    seq(|b|, i requires 0 <= i < |b| => b[i] as char)
  }

  lemma OctetsReadBack(s: string)
    requires Ascii(s)
    ensures Chars(Octets(s)) == s
  {
  }

  lemma AsciiConcat(a: string, b: string)
    requires Ascii(a) && Ascii(b)
    ensures Ascii(a + b)
  {
  }

  lemma {:induction false} AsciiJoin(lines: seq<string>)
    requires forall i | 0 <= i < |lines| :: Ascii(lines[i])
    ensures Ascii(Join(lines))
  {
    hide Ascii;
    if lines == [] {
      assert Ascii(Join(lines)) by { EmptyIsAscii(); }
    } else {
      assert forall i | 0 <= i < |lines[1..]| :: lines[1..][i] == lines[i + 1];
      AsciiJoin(lines[1..]);
      assert Ascii(CRLF) by { EmptyIsAscii(); }
      AsciiConcat(lines[0], CRLF);
      AsciiConcat(lines[0] + CRLF, Join(lines[1..]));
    }
  }

  lemma EmptyIsAscii()
    ensures Ascii("") && Ascii(CRLF)
  {
  }

  lemma FormatIsAscii(n: nat, base: nat)
    requires 2 <= base <= 16
    ensures Ascii(Format(n, base))
  {
    FormatReads(n, base);
    hide Format;
    assert forall c: char | Digit(c) < 16 :: c as int < 128;
  }

  lemma LocalIsAscii(r: Random)
    ensures Ascii(Local(r))
  {
    FormatIsAscii(r.localHost, 10);
    hide Format;
  }

  lemma AsciiLine(a: string, x: string, b: string, y: string, c: string)
    requires Ascii(a) && Ascii(x) && Ascii(b) && Ascii(y) && Ascii(c)
    ensures Ascii(a + x + b + y + c) && Ascii(a + x + b + y) && Ascii(a + x + b) && Ascii(a + x)
  {
    hide Ascii;
    AsciiConcat(a, x);
    AsciiConcat(a + x, b);
    AsciiConcat(a + x + b, y);
    AsciiConcat(a + x + b + y, c);
  }

  lemma HeaderNamesAreAscii()
    ensures Ascii("INVITE ") && Ascii(" SIP/2.0") && Ascii("Via: SIP/2.0/UDP ") && Ascii(";branch=")
    ensures Ascii("From: <sip:") && Ascii(">;tag=") && Ascii("To: \"") && Ascii("\" <") && Ascii(">")
    ensures Ascii("Call-ID: ") && Ascii("@") && Ascii("CSeq: 1 INVITE") && Ascii("Contact: <sip:")
    ensures Ascii("Content-Type: application/sdp") && Ascii("Content-Length: ") && Ascii("")
  {
  }

  lemma BodyLinesAreAscii()
    ensures Ascii("v=0\r\no=Admin ") && Ascii(" ") && Ascii(" IN IP4 ") && Ascii("\r\ns=-\r\nc=IN IP4 ") && Ascii(SDP_END)
  {
    AsciiConcat("\r\nt=0 0\r\nm=audio 6000 RTP/AVP 0", "\r\na=rtpmap:0 PCMU/8000\r\n");
  }

  lemma SdpIsAscii(r: Random)
    requires |r.ul| == 5
    ensures Ascii(Sdp(r))
  {
    LocalIsAscii(r);
    FormatIsAscii(r.ul[0] % 0x1_0000_0000, 10);
    FormatIsAscii(r.ul[1] % 0x1_0000_0000, 10);
    var x, y, local := Format(r.ul[0] % 0x1_0000_0000, 10), Format(r.ul[1] % 0x1_0000_0000, 10), Local(r);
    BodyLinesAreAscii();
    hide Format, Local, Ascii;
    AsciiLine("v=0\r\no=Admin ", x, " ", y, " IN IP4 ");
    AsciiLine("v=0\r\no=Admin " + x + " " + y + " IN IP4 ", local, "\r\ns=-\r\nc=IN IP4 ", local, SDP_END);
  }

  lemma HeadIsAscii(uri: string, r: Random)
    requires |r.ul| == 5 && |uri| >= 4 && Ascii(uri)
    ensures forall i | 0 <= i < 9 :: Ascii(Head(uri, r)[i])
  {
    LocalIsAscii(r);
    FormatIsAscii(r.ul[2], 16);
    FormatIsAscii(r.ul[3], 16);
    FormatIsAscii(r.ul[4], 16);
    FormatIsAscii(|Sdp(r)|, 10);
    assert Ascii(uri[4..]);
    HeaderNamesAreAscii();
    var l, local := Head(uri, r), Local(r);
    hide Format, Sdp, Local, Ascii;
    AsciiLine("INVITE ", uri, " SIP/2.0", "", "");
    AsciiLine("Via: SIP/2.0/UDP ", local, ";branch=", Format(r.ul[2], 16), "");
    AsciiLine("From: <sip:", local, ">;tag=", Format(r.ul[3], 16), "");
    AsciiLine("To: \"", uri[4..], "\" <", uri, ">");
    AsciiLine("Call-ID: ", Format(r.ul[4], 16), "@", local, "");
    AsciiLine("Contact: <sip:", local, ">", "", "");
    AsciiLine("Content-Length: ", Format(|Sdp(r)|, 10), "", "", "");
    forall i | 0 <= i < 9 ensures Ascii(l[i]) {}
  }

  /** A message about an ASCII URI is ASCII, so that storing it as bytes loses nothing. */
  lemma {:induction false} MessageIsAscii(uri: string, r: Random)
    requires |r.ul| == 5 && |uri| >= 4 && Ascii(uri)
    ensures Ascii(Message(uri, r)) && Chars(Octets(Message(uri, r))) == Message(uri, r)
  {
    HeadIsAscii(uri, r);
    SdpIsAscii(r);
    AsciiJoin(Head(uri, r));
    EmptyIsAscii();
    hide Ascii, Format, Sdp, Head, Join;
    AsciiConcat(Join(Head(uri, r)), CRLF);
    AsciiConcat(Join(Head(uri, r)) + CRLF, Sdp(r));
    OctetsReadBack(Message(uri, r));
  }

  lemma UriIsAscii(given: Option<string>, r: Random)
    requires given.Some? ==> ValidSipUri(given.value)
    ensures var uri := if given.Some? then given.value else RandomUri(r); Ascii(uri) && |uri| >= 4
  {
    if given.Some? {
      ValidUriHasNoCr(given.value);
      assert forall c: char | UriChar(c) :: c as int < 128;
    } else {
      RandomUriHasNoCr(r);
      FormatIsAscii(r.uriHost, 10);
      hide Format;
    }
  }

  /** The bytes of the built message: as many as the text has characters, and they spell it. */
  lemma {:induction false} BuiltIsAscii(given: Option<string>, r: Random)
    requires Drawn(r) && (given.Some? ==> ValidSipUri(given.value))
    ensures Build(given, r).Some? && |Build(given, r).value| <= 1179
    ensures Ascii(Build(given, r).value) && Chars(Octets(Build(given, r).value)) == Build(given, r).value
  {
    ValidUrisBuild(given, r);
    UriIsAscii(given, r);
    MessageIsAscii(if given.Some? then given.value else RandomUri(r), r);
    hide Message, Ascii, ValidSipUri;
  }
}
