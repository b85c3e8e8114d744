/** The shell's checks on host names, SIP URIs and interface names. */
module SipUri {
  import opened Common
  import opened Numerals
  import opened Text

  const URI_MAX := 255
  const HOST_MAX := 253
  const LABEL_MAX := 63

  predicate HostChar(c: char) {
    IsAlnum(c) || c == '.' || c == '-'
  }

  predicate ValidLabel(l: string) {
    0 < |l| <= LABEL_MAX && l[0] != '-' && l[|l| - 1] != '-'
  }

  predicate ValidHostname(h: string) {
    && 0 < |h| <= HOST_MAX && h[0] != '.' && h[|h| - 1] != '.'
    && (forall i | 0 <= i < |h| :: HostChar(h[i]))
    && (forall i | 0 <= i < |h| - 1 :: !(h[i] == '.' && h[i + 1] == '.'))
    && forall i | 0 <= i < |Pieces(h, '.')| :: ValidLabel(Pieces(h, '.')[i])
  }

  predicate UserChar(c: char) {
    IsAlnum(c) || c == '_' || c == '.' || c == '!' || c == '~' || c == '*' || c == '+' || c == '&' || c == '=' || c == '%' || c == '-'
  }

  predicate UriChar(c: char) {
    UserChar(c) || c == '@' || c == ':'
  }

  /** host or host:port. */
  predicate ValidAuthority(a: string) {
    && a != "" && '@' !in a
    && var colon := IndexOf(a, ':');
    && ValidHostname(a[..colon])
    && (colon < |a| ==> ':' !in a[colon + 1..] && ValidUint(a[colon + 1..], 1, 65535))
  }

  predicate UserPart(user: string) {
    user != "" && forall i | 0 <= i < |user| :: UserChar(user[i])
  }

  /** sip:user@host or sip:user@host:port. */
  predicate ValidSipUri(uri: string) {
    && 0 < |uri| <= URI_MAX && "sip:" <= uri
    && (forall i | 0 <= i < |uri| :: UriChar(uri[i]))
    && var body := uri[4..];
    var at := IndexOf(body, '@');
    at < |body| && UserPart(body[..at]) && ValidAuthority(body[at + 1..])
  }

  // ------------------------------------------------------------------- which texts those are

  /** A label of letters, digits and inner hyphens. */
  predicate LabelText(l: string) {
    ValidLabel(l) && forall i | 0 <= i < |l| :: IsAlnum(l[i]) || l[i] == '-'
  }

  predicate LabelList(labels: seq<string>) {
    labels != [] && forall i | 0 <= i < |labels| :: LabelText(labels[i])
  }

  lemma PieceIsLabel(h: string, i: nat)
    requires ValidHostname(h) && i < |Pieces(h, '.')|
    ensures LabelText(Pieces(h, '.')[i])
  {
    hide Pieces, IsAlnum;
    var l := Pieces(h, '.')[i];
    assert Separated(h, '.');
    ListOfPieces(h, '.');
    PiecesAreSlices(h, '.');
    forall k | 0 <= k < |l| ensures IsAlnum(l[k]) || l[k] == '-' {
      assert l[k] in l && l[k] in h;
    }
  }

  lemma LabelsMakeHostname(labels: seq<string>)
    requires LabelList(labels) && |Joined(labels, '.')| <= 253
    ensures ValidHostname(Joined(labels, '.'))
  {
    hide Joined, Pieces;
    var h := Joined(labels, '.');
    JoinedCharacters(labels, '.');
    forall i | 0 <= i < |labels| ensures labels[i] != "" && '.' !in labels[i] { assert LabelText(labels[i]); }
    ListsAreSeparated(labels, '.');
    PiecesOfList(labels, '.');
    forall i | 0 <= i < |h| ensures HostChar(h[i]) {
      assert h[i] in h;
      if h[i] != '.' {
        var k :| 0 <= k < |labels| && h[i] in labels[k];
        assert LabelText(labels[k]);
      }
    }
  }

  /** A host name is a dotted list of such labels, of at most 253 characters. */
  lemma {:induction false} HostnamesAreLabels(h: string)
    ensures ValidHostname(h) <==> |h| <= 253 && exists labels :: LabelList(labels) && h == Joined(labels, '.')
  {
    if ValidHostname(h) {
      forall i | 0 <= i < |Pieces(h, '.')| ensures LabelText(Pieces(h, '.')[i]) { PieceIsLabel(h, i); }
      assert Separated(h, '.');
      ListOfPieces(h, '.');
      assert LabelList(Pieces(h, '.'));
    }
    hide ValidHostname, LabelList, Pieces;
    forall labels | |h| <= 253 && LabelList(labels) && h == Joined(labels, '.') ensures ValidHostname(h) {
      LabelsMakeHostname(labels);
    }
  }

  lemma AuthorityReads(host: string, port: Option<string>)
    requires forall i | 0 <= i < |host| :: HostChar(host[i])
    requires port.Some? ==> forall i | 0 <= i < |port.value| :: IsDecimal(port.value[i])
    ensures var a := host + (if port.None? then "" else ":" + port.value);
      && (ValidAuthority(a) <==> ValidHostname(host) && (port.Some? ==> ValidUint(port.value, 1, 65535)))
      && (forall i | 0 <= i < |a| :: UriChar(a[i]))
  {
    var tail := if port.None? then "" else ":" + port.value;
    var a := host + tail;
    hide ValidUint, IndexOf;
    FirstSeparator(host, tail, ':');
    forall i | 0 <= i < |a| ensures UriChar(a[i]) && a[i] != '@' {
      if i < |host| { assert a[i] == host[i]; } else { assert a[i] == tail[i - |host|]; }
    }
    assert a[..|host|] == host;
    if port.Some? {
      assert a[|host| + 1..] == port.value;
      assert ':' !in port.value;
    }
    assert ValidHostname(host) ==> host != "";
    hide ValidHostname;
  }

  lemma UriOf(uri: string, user: string, authority: string)
    requires uri == "sip:" + user + "@" + authority && '@' !in user
    requires forall i | 0 <= i < |authority| :: UriChar(authority[i])
    ensures ValidSipUri(uri) <==> |uri| <= 255 && UserPart(user) && ValidAuthority(authority)
  {
    hide ValidAuthority, IndexOf;
    var body := user + ("@" + authority);
    assert uri[4..] == body && uri[..4] == "sip:";
    FirstSeparator(user, "@" + authority, '@');
    assert body[|user| + 1..] == authority;
    if UserPart(user) {
      forall i | 0 <= i < |uri| ensures UriChar(uri[i]) {
        if 4 <= i < 4 + |user| { assert uri[i] == user[i - 4]; }
        if i >= 5 + |user| { assert uri[i] == authority[i - 5 - |user|]; }
      }
    }
  }

  /** A SIP URI is a user and a host name, and possibly a port, in 255 characters: written together
      they are accepted exactly if each is what it should be... */
  lemma {:induction false} UriReads(user: string, host: string, port: Option<string>)
    requires '@' !in user
    requires forall i | 0 <= i < |host| :: HostChar(host[i])
    requires port.Some? ==> forall i | 0 <= i < |port.value| :: IsDecimal(port.value[i])
    ensures var uri := "sip:" + user + "@" + host + (if port.None? then "" else ":" + port.value);
      ValidSipUri(uri) <==>
        |uri| <= 255 && UserPart(user) && ValidHostname(host) && (port.Some? ==> ValidUint(port.value, 1, 65535))
  {
    var tail := if port.None? then "" else ":" + port.value;
    AuthorityReads(host, port);
    hide *;
    var uri := "sip:" + user + "@" + host + tail;
    assert uri == "sip:" + user + "@" + (host + tail);
    UriOf(uri, user, host + tail);
  }

  /** ...and everything accepted is written like that. */
  lemma {:induction false} UrisAreReadBack(uri: string) returns (user: string, host: string, port: Option<string>)
    requires ValidSipUri(uri)
    ensures uri == "sip:" + user + "@" + host + (if port.None? then "" else ":" + port.value)
    ensures UserPart(user) && ValidHostname(host) && (port.Some? ==> ValidUint(port.value, 1, 65535))
  {
    hide ValidHostname, ValidUint, IndexOf, UriChar, UserPart, ValidAuthority;
    var body := uri[4..];
    var at := IndexOf(body, '@');
    var authority := body[at + 1..];
    assert uri == "sip:" + body && body == body[..at] + "@" + authority;
    host, port := AuthorityParts(authority);
    user := body[..at];
  }

  lemma AuthorityParts(a: string) returns (host: string, port: Option<string>)
    requires ValidAuthority(a)
    ensures a == host + (if port.None? then "" else ":" + port.value)
    ensures ValidHostname(host) && (port.Some? ==> ValidUint(port.value, 1, 65535))
  {
    hide ValidHostname, ValidUint, IndexOf;
    var colon := IndexOf(a, ':');
    host := a[..colon];
    port := if colon < |a| then Some(a[colon + 1..]) else None;
  }

  const INTERFACE_MAX := 15

  predicate ValidInterface(name: string) {
    && 0 < |name| <= INTERFACE_MAX && name != "lo"
    && forall i | 0 <= i < |name| :: IsAlnum(name[i]) || name[i] == '_' || name[i] == '.' || name[i] == '-'
  }

  /** An accepted interface name is a word that rule text can hold between quotes: it is not the loopback
      device and has no quote, backslash, comma or blank; and any other word of letters and digits that is
      not too long is accepted. */
  lemma InterfaceNames(name: string)
    ensures ValidInterface(name) ==>
      1 <= |name| <= 15 && name != "lo" && forall c | c in name :: c != '"' && c != '\\' && c != ',' && c > ' '
    ensures 1 <= |name| <= 15 && name != "lo" && (forall i | 0 <= i < |name| :: IsAlnum(name[i])) ==> ValidInterface(name)
  {
  }
}
