/** Port specifications: the shell's check, the C parser, and the bitmap it fills. */
module PortMap {
  import opened Common
  import opened Numerals
  import opened Text

  const PORT_MAX := 65535
  const MAP_BYTES := 8192

  // ------------------------------------------------------------------- text

  /** The tokens strtok_r delivers. */
  function Tokens(s: string): (r: seq<string>)
    ensures forall i | 0 <= i < |r| :: r[i] != ""
  {
    Pieces(s, ',')
  }

  datatype Range = Range(first: nat, last: nat)

  /** The numbers from `low` up to but not including `high`. */
  function Span(low: int, high: int): (s: set<int>)
    ensures forall p: int :: p in s <==> low <= p < high
    decreases high - low
  {
    if high <= low then {} else Span(low, high - 1) + {high - 1}
  }

  function PortSet(r: Range): set<int> {
    Span(r.first, r.last + 1)
  }

  // ------------------------------------------------------------------- the shell's check

  predicate ValidItem(item: string) {
    var k := IndexOf(item, '-');
    if k == |item| then ValidUint(item, 1, PORT_MAX)
    else
      var first, last := item[..k], item[k + 1..];
      && '-' !in last
      && ValidUint(first, 1, PORT_MAX) && ValidUint(last, 1, PORT_MAX)
      && Decimal(first) <= Decimal(last)
  }

  /** The decimal meaning of an item. */
  function Meaning(item: string): Range {
    var k := IndexOf(item, '-');
    if k == |item| then Range(Decimal(item), Decimal(item)) else Range(Decimal(item[..k]), Decimal(item[k + 1..]))
  }

  predicate SpecShape(spec: string) {
    && spec != "" && spec[0] != ',' && spec[|spec| - 1] != ','
    && (forall i | 0 <= i < |spec| :: IsDecimal(spec[i]) || spec[i] == ',' || spec[i] == '-')
    && (forall i | 0 <= i < |spec| - 1 :: !(spec[i] == ',' && spec[i + 1] == ','))
  }

  /** With the shape checked no field is empty, so the shell's fields are the tokens. */
  predicate ValidPortSpec(spec: string) {
    SpecShape(spec) && forall i | 0 <= i < |Tokens(spec)| :: ValidItem(Tokens(spec)[i])
  }

  /** The shell function: shape first, then field by field. */
  method CheckPortSpec(spec: string) returns (ok: bool)
    ensures ok <==> ValidPortSpec(spec)
  {
    if !SpecShape(spec) { return false; }
    var fields := Tokens(spec);
    var i := 0;
    while i < |fields|
      invariant 0 <= i <= |fields| && forall j | 0 <= j < i :: ValidItem(fields[j])
    {
      ok := CheckItem(fields[i]);
      if !ok { return; }
      i := i + 1;
    }
    ok := true;
  }

  method CheckItem(item: string) returns (ok: bool)
    ensures ok <==> ValidItem(item)
  {
    var k := IndexOf(item, '-');
    if k == |item| {
      ok := ValidUintRange(item, 1, PORT_MAX);
    } else {
      var first, last := item[..k], item[k + 1..];
      if '-' in last { return false; }
      ok := ValidUintRange(first, 1, PORT_MAX);
      if !ok { return; }
      ok := ValidUintRange(last, 1, PORT_MAX);
      if !ok { return; }
      var a := ReadDecimal(first);
      var b := ReadDecimal(last);
      ok := a <= b;
    }
  }

  // ------------------------------------------------------------------- the C parser

  /** A number that fills the whole text and is a port. */
  function ParsePort(s: string, max: nat): (r: Option<nat>)
    ensures r.Some? ==> 1 <= r.value <= PORT_MAX
  {
    var (v, end) := Strtoul(s, max);
    if end == 0 || end < |s| || v == 0 || v > PORT_MAX then None else Some(v)
  }

  function ParseItem(tok: string, max: nat): (r: Option<Range>)
    ensures r.Some? ==> 1 <= r.value.first <= r.value.last <= PORT_MAX
  {
    var k := IndexOf(tok, '-');
    if k == |tok| then
      var v := ParsePort(tok, max);
      if v.None? then None else Some(Range(v.value, v.value))
    else
      var first, last := ParsePort(tok[..k], max), ParsePort(tok[k + 1..], max);
      if first.None? || last.None? || first.value > last.value then None else Some(Range(first.value, last.value))
  }

  predicate AllParse(toks: seq<string>, max: nat) {
    forall i | 0 <= i < |toks| :: ParseItem(toks[i], max).Some?
  }

  /** The ports of the tokens before the first one that does not parse. */
  function PortsBefore(toks: seq<string>, max: nat): set<int> {
    if toks == [] || ParseItem(toks[0], max).None? then {}
    else PortSet(ParseItem(toks[0], max).value) + PortsBefore(toks[1..], max)
  }

  lemma {:induction false} PortsBeforeConcat(good: seq<string>, rest: seq<string>, max: nat)
    requires AllParse(good, max)
    ensures PortsBefore(good + rest, max) == PortsBefore(good, max) + PortsBefore(rest, max)
  {
    if good == [] {
      assert good + rest == rest;
    } else {
      assert (good + rest)[1..] == good[1..] + rest;
      PortsBeforeConcat(good[1..], rest, max);
    }
  }

  // ------------------------------------------------------------------- agreement

  /** An item the shell accepts is parsed to its decimal meaning, whatever the width of long. */
  lemma {:induction false} ItemAgrees(item: string, max: nat)
    requires ValidItem(item) && max >= PORT_MAX
    ensures ParseItem(item, max) == Some(Meaning(item))
  {
    var k := IndexOf(item, '-');
    if k == |item| {
      ReadsCanonical(item, max);
    } else {
      ReadsCanonical(item[..k], max);
      ReadsCanonical(item[k + 1..], max);
    }
  }

  /** The decimal meaning of a whole specification. */
  function SpecMeaning(toks: seq<string>): set<int> {
    if toks == [] then {} else PortSet(Meaning(toks[0])) + SpecMeaning(toks[1..])
  }

  lemma {:induction false} TokensAgree(toks: seq<string>, max: nat)
    requires max >= PORT_MAX && forall i | 0 <= i < |toks| :: ValidItem(toks[i])
    ensures AllParse(toks, max) && PortsBefore(toks, max) == SpecMeaning(toks)
  {
    if toks != [] {
      ItemAgrees(toks[0], max);
      TokensAgree(toks[1..], max);
      forall i | 0 <= i < |toks| ensures ParseItem(toks[i], max).Some? { ItemAgrees(toks[i], max); }
    }
  }

  /** Every specification the shell accepts parses, has at least one token, and means the union of
      its decimal ranges. */
  lemma {:induction false} SpecAgrees(spec: string, max: nat)
    requires ValidPortSpec(spec) && max >= PORT_MAX
    ensures Tokens(spec) != [] && AllParse(Tokens(spec), max)
    ensures PortsBefore(Tokens(spec), max) == SpecMeaning(Tokens(spec))
  {
    TokensAgree(Tokens(spec), max);
    assert IndexOf(spec, ',') > 0;
  }

  // ------------------------------------------------------------------- which ports that is

  /** Token `i` and all before it parse, and its range holds `p`. */
  predicate NamedBy(toks: seq<string>, max: nat, i: nat, p: int)
    requires i < |toks|
  {
    && (forall j | 0 <= j <= i :: ParseItem(toks[j], max).Some?)
    && ParseItem(toks[i], max).value.first <= p <= ParseItem(toks[i], max).value.last
  }

  lemma NamedLater(toks: seq<string>, max: nat, i: nat, p: int)
    requires i + 1 < |toks|
    ensures NamedBy(toks, max, i + 1, p) <==> ParseItem(toks[0], max).Some? && NamedBy(toks[1..], max, i, p)
  {
    hide ParseItem;
    var rest := toks[1..];
    assert forall j | 0 <= j <= i :: rest[j] == toks[j + 1];
  }

  lemma {:induction false} TokenOfPort(toks: seq<string>, max: nat, p: int) returns (i: nat)
    requires p in PortsBefore(toks, max)
    ensures i < |toks| && NamedBy(toks, max, i, p)
  {
    hide ParseItem;
    i := 0;
    if p !in PortSet(ParseItem(toks[0], max).value) {
      i := TokenOfPort(toks[1..], max, p);
      NamedLater(toks, max, i, p);
      i := i + 1;
    }
  }

  lemma {:induction false} PortOfToken(toks: seq<string>, max: nat, i: nat, p: int)
    requires i < |toks| && NamedBy(toks, max, i, p)
    ensures p in PortsBefore(toks, max)
  {
    if i > 0 {
      NamedLater(toks, max, i - 1, p);
      PortOfToken(toks[1..], max, i - 1, p);
    }
  }

  /** What the parser sets: the ports from first to last, both included, of every token before the
      first that does not parse. */
  lemma {:induction false} ParsedPortsExactly(toks: seq<string>, max: nat, p: int)
    ensures p in PortsBefore(toks, max) <==> exists i :: 0 <= i < |toks| && NamedBy(toks, max, i, p)
  {
    hide PortsBefore, NamedBy;
    if p in PortsBefore(toks, max) { var i := TokenOfPort(toks, max, p); }
    forall i | 0 <= i < |toks| && NamedBy(toks, max, i, p) ensures p in PortsBefore(toks, max) { PortOfToken(toks, max, i, p); }
  }

  /** The ports a specification means: those between the decimal ends, both included, of some item. */
  lemma {:induction false} MeantPortsExactly(toks: seq<string>, p: int)
    ensures p in SpecMeaning(toks) <==> exists item :: item in toks && Meaning(item).first <= p <= Meaning(item).last
  {
    hide Meaning;
    if toks != [] {
      MeantPortsExactly(toks[1..], p);
      assert toks == [toks[0]] + toks[1..];
      assert toks[0] in toks && (p in PortSet(Meaning(toks[0])) <==> Meaning(toks[0]).first <= p <= Meaning(toks[0]).last);
    }
  }

  // ------------------------------------------------------------------- which specifications those are

  lemma FormatHasNoDash(n: nat)
    ensures '-' !in Format(n, 10) && ',' !in Format(n, 10)
  {
    FormatReads(n, 10);
    if c :| c in Format(n, 10) && (c == '-' || c == ',') {
      var i :| 0 <= i < |Format(n, 10)| && Format(n, 10)[i] == c;
      assert Digit(Format(n, 10)[i]) < 10;
    }
  }

  lemma ShortDecimal(n: nat)
    ensures ValidUint(Format(n, 10), 1, PORT_MAX) <==> 1 <= n <= 65535
  {
    DecimalTextIsCanonical(n);
    Powers();
    hide Canonical, Decimal, Format;
    if n <= PORT_MAX { FormatLength(n, 10, 10); }
  }

  lemma NumberItem(s: string)
    requires '-' !in s
    ensures (ValidItem(s) <==> ValidUint(s, 1, PORT_MAX)) && Meaning(s) == Range(Decimal(s), Decimal(s))
  {
    hide IndexOf, ValidUint, Decimal;
    FirstSeparator(s, "", '-');
    assert s + "" == s;
  }

  lemma RangeItem(s: string, t: string)
    requires '-' !in s && '-' !in t
    ensures ValidItem(s + "-" + t) <==> ValidUint(s, 1, PORT_MAX) && ValidUint(t, 1, PORT_MAX) && Decimal(s) <= Decimal(t)
    ensures Meaning(s + "-" + t) == Range(Decimal(s), Decimal(t))
  {
    hide IndexOf, ValidUint, Decimal;
    FirstSeparator(s, "-" + t, '-');
    assert s + ("-" + t) == s + "-" + t;
    assert (s + "-" + t)[|s| + 1..] == t;
  }

  /** A port, or two ports in ascending order around a dash, written in decimal, is accepted and means
      just that; nothing else of that form is. */
  lemma {:induction false} ItemsExactly(a: nat, b: nat)
    ensures ValidItem(Format(a, 10)) <==> 1 <= a <= 65535
    ensures Meaning(Format(a, 10)) == Range(a, a)
    ensures ValidItem(Format(a, 10) + "-" + Format(b, 10)) <==> 1 <= a <= b <= 65535
    ensures Meaning(Format(a, 10) + "-" + Format(b, 10)) == Range(a, b)
  {
    FormatHasNoDash(a);
    FormatHasNoDash(b);
    ShortDecimal(a);
    ShortDecimal(b);
    DecimalTextIsCanonical(a);
    DecimalTextIsCanonical(b);
    hide *;
    NumberItem(Format(a, 10));
    RangeItem(Format(a, 10), Format(b, 10));
  }

  /** Every accepted item has that form. */
  lemma {:induction false} ItemsAreNumbers(item: string)
    requires ValidItem(item)
    ensures item == Format(Meaning(item).first, 10)
         || item == Format(Meaning(item).first, 10) + "-" + Format(Meaning(item).last, 10)
    ensures item != "" && forall i | 0 <= i < |item| :: IsDecimal(item[i]) || item[i] == '-'
  {
    var k := IndexOf(item, '-');
    if k == |item| {
      CanonicalIsDecimalText(item);
    } else {
      CanonicalIsDecimalText(item[..k]);
      CanonicalIsDecimalText(item[k + 1..]);
      assert item == item[..k] + "-" + item[k + 1..];
      forall i | 0 <= i < |item| ensures IsDecimal(item[i]) || item[i] == '-' {
        if i < k { assert item[i] == item[..k][i]; } else if i > k { assert item[i] == item[k + 1..][i - k - 1]; }
      }
    }
  }

  predicate ItemList(items: seq<string>) {
    items != [] && forall i | 0 <= i < |items| :: ValidItem(items[i])
  }

  lemma {:induction false} ListCharacters(items: seq<string>)
    requires forall i | 0 <= i < |items| :: ValidItem(items[i])
    ensures forall i | 0 <= i < |Joined(items, ',')| ::
              IsDecimal(Joined(items, ',')[i]) || Joined(items, ',')[i] == ',' || Joined(items, ',')[i] == '-'
  {
    if items != [] {
      ItemsAreNumbers(items[0]);
      ListCharacters(items[1..]);
    }
    hide ValidItem;
  }

  /** What the shell accepts: the lists of at least one item, separated by single commas. */
  lemma {:induction false} SpecsAreLists(spec: string)
    ensures ValidPortSpec(spec) <==> exists items :: ItemList(items) && spec == Joined(items, ',')
  {
    if ValidPortSpec(spec) {
      ListOfPieces(spec, ',');
      assert ItemList(Tokens(spec));
    }
    forall items | ItemList(items) && spec == Joined(items, ',') ensures ValidPortSpec(spec) {
      ListIsSpec(items);
    }
  }

  lemma ListIsSpec(items: seq<string>)
    requires ItemList(items)
    ensures ValidPortSpec(Joined(items, ',')) && Tokens(Joined(items, ',')) == items
  {
    forall i | 0 <= i < |items| ensures items[i] != "" && ',' !in items[i] { ItemsAreNumbers(items[i]); }
    ListCharacters(items);
    hide ValidItem;
    ListsAreSeparated(items, ',');
    PiecesOfList(items, ',');
  }

  // ------------------------------------------------------------------- the bitmap

  /** 1 << k in eight bits. */
  function Mask(k: nat): (m: bv8)
    requires k < 8
  {
    if k == 0 then 1 else if k == 1 then 2 else if k == 2 then 4 else if k == 3 then 8
    else if k == 4 then 16 else if k == 5 then 32 else if k == 6 then 64 else 128
  }

  predicate Bit(b: bv8, k: nat)
    requires k < 8
  {
    b & Mask(k) != 0
  }

  lemma OrTest(b: bv8, m: bv8, n: bv8)
    requires m & n == 0
    ensures (b | m) & n == b & n
    ensures m != 0 ==> (b | m) & m != 0
  {
  }

  lemma MasksDiffer(i: nat, j: nat)
    requires i < 8 && j < 8 && i != j
    ensures Mask(i) & Mask(j) == 0
  {
  }

  lemma SetBit(b: bv8, i: nat, j: nat)
    requires i < 8 && j < 8
    ensures Bit(b | Mask(j), i) <==> Bit(b, i) || i == j
  {
    if i != j {
      MasksDiffer(j, i);
      OrTest(b, Mask(j), Mask(i));
    } else {
      assert Mask(i) != 0;
      OrTest(b, Mask(j), 0);
    }
  }

  /** The ports whose bits are set. */
  function PortsIn(bits: seq<bv8>): set<int>
    requires |bits| == MAP_BYTES
  {
    set p: int | 0 <= p <= PORT_MAX && Bit(bits[p / 8], p % 8)
  }

  lemma BitAfterSetting(bits: seq<bv8>, p: nat, q: nat)
    requires |bits| == MAP_BYTES && p <= PORT_MAX && q <= PORT_MAX
    ensures Bit(bits[p / 8 := bits[p / 8] | Mask(p % 8)][q / 8], q % 8) <==> Bit(bits[q / 8], q % 8) || q == p
  {
    hide Bit, Mask;
    if q / 8 == p / 8 { SetBit(bits[p / 8], q % 8, p % 8); }
  }

  lemma {:induction false} SettingAddsOnePort(bits: seq<bv8>, p: nat)
    requires |bits| == MAP_BYTES && p <= PORT_MAX
    ensures PortsIn(bits[p / 8 := bits[p / 8] | Mask(p % 8)]) == PortsIn(bits) + {p}
  {
    hide Bit, Mask;
    forall q: int | 0 <= q <= PORT_MAX
      ensures Bit(bits[p / 8 := bits[p / 8] | Mask(p % 8)][q / 8], q % 8) <==> Bit(bits[q / 8], q % 8) || q == p
    {
      BitAfterSetting(bits, p, q);
    }
  }

  lemma ZeroMapIsEmpty(bits: seq<bv8>)
    requires |bits| == MAP_BYTES && forall i | 0 <= i < MAP_BYTES :: bits[i] == 0
    ensures PortsIn(bits) == {}
  {
    forall q | 0 <= q <= PORT_MAX ensures !Bit(bits[q / 8], q % 8) {}
  }

  lemma EmptyTokens(max: nat)
    ensures PortsBefore([], max) == {} && AllParse([], max)
  {
  }

  /** The two ways one more token can go. */
  lemma NextToken(toks: seq<string>, i: nat, max: nat)
    requires i < |toks| && AllParse(toks[..i], max)
    ensures ParseItem(toks[i], max).None? ==> PortsBefore(toks, max) == PortsBefore(toks[..i], max) && !AllParse(toks, max)
    ensures var r := ParseItem(toks[i], max);
      r.Some? ==> AllParse(toks[..i + 1], max) && PortsBefore(toks[..i + 1], max) == PortsBefore(toks[..i], max) + PortSet(r.value)
  {
    assert toks == toks[..i] + toks[i..] && toks[..i + 1] == toks[..i] + [toks[i]];
    PortsBeforeConcat(toks[..i], toks[i..], max);
    PortsBeforeConcat(toks[..i], [toks[i]], max);
    OneToken(toks[i], max);
    hide ParseItem;
  }

  class Bitmap {
    var bits: array?<bv8>

    constructor ()
      ensures bits == null && Valid() && Ports() == {}
    {
      bits := null;
    }

    ghost predicate Valid()
      reads this
    {
      bits != null ==> bits.Length == MAP_BYTES
    }

    ghost function Ports(): set<int>
      requires Valid()
      reads this, bits
    {
      if bits == null then {} else PortsIn(bits[..])
    }

    /** What packet handling sees: no filter until something has been added. */
    ghost function View(): Option<set<int>>
      requires Valid()
      reads this, bits
    {
      if bits == null then None else Some(Ports())
    }

    method Get(p: nat) returns (found: bool)
      requires Valid() && p <= PORT_MAX
      ensures found == (p in Ports())
    {
      if bits == null { return false; }
      found := bits[p / 8] & Mask(p % 8) != 0;
      assert bits[..][p / 8] == bits[p / 8];
    }

    method Set(p: nat)
      requires Valid() && p <= PORT_MAX
      modifies bits
      ensures bits == null ==> Ports() == old(Ports())
      ensures bits != null ==> Ports() == old(Ports()) + {p}
    {
      if bits == null { return; }
      SettingAddsOnePort(bits[..], p);
      bits[p / 8] := bits[p / 8] | Mask(p % 8);
      assert bits[..] == old(bits[..])[p / 8 := old(bits[p / 8]) | Mask(p % 8)];
    }

    /** The inner loop over one range. */
    method SetRange(r: Range)
      requires Valid() && bits != null && r.first <= r.last <= PORT_MAX
      modifies bits
      ensures Ports() == old(Ports()) + PortSet(r)
    {
      hide PortsIn;
      var p := r.first;
      while p <= r.last
        invariant r.first <= p <= r.last + 1
        invariant Ports() == old(Ports()) + Span(r.first, p)
      {
        Set(p);
        p := p + 1;
      }
    }

    /** One token: parse it, allocate the map if this is the first good one, and fill its range. */
    method ParseToken(tok: string, max: nat, allocOk: bool) returns (ok: bool)
      requires Valid()
      modifies this, bits
      ensures Valid() && (old(bits) != null ==> bits == old(bits)) && (bits != old(bits) ==> fresh(bits))
      ensures ok <==> ParseItem(tok, max).Some? && (old(bits) != null || allocOk)
      ensures ok ==> bits != null && Ports() == old(Ports()) + PortSet(ParseItem(tok, max).value)
      ensures !ok ==> bits == old(bits) && Ports() == old(Ports())
    {
      hide PortsIn, PortSet;
      var r := ParseItem(tok, max);
      if r.None? { return false; }
      hide ParseItem;
      if bits == null {
        if !allocOk { return false; }
        bits := new bv8[MAP_BYTES](_ => 0);
        ZeroMapIsEmpty(bits[..]);
      }
      SetRange(r.value);
      ok := true;
    }

    /** Adds the ranges of the tokens one by one and stops at the first bad one. */
    method ParseTokens(toks: seq<string>, max: nat, allocOk: bool) returns (ok: bool)
      requires Valid()
      modifies this, bits
      ensures Valid() && (old(bits) != null ==> bits == old(bits)) && (bits != old(bits) ==> fresh(bits))
      ensures ok <==> AllParse(toks, max) && (toks == [] || old(bits) != null || allocOk)
      ensures old(bits) == null && !allocOk ==> bits == null
      ensures old(bits) != null || allocOk ==> Ports() == old(Ports()) + PortsBefore(toks, max)
      ensures ok && toks != [] ==> bits != null
      ensures toks == [] ==> bits == old(bits)
    {
      EmptyTokens(max);
      hide ParseItem, PortsIn, PortSet, PortsBefore, AllParse;
      var i := 0;
      assert toks[..0] == [];
      while i < |toks|
        invariant 0 <= i <= |toks| && Valid()
        invariant old(bits) != null ==> bits == old(bits)
        invariant bits != old(bits) ==> fresh(bits)
        invariant i > 0 ==> bits != null && (old(bits) != null || allocOk)
        invariant i == 0 ==> bits == old(bits)
        invariant AllParse(toks[..i], max)
        invariant Ports() == old(Ports()) + PortsBefore(toks[..i], max)
      {
        NextToken(toks, i, max);
        ok := ParseToken(toks[i], max, allocOk);
        if !ok { return; }
        i := i + 1;
      }
      assert toks[..i] == toks;
      ok := true;
    }

    /** On success the filter gains exactly the union of the listed ranges; on failure only the ranges
        of the tokens before the bad one. */
    method Parse(spec: string, max: nat, allocOk: bool) returns (ok: bool)
      requires Valid()
      modifies this, bits
      ensures Valid() && (old(bits) != null ==> bits == old(bits)) && (bits != old(bits) ==> fresh(bits))
      ensures ok <==> spec != "" && AllParse(Tokens(spec), max) && (Tokens(spec) == [] || old(bits) != null || allocOk)
      ensures Ports() == old(Ports()) + (if old(bits) == null && !allocOk then {} else PortsBefore(Tokens(spec), max))
      ensures ok && Tokens(spec) != [] ==> bits != null
      ensures Tokens(spec) == [] ==> bits == old(bits)
    {
      if spec == "" { return false; }
      hide ParseItem, PortsIn, PortSet, Tokens, PortsBefore, AllParse;
      ok := ParseTokens(Tokens(spec), max, allocOk);
    }
  }

  lemma OneToken(tok: string, max: nat)
    ensures PortsBefore([tok], max) == if ParseItem(tok, max).Some? then PortSet(ParseItem(tok, max).value) else {}
  {
    assert [tok][1..] == [];
  }

  lemma {:induction false} NoPieces(s: string)
    ensures Tokens(s) == [] <==> forall i | 0 <= i < |s| :: s[i] == ','
  {
    if s != "" && s[0] == ',' {
      NoPieces(s[1..]);
      assert forall i | 0 < i < |s| :: s[i] == s[1..][i - 1];
      assert Tokens(s) == [] + Tokens(s[1..]) == Tokens(s[1..]);
    }
  }

  /** Which nonempty specifications are accepted and yet add no port, so that a filter without a map
      stays without one: those of commas only. */
  lemma {:induction false} AcceptedWithoutPorts(spec: string, max: nat)
    requires spec != "" && AllParse(Tokens(spec), max)
    ensures PortsBefore(Tokens(spec), max) == {} <==> forall i | 0 <= i < |spec| :: spec[i] == ','
  {
    NoPieces(spec);
    var toks := Tokens(spec);
    hide Tokens;
    if toks != [] {
      var r := ParseItem(toks[0], max).value;
      assert r.first in PortSet(r);
    }
  }
}
