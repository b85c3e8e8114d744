/** FakeSIP's configuration: the shell's validation, the command line it assembles, and what the
    packet program makes of that command line. */
module FakeSipConfig {
  import opened Common
  import opened Text
  import opened Numerals
  import opened PortMap
  import opened SipUri
  import opened Options

  /** The option values as the shell reads them; yes/no options arrive as 0 or 1. */
  datatype Config = Config(interfaceMode: string, interfaces: seq<string>, direction: string, family: string, portMode: string,
                           ports: string, payloadMode: string, sipUri: string, repeat: string, ttl: string, hop: bool, pct: string,
                           queue: string, mark: string, mask: string, log: bool)

  /** What validation looks up outside the configuration. */
  datatype World = World(existing: set<string>, siblingEnabled: bool, siblingQueue: string)

  // ------------------------------------------------------------------- validation

  predicate UsableInterface(name: string, w: World) {
    ValidInterface(name) && name in w.existing
  }

  /** Empty entries are skipped; every other one must be usable, and one must remain. */
  predicate ValidInterfaces(names: seq<string>, w: World) {
    && (forall i | 0 <= i < |names| :: names[i] == "" || UsableInterface(names[i], w))
    && exists i :: 0 <= i < |names| && names[i] != ""
  }

  predicate ValidPorts(c: Config) {
    || c.portMode == "all"
    || ((c.portMode == "include" || c.portMode == "exclude") && ValidPortSpec(c.ports))
  }

  predicate ValidPayload(c: Config) {
    c.payloadMode == "auto" || (c.payloadMode == "custom_uri" && ValidSipUri(c.sipUri))
  }

  predicate ValidNumbers(c: Config) {
    && ValidUint(c.repeat, 1, 10) && ValidUint(c.ttl, 1, 255)
    && (c.pct == "0" || ValidUint(c.pct, 1, 99)) && (!c.hop ==> c.pct == "0")
    && ValidUint(c.queue, 1, 65535)
    && ValidU32(c.mark) && ValidU32(c.mask)
    && (ValidU32Range(c.mark); ValidU32Range(c.mask); MarkFits(Number32(c.mark), Number32(c.mask)))
  }

  /** The queue is not the one an enabled sibling service uses. */
  predicate QueueFree(c: Config, w: World) {
    w.siblingEnabled && ValidUint(c.queue, 1, 65535) && ValidUint(w.siblingQueue, 1, 65535)
    ==> Decimal(c.queue) != Decimal(w.siblingQueue)
  }

  predicate ValidChoices(c: Config) {
    && c.interfaceMode == "selected"
    && (c.direction == "inbound" || c.direction == "outbound" || c.direction == "both")
    && (c.family == "ipv4" || c.family == "ipv6" || c.family == "dual")
  }

  predicate ValidConfig(c: Config, w: World) {
    ValidChoices(c) && ValidInterfaces(c.interfaces, w) && ValidPorts(c) && ValidPayload(c) && ValidNumbers(c) && QueueFree(c, w)
  }

  // ------------------------------------------------------------------- assembly

  /** The names in order of first appearance, without the empty ones. */
  function Distinct(names: seq<string>): (r: seq<string>)
    ensures forall x: string :: x in r <==> x in names && x != ""
    ensures forall i, j | 0 <= i < j < |r| :: r[i] != r[j]
  {
    if names == [] then []
    else
      var init, last := Distinct(names[..|names| - 1]), names[|names| - 1];
      if last == "" || last in init then init else init + [last]
  }

  /** One word per flag, two per option with a value. */
  function Words(ds: seq<Delivered>): seq<string> {
    if ds == [] then []
    else
      (match ds[0]
       case Flag(c) => ["-" + [c]]
       case With(c, v) => ["-" + [c], v]
       case Bad => []) + Words(ds[1..])
  }

  function NameOptions(names: seq<string>): seq<Delivered> {
    seq(|names|, i requires 0 <= i < |names| => With('i', names[i]))
  }

  function DirectionFlags(c: Config): seq<char> {
    if c.direction == "inbound" then ['1'] else if c.direction == "outbound" then ['0'] else ['0', '1']
  }

  function FamilyFlags(c: Config): seq<char> {
    if c.family == "ipv4" then ['4'] else if c.family == "ipv6" then ['6'] else ['4', '6']
  }

  function Flags(cs: seq<char>): seq<Delivered> {
    seq(|cs|, i requires 0 <= i < |cs| => Flag(cs[i]))
  }

  function PortOptions(c: Config): seq<Delivered> {
    if c.portMode == "include" then [With('p', c.ports)] else if c.portMode == "exclude" then [With('P', c.ports)] else []
  }

  function PayloadOptions(c: Config): seq<Delivered> {
    if c.payloadMode == "custom_uri" then [With('u', c.sipUri)] else []
  }

  function NumberOptions(c: Config): seq<Delivered> {
    [With('r', c.repeat), With('t', c.ttl), With('n', c.queue), With('m', c.mark), With('x', c.mask)]
  }

  function TailOptions(c: Config): seq<Delivered> {
    (if c.hop then [] else [Flag('g')]) + (if c.pct == "0" then [] else [With('y', c.pct)]) + (if c.log then [] else [Flag('s')])
  }

  /** The options in the order in which the script appends them. */
  function OptionList(c: Config): seq<Delivered> {
    NameOptions(Distinct(c.interfaces)) + (Flags(DirectionFlags(c) + FamilyFlags(c)) + (PortOptions(c) + (PayloadOptions(c)
    + (NumberOptions(c) + TailOptions(c)))))
  }

  // ------------------------------------------------------------------- what the options should mean

  function FlagsMeant(c: Config): set<char> {
    (if c.direction == "outbound" then {} else {'1'}) + (if c.direction == "inbound" then {} else {'0'})
    + (if c.family == "ipv6" then {} else {'4'}) + (if c.family == "ipv4" then {} else {'6'})
    + (if c.hop then {} else {'g'}) + (if c.log then {} else {'s'})
  }

  /** The program's context, read off the configuration with decimal and hexadecimal numbers as written. */
  function Meant(c: Config): Context {
    Context(FlagsMeant(c),
            Numbers(Number32(c.mark), Number32(c.mask), Decimal(c.queue), Decimal(c.repeat), Decimal(c.ttl),
                    if c.pct == "0" then 0 else Decimal(c.pct)),
            None,
            Distinct(c.interfaces),
            [Sip(if c.payloadMode == "custom_uri" then Some(c.sipUri) else None)],
            if c.portMode == "include" then Some(SpecMeaning(Tokens(c.ports))) else None,
            if c.portMode == "exclude" then Some(SpecMeaning(Tokens(c.ports))) else None)
  }

  // ------------------------------------------------------------------- getopt reads the words back

  predicate Proper(d: Delivered) {
    (d.Flag? && IsFlag(d.c)) || (d.With? && TakesValue(d.c) && !IsFlag(d.c))
  }

  predicate AllProper(ds: seq<Delivered>) {
    forall i | 0 <= i < |ds| :: Proper(ds[i])
  }

  /** Whatever the values look like, empty or starting with a dash, they come back as they were. */
  lemma {:induction false} GetoptReadsWords(ds: seq<Delivered>)
    requires AllProper(ds)
    ensures Getopt(Words(ds)) == ds
  {
    if ds != [] {
      GetoptReadsWords(ds[1..]);
      var argv, rest := Words(ds), Words(ds[1..]);
      var d := ds[0];
      assert Proper(d);
      var word := argv[0];
      assert |word| == 2 && word[1] == d.c && word != "--";
      if d.Flag? {
        assert argv[1..] == rest;
        assert Cluster(word, 2, rest) == Getopt(rest);
      } else {
        assert argv[1..] == [d.value] + rest && argv[1..][1..] == rest;
      }
    }
  }

  // ------------------------------------------------------------------- running the option list

  lemma {:induction false} RunConcat(c: Context, a: seq<Delivered>, b: seq<Delivered>, max: nat)
    ensures Run(c, a + b, max) == if Run(c, a, max).Some? then Run(Run(c, a, max).value, b, max) else None
    decreases |a|
  {
    hide Step;
    if a == [] {
      assert a + b == b;
    } else {
      assert (a + b)[1..] == a[1..] + b;
      if Step(c, a[0], max).Some? { RunConcat(Step(c, a[0], max).value, a[1..], b, max); }
    }
  }

  lemma {:induction false} RunNames(c: Context, names: seq<string>, max: nat)
    requires forall i | 0 <= i < |names| :: 0 < |names[i]| <= NAME_MAX
    ensures Run(c, NameOptions(names), max) == Some(c.(ifaces := c.ifaces + names))
    decreases |names|
  {
    var ds := NameOptions(names);
    if names == [] {
      assert c.ifaces + names == c.ifaces;
    } else {
      assert ds[1..] == NameOptions(names[1..]);
      var next := c.(ifaces := c.ifaces + [names[0]]);
      RunNames(next, names[1..], max);
      assert c.ifaces + [names[0]] + names[1..] == c.ifaces + names;
    }
  }

  function AsSet(cs: seq<char>): set<char> {
    set x | x in cs
  }

  lemma {:induction false} RunFlags(c: Context, cs: seq<char>, max: nat)
    ensures Run(c, Flags(cs), max) == Some(c.(flags := c.flags + AsSet(cs)))
    decreases |cs|
  {
    var ds := Flags(cs);
    if cs == [] {
      assert c.flags + AsSet(cs) == c.flags;
    } else {
      assert ds[1..] == Flags(cs[1..]);
      RunFlags(c.(flags := c.flags + {cs[0]}), cs[1..], max);
      assert AsSet(cs) == {cs[0]} + AsSet(cs[1..]);
      assert c.flags + {cs[0]} + AsSet(cs[1..]) == c.flags + AsSet(cs);
    }
  }

  lemma RunOne(c: Context, d: Delivered, max: nat)
    ensures Run(c, [d], max) == Step(c, d, max)
  {
    hide Step;
    assert [d][1..] == [];
  }

  lemma RunPorts(c: Config, x: Context, max: nat)
    requires ValidPorts(c) && max >= PORT_MAX && x.white == None && x.black == None
    ensures Run(x, PortOptions(c), max)
         == Some(x.(white := if c.portMode == "include" then Some(SpecMeaning(Tokens(c.ports))) else None,
                    black := if c.portMode == "exclude" then Some(SpecMeaning(Tokens(c.ports))) else None))
  {
    hide Tokens, ValidPortSpec, SpecMeaning, PortsBefore, AllParse;
    if c.portMode != "all" {
      SpecAgrees(c.ports, max);
      NonEmptySpec(c.ports);
      RunOne(x, PortOptions(c)[0], max);
      assert {} + SpecMeaning(Tokens(c.ports)) == SpecMeaning(Tokens(c.ports));
    }
  }

  lemma NonEmptySpec(spec: string)
    requires ValidPortSpec(spec)
    ensures spec != ""
  {
  }

  lemma RunPayload(c: Config, x: Context, max: nat)
    requires ValidPayload(c) && x.payloads == []
    ensures Run(x, PayloadOptions(c), max)
         == Some(x.(payloads := if c.payloadMode == "custom_uri" then [Sip(Some(c.sipUri))] else []))
  {
    if c.payloadMode == "custom_uri" {
      assert c.sipUri != "";
      RunOne(x, PayloadOptions(c)[0], max);
      assert [] + [Sip(Some(c.sipUri))] == [Sip(Some(c.sipUri))];
    }
  }

  /** A number the shell accepts is accepted with the value it is written to have. */
  lemma StepUint(x: Context, l: char, text: string, limit: nat, max: nat)
    requires Numeric(l) && limit <= Limit(l) && ValidUint(text, 1, limit)
    ensures Step(x, With(l, text), max) == Some(x.(n := NumberSet(x.n, l, Decimal(text))))
  {
    ReadsCanonical(text, U64_MAX);
  }

  lemma StepU32(x: Context, l: char, text: string, max: nat)
    requires (l == 'm' || l == 'x') && ValidU32(text)
    ensures Step(x, With(l, text), max) == Some(x.(n := NumberSet(x.n, l, Number32(text))))
  {
    ReadsValidU32(text, U64_MAX);
    ValidU32Range(text);
    hide Number32, ValidU32, Strtoul;
  }

  lemma RunNumbers(c: Config, x: Context, max: nat)
    requires ValidNumbers(c)
    ensures Run(x, NumberOptions(c), max)
         == Some(x.(n := Numbers(Number32(c.mark), Number32(c.mask), Decimal(c.queue), Decimal(c.repeat), Decimal(c.ttl), x.n.pct)))
  {
    hide ValidU32, Number32, MarkFits, ValidUint, Step, Number, Decimal;
    var ds := NumberOptions(c);
    StepUint(x, 'r', c.repeat, 10, max);
    var x1 := Step(x, ds[0], max).value;
    StepUint(x1, 't', c.ttl, 255, max);
    var x2 := Step(x1, ds[1], max).value;
    StepUint(x2, 'n', c.queue, 65535, max);
    var x3 := Step(x2, ds[2], max).value;
    StepU32(x3, 'm', c.mark, max);
    var x4 := Step(x3, ds[3], max).value;
    StepU32(x4, 'x', c.mask, max);
    assert ds == [ds[0]] + ([ds[1]] + ([ds[2]] + ([ds[3]] + [ds[4]])));
    RunOne(x, ds[0], max);
    RunOne(x1, ds[1], max);
    RunOne(x2, ds[2], max);
    RunOne(x3, ds[3], max);
    RunOne(x4, ds[4], max);
    RunConcat(x3, [ds[3]], [ds[4]], max);
    RunConcat(x2, [ds[2]], [ds[3]] + [ds[4]], max);
    RunConcat(x1, [ds[1]], [ds[2]] + ([ds[3]] + [ds[4]]), max);
    RunConcat(x, [ds[0]], [ds[1]] + ([ds[2]] + ([ds[3]] + [ds[4]])), max);
  }

  lemma RunTail(c: Config, x: Context, max: nat)
    requires ValidNumbers(c) && x.n.pct == 0
    ensures Run(x, TailOptions(c), max)
         == Some(x.(flags := x.flags + (if c.hop then {} else {'g'}) + (if c.log then {} else {'s'}),
                    n := x.n.(pct := if c.pct == "0" then 0 else Decimal(c.pct))))
  {
    hide ValidU32, Number32, MarkFits, ValidUint, Number, Decimal;
    var a := if c.hop then [] else [Flag('g')];
    var b := if c.pct == "0" then [] else [With('y', c.pct)];
    var d := if c.log then [] else [Flag('s')];
    assert TailOptions(c) == a + (b + d);
    var x1 := x.(flags := x.flags + if c.hop then {} else {'g'});
    assert Run(x, a, max) == Some(x1) by {
      if c.hop { assert x.flags + {} == x.flags; } else { RunOne(x, Flag('g'), max); }
    }
    var x2 := x1.(n := x1.n.(pct := if c.pct == "0" then 0 else Decimal(c.pct)));
    assert Run(x1, b, max) == Some(x2) by {
      if c.pct != "0" {
        StepUint(x1, 'y', c.pct, 99, max);
        RunOne(x1, With('y', c.pct), max);
      }
    }
    RunConcat(x, a, b + d, max);
    RunConcat(x1, b, d, max);
    if c.log { assert x2.flags + {} == x2.flags; } else { RunOne(x2, Flag('s'), max); }
  }

  /** The context after the option loop: the meaning, but for the payload that is filled in later. */
  function BeforeSettling(c: Config): Context {
    Meant(c).(payloads := if c.payloadMode == "custom_uri" then [Sip(Some(c.sipUri))] else [])
  }

  lemma NamesFitOptions(c: Config, w: World)
    requires ValidInterfaces(c.interfaces, w)
    ensures forall i | 0 <= i < |Distinct(c.interfaces)| :: 0 < |Distinct(c.interfaces)[i]| <= NAME_MAX
    ensures Distinct(c.interfaces) != []
  {
    forall i | 0 <= i < |Distinct(c.interfaces)| ensures 0 < |Distinct(c.interfaces)[i]| <= NAME_MAX {
      assert Distinct(c.interfaces)[i] in c.interfaces;
    }
    var i :| 0 <= i < |c.interfaces| && c.interfaces[i] != "";
    assert c.interfaces[i] in Distinct(c.interfaces);
  }

  lemma FlagsMatch(c: Config)
    requires ValidChoices(c)
    ensures {} + AsSet(DirectionFlags(c) + FamilyFlags(c)) + (if c.hop then {} else {'g'}) + (if c.log then {} else {'s'})
         == FlagsMeant(c)
  {
    var cs := DirectionFlags(c) + FamilyFlags(c);
    assert forall x :: x in AsSet(cs) <==> x in DirectionFlags(c) || x in FamilyFlags(c);
  }

  lemma RunOptionList(c: Config, w: World, max: nat)
    requires ValidConfig(c, w) && max >= PORT_MAX
    ensures Run(START, OptionList(c), max) == Some(BeforeSettling(c))
  {
    hide Run, ValidInterfaces, ValidPorts, ValidPayload, ValidNumbers, Distinct, AsSet, FlagsMeant, DirectionFlags, FamilyFlags,
         NameOptions, Flags, PortOptions, PayloadOptions, NumberOptions, TailOptions, Tokens, SpecMeaning, Number32, Decimal;
    NamesFitOptions(c, w);
    FlagsMatch(c);
    var names := Distinct(c.interfaces);
    var flags := DirectionFlags(c) + FamilyFlags(c);
    RunNames(START, names, max);
    assert START.ifaces + names == names;
    var x1 := START.(ifaces := names);
    RunFlags(x1, flags, max);
    var x2 := x1.(flags := {} + AsSet(flags));
    RunPorts(c, x2, max);
    var x3 := Run(x2, PortOptions(c), max).value;
    RunPayload(c, x3, max);
    var x4 := Run(x3, PayloadOptions(c), max).value;
    RunNumbers(c, x4, max);
    var x5 := Run(x4, NumberOptions(c), max).value;
    RunTail(c, x5, max);
    var e := NumberOptions(c) + TailOptions(c);
    RunConcat(x4, NumberOptions(c), TailOptions(c), max);
    RunConcat(x3, PayloadOptions(c), e, max);
    RunConcat(x2, PortOptions(c), PayloadOptions(c) + e, max);
    RunConcat(x1, Flags(flags), PortOptions(c) + (PayloadOptions(c) + e), max);
    RunConcat(START, NameOptions(names), Flags(flags) + (PortOptions(c) + (PayloadOptions(c) + e)), max);
  }

  lemma SettlesToMeant(c: Config, w: World)
    requires ValidConfig(c, w)
    ensures InRange(BeforeSettling(c).n) && Settle(BeforeSettling(c)) == Some(Meant(c))
  {
    NamesFitOptions(c, w);
    ValidU32Range(c.mark);
    ValidU32Range(c.mask);
    hide ValidU32, Number32, MarkFits, Distinct, ValidInterfaces, ValidPorts, ValidPayload, Tokens, SpecMeaning, Decimal;
    var f := FlagsMeant(c);
    assert ('0' in f || '1' in f) && ('4' in f || '6' in f);
  }

  lemma ListIsProper(c: Config)
    ensures AllProper(OptionList(c))
  {
    var names, cs := NameOptions(Distinct(c.interfaces)), Flags(DirectionFlags(c) + FamilyFlags(c));
    assert AllProper(names);
    assert AllProper(cs);
    assert AllProper(PortOptions(c)) && AllProper(PayloadOptions(c)) && AllProper(NumberOptions(c)) && AllProper(TailOptions(c));
    hide Distinct, Proper;
    var rest := PortOptions(c) + (PayloadOptions(c) + (NumberOptions(c) + TailOptions(c)));
    assert AllProper(cs + rest);
  }

  /** Every configuration the shell validates yields a command line that the program accepts past
      all its checks, and with the meaning the configuration was written to have; `max` is the
      largest unsigned long of the platform. */
  lemma {:induction false} ValidatedIsAccepted(c: Config, w: World, max: nat)
    requires ValidConfig(c, w) && max >= PORT_MAX
    ensures Accept(Words(OptionList(c)), max) == Accepted(Meant(c))
  {
    hide ValidConfig, Run, Settle, Getopt, InRange;
    ListIsProper(c);
    GetoptReadsWords(OptionList(c));
    RunOptionList(c, w, max);
    SettlesToMeant(c, w);
    assert |OptionList(c)| >= |NumberOptions(c)| > 0;
  }

  // ------------------------------------------------------------------- the shell functions

  /** Walks the interface list: `valid` drops on an unusable entry, `names` gathers the distinct usable ones. */
  method CheckInterfaces(interfaces: seq<string>, w: World) returns (valid: bool, names: seq<string>)
    ensures valid && names != [] <==> ValidInterfaces(interfaces, w)
    ensures valid ==> names == Distinct(interfaces)
  {
    valid, names := true, [];
    var i := 0;
    while i < |interfaces|
      invariant 0 <= i <= |interfaces|
      invariant valid <==> forall j | 0 <= j < i :: interfaces[j] == "" || UsableInterface(interfaces[j], w)
      invariant valid ==> names == Distinct(interfaces[..i])
    {
      var iface := interfaces[i];
      assert interfaces[..i + 1][..i] == interfaces[..i];
      if iface != "" {
        if !UsableInterface(iface, w) {
          valid := false;
        } else if iface !in names {
          names := names + [iface];
        }
      }
      i := i + 1;
    }
    assert interfaces[..i] == interfaces;
    if valid && names != [] { assert names[0] in Distinct(interfaces); }
    if j :| 0 <= j < |interfaces| && interfaces[j] != "" { assert interfaces[j] in Distinct(interfaces); }
  }

  /** All checks are made; any failure makes the configuration invalid. */
  method Validate(c: Config, w: World) returns (ok: bool)
    ensures ok <==> ValidConfig(c, w)
  {
    hide ValidInterfaces, ValidPortSpec, ValidSipUri;
    ok := c.interfaceMode == "selected";
    var valid, names := CheckInterfaces(c.interfaces, w);
    if !valid || names == [] { ok := false; }
    if !(c.direction == "inbound" || c.direction == "outbound" || c.direction == "both") { ok := false; }
    if !(c.family == "ipv4" || c.family == "ipv6" || c.family == "dual") { ok := false; }
    if c.portMode == "include" || c.portMode == "exclude" {
      var portsOk := CheckPortSpec(c.ports);
      if !portsOk { ok := false; }
    } else if c.portMode != "all" {
      ok := false;
    }
    if c.payloadMode == "custom_uri" {
      if !ValidSipUri(c.sipUri) { ok := false; }
    } else if c.payloadMode != "auto" {
      ok := false;
    }
    var numbersOk := CheckNumbers(c);
    if !numbersOk { ok := false; }
    if w.siblingEnabled {
      var mine := ValidUintRange(c.queue, 1, 65535);
      var theirs := ValidUintRange(w.siblingQueue, 1, 65535);
      if mine && theirs && Decimal(c.queue) == Decimal(w.siblingQueue) { ok := false; }
    }
  }

  method CheckNumbers(c: Config) returns (ok: bool)
    ensures ok <==> ValidNumbers(c)
  {
    hide ValidUint, MarkFits, Number32;
    ok := ValidUintRange(c.repeat, 1, 10);
    var ttlOk := ValidUintRange(c.ttl, 1, 255);
    if !ttlOk { ok := false; }
    if c.pct != "0" {
      var pctOk := ValidUintRange(c.pct, 1, 99);
      if !pctOk { ok := false; }
    }
    if !c.hop && c.pct != "0" { ok := false; }
    var queueOk := ValidUintRange(c.queue, 1, 65535);
    if !queueOk { ok := false; }
    if ValidU32(c.mark) && ValidU32(c.mask) {
      ValidU32Range(c.mark);
      ValidU32Range(c.mask);
      if !MarkFits(Number32(c.mark), Number32(c.mask)) { ok := false; }
    } else {
      ok := false;
    }
  }

  lemma {:induction false} WordsConcat(a: seq<Delivered>, b: seq<Delivered>)
    ensures Words(a + b) == Words(a) + Words(b)
  {
    if a == [] {
      assert a + b == b;
    } else {
      assert (a + b)[1..] == a[1..] + b;
      WordsConcat(a[1..], b);
    }
  }

  /** Appends "-i" and the name for each interface not yet appended. */
  method AppendInterfaces(interfaces: seq<string>) returns (argv: seq<string>)
    ensures argv == Words(NameOptions(Distinct(interfaces)))
  {
    argv := [];
    var appended := [];
    var i := 0;
    while i < |interfaces|
      invariant 0 <= i <= |interfaces| && appended == Distinct(interfaces[..i])
      invariant argv == Words(NameOptions(appended))
    {
      var iface := interfaces[i];
      assert interfaces[..i + 1][..i] == interfaces[..i];
      if iface != "" && iface !in appended {
        WordsConcat(NameOptions(appended), [With('i', iface)]);
        assert NameOptions(appended + [iface]) == NameOptions(appended) + [With('i', iface)];
        assert Words([With('i', iface)]) == ["-i", iface] by {
          assert [With('i', iface)][1..] == [];
          assert "-" + ['i'] == "-i";
        }
        argv := argv + ["-i", iface];
        appended := appended + [iface];
      }
      i := i + 1;
    }
    assert interfaces[..i] == interfaces;
  }

  lemma WordsOfOne(c: char, v: string)
    ensures Words([With(c, v)]) == ["-" + [c], v]
    ensures Words([Flag(c)]) == ["-" + [c]]
    ensures Words([]) == []
  {
    assert [With(c, v)][1..] == [] && [Flag(c)][1..] == [];
  }

  lemma WordsOfFlags(cs: seq<char>)
    ensures |cs| == 1 ==> Words(Flags(cs)) == ["-" + [cs[0]]]
    ensures |cs| == 2 ==> Words(Flags(cs)) == ["-" + [cs[0]], "-" + [cs[1]]]
  {
    if |cs| == 1 {
      WordsOfOne(cs[0], "");
      assert Flags(cs) == [Flag(cs[0])];
    } else if |cs| == 2 {
      WordsOfOne(cs[0], "");
      WordsOfOne(cs[1], "");
      WordsConcat([Flag(cs[0])], [Flag(cs[1])]);
      assert Flags(cs) == [Flag(cs[0])] + [Flag(cs[1])];
    }
  }

  /** The rest of the command line, in the order of the script. */
  method AppendOptions(c: Config) returns (argv: seq<string>)
    requires ValidChoices(c) && (c.portMode == "include" || c.portMode == "exclude" || c.portMode == "all")
    ensures argv == Words(Flags(DirectionFlags(c))) + Words(Flags(FamilyFlags(c))) + Words(PortOptions(c)) + Words(PayloadOptions(c))
  {
    argv := [];
    WordsOfFlags(DirectionFlags(c));
    WordsOfFlags(FamilyFlags(c));
    WordsOfOne('p', c.ports);
    WordsOfOne('P', c.ports);
    WordsOfOne('u', c.sipUri);
    assert "-" + ['0'] == "-0" && "-" + ['1'] == "-1" && "-" + ['4'] == "-4" && "-" + ['6'] == "-6";
    assert "-" + ['p'] == "-p" && "-" + ['P'] == "-P" && "-" + ['u'] == "-u";
    hide Words, Flags;
    if c.direction == "inbound" {
      argv := argv + ["-1"];
    } else if c.direction == "outbound" {
      argv := argv + ["-0"];
    } else {
      argv := argv + ["-0", "-1"];
    }
    assert argv == Words(Flags(DirectionFlags(c)));
    if c.family == "ipv4" {
      argv := argv + ["-4"];
    } else if c.family == "ipv6" {
      argv := argv + ["-6"];
    } else {
      argv := argv + ["-4", "-6"];
    }
    if c.portMode == "include" {
      argv := argv + ["-p", c.ports];
    } else if c.portMode == "exclude" {
      argv := argv + ["-P", c.ports];
    }
    if c.payloadMode == "custom_uri" {
      argv := argv + ["-u", c.sipUri];
    }
  }

  lemma WordsOfNumbers(c: Config)
    ensures Words(NumberOptions(c)) == ["-r", c.repeat, "-t", c.ttl, "-n", c.queue, "-m", c.mark, "-x", c.mask]
  {
    hide Words;
    var ds := NumberOptions(c);
    assert "-" + ['r'] == "-r" && "-" + ['t'] == "-t" && "-" + ['n'] == "-n" && "-" + ['m'] == "-m" && "-" + ['x'] == "-x";
    WordsOfOne('r', c.repeat);
    WordsOfOne('t', c.ttl);
    WordsOfOne('n', c.queue);
    WordsOfOne('m', c.mark);
    WordsOfOne('x', c.mask);
    WordsConcat([ds[0]], [ds[1]]);
    WordsConcat([ds[0], ds[1]], [ds[2]]);
    WordsConcat([ds[0], ds[1], ds[2]], [ds[3]]);
    WordsConcat([ds[0], ds[1], ds[2], ds[3]], [ds[4]]);
    assert [ds[0]] + [ds[1]] == [ds[0], ds[1]] && [ds[0], ds[1]] + [ds[2]] == [ds[0], ds[1], ds[2]];
    assert [ds[0], ds[1], ds[2]] + [ds[3]] == [ds[0], ds[1], ds[2], ds[3]] && [ds[0], ds[1], ds[2], ds[3]] + [ds[4]] == ds;
  }

  method AppendTail(c: Config) returns (argv: seq<string>)
    ensures argv == Words(TailOptions(c))
  {
    argv := [];
    WordsOfOne('g', "");
    WordsOfOne('y', c.pct);
    WordsOfOne('s', "");
    assert "-" + ['g'] == "-g" && "-" + ['y'] == "-y" && "-" + ['s'] == "-s";
    var a := if c.hop then [] else [Flag('g')];
    var b := if c.pct == "0" then [] else [With('y', c.pct)];
    WordsConcat(a, b);
    WordsConcat(a + b, if c.log then [] else [Flag('s')]);
    hide Words;
    if !c.hop { argv := argv + ["-g"]; }
    if c.pct != "0" { argv := argv + ["-y", c.pct]; }
    if !c.log { argv := argv + ["-s"]; }
  }

  /** The whole command line, without the program name. */
  method Assemble(c: Config, w: World) returns (argv: seq<string>)
    requires ValidConfig(c, w)
    ensures argv == Words(OptionList(c))
  {
    argv := AppendInterfaces(c.interfaces);
    var options := AppendOptions(c);
    argv := argv + options + ["-r", c.repeat, "-t", c.ttl, "-n", c.queue, "-m", c.mark, "-x", c.mask];
    var tail := AppendTail(c);
    argv := argv + tail;
    WordsOfNumbers(c);
    ListOfWords(c);
  }

  lemma Regroup<T>(a: seq<T>, b: seq<T>, c: seq<T>, d: seq<T>, e: seq<T>, f: seq<T>, g: seq<T>)
    ensures a + ((b + c) + (d + (e + (f + g)))) == a + (b + c + d + e) + f + g
  {
  }

  lemma ListOfWords(c: Config)
    ensures Words(OptionList(c)) == Words(NameOptions(Distinct(c.interfaces))) + (Words(Flags(DirectionFlags(c)))
      + Words(Flags(FamilyFlags(c))) + Words(PortOptions(c)) + Words(PayloadOptions(c)))
      + Words(NumberOptions(c)) + Words(TailOptions(c))
  {
    var names, d, f := NameOptions(Distinct(c.interfaces)), Flags(DirectionFlags(c)), Flags(FamilyFlags(c));
    var p, u, n, t := PortOptions(c), PayloadOptions(c), NumberOptions(c), TailOptions(c);
    assert Flags(DirectionFlags(c) + FamilyFlags(c)) == d + f;
    hide Words, NameOptions, Flags, PortOptions, PayloadOptions, NumberOptions, TailOptions, Distinct, DirectionFlags, FamilyFlags;
    Regroup(Words(names), Words(d), Words(f), Words(p), Words(u), Words(n), Words(t));
    WordsConcat(names, d + f + (p + (u + (n + t))));
    WordsConcat(d + f, p + (u + (n + t)));
    WordsConcat(d, f);
    WordsConcat(p, u + (n + t));
    WordsConcat(u, n + t);
    WordsConcat(n, t);
  }

  // ------------------------------------------------------------------- the shipped defaults

  const DEFAULT_CONFIG := Config("selected", ["eth0"], "outbound", "dual", "exclude", "53", "auto", "", "2", "3", true, "0", "8971",
                                 "0x10000", "0x10000", false)

  lemma SmallNumbers()
    ensures Decimal("2") == 2 && Decimal("3") == 3 && Decimal("53") == 53
  {
    assert "2"[..0] == "" && "3"[..0] == "" && "53"[..1] == "5" && "5"[..0] == "";
    assert Value("", 10) == 0;
    assert Value("5", 10) == 5;
  }

  lemma QueueNumber()
    ensures Decimal("8971") == 8971
  {
    assert "8971"[..3] == "897" && "897"[..2] == "89" && "89"[..1] == "8" && "8"[..0] == "";
    assert Value("", 10) == 0;
    assert Value("8", 10) == 8;
    assert Value("89", 10) == 89;
    assert Value("897", 10) == 897;
  }

  lemma MarkNumber()
    ensures Number32("0x10000") == 0x10000 && ValidU32("0x10000")
  {
    assert "0x10000"[2..] == "10000";
    assert "10000"[..4] == "1000" && "1000"[..3] == "100" && "100"[..2] == "10" && "10"[..1] == "1" && "1"[..0] == "";
    assert Value("", 16) == 0;
    assert Value("1", 16) == 1;
    assert Value("10", 16) == 16;
    assert Value("100", 16) == 256;
    assert Value("1000", 16) == 4096;
  }

  lemma DefaultPorts()
    ensures ValidPortSpec("53") && Tokens("53") == ["53"]
  {
    SmallNumbers();
    hide Value;
    assert IndexOf("53", ',') == 2 && IndexOf("53", '-') == 2;
    assert "53"[..2] == "53";
    assert Pieces("53", ',') == ["53"];
  }

  /** The shipped defaults, with one existing device, are valid. */
  lemma DefaultsAreValid(w: World)
    requires "eth0" in w.existing && !w.siblingEnabled
    ensures ValidConfig(DEFAULT_CONFIG, w)
  {
    SmallNumbers();
    QueueNumber();
    MarkNumber();
    DefaultPorts();
    MarkFitsItself(0x10000);
    hide Decimal, Number32, ValidU32, MarkFits, ValidPortSpec, Tokens, Value;
    assert DEFAULT_CONFIG.interfaces[0] == "eth0" && ValidInterface("eth0");
  }
}
