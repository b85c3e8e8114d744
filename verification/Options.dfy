/** The command line of the packet program: option delivery, the option loop with its growing
    arrays, and the checks after it. */
module Options {
  import opened Common
  import opened Numerals
  import opened PortMap

  const U64_MAX := 0xFFFF_FFFF_FFFF_FFFF
  const NAME_MAX := 15
  const PATH_MAX := 4096
  const INITIAL_CAPACITY := 32

  // ------------------------------------------------------------------- delivery of options

  /** What getopt hands over, in order; Bad for an unknown option or a missing value. */
  datatype Delivered = Flag(c: char) | With(c: char, value: string) | Bad

  predicate IsFlag(c: char) {
    || c == '0' || c == '1' || c == '4' || c == '6'
    || c == 'a' || c == 'd' || c == 'f' || c == 'g' || c == 'k' || c == 's' || c == 'z'
  }

  predicate TakesValue(c: char) {
    Numeric(c) || c == 'b' || c == 'i' || c == 'u' || c == 'w' || c == 'p' || c == 'P'
  }

  /** Options end at the first word that is not one. */
  function Getopt(argv: seq<string>): seq<Delivered>
    decreases |argv|, 0, 0
  {
    if argv == [] || |argv[0]| < 2 || argv[0][0] != '-' || argv[0] == "--" then []
    else Cluster(argv[0], 1, argv[1..])
  }

  /** The letters of one word from position `k`; a value is the rest of the word or the next word. */
  function Cluster(word: string, k: nat, rest: seq<string>): seq<Delivered>
    requires k <= |word|
    decreases |rest|, 1, |word| - k
  {
    if k == |word| then Getopt(rest)
    else if IsFlag(word[k]) then [Flag(word[k])] + Cluster(word, k + 1, rest)
    else if !TakesValue(word[k]) then [Bad]
    else if k + 1 < |word| then [With(word[k], word[k + 1..])] + Getopt(rest)
    else if rest == [] then [Bad]
    else [With(word[k], rest[0])] + Getopt(rest[1..])
  }

  // ------------------------------------------------------------------- what options mean

  /** The numeric fields, by their option letters m, x, n, r, t, y. */
  datatype Numbers = Numbers(mark: nat, mask: nat, queue: nat, repeat: nat, ttl: nat, pct: nat)

  datatype Payload = Binary(path: string) | Sip(uri: Option<string>)

  /** The program's global context. A yes/no field is true when its letter is in `flags`. */
  datatype Context = Context(flags: set<char>, n: Numbers, log: Option<string>, ifaces: seq<string>, payloads: seq<Payload>,
                             white: Option<set<int>>, black: Option<set<int>>)

  const DEFAULTS := Numbers(0x10000, 0, 513, 2, 3, 0)

  function Number(text: string): nat {
    Strtoul(text, U64_MAX).0
  }

  /** Largest value each numeric option takes; zero is refused by all of them. */
  function Limit(c: char): nat {
    match c
    case 'm' => U32_MAX
    case 'n' => U32_MAX
    case 'x' => U32_MAX
    case 'r' => 10
    case 't' => 255
    case _ => 99
  }

  predicate Numeric(c: char) {
    c == 'm' || c == 'n' || c == 'r' || c == 't' || c == 'x' || c == 'y'
  }

  function NumberSet(s: Numbers, c: char, n: nat): Numbers {
    match c
    case 'm' => s.(mark := n)
    case 'n' => s.(queue := n)
    case 'x' => s.(mask := n)
    case 'r' => s.(repeat := n)
    case 't' => s.(ttl := n)
    case _ => s.(pct := n)
  }

  predicate NumberOk(c: char, text: string) {
    0 < Number(text) <= Limit(c)
  }

  /** A port option adds to its filter; text without tokens adds nothing and leaves it unset. */
  function PortsSet(view: Option<set<int>>, spec: string, max: nat): Option<set<int>> {
    if Tokens(spec) == [] then view
    else Some((if view.Some? then view.value else {}) + PortsBefore(Tokens(spec), max))
  }

  predicate PortsOk(spec: string, max: nat) {
    spec != "" && AllParse(Tokens(spec), max)
  }

  /** One option; None is a usage error. `max` is the largest unsigned long. */
  function Step(c: Context, d: Delivered, max: nat): Option<Context> {
    match d
    case Bad => None
    case Flag(l) => Some(c.(flags := c.flags + {l}))
    case With(l, v) =>
      if Numeric(l) then (if NumberOk(l, v) then Some(c.(n := NumberSet(c.n, l, Number(v)))) else None)
      else if l == 'i' then (if 0 < |v| <= NAME_MAX then Some(c.(ifaces := c.ifaces + [v])) else None)
      else if l == 'b' then (if v != "" then Some(c.(payloads := c.payloads + [Binary(v)])) else None)
      else if l == 'u' then (if v != "" then Some(c.(payloads := c.payloads + [Sip(Some(v))])) else None)
      else if l == 'w' then (if |v| < PATH_MAX then Some(c.(log := Some(v))) else None)
      else if l == 'p' then (if PortsOk(v, max) then Some(c.(white := PortsSet(c.white, v, max))) else None)
      else if l == 'P' then (if PortsOk(v, max) then Some(c.(black := PortsSet(c.black, v, max))) else None)
      else None
  }

  function Run(c: Context, ds: seq<Delivered>, max: nat): Option<Context>
    decreases |ds|
  {
    if ds == [] then Some(c)
    else
      var next := Step(c, ds[0], max);
      if next.None? then None else Run(next.value, ds[1..], max)
  }

  const START := Context({}, DEFAULTS, None, [], [], None, None)

  predicate MarkFits(mark: nat, mask: nat)
    requires mark <= U32_MAX && mask <= U32_MAX
  {
    (mark as bv32) & (mask as bv32) == mark as bv32
  }

  /** Values the option loop keeps in range. */
  predicate InRange(s: Numbers) {
    && 0 < s.mark <= U32_MAX && s.mask <= U32_MAX && 0 < s.queue <= U32_MAX
    && 1 <= s.repeat <= 10 && 1 <= s.ttl <= 255 && s.pct < 100
  }

  /** When neither letter was given, both are. */
  function BothUnlessGiven(flags: set<char>, a: char, b: char): set<char> {
    if a in flags || b in flags then flags else flags + {a, b}
  }

  /** The defaults and cross-checks behind the loop; None is a usage error. */
  function Settle(c: Context): Option<Context>
    requires InRange(c.n)
  {
    var flags := BothUnlessGiven(BothUnlessGiven(c.flags, '0', '1'), '4', '6');
    var payloads := if c.payloads == [] then [Sip(None)] else c.payloads;
    if c.n.mask != 0 && !MarkFits(c.n.mark, c.n.mask) then None
    else if 'a' !in flags && c.ifaces == [] then None
    else if c.n.pct != 0 && 'g' in flags then None
    else Some(c.(flags := flags, n := c.n.(mask := if c.n.mask == 0 then c.n.mark else c.n.mask), payloads := payloads))
  }

  datatype Verdict = Rejected | KillRunning | Accepted(c: Context)

  lemma NumberInRange(s: Numbers, c: char, n: nat)
    requires InRange(s) && Numeric(c) && 0 < n <= Limit(c)
    ensures InRange(NumberSet(s, c, n))
  {
  }

  lemma StepInRange(c: Context, d: Delivered, max: nat)
    requires InRange(c.n) && Step(c, d, max).Some?
    ensures InRange(Step(c, d, max).value.n)
  {
    hide NumberSet, PortsSet, PortsOk, Numeric;
    if d.With? && Numeric(d.c) { NumberInRange(c.n, d.c, Number(d.value)); }
  }

  lemma {:induction false} RunInRange(c: Context, ds: seq<Delivered>, max: nat)
    requires InRange(c.n) && Run(c, ds, max).Some?
    ensures InRange(Run(c, ds, max).value.n)
    decreases |ds|
  {
    hide Step, InRange;
    if ds != [] {
      StepInRange(c, ds[0], max);
      RunInRange(Step(c, ds[0], max).value, ds[1..], max);
    }
  }

  /** What main does with its arguments (without the program name). */
  function Accept(argv: seq<string>, max: nat): Verdict {
    if argv == [] then Rejected
    else
      var c := Run(START, Getopt(argv), max);
      if c.None? then Rejected
      else if 'k' in c.value.flags then KillRunning
      else
        RunInRange(START, Getopt(argv), max);
        var settled := Settle(c.value);
        if settled.None? then Rejected else Accepted(settled.value)
  }

  lemma MarkFitsItself(mark: nat)
    requires mark <= U32_MAX
    ensures MarkFits(mark, mark)
  {
  }

  /** What every served context satisfies: a mark inside its mask, a device, a family, a direction
      and a payload, and dynamic TTL only together with hop estimation. */
  predicate Sound(c: Context) {
    && InRange(c.n) && c.n.mask > 0 && MarkFits(c.n.mark, c.n.mask)
    && ('a' in c.flags || c.ifaces != []) && c.payloads != []
    && ('4' in c.flags || '6' in c.flags) && ('0' in c.flags || '1' in c.flags)
    && !(c.n.pct > 0 && 'g' in c.flags)
  }

  lemma SettleIsSound(c: Context)
    requires InRange(c.n) && Settle(c).Some?
    ensures Sound(Settle(c).value)
  {
    MarkFitsItself(c.n.mark);
    hide MarkFits;
  }

  lemma {:induction false} AcceptedIsSound(argv: seq<string>, max: nat)
    requires Accept(argv, max).Accepted?
    ensures Sound(Accept(argv, max).c)
  {
    RunInRange(START, Getopt(argv), max);
    SettleIsSound(Run(START, Getopt(argv), max).value);
    hide Sound, Settle, Run, Getopt;
  }

  // ------------------------------------------------------------------- growing arrays

  /** A zero-terminated array that doubles, as the loop keeps for -i and for -b/-u. */
  class ZeroArray<T(0)> {
    var cells: array<Option<T>>
    var count: nat

    ghost predicate Valid()
      reads this, cells
    {
      && count < cells.Length && cells.Length >= 2
      && (forall k | 0 <= k < count :: cells[k].Some?)
      && (forall k | count <= k < cells.Length :: cells[k].None?)
    }

    ghost function Contents(): seq<T>
      requires Valid()
      reads this, cells
    {
      seq(count, k requires 0 <= k < count && Valid() reads this, cells => cells[k].value)
    }

    constructor ()
      ensures Valid() && Contents() == [] && fresh(cells)
    {
      cells := new Option<T>[INITIAL_CAPACITY](_ => None);
      count := 0;
    }

    /** The growth test compares with the capacity less one, so a terminator always remains. */
    method Push(x: T, allocOk: bool) returns (ok: bool)
      requires Valid()
      modifies this, cells
      ensures Valid() && (cells != old(cells) ==> fresh(cells))
      ensures Contents() == if ok then old(Contents()) + [x] else old(Contents())
      ensures ok <==> allocOk || old(count) + 1 < old(cells.Length) - 1
    {
      if count + 1 >= cells.Length - 1 {
        if !allocOk { return false; }
        var larger := new Option<T>[2 * cells.Length](_ => None);
        forall k | 0 <= k < cells.Length { larger[k] := cells[k]; }
        cells := larger;
      }
      cells[count] := Some(x);
      count := count + 1;
      ok := true;
    }

    /** The later loops `for (i = 0; a[i]; i++)` stop exactly at the count. */
    method Scan() returns (n: nat)
      requires Valid()
      ensures n == count == |Contents()|
    {
      n := 0;
      while cells[n].Some?
        invariant 0 <= n <= count
        decreases count - n
      {
        n := n + 1;
      }
    }
  }

  // ------------------------------------------------------------------- the loop itself

  /** main up to the point where it starts serving; memory is taken to suffice. */
  class Program {
    var flags: set<char>
    var n: Numbers
    var log: Option<string>
    const ifaces: ZeroArray<string>
    const payloads: ZeroArray<Payload>
    const white: Bitmap
    const black: Bitmap

    ghost predicate Valid()
      reads this, ifaces, ifaces.cells, payloads, payloads.cells, white, black
    {
      ifaces.Valid() && payloads.Valid() && white.Valid() && black.Valid() && Separate()
    }

    /** No two parts share memory. */
    ghost predicate Separate()
      reads this, ifaces, payloads, white, black
    {
      && ifaces as object != payloads as object && white != black
      && ifaces.cells as object != payloads.cells as object
      && (white.bits == null || white.bits != black.bits)
      && white.bits as object? != ifaces.cells as object? && white.bits as object? != payloads.cells as object?
      && black.bits as object? != ifaces.cells as object? && black.bits as object? != payloads.cells as object?
    }

    ghost function Now(): Context
      requires Valid()
      reads this, ifaces, ifaces.cells, payloads, payloads.cells, white, white.bits, black, black.bits
    {
      Context(flags, n, log, ifaces.Contents(), payloads.Contents(), white.View(), black.View())
    }

    constructor ()
      ensures Valid() && Now() == START
      ensures fresh(ifaces) && fresh(ifaces.cells) && fresh(payloads) && fresh(payloads.cells) && fresh(white) && fresh(black)
      ensures white.bits == null && black.bits == null
    {
      flags, n, log := {}, DEFAULTS, None;
      ifaces := new ZeroArray();
      payloads := new ZeroArray();
      white := new Bitmap();
      black := new Bitmap();
    }

    /** -m, -n, -x, -r, -t, -y. */
    method HandleNumber(c: char, text: string) returns (ok: bool)
      requires Numeric(c)
      modifies this`n
      ensures ok <==> NumberOk(c, text)
      ensures n == if ok then NumberSet(old(n), c, Number(text)) else old(n)
    {
      var tmp := Number(text);
      if tmp == 0 || tmp > Limit(c) { return false; }
      match c {
        case 'm' => n := n.(mark := tmp);
        case 'n' => n := n.(queue := tmp);
        case 'x' => n := n.(mask := tmp);
        case 'r' => n := n.(repeat := tmp);
        case 't' => n := n.(ttl := tmp);
        case _ => n := n.(pct := tmp);
      }
      ok := true;
    }

    method HandlePorts(filter: Bitmap, spec: string, max: nat) returns (ok: bool)
      requires filter.Valid()
      modifies filter, filter.bits
      ensures filter.Valid() && (old(filter.bits) != null ==> filter.bits == old(filter.bits))
      ensures filter.bits != old(filter.bits) ==> fresh(filter.bits)
      ensures ok <==> PortsOk(spec, max)
      ensures ok ==> filter.View() == PortsSet(old(filter.View()), spec, max)
    {
      if spec == "" { return false; }
      EmptyTokens(max);
      hide Tokens, PortsBefore, AllParse;
      ok := filter.Parse(spec, max, true);
      assert old(filter.Ports()) + {} == old(filter.Ports());
    }

    /** -i, -b, -u: the growing arrays. */
    method HandleList(c: char, v: string) returns (ok: bool)
      requires Valid() && (c == 'i' || c == 'b' || c == 'u')
      modifies ifaces, ifaces.cells, payloads, payloads.cells
      ensures Valid()
      ensures ifaces.cells != old(ifaces.cells) ==> fresh(ifaces.cells)
      ensures payloads.cells != old(payloads.cells) ==> fresh(payloads.cells)
      ensures ok <==> v != "" && (c == 'i' ==> |v| <= NAME_MAX)
      ensures ifaces.Contents() == old(ifaces.Contents()) + if ok && c == 'i' then [v] else []
      ensures payloads.Contents() == old(payloads.Contents())
        + if !ok || c == 'i' then [] else if c == 'b' then [Binary(v)] else [Sip(Some(v))]
    {
      if c == 'i' {
        if |v| == 0 || |v| > NAME_MAX { return false; }
        ok := ifaces.Push(v, true);
      } else {
        if |v| == 0 { return false; }
        ok := payloads.Push(if c == 'b' then Binary(v) else Sip(Some(v)), true);
      }
    }

    /** -p, -P: the port filters. */
    method HandleFilters(c: char, v: string, max: nat) returns (ok: bool)
      requires Valid() && (c == 'p' || c == 'P')
      modifies white, white.bits, black, black.bits
      ensures Valid()
      ensures white.bits != old(white.bits) ==> fresh(white.bits)
      ensures black.bits != old(black.bits) ==> fresh(black.bits)
      ensures ok <==> PortsOk(v, max)
      ensures ok ==> white.View() == if c == 'p' then PortsSet(old(white.View()), v, max) else old(white.View())
      ensures ok ==> black.View() == if c == 'P' then PortsSet(old(black.View()), v, max) else old(black.View())
    {
      hide PortsOk, PortsSet;
      if c == 'p' {
        ok := HandlePorts(white, v, max);
      } else {
        ok := HandlePorts(black, v, max);
      }
    }

    /** One turn of the option loop. */
    method Handle(d: Delivered, max: nat) returns (ok: bool)
      requires Valid()
      modifies this`flags, this`n, this`log, ifaces, ifaces.cells, payloads, payloads.cells, white, white.bits, black, black.bits
      ensures Valid()
      ensures ifaces.cells != old(ifaces.cells) ==> fresh(ifaces.cells)
      ensures payloads.cells != old(payloads.cells) ==> fresh(payloads.cells)
      ensures white.bits != old(white.bits) ==> fresh(white.bits)
      ensures black.bits != old(black.bits) ==> fresh(black.bits)
      ensures ok <==> Step(old(Now()), d, max).Some?
      ensures ok ==> Now() == Step(old(Now()), d, max).value
    {
      hide PortsOk, PortsSet, NumberOk, NumberSet, Number, Numeric;
      match d {
        case Bad => ok := false;
        case Flag(l) =>
          flags := flags + {l};
          ok := true;
        case With(l, v) =>
          if Numeric(l) {
            ok := HandleNumber(l, v);
          } else if l == 'i' || l == 'b' || l == 'u' {
            ok := HandleList(l, v);
          } else if l == 'w' {
            log := Some(v);
            ok := |v| <= PATH_MAX - 1;
          } else if l == 'p' || l == 'P' {
            ok := HandleFilters(l, v, max);
          } else {
            ok := false;
          }
      }
    }

    /** The option loop: stops at the first usage error. */
    method HandleAll(ds: seq<Delivered>, max: nat) returns (ok: bool)
      requires Valid() && Now() == START && white.bits == null && black.bits == null
      modifies this`flags, this`n, this`log, ifaces, ifaces.cells, payloads, payloads.cells, white, black
      ensures Valid()
      ensures fresh(ifaces.cells) || ifaces.cells == old(ifaces.cells)
      ensures fresh(payloads.cells) || payloads.cells == old(payloads.cells)
      ensures ok <==> Run(START, ds, max).Some?
      ensures ok ==> Now() == Run(START, ds, max).value
    {
      hide Step, Separate, ZeroArray.Valid, Bitmap.Valid;
      var i := 0;
      while i < |ds|
        invariant 0 <= i <= |ds| && Valid()
        invariant fresh(ifaces.cells) || ifaces.cells == old(ifaces.cells)
        invariant fresh(payloads.cells) || payloads.cells == old(payloads.cells)
        invariant (white.bits == null || fresh(white.bits)) && (black.bits == null || fresh(black.bits))
        invariant Run(START, ds, max) == Run(Now(), ds[i..], max)
      {
        assert ds[i..][1..] == ds[i + 1..];
        ok := Handle(ds[i], max);
        if !ok { return; }
        i := i + 1;
      }
      ok := true;
    }

    method DefaultFlags()
      modifies this`flags
      ensures flags == BothUnlessGiven(BothUnlessGiven(old(flags), '0', '1'), '4', '6')
    {
      if '0' !in flags && '1' !in flags { flags := flags + {'0', '1'}; }
      if '4' !in flags && '6' !in flags { flags := flags + {'4', '6'}; }
    }

    /** A random address is the payload when none was given. */
    method DefaultPayload()
      requires Valid()
      modifies payloads, payloads.cells
      ensures Valid()
      ensures payloads.Contents() == if old(payloads.Contents()) == [] then [Sip(None)] else old(payloads.Contents())
    {
      var count := payloads.Scan();
      if count == 0 {
        var _ := payloads.Push(Sip(None), true);
      }
    }

    /** Defaults and cross-checks, then the program either serves or gives up. */
    method Finish() returns (ok: bool)
      requires Valid() && InRange(n)
      modifies this`flags, this`n, payloads, payloads.cells
      ensures Valid()
      ensures ok <==> Settle(old(Now())).Some?
      ensures ok ==> Now() == Settle(old(Now())).value
    {
      hide MarkFits, BothUnlessGiven;
      DefaultFlags();
      if n.mask != 0 && !MarkFits(n.mark, n.mask) { return false; }
      if n.mask == 0 { n := n.(mask := n.mark); }
      DefaultPayload();
      var count := ifaces.Scan();
      if 'a' !in flags && count == 0 { return false; }
      if n.pct != 0 && 'g' in flags { return false; }
      ok := true;
    }

    /** main from its arguments to the decision. */
    method Configure(argv: seq<string>, max: nat) returns (e: Ending)
      requires Valid() && Now() == START && white.bits == null && black.bits == null
      modifies this`flags, this`n, this`log, ifaces, ifaces.cells, payloads, payloads.cells, white, black
      ensures Valid()
      ensures match Accept(argv, max)
        case Rejected => e == Usage
        case KillRunning => e == Kill
        case Accepted(c) => e == Serve && Now() == c
    {
      hide Run, Settle, Getopt, InRange, Separate, ZeroArray.Valid, Bitmap.Valid;
      if argv == [] { return Usage; }
      var ok := HandleAll(Getopt(argv), max);
      if !ok { return Usage; }
      if 'k' in flags { return Kill; }
      StartInRange();
      RunInRange(START, Getopt(argv), max);
      ok := Finish();
      e := if ok then Serve else Usage;
    }
  }

  datatype Ending = Usage | Kill | Serve

  lemma StartInRange()
    ensures InRange(START.n)
  {
  }
}
