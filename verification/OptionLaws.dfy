/** What the command line comes to, option by option: the words getopt takes apart, the ranges and
    fields of the options, the defaults and cross-checks, and how the shell's own validation relates. */
module OptionLaws {
  import opened Common
  import opened Text
  import opened Numerals
  import opened PortMap
  import opened Options
  import opened FakeSipConfig

  // ------------------------------------------------------------------- getopt

  function AsFlags(letters: seq<char>): seq<Delivered> {
    seq(|letters|, i requires 0 <= i < |letters| => Flag(letters[i]))
  }

  lemma ClusterOnce(word: string, k: nat, rest: seq<string>)
    requires k < |word| && IsFlag(word[k])
    ensures Cluster(word, k, rest) == [Flag(word[k])] + Cluster(word, k + 1, rest)
  {
    hide IsFlag, TakesValue, Getopt;
  }

  lemma {:induction false} ClusterSkipsFlags(word: string, k: nat, letters: seq<char>, rest: seq<string>)
    requires k + |letters| <= |word| && word[k..k + |letters|] == letters
    requires forall l | l in letters :: IsFlag(l)
    ensures Cluster(word, k, rest) == AsFlags(letters) + Cluster(word, k + |letters|, rest)
    decreases |letters|
  {
    hide IsFlag, Cluster;
    if letters == [] {
      assert AsFlags(letters) == [];
    } else {
      ClusterOnce(word, k, rest);
      assert word[k] == letters[0] && word[k + 1..k + 1 + |letters[1..]|] == letters[1..];
      ClusterSkipsFlags(word, k + 1, letters[1..], rest);
      assert AsFlags(letters) == [Flag(letters[0])] + AsFlags(letters[1..]);
    }
  }

  /** One word may hold several flags, and last an option whose value is the rest of the word or, if
      there is none, the next word. */
  lemma {:induction false} GetoptReadsClusters(letters: seq<char>, tail: string, rest: seq<string>)
    requires forall l | l in letters :: IsFlag(l)
    requires letters + tail != "" && "-" + letters + tail != "--" && (tail != "" ==> !IsFlag(tail[0]))
    ensures var read := Getopt(["-" + letters + tail] + rest);
      if tail == "" then read == AsFlags(letters) + Getopt(rest)
      else if !TakesValue(tail[0]) then read == AsFlags(letters) + [Bad]
      else if |tail| > 1 then read == AsFlags(letters) + ([With(tail[0], tail[1..])] + Getopt(rest))
      else if rest == [] then read == AsFlags(letters) + [Bad]
      else read == AsFlags(letters) + ([With(tail[0], rest[0])] + Getopt(rest[1..]))
  {
    hide IsFlag, TakesValue;
    var word := "-" + letters + tail;
    var argv := [word] + rest;
    assert argv[1..] == rest && argv[0] == word;
    assert word[1..1 + |letters|] == letters && word[1 + |letters|..] == tail;
    ClusterSkipsFlags(word, 1, letters, rest);
    if tail != "" {
      assert word[1 + |letters|] == tail[0] && word[1 + |letters| + 1..] == tail[1..];
    }
  }

  /** Options end before the first word that is none. */
  lemma OptionsEnd(word: string, rest: seq<string>)
    requires |word| < 2 || word[0] != '-' || word == "--"
    ensures Getopt([word] + rest) == []
  {
  }

  // ------------------------------------------------------------------- ranges and fields

  lemma ReadsTenDigits(text: string)
    requires Canonical(text) && |text| <= 10
    ensures Number(text) == Decimal(text)
  {
    ValueBound(text, 10);
    Powers();
    PowerMono(10, |text|, 10);
    ReadsCanonical(text, U64_MAX);
  }

  /** Each numeric option sets its own field to the decimal value and takes just the stated range. */
  lemma {:induction false} NumbersExactly(c: Context, text: string, max: nat)
    requires Canonical(text) && |text| <= 10
    ensures var v := Decimal(text);
      && Step(c, With('m', text), max) == (if 1 <= v <= 0xFFFF_FFFF then Some(c.(n := c.n.(mark := v))) else None)
      && Step(c, With('x', text), max) == (if 1 <= v <= 0xFFFF_FFFF then Some(c.(n := c.n.(mask := v))) else None)
      && Step(c, With('n', text), max) == (if 1 <= v <= 0xFFFF_FFFF then Some(c.(n := c.n.(queue := v))) else None)
      && Step(c, With('r', text), max) == (if 1 <= v <= 10 then Some(c.(n := c.n.(repeat := v))) else None)
      && Step(c, With('t', text), max) == (if 1 <= v <= 255 then Some(c.(n := c.n.(ttl := v))) else None)
      && Step(c, With('y', text), max) == (if 1 <= v <= 99 then Some(c.(n := c.n.(pct := v))) else None)
  {
    ReadsTenDigits(text);
    hide Number, Decimal, PortsOk, PortsSet;
  }

  /** The shell asks of repeat, TTL and dynamic TTL exactly what the program asks, and less than it of
      no number: a canonical text that passes here passes there, and the other way round, except that
      the shell keeps queue numbers to sixteen bits. */
  lemma {:induction false} ShellRangesAreTheProgramRanges(c: Context, text: string, max: nat)
    requires Canonical(text) && |text| <= 10
    ensures Step(c, With('r', text), max).Some? <==> ValidUint(text, 1, 10)
    ensures Step(c, With('t', text), max).Some? <==> ValidUint(text, 1, 255)
    ensures Step(c, With('y', text), max).Some? <==> ValidUint(text, 1, 99)
    ensures Step(c, With('n', text), max).Some? && Decimal(text) <= 65535 <==> ValidUint(text, 1, 65535)
  {
    NumbersExactly(c, text, max);
    hide Step, Decimal, Canonical;
  }

  /** The other options: flags accumulate, names and payloads are appended in the order given, and an
      unknown letter, an empty value or one that is too long is a usage error. */
  lemma OthersExactly(c: Context, l: char, v: string, max: nat)
    ensures Step(c, Flag(l), max) == Some(c.(flags := c.flags + {l}))
    ensures Step(c, Bad, max) == None
    ensures Step(c, With('i', v), max) == if 1 <= |v| <= 15 then Some(c.(ifaces := c.ifaces + [v])) else None
    ensures Step(c, With('b', v), max) == if v != "" then Some(c.(payloads := c.payloads + [Binary(v)])) else None
    ensures Step(c, With('u', v), max) == if v != "" then Some(c.(payloads := c.payloads + [Sip(Some(v))])) else None
    ensures Step(c, With('w', v), max) == if |v| <= 4095 then Some(c.(log := Some(v))) else None
    ensures l !in ['m', 'x', 'n', 'r', 't', 'y', 'i', 'b', 'u', 'w', 'p', 'P'] ==> Step(c, With(l, v), max) == None
  {
    hide PortsOk, PortsSet, NumberOk, NumberSet;
  }

  /** -p and -P are refused exactly if they are empty or some item does not parse. An accepted one adds
      its ports to its own filter, which then exists unless there were only commas. */
  lemma {:induction false} FiltersExactly(c: Context, v: string, max: nat, p: int)
    ensures var ok := v != "" && forall i | 0 <= i < |Tokens(v)| :: ParseItem(Tokens(v)[i], max).Some?;
      var named := exists i :: 0 <= i < |Tokens(v)| && NamedBy(Tokens(v), max, i, p);
      var white, black := Step(c, With('p', v), max), Step(c, With('P', v), max);
      && (white.Some? <==> ok) && (black.Some? <==> ok)
      && (white.Some? && black.Some? ==> white.value.(white := c.white) == c && black.value.(black := c.black) == c)
      && (white.Some? && black.Some? && Tokens(v) == [] ==> white.value.white == c.white && black.value.black == c.black)
      && (white.Some? && black.Some? && Tokens(v) != [] ==>
            && white.value.white.Some? && (p in white.value.white.value <==> named || (c.white.Some? && p in c.white.value))
            && black.value.black.Some? && (p in black.value.black.value <==> named || (c.black.Some? && p in c.black.value)))
  {
    ParsedPortsExactly(Tokens(v), max, p);
    hide NamedBy, PortsBefore, ParseItem, Tokens, NumberOk, NumberSet;
  }

  // ------------------------------------------------------------------- defaults and cross-checks

  lemma MarkFitsIs(mark: nat, mask: nat, fits: bool)
    requires mark <= U32_MAX && mask <= U32_MAX
    requires fits <==> (mark as bv32) & (mask as bv32) == mark as bv32
    ensures MarkFits(mark, mask) <==> fits
  {
  }

  lemma SettleCases(c: Context, fits: bool)
    requires InRange(c.n) && (MarkFits(c.n.mark, c.n.mask) <==> fits)
    ensures Settle(c).None? <==>
      (c.n.mask != 0 && !fits) || ('a' !in c.flags && c.ifaces == []) || (c.n.pct > 0 && 'g' in c.flags)
    ensures Settle(c).Some? ==>
      var r := Settle(c).value;
      && r.(flags := c.flags, n := c.n, payloads := c.payloads) == c
      && r.n == c.n.(mask := if c.n.mask == 0 then c.n.mark else c.n.mask)
      && r.payloads == (if c.payloads == [] then [Sip(None)] else c.payloads)
      && forall l: char :: l in r.flags <==>
           || l in c.flags
           || ((l == '0' || l == '1') && '0' !in c.flags && '1' !in c.flags)
           || ((l == '4' || l == '6') && '4' !in c.flags && '6' !in c.flags)
  {
    hide MarkFits;
  }

  /** What main refuses after the loop, and what it fills in: a mark with bits outside a given mask, no
      device, or dynamic TTL without hop estimation; a missing mask is the mark itself, and without
      any letter of a pair both directions or both families are meant. */
  lemma {:induction false} SettleExactly(c: Context, fits: bool)
    requires InRange(c.n) && (fits <==> (c.n.mark as bv32) & (c.n.mask as bv32) == c.n.mark as bv32)
    ensures Settle(c).None? <==>
      (c.n.mask != 0 && !fits) || ('a' !in c.flags && c.ifaces == []) || (c.n.pct > 0 && 'g' in c.flags)
    ensures Settle(c).Some? ==>
      var r := Settle(c).value;
      && r.(flags := c.flags, n := c.n, payloads := c.payloads) == c
      && r.n == c.n.(mask := if c.n.mask == 0 then c.n.mark else c.n.mask)
      && r.payloads == (if c.payloads == [] then [Sip(None)] else c.payloads)
      && forall l: char :: l in r.flags <==>
           || l in c.flags
           || ((l == '0' || l == '1') && '0' !in c.flags && '1' !in c.flags)
           || ((l == '4' || l == '6') && '4' !in c.flags && '6' !in c.flags)
  {
    MarkFitsIs(c.n.mark, c.n.mask, fits);
    SettleCases(c, fits);
    hide *;
  }

  // ------------------------------------------------------------------- the shell's own checks

  /** The numbers of a configuration, written as decimals, pass validation exactly if the program takes
      them too, the queue has sixteen bits, the dynamic TTL is off or hop estimation on, and the mark
      lies inside the mask. */
  lemma {:induction false} ValidNumbersExactly(c: Config, mark: nat, mask: nat, fits: bool, any: Context, max: nat)
    requires Canonical(c.repeat) && Canonical(c.ttl) && Canonical(c.pct) && Canonical(c.queue)
    requires |c.repeat| <= 10 && |c.ttl| <= 10 && |c.pct| <= 10 && |c.queue| <= 10
    requires ValidU32(c.mark) && ValidU32(c.mask) && mark == Number32(c.mark) <= U32_MAX && mask == Number32(c.mask) <= U32_MAX
    requires fits <==> (mark as bv32) & (mask as bv32) == mark as bv32
    ensures ValidNumbers(c) <==>
      && Step(any, With('r', c.repeat), max).Some? && Step(any, With('t', c.ttl), max).Some?
      && (Decimal(c.pct) == 0 || (c.hop && Step(any, With('y', c.pct), max).Some?))
      && 1 <= Decimal(c.queue) <= 65535
      && fits
  {
    MarkFitsIs(mark, mask, fits);
    ShellRangesAreTheProgramRanges(any, c.repeat, max);
    ShellRangesAreTheProgramRanges(any, c.ttl, max);
    ShellRangesAreTheProgramRanges(any, c.pct, max);
    ShellRangesAreTheProgramRanges(any, c.queue, max);
    OnlyZeroIsZero(c.pct);
    hide Step, Canonical, Decimal, ValidU32, Number32, MarkFits;
  }

  lemma OnlyZeroIsZero(s: string)
    requires Canonical(s)
    ensures s == "0" <==> Decimal(s) == 0
  {
    CanonicalIsDecimalText(s);
    FormatReads(0, 10);
    hide Format;
  }

  /** Two services that pass validation side by side have different queues: a queue is refused exactly
      if an enabled sibling is configured with the same number. */
  lemma {:induction false} QueueFreeExactly(c: Config, w: World)
    requires ValidUint(c.queue, 1, 65535)
    ensures QueueFree(c, w) <==> !(w.siblingEnabled && w.siblingQueue == c.queue)
  {
    if ValidUint(w.siblingQueue, 1, 65535) {
      CanonicalIsDecimalText(c.queue);
      CanonicalIsDecimalText(w.siblingQueue);
    }
    hide Format, Canonical, Decimal;
  }

  /** Interfaces keep the order of their first mention. */
  lemma {:induction false} DistinctInOrder(names: seq<string>, i: nat, j: nat)
    requires i < j < |Distinct(names)|
    ensures exists k :: 0 <= k < |names| && names[k] == Distinct(names)[i] && Distinct(names)[j] !in names[..k + 1]
  {
    var r := Distinct(names);
    var init := names[..|names| - 1];
    if j < |Distinct(init)| {
      DistinctInOrder(init, i, j);
      var k :| 0 <= k < |init| && init[k] == Distinct(init)[i] && Distinct(init)[j] !in init[..k + 1];
      assert init[..k + 1] == names[..k + 1];
    } else {
      assert r[j] !in init && r[i] in Distinct(init) && r[i] in init;
      var k :| 0 <= k < |init| && init[k] == r[i];
      assert forall x | x in names[..k + 1] :: x in init;
    }
  }
}
