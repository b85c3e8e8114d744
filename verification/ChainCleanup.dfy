/** Cleanup undoes any prefix of setup, whatever else edits the table meanwhile. */
module ChainCleanup {
  import opened Common
  import opened Firewall
  import opened ChainTable

  predicate OwnJump(r: Rule) {
    r.target.Jump? && Own(r.target.chain)
  }

  /** The rules that are not ours. */
  function Kept(rules: seq<Rule>): seq<Rule> {
    if rules == [] then []
    else (if OwnJump(rules[0]) then [] else [rules[0]]) + Kept(rules[1..])
  }

  /** The table as it would be without us. */
  function Strip(t: Table): Table {
    map k | k in t && !Own(k) :: Kept(t[k])
  }

  /** The only rule of ours is `hook`, and it occurs at most once. */
  predicate AtMostOne(rules: seq<Rule>, hook: Rule) {
    && (forall i | 0 <= i < |rules| :: OwnJump(rules[i]) ==> rules[i] == hook)
    && (forall i, j | 0 <= i < j < |rules| :: !(OwnJump(rules[i]) && OwnJump(rules[j])))
  }

  predicate CallsOnlyOwn(rules: seq<Rule>) {
    forall i | 0 <= i < |rules| :: rules[i].target.Jump? ==> Own(rules[i].target.chain)
  }

  predicate Unhooked(t: Table) {
    forall k | k in t && !Own(k) && !BuiltIn(k) :: NoOwnJump(t[k])
  }

  predicate OwnClosed(t: Table) {
    forall k | k in t && Own(k) :: CallsOnlyOwn(t[k])
  }

  /** What an interrupted run can leave behind. */
  predicate Leftover(t: Table) {
    && PreChain in t && PostChain in t
    && AtMostOne(t[PreChain], HOOK_SOURCE) && AtMostOne(t[PostChain], HOOK_DEST)
    && Unhooked(t) && OwnClosed(t)
  }

  // ------------------------------------------------------------------- lists of rules

  lemma {:induction false} KeptAll(rules: seq<Rule>)
    requires NoOwnJump(rules)
    ensures Kept(rules) == rules
  {
    if rules != [] { KeptAll(rules[1..]); }
  }

  lemma {:induction false} KeptIsClean(rules: seq<Rule>)
    ensures NoOwnJump(Kept(rules))
    ensures forall r: Rule :: r in Kept(rules) <==> r in rules && !OwnJump(r)
  {
    if rules != [] { KeptIsClean(rules[1..]); }
  }

  lemma {:induction false} KeptAppend(a: seq<Rule>, b: seq<Rule>)
    ensures Kept(a + b) == Kept(a) + Kept(b)
  {
    if a == [] {
      assert a + b == b;
    } else {
      assert (a + b)[1..] == a[1..] + b;
      KeptAppend(a[1..], b);
    }
  }

  /** Taking out one of our rules is invisible to the others. */
  lemma {:induction false} KeptWithoutOwn(rules: seq<Rule>, r: Rule)
    requires OwnJump(r)
    ensures Kept(Without(rules, r)) == Kept(rules)
  {
    if rules != [] && rules[0] != r {
      KeptWithoutOwn(rules[1..], r);
      assert ([rules[0]] + Without(rules[1..], r))[1..] == Without(rules[1..], r);
    }
  }

  /** Taking out a foreign rule commutes with stripping ours. */
  lemma {:induction false} KeptWithoutForeign(rules: seq<Rule>, r: Rule)
    requires !OwnJump(r)
    ensures Kept(Without(rules, r)) == Without(Kept(rules), r)
  {
    if rules != [] && rules[0] != r {
      KeptWithoutForeign(rules[1..], r);
      assert ([rules[0]] + Without(rules[1..], r))[1..] == Without(rules[1..], r);
      if OwnJump(rules[0]) {
        assert [] + Kept(rules[1..]) == Kept(rules[1..]);
      } else {
        assert ([rules[0]] + Kept(rules[1..]))[1..] == Kept(rules[1..]);
      }
    } else if rules != [] {
      assert ([rules[0]] + Kept(rules[1..]))[1..] == Kept(rules[1..]);
    }
  }

  /** Removing the single hook leaves nothing of ours. */
  lemma {:induction false} WithoutHook(rules: seq<Rule>, hook: Rule)
    requires AtMostOne(rules, hook)
    ensures hook in rules ==> OwnJump(hook) ==> NoOwnJump(Without(rules, hook))
    ensures hook !in rules ==> NoOwnJump(rules)
  {
    if rules != [] && rules[0] != hook {
      WithoutHook(rules[1..], hook);
    }
  }

  lemma {:induction false} WithoutKeepsShape(rules: seq<Rule>, hook: Rule, r: Rule)
    requires AtMostOne(rules, hook)
    ensures AtMostOne(Without(rules, r), hook)
    ensures forall x: Rule :: x in Without(rules, r) ==> x in rules
    ensures NoOwnJump(rules) ==> NoOwnJump(Without(rules, r))
  {
    if rules != [] && rules[0] != r {
      var rest := Without(rules[1..], r);
      WithoutKeepsShape(rules[1..], hook, r);
      forall j | 0 <= j < |rest| ensures !(OwnJump(rules[0]) && OwnJump(rest[j])) {
        assert rest[j] in rules[1..];
      }
    }
  }

  lemma CallsKept(rules: seq<Rule>, c: Chain)
    requires !Own(c)
    ensures Calls(Kept(rules), c) <==> Calls(rules, c)
  {
    KeptIsClean(rules);
    if Calls(rules, c) {
      var i :| 0 <= i < |rules| && rules[i].target == Jump(c);
      assert rules[i] in Kept(rules);
    }
    if Calls(Kept(rules), c) {
      var i :| 0 <= i < |Kept(rules)| && Kept(rules)[i].target == Jump(c);
      assert Kept(rules)[i] in rules;
    }
  }

  // ------------------------------------------------------------------- other people's commands

  /** A command that mentions none of our chains. */
  predicate Foreign(cmd: Command) {
    !Own(cmd.chain) && ((cmd.Append? || cmd.InsertFirst? || cmd.DeleteRule?) ==> !OwnJump(cmd.rule))
  }

  lemma StripLooks(t: Table, c: Chain)
    requires Leftover(t) && !Own(c)
    ensures c in Strip(t) <==> c in t
    ensures c in t && !BuiltIn(c) ==> Strip(t)[c] == t[c]
    ensures Referenced(Strip(t), c) <==> Referenced(t, c)
  {
    if c in t && !BuiltIn(c) { KeptAll(t[c]); }
    if Referenced(t, c) {
      var k :| k in t && Calls(t[k], c);
      CallsKept(t[k], c);
      assert !Own(k);
      assert k in Strip(t) && Calls(Strip(t)[k], c);
    }
    if Referenced(Strip(t), c) {
      var k :| k in Strip(t) && Calls(Strip(t)[k], c);
      CallsKept(t[k], c);
    }
  }

  lemma ForeignPermitted(t: Table, cmd: Command)
    requires Leftover(t) && Foreign(cmd)
    ensures Permits(Strip(t), cmd) <==> Permits(t, cmd)
  {
    var c := cmd.chain;
    StripLooks(t, c);
    if (cmd.Append? || cmd.InsertFirst?) && cmd.rule.target.Jump? {
      StripLooks(t, cmd.rule.target.chain);
    }
    if cmd.DeleteRule? && c in t {
      KeptIsClean(t[c]);
    }
  }

  lemma StripUpdate(t: Table, c: Chain, rules: seq<Rule>)
    requires !Own(c)
    ensures Strip(t[c := rules]) == Strip(t)[c := Kept(rules)]
    ensures Strip(t - {c}) == Strip(t) - {c}
    ensures c in t ==> Strip(t)[c] == Kept(t[c])
  {
    hide Kept, Own;
    assert Strip(t[c := rules]).Keys == Strip(t)[c := Kept(rules)].Keys;
    assert Strip(t - {c}).Keys == (Strip(t) - {c}).Keys;
  }

  /** Stripping ours commutes with every foreign command. */
  lemma {:induction false} ForeignCommutes(t: Table, cmd: Command)
    requires Leftover(t) && Foreign(cmd)
    ensures Strip(After(t, cmd)) == After(Strip(t), cmd)
  {
    ForeignPermitted(t, cmd);
    if Permits(t, cmd) {
      var c := cmd.chain;
      var rules := if c in After(t, cmd) then After(t, cmd)[c] else [];
      StripUpdate(t, c, rules);
      hide Strip, Leftover, Permits;
      match cmd
      case NewChain(_) =>
      case Flush(_) =>
      case DeleteChain(_) =>
      case Append(_, r) =>
        KeptAppend(t[c], [r]);
        KeptAll([r]);
      case InsertFirst(_, r) =>
        KeptAppend([r], t[c]);
        KeptAll([r]);
      case DeleteRule(_, r) =>
        KeptWithoutForeign(t[c], r);
    }
  }

  /** What a foreign command can do to one chain's rules. */
  function Edited(rules: seq<Rule>, cmd: Command): seq<Rule> {
    match cmd
    case Append(_, r) => rules + [r]
    case InsertFirst(_, r) => [r] + rules
    case DeleteRule(_, r) => Without(rules, r)
    case _ => []
  }

  lemma EditedShape(rules: seq<Rule>, cmd: Command, hook: Rule)
    requires Foreign(cmd) && AtMostOne(rules, hook)
    ensures AtMostOne(Edited(rules, cmd), hook)
    ensures NoOwnJump(rules) ==> NoOwnJump(Edited(rules, cmd))
  {
    if cmd.DeleteRule? {
      WithoutKeepsShape(rules, hook, cmd.rule);
    }
  }

  lemma AfterEdits(t: Table, cmd: Command, k: Chain)
    requires k in After(t, cmd)
    ensures k == cmd.chain || (k in t && After(t, cmd)[k] == t[k])
    ensures k == cmd.chain && k in t && Permits(t, cmd) ==> After(t, cmd)[k] == Edited(t[k], cmd)
    ensures k !in t ==> After(t, cmd)[k] == []
  {
  }

  lemma NoneIsAtMostOne(rules: seq<Rule>, hook: Rule)
    requires NoOwnJump(rules)
    ensures AtMostOne(rules, hook)
  {
  }

  lemma ForeignKeepsBuiltIns(t: Table, cmd: Command)
    requires Leftover(t) && Foreign(cmd)
    ensures PreChain in After(t, cmd) && PostChain in After(t, cmd)
    ensures AtMostOne(After(t, cmd)[PreChain], HOOK_SOURCE) && AtMostOne(After(t, cmd)[PostChain], HOOK_DEST)
    ensures NoOwnJump(t[PreChain]) ==> NoOwnJump(After(t, cmd)[PreChain])
    ensures NoOwnJump(t[PostChain]) ==> NoOwnJump(After(t, cmd)[PostChain])
  {
    AfterEdits(t, cmd, PreChain);
    AfterEdits(t, cmd, PostChain);
    EditedShape(t[PreChain], cmd, HOOK_SOURCE);
    EditedShape(t[PostChain], cmd, HOOK_DEST);
    hide AtMostOne, NoOwnJump, Edited;
  }

  lemma ForeignKeepsLeftover(t: Table, cmd: Command)
    requires Leftover(t) && Foreign(cmd)
    ensures Leftover(After(t, cmd))
    ensures forall k | Own(k) :: (k in After(t, cmd) <==> k in t) && (k in t ==> After(t, cmd)[k] == t[k])
  {
    var u := After(t, cmd);
    ForeignKeepsBuiltIns(t, cmd);
    forall k | k in u && !Own(k) && !BuiltIn(k) ensures NoOwnJump(u[k]) {
      AfterEdits(t, cmd, k);
      if k in t {
        NoneIsAtMostOne(t[k], HOOK_SOURCE);
        EditedShape(t[k], cmd, HOOK_SOURCE);
      }
    }
    hide AtMostOne, Edited, NoOwnJump;
  }

  // ------------------------------------------------------------------- our own commands

  /** How far the cleanup script has got. */
  predicate Cleaned(n: nat, t: Table) {
    && (n >= 1 && RuleChain in t ==> t[RuleChain] == [])
    && (n >= 2 && SourceChain in t ==> t[SourceChain] == [])
    && (n >= 3 && DestChain in t ==> t[DestChain] == [])
    && (n >= 4 && PreChain in t ==> NoOwnJump(t[PreChain]))
    && (n >= 5 && PostChain in t ==> NoOwnJump(t[PostChain]))
    && (n >= 6 ==> RuleChain !in t)
    && (n >= 7 ==> SourceChain !in t)
    && (n >= 8 ==> DestChain !in t)
  }

  lemma ForeignKeepsCleaned(n: nat, t: Table, cmd: Command)
    requires Leftover(t) && Foreign(cmd) && Cleaned(n, t)
    ensures Cleaned(n, After(t, cmd))
  {
    ForeignKeepsLeftover(t, cmd);
    ForeignKeepsBuiltIns(t, cmd);
  }

  lemma FlushStep(t: Table, c: Chain)
    requires Leftover(t) && Own(c)
    ensures Leftover(After(t, Flush(c))) && Strip(After(t, Flush(c))) == Strip(t)
  {
  }

  lemma UnhookStep(t: Table, c: Chain, hook: Rule)
    requires Leftover(t)
    requires (c == PreChain && hook == HOOK_SOURCE) || (c == PostChain && hook == HOOK_DEST)
    ensures Leftover(After(t, DeleteRule(c, hook))) && Strip(After(t, DeleteRule(c, hook))) == Strip(t)
    ensures NoOwnJump(After(t, DeleteRule(c, hook))[c])
  {
    WithoutHook(t[c], hook);
    KeptWithoutOwn(t[c], hook);
    if hook in t[c] {
      NoneIsAtMostOne(Without(t[c], hook), hook);
    }
  }

  /** A chain of ours that is empty and that nobody else's rule calls goes away. */
  lemma DropStep(t: Table, c: Chain)
    requires Leftover(t) && Own(c) && (c in t ==> t[c] == [])
    requires NoOwnJump(t[PreChain]) && NoOwnJump(t[PostChain])
    requires forall k | k in t && Own(k) :: t[k] == []
    ensures Leftover(After(t, DeleteChain(c))) && Strip(After(t, DeleteChain(c))) == Strip(t)
    ensures After(t, DeleteChain(c)) == t - {c}
  {
    if c in t {
      forall k | k in t ensures !Calls(t[k], c) {
        assert Own(k) || NoOwnJump(t[k]);
      }
      assert !Referenced(t, c);
    } else {
      assert t - {c} == t;
    }
  }

  /** Each cleanup command does its share, whatever state the table was left in. */
  lemma CleanupStep(n: nat, t: Table)
    requires n < |CLEANUP| && Leftover(t) && Cleaned(n, t)
    ensures Leftover(After(t, CLEANUP[n])) && Strip(After(t, CLEANUP[n])) == Strip(t)
    ensures Cleaned(n + 1, After(t, CLEANUP[n]))
  {
    hide Strip, AtMostOne, Unhooked, OwnClosed;
    var cmd := CLEANUP[n];
    if n < 3 {
      FlushStep(t, cmd.chain);
    } else if n < 5 {
      UnhookStep(t, cmd.chain, cmd.rule);
    } else {
      DropStep(t, cmd.chain);
    }
  }

  /** Even out of turn a cleanup command leaves a recoverable table recoverable and others' rules alone. */
  lemma AnyCleanupStep(n: nat, t: Table)
    requires n < |CLEANUP| && Leftover(t)
    ensures Leftover(After(t, CLEANUP[n])) && Strip(After(t, CLEANUP[n])) == Strip(t)
  {
    hide AtMostOne, Unhooked;
    var cmd := CLEANUP[n];
    if n < 3 {
      FlushStep(t, cmd.chain);
    } else if 3 <= n < 5 {
      UnhookStep(t, cmd.chain, cmd.rule);
    } else {
      EmptyChainGoes(t, cmd.chain);
    }
  }

  lemma EmptyChainGoes(t: Table, c: Chain)
    requires Leftover(t) && Own(c)
    ensures Leftover(After(t, DeleteChain(c))) && Strip(After(t, DeleteChain(c))) == Strip(t)
  {
  }

  lemma CleanedIsStripped(t: Table)
    requires Leftover(t) && Cleaned(8, t)
    ensures Strip(t) == t && Clean(t)
  {
    forall k | k in t ensures !Own(k) && NoOwnJump(t[k]) && Kept(t[k]) == t[k] {
      KeptAll(t[k]);
    }
  }
}
