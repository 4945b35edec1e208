/** Matching argument vectors against policy rules, and adding a rule to the policy file. */
module Policy {
  import opened Records

  type Rule = seq<string>

  /** The canonical path and the base name an executable reference resolves to. */
  datatype Exe = Exe(path: string, base: string)

  type Resolver = string -> Exe

  const STAR := "*"

  const RESTRICTED: set<string> :=
    {"bash", "sh", "zsh", "python", "python3", "node", "ruby", "perl", "php", "curl", "wget", "nc"}

  predicate SameExe(r: Resolver, a: string, b: string) {
    r(a).path == r(b).path || r(a).base == r(b).base
  }

  predicate Restricted(r: Resolver, s: string) {
    r(s).base in RESTRICTED
  }

  // ----- What a rule means ---------------------------------------------------------------------------

  /** A lone binary and a trailing star both leave the arguments that follow open. */
  predicate HasOpenTail(rule: Rule) {
    |rule| == 1 || (rule != [] && rule[|rule| - 1] == STAR)
  }

  /** The elements that are compared position by position. */
  function Stem(rule: Rule): Rule {
    if rule != [] && rule[|rule| - 1] == STAR then rule[..|rule| - 1] else rule
  }

  predicate Anchored(rule: Rule) {
    exists i | 0 <= i < |rule| :: rule[i] != STAR
  }

  /** An open rule compares its first element as an executable; a closed one as text. */
  predicate ElementFits(r: Resolver, argv: seq<string>, rule: Rule, i: nat)
    requires i < |argv| && i < |rule|
  {
    || rule[i] == STAR
    || (if i == 0 && HasOpenTail(rule) then SameExe(r, argv[0], rule[0]) else argv[i] == rule[i])
  }

  /** The relation the matcher decides. */
  predicate Fits(r: Resolver, argv: seq<string>, rule: Rule) {
    var stem := Stem(rule);
    && argv != []
    && Anchored(rule)
    && (if HasOpenTail(rule) then |argv| >= |stem| else |argv| == |stem|)
    && forall i | 0 <= i < |stem| :: ElementFits(r, argv, rule, i)
  }

  method Equal(a: seq<string>, b: seq<string>) returns (same: bool)
    ensures same <==> a == b
  {
    if |a| != |b| {
      return false;
    }
    var i := 0;
    while i < |a|
      invariant 0 <= i <= |a| && forall k | 0 <= k < i :: a[k] == b[k]
    {
      if a[i] != b[i] {
        return false;
      }
      i := i + 1;
    }
    return true;
  }

  method MatchRule(r: Resolver, argv: seq<string>, rule: Rule) returns (ok: bool)
    ensures ok <==> Fits(r, argv, rule)
  {
    if |rule| == 0 || |argv| == 0 {
      return false;
    }
    var wild := false;
    var i := 0;
    while i < |rule|
      invariant 0 <= i <= |rule|
      invariant !wild && forall k | 0 <= k < i :: rule[k] != STAR
    {
      if rule[i] == STAR {
        wild := true;
        break;
      }
      i := i + 1;
    }
    if wild {
      ok := MatchWild(r, argv, rule);
      return;
    }
    assert Stem(rule) == rule;
    assert rule[0] != STAR;
    if |rule| == 1 {
      assert Fits(r, argv, rule) <==> ElementFits(r, argv, rule, 0);
      return SameExe(r, argv[0], rule[0]);
    }
    ok := Equal(argv, rule);
    assert |argv| == |rule| ==> forall k | 0 <= k < |rule| :: ElementFits(r, argv, rule, k) <==> argv[k] == rule[k];
  }

  method MatchWild(r: Resolver, argv: seq<string>, rule: Rule) returns (ok: bool)
    requires argv != [] && exists k | 0 <= k < |rule| :: rule[k] == STAR
    ensures ok <==> Fits(r, argv, rule)
  {
    if |rule| == 1 && rule[0] == STAR {
      return false;
    }
    if rule[|rule| - 1] == STAR {
      ok := MatchOpen(r, argv, rule);
      return;
    }
    assert rule[|rule| - 1] != STAR;
    if |argv| != |rule| {
      return false;
    }
    var i := 0;
    while i < |rule|
      invariant 0 <= i <= |rule|
      invariant forall k | 0 <= k < i :: ElementFits(r, argv, rule, k)
    {
      if rule[i] != STAR && argv[i] != rule[i] {
        assert !ElementFits(r, argv, rule, i);
        return false;
      }
      i := i + 1;
    }
    return true;
  }

  /** The branch for a rule with a trailing star. */
  method MatchOpen(r: Resolver, argv: seq<string>, rule: Rule) returns (ok: bool)
    requires argv != [] && rule != [] && rule[|rule| - 1] == STAR
    ensures ok <==> Fits(r, argv, rule)
  {
    var prefix := rule[..|rule| - 1];
    var anchored := false;
    var j := 0;
    while j < |prefix|
      invariant 0 <= j <= |prefix|
      invariant !anchored && forall k | 0 <= k < j :: prefix[k] == STAR
    {
      if prefix[j] != STAR {
        assert rule[j] != STAR;
        anchored := true;
        break;
      }
      j := j + 1;
    }
    if !anchored {
      return false;
    }
    if |argv| < |prefix| {
      return false;
    }
    var i := 0;
    while i < |prefix|
      invariant 0 <= i <= |prefix|
      invariant forall k | 0 <= k < i :: ElementFits(r, argv, rule, k)
    {
      assert prefix[i] == rule[i];
      if prefix[i] == STAR {
        i := i + 1;
        continue;
      }
      if i == 0 {
        if !SameExe(r, argv[0], prefix[0]) {
          assert !ElementFits(r, argv, rule, 0);
          return false;
        }
        i := i + 1;
        continue;
      }
      if argv[i] != prefix[i] {
        assert !ElementFits(r, argv, rule, i);
        return false;
      }
      i := i + 1;
    }
    return true;
  }

  /** Rules of stars alone match nothing. */
  lemma StarsMatchNothing(r: Resolver, argv: seq<string>, rule: Rule)
    requires forall i | 0 <= i < |rule| :: rule[i] == STAR
    ensures !Fits(r, argv, rule)
  {
  }

  /** What rules mean, in their own elements. A lone element is a binary, with any arguments. A trailing
      star leaves the tail open: what stands before it holds position by position, the first element as a
      binary. Any other rule holds position by position, as text, for vectors of its length. A star in any
      place stands for one element whatever it is, and a rule of stars alone matches nothing. */
  lemma FitsIs(r: Resolver, argv: seq<string>, rule: Rule)
    requires argv != [] && rule != []
    ensures var n := |rule|;
      if |rule| == 1 then
        Fits(r, argv, rule) <==>
          rule[0] != "*" && (r(argv[0]).path == r(rule[0]).path || r(argv[0]).base == r(rule[0]).base)
      else if rule[n - 1] == "*" then
        Fits(r, argv, rule) <==>
          && |argv| >= n - 1 && (exists i | 0 <= i < n - 1 :: rule[i] != "*")
          && (rule[0] == "*" || r(argv[0]).path == r(rule[0]).path || r(argv[0]).base == r(rule[0]).base)
          && forall i | 1 <= i < n - 1 :: rule[i] == "*" || argv[i] == rule[i]
      else
        Fits(r, argv, rule) <==> |argv| == n && forall i | 0 <= i < n :: rule[i] == "*" || argv[i] == rule[i]
  {
    var n, stem := |rule|, Stem(rule);
    if n == 1 {
      if rule[0] != "*" {
        BaseIsOpenTail(r, argv, rule[0]);
        assert rule == [rule[0]];
      }
    } else if rule[n - 1] == "*" {
      assert |stem| == n - 1 && forall i | 0 <= i < n - 1 :: stem[i] == rule[i];
      if |argv| >= n - 1 {
        assert ElementFits(r, argv, rule, 0) <==>
               rule[0] == "*" || r(argv[0]).path == r(rule[0]).path || r(argv[0]).base == r(rule[0]).base;
        assert forall i | 1 <= i < n - 1 :: ElementFits(r, argv, rule, i) <==> rule[i] == "*" || argv[i] == rule[i];
        assert (forall i | 0 <= i < n - 1 :: ElementFits(r, argv, rule, i)) <==>
               ElementFits(r, argv, rule, 0) && forall i | 1 <= i < n - 1 :: ElementFits(r, argv, rule, i);
      }
      assert Anchored(rule) <==> exists i | 0 <= i < n - 1 :: rule[i] != "*";
    } else {
      assert rule[n - 1] != STAR && stem == rule && Anchored(rule);
      if |argv| == n {
        assert forall i | 0 <= i < n :: ElementFits(r, argv, rule, i) <==> rule[i] == "*" || argv[i] == rule[i];
      }
    }
  }

  /** A base rule is the same rule as its binary followed by a star. */
  lemma BaseIsOpenTail(r: Resolver, argv: seq<string>, base: string)
    requires base != STAR
    ensures Fits(r, argv, [base]) <==> Fits(r, argv, [base, STAR])
    ensures Fits(r, argv, [base]) <==> argv != [] && SameExe(r, argv[0], base)
  {
    var one, two := [base], [base, STAR];
    assert one[0] == two[0] == base;
    assert Stem(two) == one == Stem(one);
    if argv != [] {
      assert ElementFits(r, argv, one, 0) <==> SameExe(r, argv[0], base);
      assert ElementFits(r, argv, two, 0) <==> SameExe(r, argv[0], base);
    }
  }

  /** A rule without stars stands for its own argument vector alone exactly when it has two or more
      elements: one element is read as a binary, with any arguments. */
  lemma ExactMeansEqual(r: Resolver, rule: Rule)
    requires STAR !in rule
    ensures (forall argv :: Fits(r, argv, rule) <==> argv == rule) <==> |rule| >= 2
  {
    if |rule| >= 2 {
      forall argv
        ensures Fits(r, argv, rule) <==> argv == rule
      {
        ExactFits(r, argv, rule);
      }
    } else if |rule| == 1 {
      var longer := rule + [""];
      BaseIsOpenTail(r, longer, rule[0]);
      assert rule == [rule[0]] && longer[0] == rule[0];
      assert Fits(r, longer, rule) && longer != rule;
    } else {
      assert !Fits(r, [], rule) && [] == rule;
    }
  }

  lemma ExactFits(r: Resolver, argv: seq<string>, rule: Rule)
    requires STAR !in rule && |rule| >= 2
    ensures Fits(r, argv, rule) <==> argv == rule
  {
    assert rule[|rule| - 1] in rule && rule[0] in rule;
    assert Stem(rule) == rule && !HasOpenTail(rule);
    if |argv| == |rule| {
      forall i | 0 <= i < |rule|
        ensures ElementFits(r, argv, rule, i) <==> argv[i] == rule[i]
      {
        assert rule[i] in rule;
      }
    }
  }

  // ----- The policy ----------------------------------------------------------------------------------

  datatype Policy = Policy(
    mode: string,
    whitelist: seq<Rule>,
    blacklist: seq<Rule>,
    confirm: seq<Rule>,
    default_: string,
    envKeep: seq<string>,
    target: string)

  /** A lone restricted binary on the whitelist is passed over. */
  predicate Allows(r: Resolver, argv: seq<string>, rule: Rule) {
    !(|rule| == 1 && Restricted(r, rule[0])) && Fits(r, argv, rule)
  }

  predicate Whitelisted(r: Resolver, p: Policy, argv: seq<string>) {
    exists rule | rule in p.whitelist :: Allows(r, argv, rule)
  }

  predicate Blacklisted(r: Resolver, p: Policy, argv: seq<string>) {
    exists rule | rule in p.blacklist :: Fits(r, argv, rule)
  }

  function TierOf(r: Resolver, p: Policy, argv: seq<string>): string {
    if Whitelisted(r, p, argv) then "allow"
    else if p.mode == "whitelist" || Blacklisted(r, p, argv) then "deny"
    else p.default_
  }

  /** An allowing whitelist rule comes first; without one, whitelist mode and a fitting blacklist rule deny;
      and without any of these the policy's default says. */
  method Tier(r: Resolver, p: Policy, argv: seq<string>) returns (tier: string)
    ensures tier == TierOf(r, p, argv)
    ensures var allowed := exists rule | rule in p.whitelist ::
              Fits(r, argv, rule) && !(|rule| == 1 && r(rule[0]).base in RESTRICTED);
      var denied := p.mode == "whitelist" || exists rule | rule in p.blacklist :: Fits(r, argv, rule);
      && (allowed ==> tier == "allow")
      && (!allowed && denied ==> tier == "deny")
      && (!allowed && !denied ==> tier == p.default_)
  {
    var i := 0;
    while i < |p.whitelist|
      invariant 0 <= i <= |p.whitelist|
      invariant forall k | 0 <= k < i :: !Allows(r, argv, p.whitelist[k])
    {
      var rule := p.whitelist[i];
      if |rule| != 1 || !Restricted(r, rule[0]) {
        var ok := MatchRule(r, argv, rule);
        if ok {
          assert rule in p.whitelist && Allows(r, argv, rule);
          return "allow";
        }
      }
      i := i + 1;
    }
    assert !Whitelisted(r, p, argv);
    if p.mode == "whitelist" {
      return "deny";
    }
    i := 0;
    while i < |p.blacklist|
      invariant 0 <= i <= |p.blacklist|
      invariant forall k | 0 <= k < i :: !Fits(r, argv, p.blacklist[k])
    {
      var ok := MatchRule(r, argv, p.blacklist[i]);
      if ok {
        assert p.blacklist[i] in p.blacklist;
        return "deny";
      }
      i := i + 1;
    }
    return p.default_;
  }

  method NeedsConfirm(p: Policy, argv: seq<string>) returns (needed: bool)
    ensures needed <==> argv in p.confirm
  {
    var i := 0;
    while i < |p.confirm|
      invariant 0 <= i <= |p.confirm| && argv !in p.confirm[..i]
    {
      var same := Equal(argv, p.confirm[i]);
      if same {
        return true;
      }
      i := i + 1;
    }
    return false;
  }

  function Members(rules: seq<Rule>): set<Rule> {
    set rule | rule in rules
  }

  /** The tier is a matter of which rules there are, not of their order or number; in whitelist mode
      the blacklist and the default do not matter at all. */
  lemma TierIgnoresOrder(r: Resolver, p: Policy, q: Policy, argv: seq<string>)
    requires p.mode == q.mode
    requires Members(p.whitelist) == Members(q.whitelist)
    requires p.mode != "whitelist" ==>
               Members(p.blacklist) == Members(q.blacklist) && p.default_ == q.default_
    ensures TierOf(r, p, argv) == TierOf(r, q, argv)
  {
    hide Allows, Fits;
    SameMembers(p.whitelist, q.whitelist);
    if p.mode != "whitelist" {
      SameMembers(p.blacklist, q.blacklist);
    }
  }

  lemma SameMembers(a: seq<Rule>, b: seq<Rule>)
    requires Members(a) == Members(b)
    ensures forall x :: x in a <==> x in b
  {
    forall x
      ensures x in a <==> x in b
    {
      assert x in a <==> x in Members(a);
      assert x in b <==> x in Members(b);
    }
  }

  // ----- Adding a rule -------------------------------------------------------------------------------

  datatype Target = Whitelist | Blacklist | OtherTarget
  datatype MatchType = Exact | Base | Custom | OtherType

  predicate Acceptable(r: Resolver, target: Target, kind: MatchType, pattern: Rule) {
    && !target.OtherTarget?
    && pattern != []
    && "" !in pattern
    && match kind {
         case Exact => STAR !in pattern
         case Base => |pattern| == 1 && pattern[0] != STAR && (target.Whitelist? ==> !Restricted(r, pattern[0]))
         case Custom => true
         case OtherType => false
       }
  }

  function RulesOf(p: Policy, target: Target): seq<Rule> {
    if target.Whitelist? then p.whitelist else p.blacklist
  }

  function WithRule(p: Policy, target: Target, rule: Rule): Policy {
    if rule in RulesOf(p, target) then p
    else if target.Whitelist? then p.(whitelist := p.whitelist + [rule])
    else p.(blacklist := p.blacklist + [rule])
  }

  function Normalised(p: Policy): Policy {
    p.(mode := if p.mode == "" then "blacklist" else p.mode,
       default_ := if p.default_ == "" then "ask" else p.default_)
  }

  const FRESH := Policy("blacklist", [], [], [], "ask", [], "")

  datatype AddResult = Added(policy: Policy, count: nat) | Refused

  method Check(r: Resolver, target: Target, kind: MatchType, pattern: Rule) returns (ok: bool)
    ensures ok <==> Acceptable(r, target, kind, pattern)
  {
    if target.OtherTarget? || |pattern| == 0 {
      return false;
    }
    var i := 0;
    while i < |pattern|
      invariant 0 <= i <= |pattern| && "" !in pattern[..i]
    {
      if pattern[i] == "" {
        return false;
      }
      i := i + 1;
    }
    assert pattern[..|pattern|] == pattern;
    match kind {
      case Exact =>
        i := 0;
        while i < |pattern|
          invariant 0 <= i <= |pattern| && STAR !in pattern[..i]
        {
          if pattern[i] == STAR {
            return false;
          }
          i := i + 1;
        }
      case Base =>
        if |pattern| != 1 || pattern[0] == STAR {
          return false;
        }
        if target.Whitelist? && Restricted(r, pattern[0]) {
          return false;
        }
      case Custom =>
      case OtherType =>
        return false;
    }
    return true;
  }

  class PolicyFile {
    /** What the file parses to; absent when it is missing or malformed. */
    var content: Option<Policy>

    function Current(): Policy
      reads this
    {
      Normalised(if content.Some? then content.value else FRESH)
    }

    method Load() returns (p: Policy)
      ensures p == Current() && p.mode != "" && p.default_ != ""
    {
      p := FRESH;
      if content.Some? {
        p := content.value;
      }
      if p.mode == "" {
        p := p.(mode := "blacklist");
      }
      if p.default_ == "" {
        p := p.(default_ := "ask");
      }
    }

    /** `writable` says whether replacing the file succeeds. */
    method AddRule(r: Resolver, target: Target, kind: MatchType, pattern: Rule, writable: bool) returns (res: AddResult)
      modifies this
      ensures res.Refused? <==>
                !Acceptable(r, target, kind, pattern) || (pattern !in RulesOf(old(Current()), target) && !writable)
      ensures res.Refused? ==> content == old(content)
      ensures res.Added? ==>
                && pattern != [] && !target.OtherTarget? && !kind.OtherType?
                && (forall k | 0 <= k < |pattern| :: pattern[k] != "")
                && (kind.Exact? ==> forall k | 0 <= k < |pattern| :: pattern[k] != "*")
                && (kind.Base? ==> |pattern| == 1 && pattern[0] != "*")
                && (kind.Base? && target.Whitelist? ==> r(pattern[0]).base !in RESTRICTED)
      ensures res.Added? ==>
                && Current() == WithRule(old(Current()), target, pattern) == res.policy
                && res.count == |RulesOf(Current(), target)|
    {
      var ok := Check(r, target, kind, pattern);
      if !ok {
        return Refused;
      }
      hide Acceptable;
      var p := Load();
      assert p == old(Current());
      var rules := if target.Whitelist? then p.whitelist else p.blacklist;
      var i := 0;
      while i < |rules|
        invariant 0 <= i <= |rules| && pattern !in rules[..i] && content == old(content)
      {
        var same := Equal(rules[i], pattern);
        if same {
          assert pattern in rules;
          return Added(p, |rules|);
        }
        i := i + 1;
      }
      assert rules[..|rules|] == rules;
      assert pattern !in RulesOf(old(Current()), target);
      if target.Whitelist? {
        p := p.(whitelist := p.whitelist + [pattern]);
      } else {
        p := p.(blacklist := p.blacklist + [pattern]);
      }
      if !writable {
        return Refused;
      }
      content := Some(p);
      assert p == WithRule(old(Current()), target, pattern);
      p := Load();
      return Added(p, |RulesOf(p, target)|);
    }
  }

  /** On a missing or malformed file every command is asked about, and none needs a second key. */
  lemma MissingFileAsks(r: Resolver, file: PolicyFile, argv: seq<string>)
    requires file.content.None?
    ensures TierOf(r, file.Current(), argv) == "ask" && file.Current().confirm == []
  {
    assert "blacklist"[0] != "whitelist"[0];
  }

  /** Adding to the whitelist allows what the rule fits and leaves every other verdict alone. */
  lemma WhitelistingChangesOnly(r: Resolver, p: Policy, rule: Rule, argv: seq<string>)
    ensures TierOf(r, WithRule(p, Whitelist, rule), argv)
         == if Allows(r, argv, rule) then "allow" else TierOf(r, p, argv)
  {
    var q := WithRule(p, Whitelist, rule);
    hide Allows;
    assert Whitelisted(r, q, argv) <==> Whitelisted(r, p, argv) || Allows(r, argv, rule) by {
      assert forall x :: x in q.whitelist <==> x in p.whitelist || x == rule;
    }
  }

  /** Adding to the blacklist denies what the rule fits, unless it is whitelisted. */
  lemma BlacklistingChangesOnly(r: Resolver, p: Policy, rule: Rule, argv: seq<string>)
    ensures TierOf(r, WithRule(p, Blacklist, rule), argv)
         == if Fits(r, argv, rule) && !Whitelisted(r, p, argv) then "deny" else TierOf(r, p, argv)
  {
    var q := WithRule(p, Blacklist, rule);
    hide Fits, Allows;
    assert Blacklisted(r, q, argv) <==> Blacklisted(r, p, argv) || Fits(r, argv, rule) by {
      assert forall x :: x in q.blacklist <==> x in p.blacklist || x == rule;
    }
  }

  /** An exact whitelist rule of two or more elements changes the verdict of its own argument vector
      and of no other; adding it again changes nothing. */
  lemma ExactRuleChangesOne(r: Resolver, p: Policy, rule: Rule, argv: seq<string>)
    requires STAR !in rule && |rule| >= 2
    ensures var q := WithRule(p, Whitelist, rule);
      && TierOf(r, q, argv) == (if argv == rule then "allow" else TierOf(r, p, argv))
      && WithRule(q, Whitelist, rule) == q
  {
    WhitelistingChangesOnly(r, p, rule, argv);
    ExactFits(r, argv, rule);
    assert rule in WithRule(p, Whitelist, rule).whitelist;
  }

  /** A one-element exact rule that names a restricted binary is accepted and never has an effect. */
  lemma RestrictedExactIsInert(r: Resolver, p: Policy, tool: string, argv: seq<string>)
    requires tool != "" && tool != STAR && Restricted(r, tool)
    ensures Acceptable(r, Whitelist, Exact, [tool]) && !Acceptable(r, Whitelist, Base, [tool])
    ensures TierOf(r, WithRule(p, Whitelist, [tool]), argv) == TierOf(r, p, argv)
  {
    WhitelistingChangesOnly(r, p, [tool], argv);
  }
}
