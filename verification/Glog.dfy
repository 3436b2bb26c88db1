/**
  * The glog-style log filter: a global level, per-call-site rules, and a cache
  * of rule look-ups by call site.
  */
module Glog {
  import opened Basics

  // A call site, named by its program counter.
  type Site = nat

  // A compiled rule: which call sites its expression matches, and the level it gives them.
  datatype Pattern = Pattern(matches: Site -> bool, level: int)

  // One comma-separated part of a rule set, as parsed.
  datatype Rule = Empty | Malformed | Well(pattern: Pattern)

  datatype Record = Record(lvl: int, site: Site)

  function AsUint32(v: int): (u: nat) { v % U32 }

  // ---------------------------------------------------------------------------
  // The filter without a cache
  // ---------------------------------------------------------------------------

  /** The level of the first rule that matches the site, or 0. */
  function Lookup(ps: seq<Pattern>, site: Site): (lvl: int)
  {
    if ps == [] then 0 else if ps[0].matches(site) then ps[0].level else Lookup(ps[1..], site)
  }

  lemma {:induction false} LookupFirst(ps: seq<Pattern>, site: Site, i: nat)
    requires i <= |ps| && forall j | 0 <= j < i :: !ps[j].matches(site)
    ensures i == |ps| ==> Lookup(ps, site) == 0
    ensures i < |ps| && ps[i].matches(site) ==> Lookup(ps, site) == ps[i].level
  {
    if i > 0 {
      assert !ps[0].matches(site);
      LookupFirst(ps[1..], site, i - 1);
    }
  }

  function Max(a: int, b: int): (m: int) { if a >= b then a else b }

  /** What a handler without a cache forwards. */
  predicate Allows(level: int, ps: seq<Pattern>, r: Record)
  {
    r.lvl <= Max(level, Lookup(ps, r.site))
  }

  // ---------------------------------------------------------------------------
  // The handler's steps
  // ---------------------------------------------------------------------------

  datatype Handler = Handler(
    level: nat, override: nat, patterns: seq<Pattern>,
    siteCache: Option<map<Site, int>>)     // None is the nil map

  const NEW_HANDLER := Handler(0, 0, [], None)

  /** The rules Vmodule keeps: those with a positive level. */
  function Kept(rules: seq<Rule>): (ps: seq<Pattern>)
  {
    if rules == [] then [] else
      Kept(rules[..|rules| - 1]) + KeptOne(rules[|rules| - 1])
  }

  function KeptOne(rule: Rule): (ps: seq<Pattern>)
  {
    if rule.Well? && rule.pattern.level > 0 then [rule.pattern] else []
  }

  /** The part is a rule that counts for the site. */
  predicate Applies(rule: Rule, site: Site)
  {
    rule.Well? && rule.pattern.level > 0 && rule.pattern.matches(site)
  }

  /** The level of the first part of the rule set that applies to the site, or 0. */
  function FirstLevel(rules: seq<Rule>, site: Site): (lvl: int)
  {
    if rules == [] then 0 else if Applies(rules[0], site) then rules[0].pattern.level else FirstLevel(rules[1..], site)
  }

  lemma {:induction false} KeptFront(rules: seq<Rule>)
    requires rules != []
    ensures Kept(rules) == KeptOne(rules[0]) + Kept(rules[1..])
  {
    hide Kept, KeptOne;
    KeptLast(rules);
    var first, last := KeptOne(rules[0]), KeptOne(rules[|rules| - 1]);
    if |rules| == 1 {
      assert rules[..0] == [] && rules[1..] == [];
      assert [] + first == first + [];
    } else {
      var before, rest := rules[..|rules| - 1], rules[1..];
      KeptFront(before);
      KeptLast(rest);
      assert rest[..|rest| - 1] == before[1..];
      assert first + Kept(before[1..]) + last == first + (Kept(before[1..]) + last);
    }
  }

  lemma KeptLast(rules: seq<Rule>)
    ensures Kept([]) == []
    ensures rules != [] ==> Kept(rules) == Kept(rules[..|rules| - 1]) + KeptOne(rules[|rules| - 1])
  {}

  /** Looking a site up in the rules kept finds the first part of the rule set that applies. */
  lemma {:induction false} LookupKept(rules: seq<Rule>, site: Site)
    ensures Lookup(Kept(rules), site) == FirstLevel(rules, site)
  {
    if rules != [] {
      KeptFront(rules);
      LookupKept(rules[1..], site);
      var one, more := KeptOne(rules[0]), Kept(rules[1..]);
      if one != [] { assert (one + more)[1..] == more; } else { assert one + more == more; }
    }
  }

  /** That is the first part that is a rule with a positive level whose expression matches the site. */
  lemma {:induction false} KeptFirst(rules: seq<Rule>, site: Site, i: nat)
    requires i <= |rules|
    requires forall j | 0 <= j < i :: !rules[j].Well? || rules[j].pattern.level <= 0 || !rules[j].pattern.matches(site)
    ensures i == |rules| ==> Lookup(Kept(rules), site) == 0
    ensures i < |rules| && rules[i].Well? && rules[i].pattern.level > 0 && rules[i].pattern.matches(site) ==>
              Lookup(Kept(rules), site) == rules[i].pattern.level
  {
    LookupKept(rules, site);
    if i > 0 {
      assert !Applies(rules[0], site);
      KeptFirst(rules[1..], site, i - 1);
      LookupKept(rules[1..], site);
    }
  }

  predicate WellFormed(rules: seq<Rule>)
  {
    forall i | 0 <= i < |rules| :: !rules[i].Malformed?
  }

  function VerbosityStep(h: Handler, level: int): (r: Handler)
  {
    h.(level := AsUint32(level))
  }

  function VmoduleStep(h: Handler, rules: seq<Rule>): (r: Handler)
  {
    if !WellFormed(rules) then h
    else Handler(h.level, AsUint32(|Kept(rules)|), Kept(rules), Some(map[]))
  }

  /** The handler after a record, and whether the record was forwarded. */
  function LogStep(h: Handler, r: Record): (res: (Handler, bool))
  {
    if h.level >= AsUint32(r.lvl) then (h, true)
    else if h.override == 0 then (h, false)
    else if h.siteCache.Some? && r.site in h.siteCache.value then (h, h.siteCache.value[r.site] >= r.lvl)
    else
      var lvl := Lookup(h.patterns, r.site);
      (h.(siteCache := Some(Cache(h)[r.site := lvl])), lvl >= r.lvl)
  }

  function Cache(h: Handler): (c: map<Site, int>)
  {
    if h.siteCache.Some? then h.siteCache.value else map[]
  }

  // ---------------------------------------------------------------------------
  // Every run
  // ---------------------------------------------------------------------------

  datatype Op = Verbosity(level: int) | Vmodule(rules: seq<Rule>) | Log(r: Record)

  function Step(h: Handler, op: Op): (r: Handler)
  {
    match op
    case Verbosity(level) => VerbosityStep(h, level)
    case Vmodule(rules) => VmoduleStep(h, rules)
    case Log(r) => LogStep(h, r).0
  }

  function Run(h: Handler, ops: seq<Op>): (r: Handler)
  {
    if ops == [] then h else Step(Run(h, ops[..|ops| - 1]), ops[|ops| - 1])
  }

  /** The cache exists when rules do, and every entry is what an uncached look-up gives. */
  ghost predicate Inv(h: Handler)
  {
    && h.level < U32 && h.override == AsUint32(|h.patterns|)
    && (h.siteCache.None? ==> h.patterns == [])
    && (h.siteCache.Some? ==> forall s | s in h.siteCache.value :: h.siteCache.value[s] == Lookup(h.patterns, s))
  }

  lemma {:induction false} RunInv(ops: seq<Op>)
    ensures Inv(Run(NEW_HANDLER, ops))
  {
    if ops != [] { RunInv(ops[..|ops| - 1]); }
  }

  /** The level last asked for and the rules last accepted. */
  function Settings(ops: seq<Op>): (s: (int, seq<Pattern>))
  {
    if ops == [] then (0, [])
    else
      var s := Settings(ops[..|ops| - 1]);
      match ops[|ops| - 1]
      case Verbosity(level) => (level, s.1)
      case Vmodule(rules) => if WellFormed(rules) then (s.0, Kept(rules)) else s
      case Log(r) => s
  }

  lemma {:induction false} RunSettings(ops: seq<Op>)
    ensures Run(NEW_HANDLER, ops).level == AsUint32(Settings(ops).0)
    ensures Run(NEW_HANDLER, ops).patterns == Settings(ops).1
  {
    if ops != [] { RunSettings(ops[..|ops| - 1]); }
  }

  /** The rules are looked at: their number, as a 32-bit flag, is not zero. */
  predicate Active(ps: seq<Pattern>) { AsUint32(|ps|) != 0 }

  /** What the handler forwards: levels are compared as 32-bit unsigned numbers, rule levels as integers. */
  predicate Passes(level: int, ps: seq<Pattern>, r: Record)
  {
    AsUint32(r.lvl) <= AsUint32(level) || (Active(ps) && r.lvl <= Lookup(ps, r.site))
  }

  /** After every run, a record is forwarded exactly if an uncached handler with the same settings would. */
  lemma ForwardedIff(ops: seq<Op>, r: Record)
    ensures LogStep(Run(NEW_HANDLER, ops), r).1 <==> Passes(Settings(ops).0, Settings(ops).1, r)
    ensures var (level, ps) := Settings(ops);
      LogStep(Run(NEW_HANDLER, ops), r).1 <==>
        r.lvl % 0x1_0000_0000 <= level % 0x1_0000_0000 || (|ps| % 0x1_0000_0000 != 0 && r.lvl <= Lookup(ps, r.site))
  {
    RunInv(ops);
    RunSettings(ops);
  }

  // ---------------------------------------------------------------------------
  // When that is the comparison of levels one expects
  // ---------------------------------------------------------------------------

  /** How often 2^32 goes into a level: 0 for the levels that fit 32 unsigned bits, -1 for small negative ones. */
  function Wraps(v: int): (q: int) { v / U32 }

  /** Two levels compare the same before and after they are cut to 32 bits. */
  predicate SameOrder(a: int, b: int)
  {
    Wraps(a) == Wraps(b) || (Wraps(a) < Wraps(b) <==> AsUint32(a) <= AsUint32(b))
  }

  /**
    * The records on which the handler does what one expects: one that a rule allows, if the rules are looked at
    * or the cut levels allow it too; any other, if its level and the global one keep their order when cut.
    */
  predicate Unaffected(level: int, ps: seq<Pattern>, r: Record)
  {
    if r.lvl <= Lookup(ps, r.site) then Active(ps) || AsUint32(r.lvl) <= AsUint32(level)
    else SameOrder(r.lvl, level)
  }

  lemma SameOrderIff(a: int, b: int)
    ensures SameOrder(a, b) <==> (AsUint32(a) <= AsUint32(b) <==> a <= b)
  {
    assert a == Wraps(a) * U32 + AsUint32(a) && b == Wraps(b) * U32 + AsUint32(b);
  }

  /** The level test is the expected one if and only if the record is unaffected by the cut to 32 bits. */
  lemma ForwardedIffAllowed(ops: seq<Op>, r: Record)
    ensures (LogStep(Run(NEW_HANDLER, ops), r).1 <==> Allows(Settings(ops).0, Settings(ops).1, r))
       <==> Unaffected(Settings(ops).0, Settings(ops).1, r)
  {
    hide SameOrder;
    ForwardedIff(ops, r);
    SameOrderIff(r.lvl, Settings(ops).0);
  }

  lemma {:induction false} KeptPositive(rules: seq<Rule>, site: Site)
    ensures Lookup(Kept(rules), site) >= 0
  {
    LookupKept(rules, site);
    FirstLevelPositive(rules, site);
  }

  lemma {:induction false} FirstLevelPositive(rules: seq<Rule>, site: Site)
    ensures FirstLevel(rules, site) >= 0
  {
    if rules != [] { FirstLevelPositive(rules[1..], site); }
  }

  lemma {:induction false} SettingsPositive(ops: seq<Op>, site: Site)
    ensures Lookup(Settings(ops).1, site) >= 0
  {
    if ops != [] {
      SettingsPositive(ops[..|ops| - 1], site);
      if ops[|ops| - 1].Vmodule? { KeptPositive(ops[|ops| - 1].rules, site); }
    }
  }

  /**
    * For levels of 31 bits and a sign, by the signs: a positive record level is treated as expected if the
    * global level is not negative or a rule allows the record; a negative one if there are rules, or if the
    * global level is negative and not below it; level 0 always.
    */
  lemma AllowedBySigns(ops: seq<Op>, r: Record)
    requires -0x8000_0000 <= r.lvl < 0x8000_0000 && -0x8000_0000 <= Settings(ops).0 < 0x8000_0000
    requires |Settings(ops).1| < U32
    ensures var (level, ps) := Settings(ops);
      (LogStep(Run(NEW_HANDLER, ops), r).1 <==> Allows(level, ps, r)) <==>
        if r.lvl > 0 then level >= 0 || r.lvl <= Lookup(ps, r.site)
        else if r.lvl < 0 then ps != [] || r.lvl <= level < 0
        else true
  {
    hide AsUint32, Settings, Lookup, Run, LogStep;
    ForwardedIff(ops, r);
    SettingsPositive(ops, r.site);
    Cut(r.lvl);
    Cut(Settings(ops).0);
    Cut(|Settings(ops).1|);
    NoRules(r.site);
  }

  lemma Cut(v: int)
    requires -0x8000_0000 <= v < U32
    ensures AsUint32(v) == if v >= 0 then v else v + U32
  {}

  lemma NoRules(site: Site)
    ensures Lookup([], site) == 0
  {}

  /** A global level of -1 lets every record through, also one that nothing allows. */
  lemma NegativeVerbosity(r: Record)
    ensures LogStep(Run(NEW_HANDLER, [Verbosity(-1)]), r).1
    ensures !Allows(Settings([Verbosity(-1)]).0, Settings([Verbosity(-1)]).1, Record(5, 0))
  {
    var ops := [Verbosity(-1)];
    assert ops[..0] == [];
    assert Settings(ops) == (-1, []);
    ForwardedIff(ops, r);
  }

  /** A negative record level is dropped by a new handler, though it is below every level. */
  lemma NegativeRecord()
    ensures !LogStep(Run(NEW_HANDLER, []), Record(-1, 0)).1 && Allows(Settings([]).0, Settings([]).1, Record(-1, 0))
  {
    ForwardedIff([], Record(-1, 0));
  }

  // ---------------------------------------------------------------------------
  // The handler
  // ---------------------------------------------------------------------------

  class GlogHandler {
    var level: nat
    var override: nat
    var patterns: seq<Pattern>
    var siteCache: Option<map<Site, int>>
    var origin: seq<Record>     // what was forwarded

    ghost function State(): (h: Handler)
      reads this
    {
      Handler(level, override, patterns, siteCache)
    }

    constructor ()
      ensures State() == NEW_HANDLER && origin == [] && Inv(State())
    {
      level, override, patterns, siteCache, origin := 0, 0, [], None, [];
    }

    method Verbosity(level: int)
      requires Inv(State())
      modifies this`level
      ensures State() == VerbosityStep(old(State()), level) && Inv(State())
      ensures this.level == level % 0x1_0000_0000
    {
      this.level := AsUint32(level);
    }

    /** Vmodule, on the parsed parts of the rule set. */
    method Vmodule(rules: seq<Rule>) returns (ok: bool)
      requires Inv(State())
      modifies this`patterns, this`siteCache, this`override
      ensures ok <==> forall i | 0 <= i < |rules| :: !rules[i].Malformed?
      ensures State() == VmoduleStep(old(State()), rules) && Inv(State())
      ensures !ok ==> State() == old(State())
      ensures ok ==> patterns == Kept(rules) && override == |Kept(rules)| % 0x1_0000_0000 && siteCache == Some(map[])
    {
      var filter: seq<Pattern> := [];
      for i := 0 to |rules|
        invariant unchanged(this)
        invariant filter == Kept(rules[..i]) && forall j | 0 <= j < i :: !rules[j].Malformed?
      {
        assert rules[..i + 1][..i] == rules[..i];
        if rules[i].Malformed? { return false; }
        if rules[i].Well? && rules[i].pattern.level > 0 { filter := filter + [rules[i].pattern]; }
      }
      assert rules[..|rules|] == rules;
      patterns, siteCache, override := filter, Some(map[]), AsUint32(|filter|);
      return true;
    }

    /** The first matching rule's level, or 0; remembered for the site. */
    method Classify(site: Site) returns (lvl: int)
      requires Inv(State()) && siteCache.Some?
      modifies this`siteCache
      ensures lvl == Lookup(patterns, site)
      ensures siteCache == Some(old(siteCache).value[site := lvl])
    {
      var i := 0;
      while i < |patterns| && !patterns[i].matches(site)
        invariant i <= |patterns| && forall j | 0 <= j < i :: !patterns[j].matches(site)
      {
        i := i + 1;
      }
      LookupFirst(patterns, site, i);
      lvl := if i < |patterns| then patterns[i].level else 0;
      siteCache := Some(siteCache.value[site := lvl]);
    }

    method Log(r: Record) returns (forwarded: bool)
      requires Inv(State())
      modifies this
      ensures (State(), forwarded) == LogStep(old(State()), r) && Inv(State())
      ensures forwarded <==> Passes(level, patterns, r)
      ensures forwarded <==> r.lvl % 0x1_0000_0000 <= level || (|patterns| % 0x1_0000_0000 != 0 && r.lvl <= Lookup(patterns, r.site))
      ensures 0 <= r.lvl < U32 && |patterns| < U32 ==> (forwarded <==> Allows(level, patterns, r))
      ensures origin == if forwarded then old(origin) + [r] else old(origin)
    {
      if level >= AsUint32(r.lvl) {
        origin := origin + [r];
        return true;
      }
      if override == 0 { return false; }
      var lvl;
      if siteCache.Some? && r.site in siteCache.value {
        lvl := siteCache.value[r.site];
      } else {
        lvl := Classify(r.site);
      }
      if lvl >= r.lvl {
        origin := origin + [r];
        return true;
      }
      return false;
    }
  }
}
