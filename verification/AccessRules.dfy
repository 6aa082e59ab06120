/** Access rules of a route: compiled once, matched on every request. */
module AccessRules {
  import opened Common
  import opened Paths

  type Addr = nat
  type Prefix = nat

  /**
   Text and address primitives, as arbitrary functions. `cidr` gives the prefixes of one
   source value, or nothing if it does not parse; `fold` compares without case.
   */
  datatype Env = Env(
    trim: string -> string,
    lower: string -> string,
    fold: (string, string) -> bool,
    cidr: string -> Option<seq<Prefix>>,
    contains: (Prefix, Addr) -> bool)

  datatype Rule = Rule(name: string, action: string, sources: seq<string>, paths: seq<string>)

  datatype Compiled = Compiled(
    index: nat, name: string, action: string,
    includes: seq<Prefix>, excludes: seq<Prefix>, patterns: seq<seq<string>>, anyPath: bool)

  const ALLOW := "allow"
  const AUTHENTICATE := "authenticate"
  const DENY := "deny"

  // ---------- what the raw rules mean ----------

  function ActionOf(env: Env, rule: Rule): string {
    env.lower(env.trim(rule.action))
  }

  predicate Blank(env: Env, raw: string) {
    env.trim(raw) == ""
  }

  predicate Negated(env: Env, raw: string) {
    "!" <= env.trim(raw)
  }

  /** The address part of a source entry. */
  function Target(env: Env, raw: string): string {
    var value := env.trim(raw);
    env.trim(if "!" <= value then value[1..] else value)
  }

  predicate GoodSource(env: Env, raw: string) {
    Blank(env, raw) || (env.cidr(Target(env, raw)).Some? && env.cidr(Target(env, raw)).value != [])
  }

  predicate GoodRule(env: Env, rule: Rule) {
    && ActionOf(env, rule) in {ALLOW, AUTHENTICATE, DENY}
    && forall s :: s in rule.sources ==> GoodSource(env, s)
  }

  ghost predicate Covers(env: Env, raw: string, ip: Addr) {
    env.cidr(Target(env, raw)).Some? && exists p :: p in env.cidr(Target(env, raw)).value && env.contains(p, ip)
  }

  /** No plain entry, or one that covers the address; and no negated entry that does. */
  ghost predicate SourcesAdmit(env: Env, sources: seq<string>, ip: Addr) {
    && ((forall s :: s in sources ==> Blank(env, s) || Negated(env, s)) ||
        (exists s :: s in sources && !Blank(env, s) && !Negated(env, s) && Covers(env, s, ip)))
    && !exists s :: s in sources && !Blank(env, s) && Negated(env, s) && Covers(env, s, ip)
  }

  predicate SegmentFits(env: Env, part: string, segment: string, foldCase: bool) {
    part == "*" || part == segment || (foldCase && env.fold(part, segment))
  }

  predicate PatternFits(env: Env, pattern: seq<string>, segments: seq<string>, foldCase: bool) {
    && |pattern| <= |segments|
    && forall i :: 0 <= i < |pattern| ==> SegmentFits(env, pattern[i], segments[i], foldCase)
  }

  /** Only blank paths, or one that the path lies at or below. Allow rules compare exactly. */
  ghost predicate PathsAdmit(env: Env, paths: seq<string>, foldCase: bool, path: string) {
    (forall p :: p in paths ==> Blank(env, p)) || (exists p :: p in paths && PathFits(env, p, foldCase, path))
  }

  predicate PathFits(env: Env, p: string, foldCase: bool, path: string) {
    !Blank(env, p) && PatternFits(env, Fields(env.trim(p)), Segments(path), foldCase)
  }

  ghost predicate RuleApplies(env: Env, rule: Rule, ip: Addr, path: string) {
    SourcesAdmit(env, rule.sources, ip) && PathsAdmit(env, rule.paths, ActionOf(env, rule) != ALLOW, path)
  }

  // ---------- compilation ----------

  /** The prefixes of the entries with the given sign, in order. */
  function PrefixesOf(env: Env, sources: seq<string>, negated: bool): seq<Prefix> {
    if sources == [] then []
    else
      var s := sources[|sources| - 1];
      PrefixesOf(env, sources[..|sources| - 1], negated) +
      (if Blank(env, s) || Negated(env, s) != negated || env.cidr(Target(env, s)).None? then []
       else env.cidr(Target(env, s)).value)
  }

  function PatternsOf(env: Env, paths: seq<string>): seq<seq<string>> {
    if paths == [] then []
    else
      var p := paths[|paths| - 1];
      PatternsOf(env, paths[..|paths| - 1]) + (if Blank(env, p) then [] else [Fields(env.trim(p))])
  }

  function CompiledRule(env: Env, rule: Rule, index: nat): Compiled {
    var patterns := PatternsOf(env, rule.paths);
    Compiled(index, env.trim(rule.name), ActionOf(env, rule),
             PrefixesOf(env, rule.sources, false), PrefixesOf(env, rule.sources, true), patterns, patterns == [])
  }

  /** Either all sources parse, or the first one that does not is returned. */
  method ParseSources(env: Env, sources: seq<string>)
    returns (includes: seq<Prefix>, excludes: seq<Prefix>, bad: Option<string>)
    ensures bad.None? <==> forall s :: s in sources ==> GoodSource(env, s)
    ensures bad.None? ==> includes == PrefixesOf(env, sources, false) && excludes == PrefixesOf(env, sources, true)
    ensures bad.Some? ==> bad.value in sources && !GoodSource(env, bad.value)
  {
    includes, excludes, bad := [], [], None;
    for i := 0 to |sources|
      invariant forall s :: s in sources[..i] ==> GoodSource(env, s)
      invariant includes == PrefixesOf(env, sources[..i], false) && excludes == PrefixesOf(env, sources[..i], true)
    {
      var raw := sources[i];
      assert sources[..i + 1] == sources[..i] + [raw];
      assert sources[..i + 1][..i] == sources[..i];
      var value := env.trim(raw);
      if value != "" {
        var negate := "!" <= value;
        var prefixes := env.cidr(env.trim(if negate then value[1..] else value));
        if prefixes.None? || prefixes.value == [] {
          assert raw in sources && !GoodSource(env, raw);
          return [], [], Some(raw);
        }
        if negate {
          excludes := excludes + prefixes.value;
        } else {
          includes := includes + prefixes.value;
        }
      }
    }
    assert sources[..|sources|] == sources;
  }

  method ParsePaths(env: Env, paths: seq<string>) returns (patterns: seq<seq<string>>)
    ensures patterns == PatternsOf(env, paths)
  {
    patterns := [];
    for i := 0 to |paths|
      invariant patterns == PatternsOf(env, paths[..i])
    {
      assert paths[..i + 1][..i] == paths[..i];
      var value := env.trim(paths[i]);
      if value != "" {
        patterns := patterns + [Fields(value)];
      }
    }
    assert paths[..|paths|] == paths;
  }

  datatype Outcome = Rules(rules: seq<Compiled>) | BadRule(index: nat)

  method CompileOne(env: Env, rule: Rule, index: nat) returns (c: Option<Compiled>)
    ensures c == if GoodRule(env, rule) then Some(CompiledRule(env, rule, index)) else None
  {
    var action := env.lower(env.trim(rule.action));
    if action != ALLOW && action != AUTHENTICATE && action != DENY {
      return None;
    }
    var includes, excludes, bad := ParseSources(env, rule.sources);
    if bad.Some? {
      return None;
    }
    var patterns := ParsePaths(env, rule.paths);
    return Some(Compiled(index, env.trim(rule.name), action, includes, excludes, patterns, |patterns| == 0));
  }

  /** Compiles all rules, or reports the first that has an unknown action or a bad source. */
  method Compile(env: Env, rules: seq<Rule>) returns (r: Outcome)
    ensures r.Rules? <==> forall i :: 0 <= i < |rules| ==> GoodRule(env, rules[i])
    ensures r.Rules? ==> |r.rules| == |rules| && forall i :: 0 <= i < |rules| ==> r.rules[i] == CompiledRule(env, rules[i], i + 1)
    ensures r.BadRule? ==> 0 < r.index <= |rules| && !GoodRule(env, rules[r.index - 1])
    ensures r.BadRule? ==> forall i :: 0 <= i < r.index - 1 ==> GoodRule(env, rules[i])
  {
    var out: seq<Compiled> := [];
    for i := 0 to |rules|
      invariant |out| == i
      invariant forall k :: 0 <= k < i ==> GoodRule(env, rules[k]) && out[k] == CompiledRule(env, rules[k], k + 1)
    {
      var c := CompileOne(env, rules[i], i + 1);
      if c.None? {
        return BadRule(i + 1);
      }
      out := out + [c.value];
    }
    return Rules(out);
  }

  // ---------- matching ----------

  predicate AnyContains(env: Env, prefixes: seq<Prefix>, ip: Addr) {
    exists p :: p in prefixes && env.contains(p, ip)
  }

  /** The method `matches` of a compiled rule. */
  predicate Matches(env: Env, c: Compiled, ip: Addr, path: string) {
    && (c.includes == [] || AnyContains(env, c.includes, ip))
    && !AnyContains(env, c.excludes, ip)
    && (c.anyPath || exists p :: p in c.patterns && PatternFits(env, p, Segments(path), c.action != ALLOW))
  }

  lemma {:induction false} PrefixesMean(env: Env, sources: seq<string>, negated: bool, ip: Addr)
    requires forall s :: s in sources ==> GoodSource(env, s)
    ensures AnyContains(env, PrefixesOf(env, sources, negated), ip) <==>
      exists s :: s in sources && !Blank(env, s) && Negated(env, s) == negated && Covers(env, s, ip)
    ensures PrefixesOf(env, sources, negated) == [] <==>
      forall s :: s in sources ==> Blank(env, s) || Negated(env, s) != negated
  {
    if sources != [] {
      var before, s := sources[..|sources| - 1], sources[|sources| - 1];
      assert sources == before + [s];
      PrefixesMean(env, before, negated, ip);
      PrefixesSnoc(env, before, s, negated, ip);
      assert forall x :: x in sources <==> x in before || x == s;
    }
  }

  lemma PrefixesSnoc(env: Env, before: seq<string>, s: string, negated: bool, ip: Addr)
    requires GoodSource(env, s)
    ensures AnyContains(env, PrefixesOf(env, before + [s], negated), ip) <==>
      AnyContains(env, PrefixesOf(env, before, negated), ip) || (!Blank(env, s) && Negated(env, s) == negated && Covers(env, s, ip))
    ensures PrefixesOf(env, before + [s], negated) == [] <==>
      PrefixesOf(env, before, negated) == [] && (Blank(env, s) || Negated(env, s) != negated)
  {
    assert (before + [s])[..|before|] == before;
  }

  lemma {:induction false} PatternsMean(env: Env, paths: seq<string>, q: seq<string>)
    ensures q in PatternsOf(env, paths) <==> exists p :: p in paths && !Blank(env, p) && Fields(env.trim(p)) == q
    ensures PatternsOf(env, paths) == [] <==> forall p :: p in paths ==> Blank(env, p)
  {
    if paths != [] {
      var before, p := paths[..|paths| - 1], paths[|paths| - 1];
      assert paths == before + [p];
      PatternsMean(env, before, q);
      assert forall x :: x in paths <==> x in before || x == p;
    }
  }

  lemma PathsMean(env: Env, paths: seq<string>, foldCase: bool, path: string)
    ensures PathsAdmit(env, paths, foldCase, path) <==>
      PatternsOf(env, paths) == [] || exists q :: q in PatternsOf(env, paths) && PatternFits(env, q, Segments(path), foldCase)
  {
    PatternsMean(env, paths, []);
    if p :| p in paths && PathFits(env, p, foldCase, path) {
      PatternsMean(env, paths, Fields(env.trim(p)));
    }
    if q :| q in PatternsOf(env, paths) && PatternFits(env, q, Segments(path), foldCase) {
      PatternsMean(env, paths, q);
      var p :| p in paths && !Blank(env, p) && Fields(env.trim(p)) == q;
      assert PathFits(env, p, foldCase, path);
    }
  }

  /** Compilation preserves meaning, rule by rule. */
  lemma CompiledMeansRaw(env: Env, rule: Rule, index: nat, ip: Addr, path: string)
    requires GoodRule(env, rule)
    ensures Matches(env, CompiledRule(env, rule, index), ip, path) <==> RuleApplies(env, rule, ip, path)
  {
    PrefixesMean(env, rule.sources, false, ip);
    PrefixesMean(env, rule.sources, true, ip);
    PathsMean(env, rule.paths, ActionOf(env, rule) != ALLOW, path);
  }

  /** An allow rule must match both views of the path, any other rule either. */
  predicate Hit(action: string, raw: bool, plain: bool) {
    if action == ALLOW then raw && plain else raw || plain
  }

  ghost predicate RuleHits(env: Env, rule: Rule, ip: Addr, path: string) {
    Hit(ActionOf(env, rule), RuleApplies(env, rule, ip, path), RuleApplies(env, rule, ip, StripParams(path)))
  }

  predicate CompiledHits(env: Env, c: Compiled, ip: Addr, path: string) {
    Hit(c.action, Matches(env, c, ip, path), Matches(env, c, ip, StripParams(path)))
  }

  /** `k` is the first rule that hits, or the number of rules if none does. */
  ghost predicate FirstRaw(env: Env, rules: seq<Rule>, ip: Addr, path: string, k: nat) {
    && k <= |rules|
    && (forall i :: 0 <= i < k ==> !RuleHits(env, rules[i], ip, path))
    && (k < |rules| ==> RuleHits(env, rules[k], ip, path))
  }

  ghost predicate FirstCompiled(env: Env, rules: seq<Compiled>, ip: Addr, path: string, k: nat) {
    && k <= |rules|
    && (forall i :: 0 <= i < k ==> !CompiledHits(env, rules[i], ip, path))
    && (k < |rules| ==> CompiledHits(env, rules[k], ip, path))
  }

  /**
   Matching the compiled rules is first-match interpretation of the raw list: the same rule
   wins, and it carries its 1-based position in that list.
   */
  lemma CompilationPreservesFirstMatch(env: Env, rules: seq<Rule>, compiled: seq<Compiled>, ip: Addr, path: string, k: nat)
    requires |compiled| == |rules|
    requires forall i :: 0 <= i < |rules| ==> GoodRule(env, rules[i]) && compiled[i] == CompiledRule(env, rules[i], i + 1)
    ensures FirstCompiled(env, compiled, ip, path, k) <==> FirstRaw(env, rules, ip, path, k)
    ensures k < |compiled| ==> compiled[k].index == k + 1
  {
    forall i | 0 <= i < |rules| ensures CompiledHits(env, compiled[i], ip, path) <==> RuleHits(env, rules[i], ip, path) {
      CompiledMeansRaw(env, rules[i], i + 1, ip, path);
      CompiledMeansRaw(env, rules[i], i + 1, ip, StripParams(path));
    }
  }

  /** `matchAccessRule`: the position of the winning rule, or the number of rules. */
  method MatchRule(env: Env, rules: seq<Compiled>, ip: Addr, path: string) returns (k: nat)
    ensures FirstCompiled(env, rules, ip, path, k)
  {
    var stripped := StripParams(path);
    for i := 0 to |rules|
      invariant forall j :: 0 <= j < i ==> !CompiledHits(env, rules[j], ip, path)
    {
      var raw := Matches(env, rules[i], ip, path);
      var plain := raw;
      if stripped != path {
        plain := Matches(env, rules[i], ip, stripped);
      }
      var hit := raw || plain;
      if rules[i].action == ALLOW {
        hit := raw && plain;
      }
      if hit {
        return i;
      }
    }
    return |rules|;
  }

  /** `FirstMatchingAccessRule`: nothing on a list that does not compile, else the raw first match. */
  method FirstMatching(env: Env, rules: seq<Rule>, ip: Addr, path: string) returns (index: nat, ok: bool)
    ensures ok ==> 0 < index <= |rules| && FirstRaw(env, rules, ip, path, index - 1)
    ensures ok ==> forall i :: 0 <= i < |rules| ==> GoodRule(env, rules[i])
    ensures !ok ==> index == 0
    ensures !ok ==> FirstRaw(env, rules, ip, path, |rules|) || exists i :: 0 <= i < |rules| && !GoodRule(env, rules[i])
  {
    var compiled := Compile(env, rules);
    if compiled.BadRule? {
      return 0, false;
    }
    var k := MatchRule(env, compiled.rules, ip, path);
    CompilationPreservesFirstMatch(env, rules, compiled.rules, ip, path, k);
    if k < |compiled.rules| {
      return compiled.rules[k].index, true;
    }
    return 0, false;
  }

  /** What one view of the path alone decides: the action of the first rule that applies to it. */
  ghost predicate AloneDecides(env: Env, rules: seq<Rule>, ip: Addr, path: string, action: string) {
    exists k :: 0 <= k < |rules| && FirstAlone(env, rules, ip, path, k) && ActionOf(env, rules[k]) == action
  }

  ghost predicate FirstAlone(env: Env, rules: seq<Rule>, ip: Addr, path: string, k: nat) {
    && k < |rules| && RuleApplies(env, rules[k], ip, path)
    && forall i :: 0 <= i < k ==> !RuleApplies(env, rules[i], ip, path)
  }

  lemma {:induction false} LeastTrue(bs: seq<bool>, k: nat) returns (j: nat)
    requires k < |bs| && bs[k]
    ensures j <= k && bs[j] && forall i :: 0 <= i < j ==> !bs[i]
  {
    if i :| 0 <= i < k && bs[i] {
      j := LeastTrue(bs, i);
    } else {
      j := k;
    }
  }

  /**
   Whatever the two views are: if an allow rule is the first combined hit, then the first
   rule that either view meets is an allow rule.
   */
  lemma FirstMetAllows(actions: seq<string>, view: seq<bool>, other: seq<bool>, k: nat) returns (j: nat)
    requires |actions| == |view| == |other| && k < |actions| && actions[k] == ALLOW
    requires Hit(actions[k], view[k], other[k])
    requires forall i :: 0 <= i < k ==> !Hit(actions[i], view[i], other[i])
    ensures j < |actions| && actions[j] == ALLOW && view[j] && forall i :: 0 <= i < j ==> !view[i]
  {
    j := LeastTrue(view, k);
  }

  ghost function Met(env: Env, rules: seq<Rule>, ip: Addr, path: string): seq<bool> {
    seq(|rules|, i requires 0 <= i < |rules| => RuleApplies(env, rules[i], ip, path))
  }

  lemma MetDecides(env: Env, rules: seq<Rule>, ip: Addr, path: string, j: nat)
    requires j < |rules| && ActionOf(env, rules[j]) == ALLOW
    requires Met(env, rules, ip, path)[j] && forall i :: 0 <= i < j ==> !Met(env, rules, ip, path)[i]
    ensures AloneDecides(env, rules, ip, path, ALLOW)
  {
    assert FirstAlone(env, rules, ip, path, j) by {
      forall i | 0 <= i < j ensures !RuleApplies(env, rules[i], ip, path) {
        assert !Met(env, rules, ip, path)[i];
      }
    }
  }

  /** A combined allow is never weaker than either view: each alone decides allow as well. */
  lemma AllowIsSafe(env: Env, rules: seq<Rule>, ip: Addr, path: string, k: nat)
    requires FirstRaw(env, rules, ip, path, k) && k < |rules| && ActionOf(env, rules[k]) == ALLOW
    ensures AloneDecides(env, rules, ip, path, ALLOW)
    ensures AloneDecides(env, rules, ip, StripParams(path), ALLOW)
  {
    var actions := seq(|rules|, i requires 0 <= i < |rules| => ActionOf(env, rules[i]));
    var raw, plain := Met(env, rules, ip, path), Met(env, rules, ip, StripParams(path));
    forall i | 0 <= i <= k ensures Hit(actions[i], raw[i], plain[i]) <==> i == k {
      assert RuleHits(env, rules[i], ip, path) <==> i == k;
    }
    var j := FirstMetAllows(actions, raw, plain, k);
    MetDecides(env, rules, ip, path, j);
    j := FirstMetAllows(actions, plain, raw, k);
    MetDecides(env, rules, ip, StripParams(path), j);
  }

  /** A rule that applies to a path applies to everything below it. */
  lemma RuleAppliesBelow(env: Env, rule: Rule, ip: Addr, path: string, suffix: string)
    requires RuleApplies(env, rule, ip, path)
    ensures RuleApplies(env, rule, ip, path + "/" + suffix)
  {
    SegmentsExtend(path, suffix);
    var foldCase := ActionOf(env, rule) != ALLOW;
    if p :| p in rule.paths && PathFits(env, p, foldCase, path) {
      assert PathFits(env, p, foldCase, path + "/" + suffix);
    }
  }

  /** And so does the combined decision over the raw and the stripped path. */
  lemma RuleHitsBelow(env: Env, rule: Rule, ip: Addr, path: string, suffix: string)
    requires RuleHits(env, rule, ip, path)
    ensures RuleHits(env, rule, ip, path + "/" + suffix)
  {
    StripAtSlash(path, suffix);
    if RuleApplies(env, rule, ip, path) {
      RuleAppliesBelow(env, rule, ip, path, suffix);
    }
    if RuleApplies(env, rule, ip, StripParams(path)) {
      RuleAppliesBelow(env, rule, ip, StripParams(path), StripParams(suffix));
    }
  }

  // ---------- what a pattern and a view decide ----------

  /** A rule for one path and every source applies exactly if each part is a star, the segment, or but for case the segment. */
  lemma OnePatternApplies(env: Env, rule: Rule, p: string, ip: Addr, path: string)
    requires rule.sources == [] && rule.paths == [p] && env.trim(p) != ""
    ensures var parts, segments := Fields(env.trim(p)), Segments(path);
      RuleApplies(env, rule, ip, path) <==>
        && |parts| <= |segments|
        && forall i :: 0 <= i < |parts| ==>
             parts[i] == "*" || parts[i] == segments[i] || (ActionOf(env, rule) != "allow" && env.fold(parts[i], segments[i]))
  {
    assert p in rule.paths;
    if RuleApplies(env, rule, ip, path) {
      assert PathFits(env, p, ActionOf(env, rule) != ALLOW, path);
    }
  }

  /** So a deny rule meets a segment that differs only by case, and an allow rule does not. */
  lemma CaseMattersToAllow(env: Env, rule: Rule, p: string, ip: Addr, path: string, i: nat)
    requires rule.sources == [] && rule.paths == [p] && env.trim(p) != ""
    requires var parts, segments := Fields(env.trim(p)), Segments(path);
      && i < |parts| <= |segments|
      && (forall k :: 0 <= k < |parts| && k != i ==> parts[k] == segments[k])
      && parts[i] != "*" && parts[i] != segments[i] && env.fold(parts[i], segments[i])
    ensures ActionOf(env, rule) == DENY ==> RuleApplies(env, rule, ip, path)
    ensures ActionOf(env, rule) == ALLOW ==> !RuleApplies(env, rule, ip, path)
  {
    OnePatternApplies(env, rule, p, ip, path);
  }

  /** A rule that does not allow hits if it applies to the path or to the stripped path, an allow rule needs both. */
  lemma EitherViewDenies(env: Env, rule: Rule, ip: Addr, path: string)
    ensures RuleHits(env, rule, ip, path) <==>
      if env.lower(env.trim(rule.action)) == "allow"
      then RuleApplies(env, rule, ip, path) && RuleApplies(env, rule, ip, StripParams(path))
      else RuleApplies(env, rule, ip, path) || RuleApplies(env, rule, ip, StripParams(path))
  {
  }

  /** A source list admits by its signs: no plain entry is everyone, one that covers is enough, a negated one that covers is fatal. */
  lemma SourceSigns(env: Env, plain: string, negated: string, ip: Addr)
    requires env.trim(plain) != "" && !("!" <= env.trim(plain)) && "!" <= env.trim(negated)
    ensures SourcesAdmit(env, [], ip)
    ensures SourcesAdmit(env, [plain], ip) <==> Covers(env, plain, ip)
    ensures SourcesAdmit(env, [negated], ip) <==> !Covers(env, negated, ip)
    ensures SourcesAdmit(env, [plain, negated], ip) <==> Covers(env, plain, ip) && !Covers(env, negated, ip)
  {
    assert plain in [plain] && negated in [negated] && plain in [plain, negated] && negated in [plain, negated];
  }

  /** A source entry names what follows its exclamation mark, if it has one. */
  lemma CoversMeans(env: Env, raw: string, ip: Addr)
    ensures var value := env.trim(raw);
      var prefixes := env.cidr(env.trim(if value != "" && value[0] == '!' then value[1..] else value));
      Covers(env, raw, ip) <==> prefixes.Some? && exists p :: p in prefixes.value && env.contains(p, ip)
  {
    assert "!" <= env.trim(raw) <==> env.trim(raw) != "" && env.trim(raw)[0] == '!';
  }

  /** A rule compiles exactly if its action is one of three words, in any case, and each entry is blank or parses to prefixes. */
  lemma GoodRuleMeans(env: Env, rule: Rule)
    ensures GoodRule(env, rule) <==>
      && env.lower(env.trim(rule.action)) in {"allow", "authenticate", "deny"}
      && forall s :: s in rule.sources && !Blank(env, s) ==> env.cidr(Target(env, s)).Some? && env.cidr(Target(env, s)).value != []
  {
  }
}
