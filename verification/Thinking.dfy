/**
 * Normalising a thinking configuration against what a model supports (internal/thinking/validate.go,
 * internal/thinking/convert.go).
 */
module Thinking {
  import opened Wrappers
  import opened Text

  datatype Mode = BudgetMode | LevelMode | NoneMode | AutoMode

  datatype Config = Config(mode: Mode, budget: int, level: string)

  datatype Support = Support(min: int, max: int, zeroAllowed: bool, dynamicAllowed: bool, levels: seq<string>)

  datatype Error = NotSupported | UnknownLevel | LevelNotSupported | BudgetOutOfRange

  datatype Capability = NoCapability | BudgetOnly | LevelOnly | Hybrid

  function DetectCapability(s: Support): Capability {
    var hasBudget, hasLevels := s.min > 0 || s.max > 0, |s.levels| > 0;
    if hasBudget && hasLevels then Hybrid
    else if hasBudget then BudgetOnly
    else if hasLevels then LevelOnly
    else NoCapability
  }

  // ---------- levels ----------

  const NONE := "none"
  const AUTO := "auto"

  /** The standard levels from lowest to highest. */
  const STANDARD: seq<string> := ["minimal", "low", "medium", "high", "xhigh"]

  const MEDIUM := 2

  predicate Supported(level: string, levels: seq<string>) {
    exists i :: 0 <= i < |levels| && EqualFold(level, TrimSpace(levels[i]))
  }

  /** Where a name stands among the standard levels, or -1. */
  function LevelIndex(level: string): (k: int)
    ensures -1 <= k < |STANDARD|
  {
    if EqualFold(level, STANDARD[0]) then 0
    else if EqualFold(level, STANDARD[1]) then 1
    else if EqualFold(level, STANDARD[2]) then 2
    else if EqualFold(level, STANDARD[3]) then 3
    else if EqualFold(level, STANDARD[4]) then 4
    else -1
  }

  function LevelBudget(level: string): Option<int> {
    var l := ToLower(level);
    if l == NONE then Some(0)
    else if l == AUTO then Some(-1)
    else if l == STANDARD[0] then Some(512)
    else if l == STANDARD[1] then Some(1024)
    else if l == STANDARD[2] then Some(8192)
    else if l == STANDARD[3] then Some(24576)
    else if l == STANDARD[4] then Some(32768)
    else None
  }

  /** The standard level of a positive budget. */
  function BudgetIndex(budget: int): (k: nat)
    requires budget > 0
    ensures k < |STANDARD|
  {
    if budget <= 512 then 0
    else if budget <= 1024 then 1
    else if budget <= 8192 then 2
    else if budget <= 24576 then 3
    else 4
  }

  function BudgetLevel(budget: int): Option<string> {
    if budget < -1 then None
    else if budget == -1 then Some(AUTO)
    else if budget == 0 then Some(NONE)
    else Some(STANDARD[BudgetIndex(budget)])
  }

  predicate Lists(levels: seq<string>, i: int) {
    exists k :: 0 <= k < |levels| && LevelIndex(TrimSpace(levels[k])) == i
  }

  /** The standard levels a model lists. */
  function Listed(levels: seq<string>): (r: set<int>)
    ensures forall i :: i in r ==> 0 <= i < |STANDARD|
  {
    set i | 0 <= i < |STANDARD| && Lists(levels, i)
  }

  /** The nearest listed position: looking outward from `pos`, the lower side first. */
  function Nearest(pos: int, listed: set<int>, distance: nat): (r: int)
    requires 0 <= pos < |STANDARD| && listed != {}
    requires forall i :: i in listed ==> 0 <= i < |STANDARD| && Abs(pos - i) >= distance
    ensures r in listed
    ensures forall i :: i in listed ==> Abs(pos - r) <= Abs(pos - i) && (Abs(pos - r) == Abs(pos - i) ==> r <= i)
    decreases |STANDARD| - distance
  {
    if pos - distance in listed then pos - distance
    else if pos + distance in listed then pos + distance
    else
      assert forall i :: i in listed ==> Abs(pos - i) > distance;
      assert distance < |STANDARD| by {
        var i :| i in listed;
        assert Abs(pos - i) < |STANDARD|;
      }
      Nearest(pos, listed, distance + 1)
  }

  /** The level itself when it is supported or unknown, or else the nearest supported standard level. */
  function ClampLevel(level: string, levels: seq<string>): string {
    var pos := LevelIndex(level);
    if Supported(level, levels) || pos == -1 || Listed(levels) == {} then level
    else STANDARD[Nearest(pos, Listed(levels), 0)]
  }

  function ClampBudget(value: int, s: Support): int {
    if value == -1 then value
    else if value == 0 && !s.zeroAllowed then s.min
    else if s.min == 0 && s.max == 0 then value
    else if value < s.min then (if value == 0 && s.zeroAllowed then 0 else s.min)
    else if value > s.max then s.max
    else value
  }

  // ---------- providers ----------

  predicate BudgetBased(provider: string) {
    provider in {"gemini", "gemini-cli", "antigravity", "claude"}
  }

  predicate LevelBased(provider: string) {
    provider in {"openai", "openai-response", "codex"}
  }

  predicate GeminiFamily(provider: string) {
    provider in {"gemini", "gemini-cli", "antigravity"}
  }

  predicate SameFamily(from: string, to: string) {
    from == to || (GeminiFamily(from) && GeminiFamily(to))
  }

  const CLAUDE := "claude"

  /** How a request is to be validated: may unsupported levels be clamped, are budgets strict, is the target Claude. */
  datatype Rules = Rules(clampLevels: bool, strict: bool, claude: bool)

  function RulesFor(fromFormat: string, toFormat: string, fromSuffix: bool): Rules {
    var from, to := ToLower(TrimSpace(fromFormat)), ToLower(TrimSpace(toFormat));
    Rules(BudgetBased(from) && LevelBased(to), !fromSuffix && from != "" && SameFamily(from, to), to == CLAUDE)
  }

  // ---------- the steps of validation ----------

  /** A configuration under way, and whether its budget stands for a level. */
  datatype Draft = Draft(config: Config, derived: bool)

  function Convert(c: Config, s: Support): Result<Draft, Error> {
    var capability := DetectCapability(s);
    if capability.BudgetOnly? && c.mode.LevelMode? && c.level != AUTO then
      var budget := LevelBudget(c.level);
      if budget.None? then Err(UnknownLevel) else Ok(Draft(Config(BudgetMode, budget.value, ""), true))
    else if capability.LevelOnly? && c.mode.BudgetMode? then
      var level := BudgetLevel(c.budget);
      if level.None?
        then Err(UnknownLevel) else Ok(Draft(Config(LevelMode, 0, ClampLevel(level.value, s.levels)), false))
    else Ok(Draft(c, false))
  }

  /** Named special levels and the zero budget become modes. */
  function Specials(c: Config): Config {
    if c.mode.LevelMode? && c.level == NONE then Config(NoneMode, 0, "")
    else if c.mode.LevelMode? && c.level == AUTO then Config(AutoMode, -1, "")
    else if c.mode.BudgetMode? && c.budget == 0 then Config(NoneMode, 0, "")
    else c
  }

  function CheckLevel(c: Config, s: Support, rules: Rules): Result<Config, Error> {
    if |s.levels| == 0 || !c.mode.LevelMode? || Supported(c.level, s.levels) then Ok(c)
    else
      var d := if rules.clampLevels then c.(level := ClampLevel(c.level, s.levels)) else c;
      if Supported(d.level, s.levels) then Ok(d) else Err(LevelNotSupported)
  }

  predicate BudgetRefused(c: Config, derived: bool, s: Support, rules: Rules) {
    && rules.strict && c.mode.BudgetMode? && !derived
    && (s.min != 0 || s.max != 0)
    && (c.budget < s.min || c.budget > s.max || (c.budget == 0 && !s.zeroAllowed))
  }

  /** Auto without dynamic thinking: the medium level, or the middle of the range. */
  function MidRange(c: Config, s: Support): Config {
    if |s.levels| > 0 && s.min == 0 && s.max == 0 then Config(LevelMode, 0, STANDARD[MEDIUM])
    else
      var mid := Quotient(s.min + s.max, 2);
      if mid <= 0 && s.zeroAllowed then c.(mode := NoneMode, budget := 0)
      else if mid <= 0 then c.(mode := BudgetMode, budget := s.min)
      else c.(mode := BudgetMode, budget := mid)
  }

  function Finish(c: Config, s: Support, rules: Rules): Config {
    if c.mode.NoneMode? && rules.claude then c.(budget := 0, level := "")
    else if c.mode.LevelMode? then c
    else
      var d := c.(budget := ClampBudget(c.budget, s));
      if d.mode.NoneMode? && d.budget > 0 && |s.levels| > 0 then d.(level := s.levels[0]) else d
  }

  function Complete(d: Draft, s: Support, rules: Rules): Result<Config, Error> {
    var checked := CheckLevel(Specials(d.config), s, rules);
    if checked.Err? then checked
    else if BudgetRefused(checked.value, d.derived, s, rules) then Err(BudgetOutOfRange)
    else
      var c := checked.value;
      Ok(Finish(if c.mode.AutoMode? && !s.dynamicAllowed then MidRange(c, s) else c, s, rules))
  }

  function Validated(c: Config, support: Option<Support>, rules: Rules): Result<Config, Error> {
    if support.None? then if c.mode.NoneMode? then Ok(c) else Err(NotSupported)
    else
      var draft := Convert(c, support.value);
      if draft.Err? then Err(draft.error) else Complete(draft.value, support.value, rules)
  }

  // ---------- the code ----------

  method IsLevelSupported(level: string, supported: seq<string>) returns (r: bool)
    ensures r == Supported(level, supported)
  {
    for i := 0 to |supported|
      invariant forall k :: 0 <= k < i ==> !EqualFold(level, TrimSpace(supported[k]))
    {
      if EqualFold(level, TrimSpace(supported[i])) {
        return true;
      }
    }
    return false;
  }

  method LevelPosition(level: string) returns (r: int)
    ensures r == LevelIndex(level)
  {
    for i := 0 to |STANDARD|
      invariant forall k :: 0 <= k < i ==> !EqualFold(level, STANDARD[k])
    {
      if EqualFold(level, STANDARD[i]) {
        return i;
      }
    }
    return -1;
  }

  /** The best of the listed levels seen so far: the nearest, and the lower one of two equally near. */
  ghost predicate Best(pos: int, listed: set<int>, bestIdx: int, bestDist: int) {
    if bestIdx < 0 then listed == {} && bestDist == |STANDARD| + 1
    else
      && bestIdx in listed && bestDist == Abs(pos - bestIdx)
      && forall i :: i in listed ==> bestDist <= Abs(pos - i) && (bestDist == Abs(pos - i) ==> bestIdx <= i)
  }

  lemma ListedMore(levels: seq<string>, i: nat)
    requires i < |levels|
    ensures var k := LevelIndex(TrimSpace(levels[i]));
            Listed(levels[..i + 1]) == Listed(levels[..i]) + if k == -1 then {} else {k}
  {
    hide LevelIndex;
    var k := LevelIndex(TrimSpace(levels[i]));
    var before, after := Listed(levels[..i]), Listed(levels[..i + 1]);
    assert levels[..i + 1][i] == levels[i];
    forall j | j in before
      ensures j in after
    {
      var m :| 0 <= m < i && LevelIndex(TrimSpace(levels[..i][m])) == j;
      assert levels[..i + 1][m] == levels[..i][m];
    }
    forall j | j in after
      ensures j in before || j == k
    {
      var m :| 0 <= m < i + 1 && LevelIndex(TrimSpace(levels[..i + 1][m])) == j;
      assert m < i ==> levels[..i][m] == levels[..i + 1][m];
    }
  }

  lemma BestIsNearest(pos: int, listed: set<int>, bestIdx: int, bestDist: int)
    requires 0 <= pos < |STANDARD| && Best(pos, listed, bestIdx, bestDist) && bestIdx >= 0
    requires forall i :: i in listed ==> 0 <= i < |STANDARD|
    ensures bestIdx in listed && bestIdx == Nearest(pos, listed, 0)
  {
  }

  method ClampToLevel(level: string, levels: seq<string>) returns (r: string)
    ensures r == ClampLevel(level, levels)
  {
    hide LevelIndex, Supported, Listed, Nearest;
    var supported := IsLevelSupported(level, levels);
    if |levels| == 0 || supported {
      assert |levels| == 0 ==> Listed(levels) == {} by {
        NoneListed();
      }
      return level;
    }
    var pos := LevelPosition(level);
    if pos == -1 {
      return level;
    }
    var bestIdx, bestDist := -1, |STANDARD| + 1;
    NoneListed();
    assert levels[..0] == [];
    for i := 0 to |levels|
      invariant Best(pos, Listed(levels[..i]), bestIdx, bestDist)
    {
      ListedMore(levels, i);
      var idx := LevelPosition(TrimSpace(levels[i]));
      if idx != -1 {
        var dist: int := Abs(pos - idx);
        if dist < bestDist || (dist == bestDist && idx < bestIdx) {
          bestIdx, bestDist := idx, dist;
        }
      }
    }
    assert levels[..|levels|] == levels;
    if bestIdx >= 0 {
      BestIsNearest(pos, Listed(levels), bestIdx, bestDist);
      return STANDARD[bestIdx];
    }
    return level;
  }

  lemma NoneListed()
    ensures Listed([]) == {}
  {
  }

  method ClampToBudget(value: int, s: Support) returns (r: int)
    ensures r == ClampBudget(value, s)
  {
    if value == -1 {
      return value;
    }
    if value == 0 && !s.zeroAllowed {
      return s.min;
    }
    if s.min == 0 && s.max == 0 {
      return value;
    }
    if value < s.min {
      if value == 0 && s.zeroAllowed {
        return 0;
      }
      return s.min;
    }
    if value > s.max {
      return s.max;
    }
    return value;
  }

  method ConvertAutoToMidRange(c: Config, s: Support) returns (r: Config)
    ensures r == MidRange(c, s)
  {
    r := c;
    if |s.levels| > 0 && s.min == 0 && s.max == 0 {
      r := r.(mode := LevelMode, level := STANDARD[MEDIUM], budget := 0);
      return;
    }
    var mid := Quotient(s.min + s.max, 2);
    if mid <= 0 && s.zeroAllowed {
      r := r.(mode := NoneMode, budget := 0);
    } else if mid <= 0 {
      r := r.(mode := BudgetMode, budget := s.min);
    } else {
      r := r.(mode := BudgetMode, budget := mid);
    }
  }

  /** The first half: between budgets and levels, as the model's capability asks. */
  method ConvertFormat(c: Config, s: Support) returns (r: Result<Draft, Error>)
    ensures r == Convert(c, s)
  {
    hide LevelBudget, BudgetLevel, ClampLevel;
    var config, derived := c, false;
    match DetectCapability(s) {
      case BudgetOnly =>
        if config.mode.LevelMode? && config.level != AUTO {
          var budget := LevelBudget(config.level);
          if budget.None? {
            return Err(UnknownLevel);
          }
          config := Config(BudgetMode, budget.value, "");
          derived := true;
        }
      case LevelOnly =>
        if config.mode.BudgetMode? {
          var level := BudgetLevel(config.budget);
          if level.None? {
            return Err(UnknownLevel);
          }
          var clamped := ClampToLevel(level.value, s.levels);
          config := config.(mode := LevelMode, level := clamped, budget := 0);
        }
      case _ =>
    }
    return Ok(Draft(config, derived));
  }

  method SpecialModes(c: Config) returns (config: Config)
    ensures config == Specials(c)
  {
    config := c;
    if config.mode.LevelMode? && config.level == NONE {
      config := config.(mode := NoneMode, budget := 0, level := "");
    }
    if config.mode.LevelMode? && config.level == AUTO {
      config := config.(mode := AutoMode, budget := -1, level := "");
    }
    if config.mode.BudgetMode? && config.budget == 0 {
      config := config.(mode := NoneMode, level := "");
    }
  }

  method FinishConfig(c: Config, s: Support, rules: Rules) returns (config: Config)
    ensures config == Finish(c, s, rules)
  {
    config := c;
    if config.mode.NoneMode? && rules.claude {
      config := config.(budget := 0, level := "");
    } else {
      if config.mode.BudgetMode? || config.mode.AutoMode? || config.mode.NoneMode? {
        var budget := ClampToBudget(config.budget, s);
        config := config.(budget := budget);
      }
      if config.mode.NoneMode? && config.budget > 0 && |s.levels| > 0 {
        config := config.(level := s.levels[0]);
      }
    }
  }

  method ValidateConfig(c: Config, support: Option<Support>, fromFormat: string, toFormat: string, fromSuffix: bool)
    returns (r: Result<Config, Error>)
    ensures r == Validated(c, support, RulesFor(fromFormat, toFormat, fromSuffix))
  {
    if support.None? {
      if !c.mode.NoneMode? {
        return Err(NotSupported);
      }
      return Ok(c);
    }
    var s, rules := support.value, RulesFor(fromFormat, toFormat, fromSuffix);
    hide Convert, Specials, Finish, MidRange, Supported, ClampLevel, RulesFor;
    var draft := ConvertFormat(c, s);
    if draft.Err? {
      return Err(draft.error);
    }
    var config := SpecialModes(draft.value.config);
    if |s.levels| > 0 && config.mode.LevelMode? {
      var supported := IsLevelSupported(config.level, s.levels);
      if !supported {
        if rules.clampLevels {
          var level := ClampToLevel(config.level, s.levels);
          config := config.(level := level);
        }
        supported := IsLevelSupported(config.level, s.levels);
        if !supported {
          return Err(LevelNotSupported);
        }
      }
    }
    if rules.strict && config.mode.BudgetMode? && !draft.value.derived {
      if s.min != 0 || s.max != 0 {
        if config.budget < s.min || config.budget > s.max || (config.budget == 0 && !s.zeroAllowed) {
          return Err(BudgetOutOfRange);
        }
      }
    }
    if config.mode.AutoMode? && !s.dynamicAllowed {
      config := ConvertAutoToMidRange(config, s);
    }
    config := FinishConfig(config, s, rules);
    return Ok(config);
  }
}
