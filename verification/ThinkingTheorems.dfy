/** What a validated thinking configuration is worth. */
module ThinkingTheorems {
  import opened Wrappers
  import opened Text
  import opened Thinking

  // ---------- assumptions ----------

  /** The model thinks: it has a budget range or levels, and the range is a range. */
  ghost predicate Capable(s: Support) {
    0 <= s.min <= s.max && (s.max > 0 || s.levels != [])
  }

  /** Mode and budget agree as the extractors produce them: any number but -1 makes a budget. */
  ghost predicate Agrees(c: Config) {
    match c.mode
    case BudgetMode => c.budget != -1
    case LevelMode => true
    case NoneMode => c.budget == 0
    case AutoMode => c.budget == -1
  }

  /** Automatic thinking is asked for. */
  predicate AutoAsked(c: Config) {
    c.mode.AutoMode? || (c.mode.LevelMode? && c.level == AUTO)
  }

  /** Automatic thinking is asked of a level-only model that neither allows it nor lists the medium level. */
  predicate MediumMissing(c: Config, s: Support) {
    AutoAsked(c) && !s.dynamicAllowed && s.max == 0 && !Supported(STANDARD[MEDIUM], s.levels)
  }

  /** Automatic thinking is asked of a model whose range is [0, 1] and does not allow zero. */
  predicate NoMiddle(c: Config, s: Support) {
    AutoAsked(c) && !s.dynamicAllowed && s.min == 0 && s.max == 1 && !s.zeroAllowed
  }

  /** A budget-only model is given the level "auto" with a capital letter. */
  predicate CapitalAuto(c: Config, s: Support) {
    c.mode.LevelMode? && s.levels == [] && ToLower(c.level) == AUTO && c.level != AUTO
  }

  /** A negative budget that is not automatic. */
  predicate Negative(c: Config) {
    c.mode.BudgetMode? && c.budget < -1
  }

  /** A negative budget is given to a model whose range starts at zero. */
  predicate Underflow(c: Config, s: Support) {
    Negative(c) && s.min == 0
  }

  // ---------- names ----------

  lemma StandardNames(i: nat)
    requires i < |STANDARD|
    ensures LevelIndex(STANDARD[i]) == i && ToLower(STANDARD[i]) == STANDARD[i]
    ensures STANDARD[i] != NONE && STANDARD[i] != AUTO
  {
    assert STANDARD[i][0] in {'m', 'l', 'h', 'x'};
    assert ToLower(STANDARD[i]) == STANDARD[i];
    forall j | 0 <= j < |STANDARD|
      ensures EqualFold(STANDARD[i], STANDARD[j]) <==> i == j
    {
      assert ToLower(STANDARD[j]) == STANDARD[j];
      assert |"minimal"| == 7 && |"low"| == 3 && |"medium"| == 6 && |"high"| == 4 && |"xhigh"| == 5;
    }
  }

  lemma IndexOfFold(a: string, b: string)
    requires EqualFold(a, b)
    ensures LevelIndex(a) == LevelIndex(b)
  {
  }

  lemma SameIndexFolds(a: string, b: string)
    requires LevelIndex(a) == LevelIndex(b) != -1
    ensures EqualFold(a, b)
  {
  }

  /** A standard level is supported if and only if its position is listed. */
  lemma SupportedIsListed(i: nat, levels: seq<string>)
    requires i < |STANDARD|
    ensures Supported(STANDARD[i], levels) <==> i in Listed(levels)
  {
    StandardNames(i);
    hide LevelIndex, EqualFold, TrimSpace;
    if Supported(STANDARD[i], levels) {
      var k :| 0 <= k < |levels| && EqualFold(STANDARD[i], TrimSpace(levels[k]));
      IndexOfFold(STANDARD[i], TrimSpace(levels[k]));
    }
    if i in Listed(levels) {
      var k :| 0 <= k < |levels| && LevelIndex(TrimSpace(levels[k])) == i;
      SameIndexFolds(STANDARD[i], TrimSpace(levels[k]));
    }
  }

  // ---------- clamping to the nearest level ----------

  /** `r` is the listed position nearest to `pos`, the lower one on a tie. */
  ghost predicate IsNearest(pos: int, listed: set<int>, r: int) {
    r in listed && forall i :: i in listed ==> Abs(pos - r) <= Abs(pos - i) && (Abs(pos - r) == Abs(pos - i) ==> r <= i)
  }

  lemma NearestIsNearest(pos: int, listed: set<int>)
    requires 0 <= pos < |STANDARD| && listed != {} && forall i :: i in listed ==> 0 <= i < |STANDARD|
    ensures IsNearest(pos, listed, Nearest(pos, listed, 0))
  {
    hide Nearest;
  }

  /** With a standard level listed, a standard level clamps to the nearest listed one, ties going lower. */
  lemma ClampsToNearest(pos: nat, levels: seq<string>) returns (r: nat)
    requires pos < |STANDARD| && Listed(levels) != {}
    ensures r < |STANDARD| && IsNearest(pos, Listed(levels), r) && ClampLevel(STANDARD[pos], levels) == STANDARD[r]
  {
    StandardNames(pos);
    SupportedIsListed(pos, levels);
    NearestIsNearest(pos, Listed(levels));
    hide LevelIndex, Listed, Supported, Nearest, IsNearest;
    r := if Supported(STANDARD[pos], levels) then pos else Nearest(pos, Listed(levels), 0);
    assert pos in Listed(levels) ==> IsNearest(pos, Listed(levels), pos) by {
      NearestItself(pos, Listed(levels));
    }
  }

  lemma NearestMember(pos: int, listed: set<int>, r: int)
    requires IsNearest(pos, listed, r)
    ensures r in listed
  {
  }

  lemma NearestItself(pos: int, listed: set<int>)
    ensures pos in listed ==> IsNearest(pos, listed, pos)
  {
  }

  lemma NearestIsMonotone(p: int, q: int, listed: set<int>, r: int, t: int)
    requires p <= q && IsNearest(p, listed, r) && IsNearest(q, listed, t)
    ensures r <= t
  {
  }

  /** A larger positive budget never becomes a lower level. */
  lemma BudgetToLevelIsMonotone(a: int, b: int, levels: seq<string>)
    requires 0 < a <= b && Listed(levels) != {}
    ensures LevelIndex(ClampLevel(BudgetLevel(a).value, levels)) <= LevelIndex(ClampLevel(BudgetLevel(b).value, levels))
    ensures LevelIndex(ClampLevel(BudgetLevel(a).value, levels)) in Listed(levels)
  {
    assert BudgetLevel(a) == Some(STANDARD[BudgetIndex(a)]) && BudgetLevel(b) == Some(STANDARD[BudgetIndex(b)]);
    assert BudgetIndex(a) <= BudgetIndex(b);
    hide LevelIndex, Listed, IsNearest, ClampLevel, BudgetLevel, BudgetIndex;
    var r := ClampsToNearest(BudgetIndex(a), levels);
    assert r in Listed(levels) by {
      NearestMember(BudgetIndex(a), Listed(levels), r);
    }
    var t := ClampsToNearest(BudgetIndex(b), levels);
    NearestIsMonotone(BudgetIndex(a), BudgetIndex(b), Listed(levels), r, t);
    StandardNames(r);
    StandardNames(t);
    hide *;
  }

  /** Every standard level's budget converts back to that level. */
  lemma LevelBudgetRoundTrip(i: nat)
    requires i < |STANDARD|
    ensures LevelBudget(STANDARD[i]).Some? && BudgetLevel(LevelBudget(STANDARD[i]).value) == Some(STANDARD[i])
  {
    StandardNames(i);
    assert |"minimal"| == 7 && |"low"| == 3 && |"medium"| == 6 && |"high"| == 4 && |"xhigh"| == 5;
    assert |NONE| == 4 && |AUTO| == 4;
    assert STANDARD[3][0] == 'h' && NONE[0] == 'n' && AUTO[0] == 'a';
  }

  // ---------- soundness ----------

  /** A draft that the special levels and budgets have been taken out of. */
  ghost predicate Plain(d: Config, c: Config, s: Support) {
    match d.mode
    case BudgetMode => s.max > 0 && (if CapitalAuto(c, s) then d.budget == -1 && d.level == "" else d.budget > 0)
    case LevelMode => s.levels != [] && d.level != NONE && d.level != AUTO
    case NoneMode => d.budget == 0
    case AutoMode => d.budget == -1
  }

  lemma BudgetOfLevel(level: string)
    requires LevelBudget(level).Some? && level != AUTO
    ensures ToLower(level) == AUTO ==> LevelBudget(level) == Some(-1)
    ensures ToLower(level) != AUTO ==> LevelBudget(level).value >= 0
  {
    NoneIsSpecial();
  }

  lemma NoneIsSpecial()
    ensures LevelIndex(NONE) == -1 && NONE != AUTO && ToLower(NONE) == NONE && ToLower(AUTO) == AUTO
  {
    assert ToLower(NONE) == NONE && ToLower(AUTO) == AUTO;
    forall j | 0 <= j < |STANDARD|
      ensures !EqualFold(NONE, STANDARD[j])
    {
      StandardNames(j);
    }
    assert NONE[0] != AUTO[0];
  }

  lemma LevelOfBudget(budget: int, levels: seq<string>)
    requires budget >= 0
    ensures var l := ClampLevel(BudgetLevel(budget).value, levels); (l == NONE <==> budget == 0) && l != AUTO
  {
    if budget > 0 {
      var i := BudgetIndex(budget);
      StandardNames(i);
      if Listed(levels) != {} {
        var r := ClampsToNearest(i, levels);
        StandardNames(r);
      }
    } else {
      NoneIsSpecial();
    }
  }

  /** What the conversion leaves when it succeeds. */
  lemma ConvertedPlain(c: Config, s: Support)
    requires Capable(s) && Agrees(c) && !Negative(c) && Convert(c, s).Ok?
    ensures var draft := Convert(c, s).value;
            var d := Specials(draft.config);
            && Plain(d, c, s) && (d.mode.AutoMode? <==> AutoAsked(c))
            && (CapitalAuto(c, s) ==> d.mode.BudgetMode? && draft.derived)
  {
    hide Supported, Listed, ClampLevel, LevelBudget, BudgetLevel, ToLower;
    NoneIsSpecial();
    if DetectCapability(s).BudgetOnly? && c.mode.LevelMode? && c.level != AUTO {
      BudgetOfLevel(c.level);
    } else if DetectCapability(s).LevelOnly? && c.mode.BudgetMode? {
      LevelOfBudget(c.budget, s.levels);
    }
  }

  lemma CheckedPlain(d: Config, c: Config, s: Support, rules: Rules)
    requires Plain(d, c, s) && CheckLevel(d, s, rules).Ok?
    ensures var e := CheckLevel(d, s, rules).value;
            && Plain(e, c, s) && e.mode == d.mode && e.budget == d.budget
            && (!e.mode.LevelMode? ==> e == d)
            && (e.mode.LevelMode? ==> Supported(e.level, s.levels))
  {
    if d.mode.LevelMode? {
      ClampKeepsPlain(d.level, s.levels);
    }
    hide Supported, ClampLevel;
  }

  lemma ClampKeepsPlain(level: string, levels: seq<string>)
    requires level != NONE && level != AUTO
    ensures ClampLevel(level, levels) != NONE && ClampLevel(level, levels) != AUTO
  {
    var pos := LevelIndex(level);
    if !(Supported(level, levels) || pos == -1 || Listed(levels) == {}) {
      hide Supported, LevelIndex;
      StandardNames(Nearest(pos, Listed(levels), 0));
    }
  }

  /** The configurations a call leaves as they are. */
  ghost predicate Stable(r: Config, s: Support, rules: Rules) {
    match r.mode
    case BudgetMode => 0 < r.budget && s.min <= r.budget <= s.max
    case LevelMode => s.levels != [] && r.level != NONE && r.level != AUTO && Supported(r.level, s.levels)
    case AutoMode => s.dynamicAllowed && r.budget == -1
    case NoneMode =>
      if rules.claude then r.budget == 0 && r.level == ""
      else r.budget == ClampBudget(0, s) && (r.budget > 0 && s.levels != [] ==> r.level == s.levels[0])
  }

  /** What the last steps make of a checked draft. */
  lemma FinishedStable(e: Config, c: Config, s: Support, rules: Rules)
    requires Capable(s) && Plain(e, c, s) && (e.mode.AutoMode? <==> AutoAsked(c))
    requires e.mode.LevelMode? ==> Supported(e.level, s.levels)
    requires CapitalAuto(c, s) ==> e.mode.BudgetMode?
    ensures var r := Finish(if e.mode.AutoMode? && !s.dynamicAllowed then MidRange(e, s) else e, s, rules);
            && (MediumMissing(c, s) ==> r == Config(LevelMode, 0, STANDARD[MEDIUM]))
            && (NoMiddle(c, s) ==> r.mode.BudgetMode? && r.budget == 0)
            && (CapitalAuto(c, s) ==> r == Config(BudgetMode, -1, ""))
            && (!MediumMissing(c, s) && !NoMiddle(c, s) && !CapitalAuto(c, s) ==> Stable(r, s, rules))
  {
    StandardNames(MEDIUM);
    hide Supported, ToLower;
  }

  /** A negative budget is refused or goes to the lower end of the range. */
  lemma NegativeGoesToMin(c: Config, s: Support, rules: Rules, r: Config)
    requires Capable(s) && Negative(c) && Validated(c, Some(s), rules) == Ok(r)
    ensures !rules.strict && s.max > 0 && r == c.(budget := s.min)
  {
    hide Supported, ClampLevel, LevelBudget;
  }

  /** The result of a successful call: stable, or one of four exceptions. */
  lemma ResultStable(c: Config, s: Support, rules: Rules, r: Config)
    requires Capable(s) && Agrees(c) && Validated(c, Some(s), rules) == Ok(r)
    ensures MediumMissing(c, s) ==> r == Config(LevelMode, 0, STANDARD[MEDIUM])
    ensures NoMiddle(c, s) ==> r.mode.BudgetMode? && r.budget == 0
    ensures CapitalAuto(c, s) ==> r == Config(BudgetMode, -1, "")
    ensures Underflow(c, s) ==> s.max > 0 && r == c.(budget := 0)
    ensures !MediumMissing(c, s) && !NoMiddle(c, s) && !CapitalAuto(c, s) && !Underflow(c, s) ==> Stable(r, s, rules)
  {
    if Negative(c) {
      NegativeGoesToMin(c, s, rules, r);
      hide Validated, Supported, ToLower;
    } else {
      hide Convert, Specials, CheckLevel, Finish, MidRange, Plain, Stable, Supported, ToLower;
      ConvertedPlain(c, s);
      var d := Specials(Convert(c, s).value.config);
      CheckedPlain(d, c, s, rules);
      FinishedStable(CheckLevel(d, s, rules).value, c, s, rules);
    }
  }

  /**
   * A successful call leaves a budget in the range unless "auto" came in capitals, leaves a listed level unless
   * the medium level was needed and is missing, and leaves automatic thinking only where it is allowed.
   */
  lemma ValidatedIsSound(c: Config, s: Support, rules: Rules, r: Config)
    requires Capable(s) && Agrees(c) && Validated(c, Some(s), rules) == Ok(r)
    ensures r.mode.BudgetMode? ==> (s.min <= r.budget <= s.max <==> !CapitalAuto(c, s))
    ensures r.mode.LevelMode? ==> (Supported(r.level, s.levels) <==> !MediumMissing(c, s))
    ensures r.mode.AutoMode? ==> s.dynamicAllowed
    ensures r.mode.NoneMode? ==> r.budget == 0 || (r.budget == s.min && !s.zeroAllowed)
  {
    ResultStable(c, s, rules, r);
    hide Validated, Supported, ToLower;
  }

  // ---------- idempotence ----------

  lemma StableIsFixed(r: Config, s: Support, rules: Rules)
    requires Capable(s) && Stable(r, s, rules)
    ensures Validated(r, Some(s), rules) == Ok(r)
  {
    hide Supported, ClampLevel, LevelBudget, BudgetLevel;
  }

  lemma MediumNotFixed(s: Support, rules: Rules)
    requires s.max == 0 && s.min == 0 && s.levels != [] && !Supported(STANDARD[MEDIUM], s.levels)
    ensures var r := Config(LevelMode, 0, STANDARD[MEDIUM]); Validated(r, Some(s), rules) != Ok(r)
  {
    StandardNames(MEDIUM);
    hide Supported, ClampLevel, LevelBudget, BudgetLevel;
  }

  /** Validating a result again changes nothing, if and only if it is none of the four exceptions. */
  lemma ValidatedIsIdempotent(c: Config, s: Support, rules: Rules, r: Config)
    requires Capable(s) && Agrees(c) && Validated(c, Some(s), rules) == Ok(r)
    ensures Validated(r, Some(s), rules) == Ok(r)
       <==> !MediumMissing(c, s) && !NoMiddle(c, s) && !(CapitalAuto(c, s) && rules.strict) && !Underflow(c, s)
  {
    ResultStable(c, s, rules, r);
    if MediumMissing(c, s) {
      MediumNotFixed(s, rules);
    } else if NoMiddle(c, s) || Underflow(c, s) {
      ZeroNotFixed(r, s, rules);
    } else if CapitalAuto(c, s) {
      MinusOneFixed(s, rules);
    } else {
      StableIsFixed(r, s, rules);
    }
    hide *;
  }

  lemma ZeroNotFixed(r: Config, s: Support, rules: Rules)
    requires r.mode.BudgetMode? && r.budget == 0 && s.max > 0
    ensures Validated(r, Some(s), rules) != Ok(r)
  {
    hide Supported, ClampLevel, LevelBudget, BudgetLevel;
  }

  lemma MinusOneFixed(s: Support, rules: Rules)
    requires Capable(s) && s.levels == []
    ensures var r := Config(BudgetMode, -1, ""); Validated(r, Some(s), rules) == Ok(r) <==> !rules.strict
  {
    hide Supported, ClampLevel, LevelBudget, BudgetLevel;
  }

  /** The four exceptions exist. */
  lemma ExceptionsExist()
    ensures CapitalAuto(Config(LevelMode, 0, "Auto"), Support(1024, 2048, false, false, []))
    ensures Validated(Config(LevelMode, 0, "Auto"), Some(Support(1024, 2048, false, false, [])),
      Rules(false, true, false)).Ok?
    ensures NoMiddle(Config(AutoMode, -1, ""), Support(0, 1, false, false, []))
    ensures Validated(Config(AutoMode, -1, ""), Some(Support(0, 1, false, false, [])), Rules(false, true, false)).Ok?
    ensures MediumMissing(Config(AutoMode, -1, ""), Support(0, 0, false, false, ["low"]))
    ensures Validated(Config(AutoMode, -1, ""), Some(Support(0, 0, false, false, ["low"])),
      Rules(false, true, false)).Ok?
    ensures Underflow(Config(BudgetMode, -5, ""), Support(0, 24576, true, true, []))
    ensures Validated(Config(BudgetMode, -5, ""), Some(Support(0, 24576, true, true, [])),
      Rules(false, false, false)).Ok?
  {
    NoneIsSpecial();
    assert ToLower("Auto") == AUTO && "Auto"[0] != AUTO[0];
    TrimLow();
    StandardNames(1);
    StandardNames(2);
    assert |STANDARD[1]| == 3 && |STANDARD[2]| == 6;
    hide EqualFold;
    assert !EqualFold(STANDARD[2], "low") by {
      assert |ToLower("low")| == 3;
    }
    assert !Supported(STANDARD[2], ["low"]);
  }

  lemma TrimLow()
    ensures TrimSpace("low") == "low"
  {
  }

  // ---------- budgets and their range ----------

  /** The model has a range of budgets. */
  ghost predicate HasRange(s: Support) {
    0 <= s.min <= s.max && s.max > 0
  }

  /**
   * Clamping keeps automatic thinking, and zero where it is allowed; anything else goes to the budget of the range
   * that is nearest to it, which for a budget in the range is itself.
   */
  lemma ClampsToRange(value: int, s: Support, other: int)
    requires HasRange(s) && s.min <= other <= s.max
    ensures var r := ClampBudget(value, s);
            if value == -1 || (value == 0 && s.zeroAllowed) then r == value
            else s.min <= r <= s.max && Abs(value - r) <= Abs(value - other)
  {
  }

  /** A larger positive budget is never clamped to a smaller one. */
  lemma ClampIsMonotone(a: int, b: int, s: Support)
    requires HasRange(s) && 0 < a <= b
    ensures ClampBudget(a, s) <= ClampBudget(b, s)
  {
  }

  /**
   * Automatic thinking that is not allowed becomes the medium level without a range, and the middle of the range
   * with one: thinking is off if the middle is zero and zero is allowed, else on with a budget in the range.
   */
  lemma MidRangeIsMiddle(c: Config, s: Support)
    requires 0 <= s.min <= s.max
    ensures var r := MidRange(c, s);
            if s.levels != [] && s.max == 0 then r.mode.LevelMode? && LevelIndex(r.level) == MEDIUM
            else if s.min + s.max <= 1 && s.zeroAllowed then r.mode.NoneMode? && r.budget == 0
            else r.mode.BudgetMode? && s.min <= r.budget <= s.max && s.min + s.max - 1 <= 2 * r.budget <= s.min + s.max
  {
    StandardNames(MEDIUM);
    hide LevelIndex;
  }

  // ---------- strict budgets ----------

  /** A strict nonzero budget for a model with a range is returned as it is, or refused for being out of range. */
  lemma StrictBudgetIsKept(c: Config, s: Support, rules: Rules)
    requires rules.strict && c.mode.BudgetMode? && c.budget != 0 && (s.min > 0 || s.max > 0)
    ensures Validated(c, Some(s), rules) == if s.min <= c.budget <= s.max then Ok(c) else Err(BudgetOutOfRange)
  {
    hide Supported, ClampLevel, LevelBudget, BudgetLevel;
  }

  /** Whatever the model supports, a strict budget that stays a budget is never altered. */
  lemma StrictBudgetIsNeverAltered(c: Config, support: Option<Support>, rules: Rules, r: Config)
    requires support.Some? ==> 0 <= support.value.min <= support.value.max
    requires rules.strict && c.mode.BudgetMode? && Validated(c, support, rules) == Ok(r) && r.mode.BudgetMode?
    ensures r.budget == c.budget
  {
    hide Supported, LevelBudget, ClampLevel, BudgetLevel;
  }
}
