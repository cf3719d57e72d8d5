/**
 * The six adjustment rules of `/pjsk.调整` and the dispatcher that picks
 * one, as functions from the current configuration to the new one and
 * its headline, or to the refusal.  A refusal carries no configuration:
 * every rule checks and parses its input before it assigns anything.
 */
module Rules {
  import opened Wrappers
  import opened Text
  import opened Numbers
  import opened Aliases
  import opened Tokens
  import opened Card

  type Outcome = Result<(Config, Notice), Failure>

  /** Python truthiness of an optional variant: present and non-empty. */
  predicate Present(variant: Option<string>) {
    variant.Some? && variant.value != []
  }

  // ---------------------------------------------------------------------
  // Text
  // ---------------------------------------------------------------------

  /** `_execute_text`: the stripped text, when it is non-empty and at most 120 characters long. */
  function TextRule(c: Config, text: string): (r: Outcome)
    ensures r.Err? ==> !r.error.Dispatching()
    ensures r.Ok? <==> !Blank(text) && |Strip(text)| <= MaxTextLength
    ensures r.Ok? ==> r.value.0 == c.(text := r.value.0.text) && r.value.1 == TextUpdated
    ensures r.Ok? ==> r.value.0.text == Strip(text) && r.value.0.text != []
    ensures Blank(text) ==> r == Err(EmptyText)
    ensures !Blank(text) && |Strip(text)| > MaxTextLength ==> r == Err(TextTooLong)
  {
    var sanitized := Strip(text);
    if sanitized == [] then
      assert Blank(text);
      Err(EmptyText)
    else if |sanitized| > MaxTextLength then
      assert !Blank(text);
      Err(TextTooLong)
    else
      assert !Blank(text);
      Ok((c.(text := sanitized), TextUpdated))
  }

  /** The stored text is already stripped: no whitespace at either end, and stripping it again changes nothing. */
  lemma TextRuleStoresStripped(c: Config, text: string)
    requires TextRule(c, text).Ok?
    ensures var stored := TextRule(c, text).value.0.text;
      Trimmed(stored) && Strip(stored) == stored
  {
    StripIdempotent(text);
  }

  // ---------------------------------------------------------------------
  // Font size
  // ---------------------------------------------------------------------

  /** `_execute_font_size`: a step of 4 for a size variant, otherwise the clamped absolute value of the first argument. */
  function FontSizeRule(c: Config, variant: Option<string>, args: seq<string>): (r: Outcome)
    ensures r.Err? ==> !r.error.Dispatching()
    ensures r.Ok? ==> r.value.0 == c.(fontSize := r.value.0.fontSize)
    ensures r.Ok? ==> FontSizeMin <= r.value.0.fontSize <= FontSizeMax
  {
    if Present(variant) then
      match SizeAction(variant.value)
      case None => Err(UnknownSizeVariant)
      case Some(action) => Ok(StepFontSize(c, action == "increase"))
    else if args == [] then Err(MissingFontSize)
    else
      match ParseInt(args[0])
      case Err(e) =>
        assert e == Unparsable(args[0]);
        Err(e)
      case Ok(value) => Ok(SetFontSize(c, value))
  }

  /** One step of 4 up or down, clamped to [18, 84], with the limit headline when nothing changed. */
  function StepFontSize(c: Config, up: bool): (r: (Config, Notice))
    ensures r.0 == c.(fontSize := r.0.fontSize) && FontSizeMin <= r.0.fontSize <= FontSizeMax
  {
    if up then
      var size := Clamp(c.fontSize + FontSizeStep, FontSizeMin, FontSizeMax);
      (c.(fontSize := size), if size == c.fontSize then FontSizeAtMax(size) else FontSizeIncreased(size))
    else
      var size := Clamp(c.fontSize - FontSizeStep, FontSizeMin, FontSizeMax);
      (c.(fontSize := size), if size == c.fontSize then FontSizeAtMin(size) else FontSizeDecreased(size))
  }

  /** An absolute size, clamped to [18, 84], noting whether clamping changed it. */
  function SetFontSize(c: Config, value: int): (r: (Config, Notice))
    ensures r.0 == c.(fontSize := r.0.fontSize) && FontSizeMin <= r.0.fontSize <= FontSizeMax
  {
    var size := Clamp(value, FontSizeMin, FontSizeMax);
    (c.(fontSize := size), FontSizeSet(size, size != value))
  }

  // ---------------------------------------------------------------------
  // Line spacing
  // ---------------------------------------------------------------------

  /** `abs(clamped - value) > 1e-6` for the stored spacing (in hundredths) against the parsed float. */
  predicate Deviates(spacing: int, value: Float) {
    match value
    case Finite(x) => Hundredths(spacing) - x > 0.000001 || x - Hundredths(spacing) > 0.000001
    case Infinity(_) => true
    case NaN => false
  }

  /**
   * `_execute_line_spacing`: a step of 0.10 for a size variant, otherwise
   * the parsed float clamped to [0.60, 3.00] and rounded to two decimals.
   */
  function LineSpacingRule(c: Config, variant: Option<string>, args: seq<string>): (r: Outcome)
    ensures r.Err? ==> !r.error.Dispatching()
    ensures r.Ok? ==> r.value.0 == c.(lineSpacing := r.value.0.lineSpacing)
    ensures r.Ok? ==> LineSpacingMin <= r.value.0.lineSpacing <= LineSpacingMax
  {
    if Present(variant) then
      match SizeAction(variant.value)
      case None => Err(UnknownSpacingVariant)
      case Some(action) => Ok(StepLineSpacing(c, action == "increase"))
    else if args == [] then Err(MissingLineSpacing)
    else
      match ParseFloat(args[0])
      case Err(e) =>
        assert e == Unparsable(args[0]);
        Err(e)
      case Ok(value) => Ok(SetLineSpacing(c, value))
  }

  /** One step of 0.10 up or down, clamped to [0.60, 3.00], with the limit headline when nothing changed. */
  function StepLineSpacing(c: Config, up: bool): (r: (Config, Notice))
    ensures r.0 == c.(lineSpacing := r.0.lineSpacing) && LineSpacingMin <= r.0.lineSpacing <= LineSpacingMax
  {
    if up then
      var spacing := Clamp(c.lineSpacing + LineSpacingStep, LineSpacingMin, LineSpacingMax);
      (c.(lineSpacing := spacing), if spacing == c.lineSpacing then LineSpacingAtMax(spacing) else LineSpacingIncreased(spacing))
    else
      var spacing := Clamp(c.lineSpacing - LineSpacingStep, LineSpacingMin, LineSpacingMax);
      (c.(lineSpacing := spacing), if spacing == c.lineSpacing then LineSpacingAtMin(spacing) else LineSpacingDecreased(spacing))
  }

  /** An absolute spacing, clamped and rounded, noting whether it moved by more than 1e-6. */
  function SetLineSpacing(c: Config, value: Float): (r: (Config, Notice))
    ensures r.0 == c.(lineSpacing := r.0.lineSpacing) && LineSpacingMin <= r.0.lineSpacing <= LineSpacingMax
  {
    var spacing := SpacingOf(value);
    (c.(lineSpacing := spacing), LineSpacingSet(spacing, Deviates(spacing, value)))
  }

  /** `round(clamp(value, 0.60, 3.00), 2)` in hundredths. */
  function SpacingOf(value: Float): (h: int)
    ensures LineSpacingMin <= h <= LineSpacingMax
  {
    var x := ClampFloat(value, 0.6, 3.0);
    RoundHundredths(x)
  }

  // ---------------------------------------------------------------------
  // Curve
  // ---------------------------------------------------------------------

  /** The curve action: from the variant, else from the first argument, else none. */
  function CurveAction(variant: Option<string>, args: seq<string>): (r: Option<string>)
    ensures r.Some? ==> r.value in ["on", "off", "toggle"]
  {
    var fromVariant := CurveChoice(variant.GetOr(""));
    var action := if fromVariant.None? && args != [] then CurveChoice(args[0]) else fromVariant;
    action
  }

  /** `_execute_curve`: on, off, or (for toggle, or no recognised action) the negation. Never refuses. */
  function CurveRule(c: Config, variant: Option<string>, args: seq<string>): (r: Outcome)
    ensures r.Ok? && r.value.0 == c.(curveEnabled := r.value.0.curveEnabled)
    ensures r.value.1 == CurveSwitched(r.value.0.curveEnabled)
  {
    var action := CurveAction(variant, args);
    var enabled := if action == Some("on") then true else if action == Some("off") then false else !c.curveEnabled;
    Ok((c.(curveEnabled := enabled), CurveSwitched(enabled)))
  }

  // ---------------------------------------------------------------------
  // Position
  // ---------------------------------------------------------------------

  /** The directions lookup `__init__` builds. */
  function DirectionLookup(): map<string, string> {
    LookupOf(DirectionAliases)
  }

  /** The direction a canonical name stands for; anything but up, down and left moves right. */
  function DirectionOf(name: string): Direction {
    if name == "up" then Up else if name == "down" then Down else if name == "left" then Left else Right
  }

  function Coordinate(c: Config, d: Direction): int {
    if d == Up || d == Down then c.offsetY else c.offsetX
  }

  function WithCoordinate(c: Config, d: Direction, v: int): Config {
    if d == Up || d == Down then c.(offsetY := v) else c.(offsetX := v)
  }

  /** Up and left decrease the coordinate, down and right increase it. */
  function Sign(d: Direction): int {
    if d == Up || d == Left then -1 else 1
  }

  /** The direction and step of a position command; the argument naming the direction is consumed. */
  function PositionRequest(variants: seq<string>, args: seq<string>): (r: Result<(Direction, int), Failure>)
    ensures r.Ok? ==> r.value.1 > 0
    ensures r.Err? ==> !r.error.Dispatching()
  {
    var fromVariant := if variants != [] then Resolve(DirectionLookup(), variants[0]) else None;
    var fromArg := if fromVariant.None? && args != [] then Resolve(DirectionLookup(), args[0]) else None;
    if fromVariant.Some? then Requested(fromVariant.value, StepOf(args))
    else if fromArg.Some? then Requested(fromArg.value, StepOf(args[1..]))
    else Err(MissingDirection)
  }

  /** The refusals of a position command: no direction, a step that is not positive, or an argument that does not parse. */
  lemma PositionRefusals(variants: seq<string>, args: seq<string>)
    ensures var r := PositionRequest(variants, args);
      r.Err? ==> r.error == MissingDirection || r.error == NonPositiveStep || (r.error.Unparsable? && r.error.raw in args)
  {
    var fromVariant := if variants != [] then Resolve(DirectionLookup(), variants[0]) else None;
    var fromArg := if fromVariant.None? && args != [] then Resolve(DirectionLookup(), args[0]) else None;
    if fromVariant.Some? {
      var step := StepOf(args);
      assert step.Err? ==> step.error == NonPositiveStep || step.error == Unparsable(args[0]);
    } else if fromArg.Some? {
      var step := StepOf(args[1..]);
      assert step.Err? ==> step.error == NonPositiveStep || step.error == Unparsable(args[1]);
    }
  }

  /** The step: 12 when no argument is left, otherwise the first one, which must be a positive integer. */
  function StepOf(remaining: seq<string>): (r: Result<int, Failure>)
    ensures r.Ok? ==> r.value > 0
    ensures r.Err? ==> remaining != [] && (r.error == NonPositiveStep || r.error == Unparsable(remaining[0]))
  {
    if remaining == [] then Ok(OffsetStep) else ParsePositiveInt(remaining[0])
  }

  function Requested(name: string, step: Result<int, Failure>): Result<(Direction, int), Failure> {
    match step
    case Err(e) => Err(e)
    case Ok(amount) => Ok((DirectionOf(name), amount))
  }

  /** One move: clamp the chosen coordinate and report the distance applied, or the boundary. */
  function Move(c: Config, d: Direction, amount: int): (r: (Config, Notice))
    ensures r.0 == WithCoordinate(c, d, Coordinate(r.0, d))
    ensures OffsetMin <= Coordinate(r.0, d) <= OffsetMax
    ensures r.1.AtBoundary? <==> r.0 == c
    ensures r.1.AtBoundary? || r.1.Moved?
    ensures r.1.direction == d && r.1.coordinate == Coordinate(r.0, d)
  {
    var before := Coordinate(c, d);
    var after := Clamp(before + Sign(d) * amount, OffsetMin, OffsetMax);
    var applied := Sign(d) * (after - before);
    (WithCoordinate(c, d, after), if applied == 0 then AtBoundary(d, after) else Moved(d, applied, after))
  }

  /** `_execute_position`. */
  function PositionRule(c: Config, variants: seq<string>, args: seq<string>): (r: Outcome)
    ensures r.Err? ==> !r.error.Dispatching()
    ensures r.Ok? ==> r.value.0 == c.(offsetX := r.value.0.offsetX, offsetY := r.value.0.offsetY)
    ensures r.Ok? ==> r.value.0.offsetX == c.offsetX || r.value.0.offsetY == c.offsetY
    ensures r.Ok? ==> OffsetMin <= c.offsetX <= OffsetMax ==> OffsetMin <= r.value.0.offsetX <= OffsetMax
    ensures r.Ok? ==> OffsetMin <= c.offsetY <= OffsetMax ==> OffsetMin <= r.value.0.offsetY <= OffsetMax
  {
    match PositionRequest(variants, args)
    case Err(e) => Err(e)
    case Ok((d, amount)) => Ok(Move(c, d, amount))
  }

  // ---------------------------------------------------------------------
  // Role
  // ---------------------------------------------------------------------

  /** The role lookup `__init__` builds. */
  function RoleLookup(): map<string, string> {
    LookupOf(RoleAliases)
  }

  /** `[n for n in names if n != exclude]`. */
  function Others(names: seq<string>, exclude: string): (r: seq<string>)
    ensures forall x :: x in r <==> x in names && x != exclude
  {
    if names == [] then []
    else if names[0] == exclude then Others(names[1..], exclude)
    else [names[0]] + Others(names[1..], exclude)
  }

  /**
   * `_pick_random_role`: a role other than `exclude`, or any role when
   * there is no other; `pick` stands for the random choice.
   */
  function PickRandomRole(exclude: string, pick: nat): (r: string)
    ensures r in RoleNames && r != exclude
  {
    var others := Others(RoleNames, exclude);
    assert RoleNames[0] in others || RoleNames[1] in others;
    var candidates := if others == [] then RoleNames else others;
    candidates[pick % |candidates|]
  }

  /** `_execute_role`: `-r` (in any case) picks another role, otherwise the whole remainder names one. */
  function RoleRule(c: Config, remainder: string, args: seq<string>, pick: nat): (r: Outcome)
    ensures r.Err? ==> !r.error.Dispatching()
    ensures r.Ok? ==> r.value.0 == c.(role := r.value.0.role) && r.value.0.role in RoleNames
  {
    if args != [] && Lower(args[0]) == "-r" then RandomRole(c, pick)
    else NamedRole(c, Strip(remainder))
  }

  /** Switching to a role picked at random among the others. */
  function RandomRole(c: Config, pick: nat): (r: Outcome)
    ensures r.Ok? && r.value.0 == c.(role := r.value.0.role) && r.value.0.role in RoleNames
  {
    var role := PickRandomRole(c.role, pick);
    Ok((c.(role := role), RoleRandomized(role)))
  }

  /** Switching to the role a (stripped) name resolves to. */
  function NamedRole(c: Config, candidate: string): (r: Outcome)
    ensures r.Err? ==> !r.error.Dispatching()
    ensures r.Ok? ==> r.value.0 == c.(role := r.value.0.role) && r.value.0.role in RoleNames
  {
    if candidate == [] then Err(MissingRole)
    else
      match Resolve(RoleLookup(), candidate)
      case None => Err(UnknownRole(candidate))
      case Some(role) =>
        if role == [] then Err(UnknownRole(candidate))
        else
          ResolvedRoleKnown(candidate);
          Ok((c.(role := role), RoleSwitched(role)))
  }

  lemma ResolvedRoleKnown(candidate: string)
    requires Resolve(RoleLookup(), candidate).Some?
    ensures Resolve(RoleLookup(), candidate).value in RoleNames
    ensures Resolve(RoleLookup(), candidate).value != []
  {
    ResolveCanonical(RoleAliases, candidate);
    RoleNamesNonEmpty();
  }

  lemma RoleNamesNonEmpty()
    ensures forall i :: 0 <= i < |RoleNames| ==> |RoleNames[i]| > 0
  {
    forall i | 0 <= i < |RoleNames| ensures |RoleNames[i]| > 0 {
      assert |RoleAliases[i].0| > 0;
    }
  }

  // ---------------------------------------------------------------------
  // Dispatch
  // ---------------------------------------------------------------------

  /** The command lookup `__init__` builds. */
  function CommandLookup(): map<string, string> {
    LookupOf(CommandAliases)
  }

  /** The first dotted variant, when there is one. */
  function FirstVariant(variants: seq<string>): Option<string> {
    if variants != [] then Some(variants[0]) else None
  }

  /**
   * `_process_adjustment`: resolve the command head and run its rule.
   */
  function Process(c: Config, token: string, variants: seq<string>, remainder: string, pick: nat): (r: Outcome)
    ensures Resolve(CommandLookup(), token).None? ==> r == Err(UnknownCommand(token))
  {
    match Resolve(CommandLookup(), token)
    case None => Err(UnknownCommand(token))
    case Some(key) =>
      if key == [] then Err(UnknownCommand(token))
      else Dispatch(c, key, token, variants, remainder, pick)
  }

  /** The rule for a resolved command: the text rule takes the whole remainder, the others its whitespace-split words. */
  function Dispatch(c: Config, key: string, token: string, variants: seq<string>, remainder: string, pick: nat): Outcome {
    if key == "text" then TextRule(c, remainder)
    else
      var args := SplitArgs(remainder);
      if key == "font_size" then FontSizeRule(c, FirstVariant(variants), args)
      else if key == "line_spacing" then LineSpacingRule(c, FirstVariant(variants), args)
      else if key == "curve" then CurveRule(c, FirstVariant(variants), args)
      else if key == "position" then PositionRule(c, variants, args)
      else if key == "role" then RoleRule(c, remainder, args, pick)
      else Err(UnsupportedCommand(token))
  }

  // ---------------------------------------------------------------------
  // Properties of the rules
  // ---------------------------------------------------------------------

  function Min(a: int, b: int): int {
    if a <= b then a else b
  }

  function Max(a: int, b: int): int {
    if a <= b then b else a
  }

  /**
   * A size variant steps the font size by 4 within [18, 84]; the "reached
   * the limit" headline comes exactly when the size did not change, which
   * is exactly when it already sat at that limit.
   */
  lemma FontSizeSteps(c: Config, up: bool)
    requires InRange(c)
    ensures var r := StepFontSize(c, up);
      && r.0.fontSize == (if up then Min(c.fontSize + FontSizeStep, FontSizeMax) else Max(c.fontSize - FontSizeStep, FontSizeMin))
      && (if up then r.1 == FontSizeAtMax(r.0.fontSize) || r.1 == FontSizeIncreased(r.0.fontSize)
          else r.1 == FontSizeAtMin(r.0.fontSize) || r.1 == FontSizeDecreased(r.0.fontSize))
      && (r.1.FontSizeAtMax? || r.1.FontSizeAtMin? <==> r.0 == c)
      && (r.1.FontSizeAtMax? <==> up && c.fontSize == FontSizeMax)
      && (r.1.FontSizeAtMin? <==> !up && c.fontSize == FontSizeMin)
  {
  }

  /** A size variant names increase or decrease; any other word is refused. */
  lemma SizeVariantChoice(c: Config, variant: string, args: seq<string>)
    requires variant != []
    ensures SizeAction(variant).None? ==> FontSizeRule(c, Some(variant), args) == Err(UnknownSizeVariant)
    ensures SizeAction(variant).None? ==> LineSpacingRule(c, Some(variant), args) == Err(UnknownSpacingVariant)
    ensures SizeAction(variant).Some? ==>
      var up := SizeAction(variant) == Some("increase");
      && (up || SizeAction(variant) == Some("decrease"))
      && FontSizeRule(c, Some(variant), args) == Ok(StepFontSize(c, up))
      && LineSpacingRule(c, Some(variant), args) == Ok(StepLineSpacing(c, up))
  {
  }

  /**
   * Without a variant the first argument is parsed and clamped to [18, 84];
   * the range note appears exactly when clamping changed the value.  No
   * argument, or one that does not parse, is refused.
   */
  lemma FontSizeAbsolute(c: Config, variant: Option<string>, args: seq<string>)
    requires !Present(variant)
    ensures args == [] ==> FontSizeRule(c, variant, args) == Err(MissingFontSize)
    ensures args != [] && ParseInt(args[0]).Err? ==> FontSizeRule(c, variant, args) == Err(Unparsable(args[0]))
    ensures args != [] && ParseInt(args[0]).Ok? ==>
      var value := ParseInt(args[0]).value;
      var r := FontSizeRule(c, variant, args);
      && r.Ok?
      && r.value.0.fontSize == Max(FontSizeMin, Min(FontSizeMax, value))
      && r.value.1 == FontSizeSet(r.value.0.fontSize, value < FontSizeMin || value > FontSizeMax)
  {
    if args != [] {
      var parsed := ParseInt(args[0]);
      if parsed.Err? {
        FontSizeUnparsable(c, variant, args);
      } else {
        FontSizeClamped(c, variant, args, parsed.value);
      }
    }
  }

  lemma FontSizeUnparsable(c: Config, variant: Option<string>, args: seq<string>)
    requires !Present(variant) && args != [] && ParseInt(args[0]).Err?
    ensures FontSizeRule(c, variant, args) == Err(Unparsable(args[0]))
  {
  }

  lemma FontSizeClamped(c: Config, variant: Option<string>, args: seq<string>, value: int)
    requires !Present(variant) && args != [] && ParseInt(args[0]) == Ok(value)
    ensures FontSizeRule(c, variant, args).Ok?
    ensures FontSizeRule(c, variant, args).value.0.fontSize == Max(FontSizeMin, Min(FontSizeMax, value))
    ensures FontSizeRule(c, variant, args).value.1 == FontSizeSet(Max(FontSizeMin, Min(FontSizeMax, value)), value < FontSizeMin || value > FontSizeMax)
  {
    assert FontSizeRule(c, variant, args) == Ok(SetFontSize(c, value));
    SetFontSizeClamps(c, value);
  }

  /** Storing a size keeps `max(18, min(84, value))` and notes whether that differs from the value. */
  lemma SetFontSizeClamps(c: Config, value: int)
    ensures SetFontSize(c, value).0.fontSize == Max(FontSizeMin, Min(FontSizeMax, value))
    ensures SetFontSize(c, value).1 == FontSizeSet(Max(FontSizeMin, Min(FontSizeMax, value)), value < FontSizeMin || value > FontSizeMax)
  {
  }

  /** A size variant steps the spacing by 0.10 within [0.60, 3.00], with the same limit headlines. */
  lemma LineSpacingSteps(c: Config, up: bool)
    requires InRange(c)
    ensures var r := StepLineSpacing(c, up);
      && r.0.lineSpacing == (if up then Min(c.lineSpacing + LineSpacingStep, LineSpacingMax) else Max(c.lineSpacing - LineSpacingStep, LineSpacingMin))
      && (if up then r.1 == LineSpacingAtMax(r.0.lineSpacing) || r.1 == LineSpacingIncreased(r.0.lineSpacing)
          else r.1 == LineSpacingAtMin(r.0.lineSpacing) || r.1 == LineSpacingDecreased(r.0.lineSpacing))
      && (r.1.LineSpacingAtMax? || r.1.LineSpacingAtMin? <==> r.0 == c)
      && (r.1.LineSpacingAtMax? <==> up && c.lineSpacing == LineSpacingMax)
      && (r.1.LineSpacingAtMin? <==> !up && c.lineSpacing == LineSpacingMin)
  {
  }

  /**
   * An absolute spacing is clamped to [0.60, 3.00] and rounded to the
   * nearest hundredth: a value with at most two decimals inside the range is
   * kept as typed without the range note, a value beyond a limit becomes that
   * limit.  NaN reads as 3.00 without the note; an infinity becomes its limit
   * with the note.
   */
  lemma SpacingOfValue(value: Float)
    ensures value.Finite? && 0.6 <= value.value <= 3.0 ==>
      Hundredths(SpacingOf(value)) - 0.005 <= value.value < Hundredths(SpacingOf(value)) + 0.005
    ensures value.Finite? && value.value > 3.0 ==> SpacingOf(value) == LineSpacingMax
    ensures value.Finite? && value.value < 0.6 ==> SpacingOf(value) == LineSpacingMin
    ensures value.NaN? ==> SpacingOf(value) == LineSpacingMax && !Deviates(SpacingOf(value), value)
    ensures value.Infinity? ==> SpacingOf(value) == (if value.negative then LineSpacingMin else LineSpacingMax)
    ensures value.Infinity? ==> Deviates(SpacingOf(value), value)
  {
  }

  /** A two-decimal value inside the range is stored as typed, without the range note. */
  lemma SpacingKeepsTwoDecimals(k: int)
    requires LineSpacingMin <= k <= LineSpacingMax
    ensures SpacingOf(Finite(Hundredths(k))) == k
    ensures !Deviates(k, Finite(Hundredths(k)))
  {
    var x := Hundredths(k);
    assert ClampFloat(Finite(x), 0.6, 3.0) == x;
    assert x * 100.0 + 0.5 == k as real + 0.5;
  }

  /** Without a variant the first argument is parsed as a float; no argument, or one that does not parse, is refused. */
  lemma LineSpacingAbsolute(c: Config, variant: Option<string>, args: seq<string>)
    requires !Present(variant)
    ensures args == [] ==> LineSpacingRule(c, variant, args) == Err(MissingLineSpacing)
    ensures args != [] && ParseFloat(args[0]).Err? ==> LineSpacingRule(c, variant, args) == Err(Unparsable(args[0]))
    ensures args != [] && ParseFloat(args[0]).Ok? ==>
      var value := ParseFloat(args[0]).value;
      var r := LineSpacingRule(c, variant, args);
      && r.Ok?
      && r.value.0.lineSpacing == SpacingOf(value)
      && r.value.1 == LineSpacingSet(SpacingOf(value), Deviates(SpacingOf(value), value))
  {
  }

  /** The curve rule never refuses: on switches on, off switches off, anything else toggles. */
  lemma CurveSwitches(c: Config, variant: Option<string>, args: seq<string>)
    ensures CurveRule(c, variant, args).Ok?
    ensures CurveAction(variant, args) == Some("on") ==> CurveRule(c, variant, args).value.0.curveEnabled
    ensures CurveAction(variant, args) == Some("off") ==> !CurveRule(c, variant, args).value.0.curveEnabled
    ensures CurveAction(variant, args) !in {Some("on"), Some("off")} ==>
      CurveRule(c, variant, args).value.0.curveEnabled == !c.curveEnabled
  {
  }

  /**
   * A move goes toward the limit on its side by the step, or by what is
   * left before the limit; the boundary headline comes exactly when the
   * coordinate already sat at that limit.
   */
  lemma MoveSteps(c: Config, d: Direction, amount: int)
    requires OffsetMin <= Coordinate(c, d) <= OffsetMax && amount > 0
    ensures var limit := if Sign(d) < 0 then OffsetMin else OffsetMax;
      var room := Sign(d) * (limit - Coordinate(c, d));
      var r := Move(c, d, amount);
      && room >= 0
      && Coordinate(r.0, d) == Coordinate(c, d) + Sign(d) * Min(amount, room)
      && (r.1.AtBoundary? <==> room == 0)
      && (r.1.Moved? ==> r.1.applied == Min(amount, room) && r.1.applied > 0)
  {
  }

  /** The direction comes from the first variant; then the first argument, if any, is the step. */
  lemma DirectionFromVariant(variants: seq<string>, args: seq<string>, name: string)
    requires variants != [] && Resolve(DirectionLookup(), variants[0]) == Some(name)
    ensures PositionRequest(variants, args) == Requested(name, StepOf(args))
  {
  }

  /** Without a direction variant the first argument names the direction and is consumed; the next one is the step. */
  lemma DirectionFromArgument(variants: seq<string>, args: seq<string>, name: string)
    requires variants == [] || Resolve(DirectionLookup(), variants[0]).None?
    requires args != [] && Resolve(DirectionLookup(), args[0]) == Some(name)
    ensures PositionRequest(variants, args) == Requested(name, StepOf(args[1..]))
  {
    var fromVariant := if variants != [] then Resolve(DirectionLookup(), variants[0]) else None;
    assert fromVariant.None?;
  }

  /** The step defaults to 12; a given step must parse as a positive integer. */
  lemma StepDefault(remaining: seq<string>)
    ensures remaining == [] ==> StepOf(remaining) == Ok(OffsetStep)
    ensures remaining != [] ==> (StepOf(remaining).Ok? <==> ParseInt(remaining[0]).Ok? && ParseInt(remaining[0]).value > 0)
    ensures remaining != [] && StepOf(remaining).Ok? ==> StepOf(remaining).value == ParseInt(remaining[0]).value
  {
  }

  /** The position command is refused for want of a direction exactly when neither the variant nor the first argument names one. */
  lemma NoDirection(variants: seq<string>, args: seq<string>)
    ensures PositionRequest(variants, args) == Err(MissingDirection) <==>
      (variants == [] || Resolve(DirectionLookup(), variants[0]).None?) &&
      (args == [] || Resolve(DirectionLookup(), args[0]).None?)
  {
  }

  /** `-r` always yields a role different from the current one. */
  lemma RandomRoleDiffers(c: Config, remainder: string, args: seq<string>, pick: nat)
    requires args != [] && Lower(args[0]) == "-r"
    ensures var r := RoleRule(c, remainder, args, pick);
      r.Ok? && r.value.0.role != c.role && r.value.1 == RoleRandomized(r.value.0.role)
  {
  }

  /** Every role other than the current one can be the random pick. */
  lemma {:induction false} EveryOtherRoleReachable(exclude: string, role: string)
    requires role in RoleNames && role != exclude
    ensures exists pick: nat :: PickRandomRole(exclude, pick) == role
  {
    var others := Others(RoleNames, exclude);
    var i := IndexIn(others, role);
    assert i % |others| == i;
    assert PickRandomRole(exclude, i) == role;
  }

  lemma {:induction false} IndexIn(s: seq<string>, x: string) returns (i: nat)
    requires x in s
    ensures i < |s| && s[i] == x
  {
    i :| 0 <= i < |s| && s[i] == x;
  }

  /** Without `-r` the stripped remainder must name a role; an unknown name is refused and echoed back. */
  lemma RoleByName(c: Config, candidate: string)
    ensures candidate == [] ==> NamedRole(c, candidate) == Err(MissingRole)
    ensures candidate != [] && Resolve(RoleLookup(), candidate).None? ==>
      NamedRole(c, candidate) == Err(UnknownRole(candidate))
    ensures candidate != [] && Resolve(RoleLookup(), candidate).Some? ==>
      var role := Resolve(RoleLookup(), candidate).value;
      NamedRole(c, candidate) == Ok((c.(role := role), RoleSwitched(role)))
  {
    if candidate != [] && Resolve(RoleLookup(), candidate).Some? {
      ResolvedRoleKnown(candidate);
    }
  }

  /** Every successful adjustment keeps the fields in range and the role among the known characters. */
  lemma ProcessKeepsInRange(c: Config, token: string, variants: seq<string>, remainder: string, pick: nat)
    requires InRange(c)
    ensures Process(c, token, variants, remainder, pick).Ok? ==> InRange(Process(c, token, variants, remainder, pick).value.0)
  {
    match Resolve(CommandLookup(), token)
    case None =>
    case Some(key) =>
      if key != [] {
        DispatchKeepsInRange(c, key, token, variants, remainder, pick);
      }
  }

  lemma DispatchKeepsInRange(c: Config, key: string, token: string, variants: seq<string>, remainder: string, pick: nat)
    requires InRange(c)
    ensures Dispatch(c, key, token, variants, remainder, pick).Ok? ==> InRange(Dispatch(c, key, token, variants, remainder, pick).value.0)
  {
    var r := Dispatch(c, key, token, variants, remainder, pick);
    var args := SplitArgs(remainder);
    if key == "text" {
      assert r == TextRule(c, remainder);
    } else if key == "font_size" {
      assert r == FontSizeRule(c, FirstVariant(variants), args);
    } else if key == "line_spacing" {
      assert r == LineSpacingRule(c, FirstVariant(variants), args);
    } else if key == "curve" {
      assert r == CurveRule(c, FirstVariant(variants), args);
    } else if key == "position" {
      assert r == PositionRule(c, variants, args);
    } else if key == "role" {
      assert r == RoleRule(c, remainder, args, pick);
    }
  }

  /** The fallback "unsupported command" refusal can never happen: every head the lookup resolves has a rule. */
  lemma NeverUnsupported(c: Config, token: string, variants: seq<string>, remainder: string, pick: nat)
    ensures !Process(c, token, variants, remainder, pick).Err? || !Process(c, token, variants, remainder, pick).error.UnsupportedCommand?
    ensures Resolve(CommandLookup(), token).Some? ==>
      !Process(c, token, variants, remainder, pick).Err? || !Process(c, token, variants, remainder, pick).error.Dispatching()
  {
    if Resolve(CommandLookup(), token).Some? {
      var i := CommandIndex(token);
      DispatchKnownKey(c, i, token, variants, remainder, pick);
      ProcessDispatches(c, token, variants, remainder, pick, i);
    }
  }

  /** The resolved head is the canonical name of one of the six commands. */
  lemma CommandIndex(token: string) returns (i: nat)
    requires Resolve(CommandLookup(), token).Some?
    ensures i < |CommandAliases| && Resolve(CommandLookup(), token).value == CommandAliases[i].0
  {
    ResolveCanonical(CommandAliases, token);
    i :| 0 <= i < |CommandAliases| && Resolve(CommandLookup(), token).value == CommandAliases[i].0;
  }

  lemma ProcessDispatches(c: Config, token: string, variants: seq<string>, remainder: string, pick: nat, i: nat)
    requires i < |CommandAliases| && Resolve(CommandLookup(), token) == Some(CommandAliases[i].0)
    ensures Process(c, token, variants, remainder, pick) == Dispatch(c, CommandAliases[i].0, token, variants, remainder, pick)
  {
    CommandNamesNonEmpty(i);
  }

  lemma CommandNamesNonEmpty(i: nat)
    requires i < |CommandAliases|
    ensures |CommandAliases[i].0| > 0
  {
  }

  lemma DispatchKnownKey(c: Config, i: nat, token: string, variants: seq<string>, remainder: string, pick: nat)
    requires i < |CommandAliases|
    ensures var r := Dispatch(c, CommandAliases[i].0, token, variants, remainder, pick);
      !r.Err? || !r.error.Dispatching()
  {
    CommandKeys(i);
  }

  /** The six canonical command names. */
  lemma CommandKeys(i: nat)
    requires i < |CommandAliases|
    ensures CommandAliases[i].0 in ["text", "font_size", "line_spacing", "curve", "position", "role"]
  {
  }

  /** The command is refused as unknown exactly when its head resolves to no command. */
  lemma UnknownCommandExactly(c: Config, token: string, variants: seq<string>, remainder: string, pick: nat)
    ensures Process(c, token, variants, remainder, pick) == Err(UnknownCommand(token)) <==> Resolve(CommandLookup(), token).None?
  {
    NeverUnsupported(c, token, variants, remainder, pick);
  }
}
