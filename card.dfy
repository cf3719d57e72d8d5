/**
 * The card a user renders: its configuration, the plugin's limits and
 * alias tables, the replies an adjustment produces and the number parsing
 * the adjustment commands share.  Line spacing is held in hundredths
 * (1.20 is 120), since the plugin rounds it to two decimals on every write.
 */
module Card {
  import opened Wrappers
  import opened Text
  import opened Numbers
  import opened Aliases

  // ---------------------------------------------------------------------
  // Defaults and limits
  // ---------------------------------------------------------------------

  const DefaultText: string := "这是一个新的卡面"
  const DefaultFontSize: int := 42
  /** `round(1.20, 2)` in hundredths. */
  const DefaultLineSpacing: int := 120
  const DefaultRole: string := "初音未来"

  const FontSizeMin: int := 18
  const FontSizeMax: int := 84
  const FontSizeStep: int := 4

  /** 0.60, 3.00 and 0.10 in hundredths. */
  const LineSpacingMin: int := 60
  const LineSpacingMax: int := 300
  const LineSpacingStep: int := 10

  const OffsetMin: int := -240
  const OffsetMax: int := 240
  const OffsetStep: int := 12

  const MaxTextLength: int := 120

  // ---------------------------------------------------------------------
  // Alias tables, in declaration order
  // ---------------------------------------------------------------------

  const CommandAliases: Table := [
    ("text", ["文本", "文字", "内容", "text", "message"]),
    ("font_size", ["字号", "字体", "字", "font", "fontsize", "font-size"]),
    ("line_spacing", ["行距", "间距", "行间距", "spacing", "lines"]),
    ("curve", ["曲线", "弧线", "曲线模式", "curve"]),
    ("position", ["位置", "坐标", "offset", "pos"]),
    ("role", ["人物", "角色", "立绘", "role", "avatar"])
  ]

  const SizeVariants: Table := [
    ("increase", ["大", "增", "加", "+", "increase", "up", "plus"]),
    ("decrease", ["小", "减", "降", "-", "decrease", "down", "minus"])
  ]

  /** The size variant a token names: "increase", "decrease", or none. */
  function SizeAction(token: string): (r: Option<string>)
    ensures token == [] ==> r.None?
    ensures r.Some? ==> r.value == "increase" || r.value == "decrease"
  {
    NormalizeVariant(token, SizeVariants)
  }

  const CurveVariants: Table := [
    ("on", ["开", "开启", "on", "true", "enable"]),
    ("off", ["关", "关闭", "off", "false", "disable"]),
    ("toggle", ["切换", "toggle", "switch"])
  ]

  /** The curve variant a token names: "on", "off", "toggle", or none. */
  function CurveChoice(token: string): (r: Option<string>)
    ensures token == [] ==> r.None?
    ensures r.Some? ==> r.value == "on" || r.value == "off" || r.value == "toggle"
  {
    NormalizeVariant(token, CurveVariants)
  }

  const DirectionAliases: Table := [
    ("up", ["上", "up", "u", "↑"]),
    ("down", ["下", "down", "d", "↓"]),
    ("left", ["左", "left", "l", "←"]),
    ("right", ["右", "right", "r", "→"])
  ]

  const RoleAliases: Table := [
    ("初音未来", ["初音未来", "初音", "miku", "hatsune", "hatsune miku"]),
    ("星乃一歌", ["星乃一歌", "一歌", "ichika"]),
    ("天马咲希", ["天马咲希", "咲希", "saki"]),
    ("望月穗波", ["望月穗波", "穗波", "honami"]),
    ("日野森志步", ["日野森志步", "志步", "shiho"]),
    ("东云彰人", ["东云彰人", "彰人", "akito"]),
    ("青柳冬弥", ["青柳冬弥", "冬弥", "toya"]),
    ("小豆泽心羽", ["小豆泽心羽", "心羽", "kohane"])
  ]

  const RoleNames: seq<string> := Canonicals(RoleAliases)

  // ---------------------------------------------------------------------
  // The configuration
  // ---------------------------------------------------------------------

  /** The fields of a render state, as a value. */
  datatype Config = Config(
    text: string,
    fontSize: int,
    lineSpacing: int,
    curveEnabled: bool,
    offsetX: int,
    offsetY: int,
    role: string)

  /** Every numeric field inside its range and the role one of the known characters. */
  predicate InRange(c: Config) {
    && FontSizeMin <= c.fontSize <= FontSizeMax
    && LineSpacingMin <= c.lineSpacing <= LineSpacingMax
    && OffsetMin <= c.offsetX <= OffsetMax
    && OffsetMin <= c.offsetY <= OffsetMax
    && c.role in RoleNames
  }

  /** The state `draw` creates on first use: the message as text, or the default text when it is empty. */
  function Initial(message: string): Config {
    Config(if message == [] then DefaultText else message, DefaultFontSize, DefaultLineSpacing,
           false, 0, 0, DefaultRole)
  }

  /** A new card is within every range and always has text to draw. */
  lemma InitialInRange(message: string)
    ensures InRange(Initial(message)) && Initial(message).text != []
  {
    assert RoleNames[0] == DefaultRole;
  }

  /** A user's render state; the adjustment commands assign its fields in place. */
  class RenderState {
    var text: string
    var fontSize: int
    var lineSpacing: int
    var curveEnabled: bool
    var offsetX: int
    var offsetY: int
    var role: string

    constructor (c: Config)
      ensures Snapshot() == c
    {
      text, fontSize, lineSpacing, curveEnabled := c.text, c.fontSize, c.lineSpacing, c.curveEnabled;
      offsetX, offsetY, role := c.offsetX, c.offsetY, c.role;
    }

    /** The current field values. */
    function Snapshot(): Config
      reads this
    {
      Config(text, fontSize, lineSpacing, curveEnabled, offsetX, offsetY, role)
    }
  }

  // ---------------------------------------------------------------------
  // Replies
  // ---------------------------------------------------------------------

  datatype Direction = Up | Down | Left | Right {
    /** The word the replies use for the side. */
    function Side(): string {
      match this
      case Up => "上"
      case Down => "下"
      case Left => "左"
      case Right => "右"
    }

    /** The coordinate the direction moves. */
    function Axis(): string {
      if this == Up || this == Down then "Y" else "X"
    }
  }

  /** The headline of a successful adjustment. */
  datatype Notice =
    | TextUpdated
    | FontSizeAtMax(size: int)
    | FontSizeIncreased(size: int)
    | FontSizeAtMin(size: int)
    | FontSizeDecreased(size: int)
    | FontSizeSet(size: int, clamped: bool)
    | LineSpacingAtMax(spacing: int)
    | LineSpacingIncreased(spacing: int)
    | LineSpacingAtMin(spacing: int)
    | LineSpacingDecreased(spacing: int)
    | LineSpacingSet(spacing: int, outOfRange: bool)
    | CurveSwitched(enabled: bool)
    | AtBoundary(direction: Direction, coordinate: int)
    | Moved(direction: Direction, applied: int, coordinate: int)
    | RoleRandomized(role: string)
    | RoleSwitched(role: string)
  {
    function Message(): string {
      match this
      case TextUpdated => "📝 文本已更新"
      case FontSizeAtMax(s) => "🔠 字号已达到上限（" + IntToString(s) + "px）"
      case FontSizeIncreased(s) => "🔠 字号已增至 " + IntToString(s) + "px"
      case FontSizeAtMin(s) => "🔠 字号已达到下限（" + IntToString(s) + "px）"
      case FontSizeDecreased(s) => "🔠 字号已降至 " + IntToString(s) + "px"
      case FontSizeSet(s, clamped) =>
        "🔠 字号已设置为 " + IntToString(s) + "px"
        + (if clamped then "（范围 " + IntToString(FontSizeMin) + "-" + IntToString(FontSizeMax) + "）" else "")
      case LineSpacingAtMax(h) => "📏 行距已达到上限（" + FormatHundredths(h) + "）"
      case LineSpacingIncreased(h) => "📏 行距已增至 " + FormatHundredths(h)
      case LineSpacingAtMin(h) => "📏 行距已达到下限（" + FormatHundredths(h) + "）"
      case LineSpacingDecreased(h) => "📏 行距已降至 " + FormatHundredths(h)
      // `str(0.60)` and `str(3.00)` print as 0.6 and 3.0.
      case LineSpacingSet(h, outOfRange) =>
        "📏 行距已设置为 " + FormatHundredths(h) + (if outOfRange then "（范围 0.6-3.0）" else "")
      case CurveSwitched(enabled) => "〰️ 曲线已" + (if enabled then "开启" else "关闭")
      case AtBoundary(d, at) => "📍 已到达" + d.Side() + "边界（" + d.Axis() + "=" + IntToString(at) + "）"
      case Moved(d, applied, at) =>
        "📍 向" + d.Side() + "移动 " + IntToString(applied) + "，当前 " + d.Axis() + "=" + IntToString(at)
      case RoleRandomized(r) => "🧑‍🎤 角色已随机切换为 " + r
      case RoleSwitched(r) => "🧑‍🎤 角色已切换为 " + r
    }
  }

  /** Why an adjustment was refused: `MissingStateError` and the `ValidationError`s. */
  datatype Failure =
    | MissingState
    | EmptyText
    | TextTooLong
    | UnknownSizeVariant
    | MissingFontSize
    | Unparsable(raw: string)
    | UnknownSpacingVariant
    | MissingLineSpacing
    | MissingDirection
    | NonPositiveStep
    | MissingRole
    | UnknownRole(candidate: string)
    | UnknownCommand(token: string)
    | UnsupportedCommand(token: string)
  {
    function Message(): string {
      match this
      case MissingState => "未找到历史渲染，请先执行 /pjsk.draw。"
      case EmptyText => "请提供要更新的文本内容。"
      case TextTooLong => "文本长度不可超过 " + IntToString(MaxTextLength) + " 个字符。"
      case UnknownSizeVariant => "未识别的字号调整方式。"
      case MissingFontSize => "请提供字号数值，例如：字号 48。"
      case Unparsable(raw) => "无法解析数值：" + raw
      case UnknownSpacingVariant => "未识别的行距调整方式。"
      case MissingLineSpacing => "请提供行距数值，例如：行距 1.8。"
      case MissingDirection => "请指定方向，例如：位置.上 或 位置 下。"
      case NonPositiveStep => "位移步长需为正整数。"
      case MissingRole => "请提供角色名称，或使用 -r 随机切换。"
      case UnknownRole(c) => "未识别的角色：" + c
      case UnknownCommand(t) => "未识别的子指令：" + t
      case UnsupportedCommand(t) => "未支持的子指令：" + t
    }

    /** A refusal of the dispatcher itself rather than of one of the rules. */
    predicate Dispatching() {
      UnknownCommand? || UnsupportedCommand?
    }
  }

  // ---------------------------------------------------------------------
  // Clamping
  // ---------------------------------------------------------------------

  /** `max(lo, min(hi, v))` on integers. */
  function Clamp(v: int, lo: int, hi: int): (r: int)
    ensures lo <= hi ==> lo <= r <= hi
    ensures lo <= v <= hi ==> r == v
    ensures v < lo ==> r == lo
    ensures lo <= hi < v ==> r == hi
  {
    if hi < v then (if lo < hi then hi else lo)
    else if lo < v then v
    else lo
  }

  /**
   * `max(lo, min(hi, v))` on a Python float: NaN and +inf never compare
   * below `hi`, so both give `max(lo, hi)`; -inf gives `lo`.
   */
  function ClampFloat(v: Float, lo: real, hi: real): (r: real)
    ensures lo <= hi ==> lo <= r <= hi
    ensures v.Finite? && lo <= v.value <= hi ==> r == v.value
    ensures v.Finite? && v.value < lo ==> r == lo
    ensures v.Finite? && lo <= hi < v.value ==> r == hi
    ensures v.NaN? || v == Infinity(false) ==> r == (if lo < hi then hi else lo)
    ensures v == Infinity(true) ==> r == lo
  {
    var m: Float := match v
      case Finite(x) => if x < hi then v else Finite(hi)
      case Infinity(negative) => if negative then v else Finite(hi)
      case NaN => Finite(hi);
    match m
    case Finite(x) => if lo < x then x else lo
    case _ => lo
  }

  // ---------------------------------------------------------------------
  // Number parsing
  // ---------------------------------------------------------------------

  /** `raw.strip().lower()` with "px" removed and full-width signs made ASCII. */
  function IntSanitized(raw: string): string {
    ReplaceAll(ReplaceAll(ReplaceAll(Lower(Strip(raw)), "px", ""), "＋", "+"), "－", "-")
  }

  /** `raw.strip().lower()` with "倍" and "x" removed and a comma read as the decimal point. */
  function FloatSanitized(raw: string): string {
    ReplaceAll(ReplaceAll(ReplaceAll(Lower(Strip(raw)), "倍", ""), "x", ""), ",", ".")
  }

  /** What `int(float(s))` does: a value, a `ValueError`, or an `OverflowError` for an infinity. */
  datatype Conversion = Converted(n: int) | Rejected | Overflow

  /** `int(float(IntSanitized(raw)))` as written: an infinity overflows instead of being rejected. */
  function ConvertAsWritten(raw: string): (r: Conversion)
    ensures r.Overflow? <==> ParseFloatLiteral(IntSanitized(raw)).Some? && ParseFloatLiteral(IntSanitized(raw)).value.Infinity?
  {
    match ParseFloatLiteral(IntSanitized(raw))
    case Some(Finite(x)) => Converted(Trunc(x))
    case Some(Infinity(_)) => Overflow
    case _ => Rejected
  }

  /**
   * `_parse_int`: the truncated value of the sanitized float literal, or
   * `Unparsable(raw)` for anything else, the infinities included.
   */
  function ParseInt(raw: string): (r: Result<int, Failure>)
    ensures r.Err? ==> r.error == Unparsable(raw)
    ensures r.Ok? <==> ParseFloatLiteral(IntSanitized(raw)).Some? && ParseFloatLiteral(IntSanitized(raw)).value.Finite?
    ensures r.Ok? ==> r.value == Trunc(ParseFloatLiteral(IntSanitized(raw)).value.value)
  {
    match ParseFloatLiteral(IntSanitized(raw))
    case Some(Finite(x)) => Ok(Trunc(x))
    case _ => Err(Unparsable(raw))
  }

  /** `_parse_positive_int`: a parsed value that is at least 1. */
  function ParsePositiveInt(raw: string): (r: Result<int, Failure>)
    ensures r.Ok? <==> ParseInt(raw).Ok? && ParseInt(raw).value > 0
    ensures r.Ok? ==> r.value == ParseInt(raw).value
    ensures ParseInt(raw).Err? ==> r == ParseInt(raw)
    ensures ParseInt(raw).Ok? && ParseInt(raw).value <= 0 ==> r == Err(NonPositiveStep)
  {
    match ParseInt(raw)
    case Err(e) => Err(e)
    case Ok(v) => if v <= 0 then Err(NonPositiveStep) else Ok(v)
  }

  /** `_parse_float`: the sanitized literal as a Python float, or `Unparsable(raw)`. */
  function ParseFloat(raw: string): (r: Result<Float, Failure>)
    ensures r.Err? <==> ParseFloatLiteral(FloatSanitized(raw)).None?
    ensures r.Err? ==> r.error == Unparsable(raw)
    ensures r.Ok? ==> r.value == ParseFloatLiteral(FloatSanitized(raw)).value
  {
    match ParseFloatLiteral(FloatSanitized(raw))
    case None => Err(Unparsable(raw))
    case Some(f) => Ok(f)
  }

  // ---------------------------------------------------------------------
  // Round trips: what the replies print reads back
  // ---------------------------------------------------------------------

  /** A value printed with `str` parses back as the same integer. */
  lemma ParseIntOfIntToString(n: int)
    ensures ParseInt(IntToString(n)) == Ok(n)
  {
    IntSanitizedNumeral(IntToString(n));
    IntLiteralValue(n);
    assert Trunc(n as real) == n;
  }

  lemma IntLiteralValue(n: int)
    ensures ParseFloatLiteral(IntToString(n)) == Some(Finite(n as real))
  {
    var m: nat := if n < 0 then -n else n;
    var body := NatToString(m);
    NatLiteralValue(m);
    DigitsNoSpace(body);
    assert IntToString(n) == WithSign(n < 0, body);
    SignedDecimal(n < 0, body, m as real);
    assert SignedReal(n < 0, m as real) == n as real;
  }

  lemma DigitsNoSpace(s: string)
    requires s != [] && AllDigits(s)
    ensures IsDigit(s[0]) && NoSpace(s)
  {
  }

  /** A spacing printed with two decimals parses back as the same value. */
  lemma ParseFloatOfFormat(h: int)
    ensures ParseFloat(FormatHundredths(h)) == Ok(Finite(Hundredths(h)))
  {
    var whole, cents := HundredthsParts(h);
    FloatSanitizedNumeral(TwoDecimals(h < 0, whole, cents));
    FormatHundredthsRoundTrip(h);
  }

  /** Characters of a printed number: digits, the point and the minus sign. */
  predicate Numeral(s: string) {
    forall i :: 0 <= i < |s| ==> IsDigit(s[i]) || s[i] == '.' || s[i] == '-'
  }

  lemma IntSanitizedNumeral(s: string)
    requires Numeral(s)
    ensures IntSanitized(s) == s
  {
    NumeralStrip(s);
    NumeralLower(s);
    assert 'p' !in s && '＋' !in s && '－' !in s;
    ReplaceAbsent(s, "px", "");
    ReplaceAbsent(s, "＋", "+");
    ReplaceAbsent(s, "－", "-");
  }

  lemma FloatSanitizedNumeral(s: string)
    requires Numeral(s)
    ensures FloatSanitized(s) == s
  {
    NumeralStrip(s);
    NumeralLower(s);
    assert '倍' !in s && 'x' !in s && ',' !in s;
    ReplaceAbsent(s, "倍", "");
    ReplaceAbsent(s, "x", "");
    ReplaceAbsent(s, ",", ".");
  }

  lemma NumeralStrip(s: string)
    requires Numeral(s)
    ensures Strip(s) == s
  {
    assert NoSpace(s);
    StripNoSpace(s);
  }

  lemma NumeralLower(s: string)
    requires Numeral(s)
    ensures Lower(s) == s
  {
  }

  /** Replacing a pattern whose first character does not occur changes nothing. */
  lemma {:induction false} ReplaceAbsent(s: string, pat: string, rep: string)
    requires pat != [] && pat[0] !in s
    ensures ReplaceAll(s, pat, rep) == s
    decreases |s|
  {
    if |s| >= |pat| {
      assert s[..|pat|] != pat by {
        assert s[..|pat|][0] == s[0];
      }
      assert pat[0] !in s[1..];
      ReplaceAbsent(s[1..], pat, rep);
      assert s == [s[0]] + s[1..];
    }
  }

  lemma NatLiteralValue(m: nat)
    ensures ParseDecimal(NatToString(m)) == Some(m as real)
  {
    var s := NatToString(m);
    assert forall i :: 0 <= i < |s| ==> IsDigit(s[i]) || s[i] == '.';
    NoExponent(s);
    assert '.' !in s;
    IndexOfAbsent(s, '.');
    assert s[..|s|] == s;
    DigitsValueOfNatToString(m);
    assert DecimalValue(m, 0, 0) == m as real;
  }

  /** `int(float("inf"))` raises `OverflowError`, which neither `_parse_int` nor `adjust` catches. */
  lemma InfinityOverflows()
    ensures ConvertAsWritten("inf") == Overflow
    ensures ParseInt("inf") == Err(Unparsable("inf"))
  {
    InfSanitized();
    InfLiteral();
  }

  lemma InfSanitized()
    ensures IntSanitized("inf") == "inf"
  {
    var s := "inf";
    assert NoSpace(s);
    StripNoSpace(s);
    assert Lower(s) == s;
    assert 'p' !in s && '＋' !in s && '－' !in s;
    ReplaceAbsent(s, "px", "");
    ReplaceAbsent(s, "＋", "+");
    ReplaceAbsent(s, "－", "-");
  }

  lemma InfLiteral()
    ensures ParseFloatLiteral("inf") == Some(Infinity(false))
  {
    var s := "inf";
    assert NoSpace(s);
    StripNoSpace(s);
    assert SignSplit(s) == (false, s);
    assert Lower(s) == s;
  }

  /** The corrected conversion agrees with the written one except where that one overflows. */
  lemma ParseIntCorrects(raw: string)
    ensures ConvertAsWritten(raw).Converted? ==> ParseInt(raw) == Ok(ConvertAsWritten(raw).n)
    ensures !ConvertAsWritten(raw).Converted? ==> ParseInt(raw) == Err(Unparsable(raw))
  {
  }
}
