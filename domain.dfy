/**
 * The character database shared by the selection dialogue and the list
 * commands: canonical names with their aliases, the groups they belong to,
 * name resolution, and the three listings shown to users.
 */
module Domain {
  import opened Wrappers
  import opened Text
  import opened Numbers
  import opened Aliases

  /**
   * `CHARACTERS`: each canonical name with its aliases.  The aliases are a
   * set in the source; here they keep their declaration order.
   */
  const Characters: Table := [
    ("初音未来", ["初音未来", "初音", "miku", "hatsune", "hatsune miku"]),
    ("星乃一歌", ["星乃一歌", "一歌", "ichika"]),
    ("天马咲希", ["天马咲希", "咲希", "saki"]),
    ("望月穗波", ["望月穗波", "穗波", "honami"]),
    ("日野森志步", ["日野森志步", "志步", "shiho"]),
    ("东云彰人", ["东云彰人", "彰人", "akito"]),
    ("青柳冬弥", ["青柳冬弥", "冬弥", "toya"]),
    ("小豆泽心羽", ["小豆泽心羽", "心羽", "kohane"])
  ]

  /** `CHARACTER_GROUPS`: each group name with its members, in declaration order. */
  const CharacterGroups: seq<(string, seq<string>)> := [
    ("Leo/need", ["星乃一歌", "天马咲希", "望月穗波", "日野森志步"]),
    ("MORE MORE JUMP!", ["初音未来"]),
    ("Vivid BAD SQUAD", ["东云彰人", "青柳冬弥"]),
    ("Nightcord at 25:00", ["小豆泽心羽"])
  ]

  /** `CHARACTER_NAMES`: the canonical names in declaration order. */
  const CharacterNames: seq<string> := Canonicals(Characters)

  // ---------------------------------------------------------------------
  // Resolution
  // ---------------------------------------------------------------------

  /**
   * `get_character_name`: nothing for empty input, otherwise the stripped
   * input and then its lower-cased form looked up in the alias table built
   * from `Characters`.  Whatever it returns is a canonical name.
   */
  function GetCharacterName(rawInput: string): (r: Option<string>)
    ensures rawInput == [] ==> r.None?
    ensures r.Some? ==> r.value in CharacterNames
  {
    var r := Resolve(LookupOf(Characters), rawInput);
    ResolveCanonical(Characters, rawInput);
    r
  }

  /** The `i`-th canonical name meets the conditions of `SelfNamedResolves`. */
  predicate SelfNamed(table: Table, i: nat) {
    i < |table| && table[i].0 != [] && Trimmed(table[i].0) && table[i].0 in table[i].1
    && ApartLater(table, i, table[i].0, 0)
  }

  /** Each canonical name is among its own aliases and apart from every later group. */
  lemma CharactersSelfNamed(i: nat)
    requires i < |Characters|
    ensures SelfNamed(Characters, i)
  {
    if i < 2 {
      LeadingSelfNamed(i);
    } else if i < 5 {
      MiddleSelfNamed(i);
    } else {
      TrailingSelfNamed(i);
    }
  }

  /** The first two names, which the most later groups must stay apart from. */
  lemma LeadingSelfNamed(i: nat)
    requires i < 2
    ensures SelfNamed(Characters, i)
  {
    if i == 0 {
      assert Characters[0].1[0] == Characters[0].0;
    } else {
      assert Characters[1].1[0] == Characters[1].0;
    }
  }

  lemma MiddleSelfNamed(i: nat)
    requires 2 <= i < 5
    ensures SelfNamed(Characters, i)
  {
    if i == 2 {
      assert Characters[2].1[0] == Characters[2].0;
    } else if i == 3 {
      assert Characters[3].1[0] == Characters[3].0;
    } else {
      assert Characters[4].1[0] == Characters[4].0;
    }
  }

  lemma TrailingSelfNamed(i: nat)
    requires 5 <= i < 8
    ensures SelfNamed(Characters, i)
  {
    if i == 5 {
      assert Characters[5].1[0] == Characters[5].0;
    } else if i == 6 {
      assert Characters[6].1[0] == Characters[6].0;
    } else {
      assert Characters[7].1[0] == Characters[7].0;
    }
  }

  /** Every canonical name resolves to itself, as typed by a user picking it from the list. */
  lemma CanonicalNamesResolve(i: nat)
    requires i < |CharacterNames|
    ensures GetCharacterName(CharacterNames[i]) == Some(CharacterNames[i])
  {
    CharactersSelfNamed(i);
    SelfNamedResolves(Characters, i);
  }

  /**
   * The case-insensitive inputs users type, each with the index of the character it names.
   * The last two begin with U+212A KELVIN SIGN, which `lower()` turns into `k`.
   */
  const CaseInsensitiveInputs: seq<(string, nat)> := [
    ("MIKU", 0), ("Miku", 0), ("MiKu", 0), ("ICHIKA", 1), ("Ichika", 1),
    ("\U{212A}ohane", 7), ("\U{212A}OHANE", 7)
  ]

  /** No alias of the character table begins with an upper-case letter. */
  lemma CharactersLowerInitials()
    ensures NoUpperInitials(Characters)
  {
    forall j | 0 <= j < |Characters| ensures LowerInitials(Characters[j].1) {
      if j == 0 {
        assert LowerInitials(Characters[0].1);
      } else if j == 1 {
        assert LowerInitials(Characters[1].1);
      } else if j == 2 {
        assert LowerInitials(Characters[2].1);
      } else if j == 3 {
        assert LowerInitials(Characters[3].1);
      } else if j == 4 {
        assert LowerInitials(Characters[4].1);
      } else if j == 5 {
        assert LowerInitials(Characters[5].1);
      } else if j == 6 {
        assert LowerInitials(Characters[6].1);
      } else {
        assert LowerInitials(Characters[7].1);
      }
    }
  }

  /**
   * Resolution ignores case: each of `CaseInsensitiveInputs` reaches its character
   * through the lower-cased form of its ASCII alias.
   */
  lemma CaseInsensitiveResolve(e: nat)
    requires e < |CaseInsensitiveInputs|
    ensures GetCharacterName(CaseInsensitiveInputs[e].0) == Some(CharacterNames[CaseInsensitiveInputs[e].1])
  {
    var (token, i) := CaseInsensitiveInputs[e];
    InputFolds(e);
    AsciiAliasLast(i);
    CharactersLowerInitials();
    UpperInitialUnnamed(Characters, token);
    CaseFoldedResolves(Characters, i, token);
  }

  /** The alias in ASCII letters of Miku, Ichika and Kohane. */
  function AsciiAlias(i: nat): string
    requires i == 0 || i == 1 || i == 7
  {
    if i == 0 then "miku" else if i == 1 then "ichika" else "kohane"
  }

  /** `token` is trimmed, starts upper-case and lower-cases to the ASCII alias of the `i`-th character. */
  predicate FoldsToAlias(token: string, i: nat) {
    (i == 0 || i == 1 || i == 7) && token != [] && Trimmed(token)
    && IsUpper(token[0]) && Lower(token) == AsciiAlias(i)
  }

  lemma InputFolds(e: nat)
    requires e < |CaseInsensitiveInputs|
    ensures FoldsToAlias(CaseInsensitiveInputs[e].0, CaseInsensitiveInputs[e].1)
  {
    if e < 3 {
      MikuInputFolds(e);
    } else if e < 5 {
      IchikaInputFolds(e);
    } else {
      KelvinInputFolds(e);
    }
  }

  /** The spellings of `miku` in ASCII capitals. */
  lemma MikuInputFolds(e: nat)
    requires e < 3
    ensures FoldsToAlias(CaseInsensitiveInputs[e].0, CaseInsensitiveInputs[e].1)
  {
    if e == 0 {
      assert FoldsToAlias("MIKU", 0);
    } else if e == 1 {
      assert FoldsToAlias("Miku", 0);
    } else {
      assert FoldsToAlias("MiKu", 0);
    }
  }

  /** The spellings of `ichika` in ASCII capitals. */
  lemma IchikaInputFolds(e: nat)
    requires 3 <= e < 5
    ensures FoldsToAlias(CaseInsensitiveInputs[e].0, CaseInsensitiveInputs[e].1)
  {
    if e == 3 {
      assert FoldsToAlias("ICHIKA", 1);
    } else {
      assert FoldsToAlias("Ichika", 1);
    }
  }

  /** The inputs that begin with the Kelvin sign. */
  lemma KelvinInputFolds(e: nat)
    requires 5 <= e < 7
    ensures FoldsToAlias(CaseInsensitiveInputs[e].0, CaseInsensitiveInputs[e].1)
  {
    if e == 5 {
      assert FoldsToAlias("\U{212A}ohane", 7);
    } else {
      assert FoldsToAlias("\U{212A}OHANE", 7);
    }
  }

  /** The ASCII alias of Miku, Ichika and Kohane is the last group that names it. */
  lemma AsciiAliasLast(i: nat)
    requires i == 0 || i == 1 || i == 7
    ensures NamedLast(Characters, i, AsciiAlias(i))
  {
    assert Characters[i].1[2] == AsciiAlias(i);
  }

  // ---------------------------------------------------------------------
  // The character list
  // ---------------------------------------------------------------------

  /** The heading of the character list, with the number of characters. */
  function ListHeader(count: nat): string {
    "📋 所有角色（共 " + NatToString(count) + " 人）："
  }

  /** One entry of the list: its 1-based position, a dot, a space and the name. */
  function NumberedLine(position: nat, name: string): string {
    NatToString(position) + ". " + name
  }

  /** The entries for `names`, numbered from 1. */
  function NumberedLines(names: seq<string>): (r: seq<string>)
    ensures |r| == |names|
    ensures forall i :: 0 <= i < |names| ==> r[i] == NumberedLine(i + 1, names[i])
  {
    seq(|names|, i requires 0 <= i < |names| => NumberedLine(i + 1, names[i]))
  }

  /** The lines of `format_character_list`: heading, blank line, numbered names. */
  function ListLines(names: seq<string>): seq<string> {
    [ListHeader(|names|), ""] + NumberedLines(names)
  }

  /** `format_character_list`: appends one numbered line per character, then joins with newlines. */
  method FormatCharacterList() returns (text: string)
    ensures text == Join(ListLines(CharacterNames), "\n")
  {
    var names := CharacterNames;
    var lines := [ListHeader(|names|), ""];
    var idx := 0;
    while idx < |names|
      invariant idx <= |names|
      invariant lines == [ListHeader(|names|), ""] + NumberedLines(names[..idx])
    {
      lines := lines + [NumberedLine(idx + 1, names[idx])];
      idx := idx + 1;
    }
    assert names[..idx] == names;
    text := Join(lines, "\n");
  }

  lemma DigitsSingleLine(s: string)
    requires AllDigits(s)
    ensures '\n' !in s
  {
    forall i | 0 <= i < |s| ensures s[i] != '\n' {
      assert IsDigit(s[i]);
    }
  }

  /**
   * The list splits back into its lines, and the line after the heading and
   * the blank line at position `k` names the `k`-th character under the number `k`.
   */
  lemma {:induction false} ListNumbering(names: seq<string>, k: nat)
    requires forall n | n in names :: '\n' !in n
    requires 1 <= k <= |names|
    ensures |SplitOn(Join(ListLines(names), "\n"), '\n')| == |names| + 2
    ensures SplitOn(Join(ListLines(names), "\n"), '\n')[k + 1] == NatToString(k) + ". " + names[k - 1]
    ensures DigitsValue(NatToString(k)) == k
  {
    var lines := ListLines(names);
    DigitsSingleLine(NatToString(|names|));
    forall p | p in lines ensures '\n' !in p {
      var i :| 0 <= i < |lines| && lines[i] == p;
      if i >= 2 {
        DigitsSingleLine(NatToString(i - 1));
        assert names[i - 2] in names;
      }
    }
    SplitOnOfJoin(lines, '\n');
    DigitsValueOfNatToString(k);
  }

  // ---------------------------------------------------------------------
  // The group listing
  // ---------------------------------------------------------------------

  function Heading(groupName: string): string {
    "【" + groupName + "】"
  }

  function MemberLine(member: string): string {
    "  • " + member
  }

  function MemberLines(members: seq<string>): (r: seq<string>)
    ensures |r| == |members|
    ensures forall i :: 0 <= i < |members| ==> r[i] == MemberLine(members[i])
  {
    seq(|members|, i requires 0 <= i < |members| => MemberLine(members[i]))
  }

  /** One group: its heading, one line per member, then a blank line. */
  function GroupBlock(group: (string, seq<string>)): seq<string> {
    [Heading(group.0)] + MemberLines(group.1) + [""]
  }

  /** The blocks of `groups`, in order. */
  function GroupLines(groups: seq<(string, seq<string>)>): seq<string>
    decreases |groups|
  {
    if groups == [] then []
    else GroupLines(groups[..|groups| - 1]) + GroupBlock(groups[|groups| - 1])
  }

  /** The lines of `format_character_groups`: heading, blank line, the group blocks. */
  function GroupsPage(groups: seq<(string, seq<string>)>): seq<string> {
    ["🎭 角色分类：", ""] + GroupLines(groups)
  }

  /** `format_character_groups`: a heading and member lines per group, then joined with newlines. */
  method FormatCharacterGroups() returns (text: string)
    ensures text == Join(GroupsPage(CharacterGroups), "\n")
  {
    var groups := CharacterGroups;
    var lines := ["🎭 角色分类：", ""];
    var i := 0;
    while i < |groups|
      invariant i <= |groups|
      invariant lines == GroupsPage(groups[..i])
    {
      var (groupName, members) := groups[i];
      lines := lines + [Heading(groupName)];
      var j := 0;
      while j < |members|
        invariant j <= |members|
        invariant lines == GroupsPage(groups[..i]) + [Heading(groupName)] + MemberLines(members[..j])
      {
        lines := lines + [MemberLine(members[j])];
        j := j + 1;
      }
      assert members[..j] == members;
      lines := lines + [""];
      assert groups[..i + 1][..i] == groups[..i];
      i := i + 1;
    }
    assert groups[..i] == groups;
    text := Join(lines, "\n");
  }

  /** The blocks of the first `n` groups open the blocks of all of them. */
  lemma {:induction false} GroupLinesPrefix(groups: seq<(string, seq<string>)>, n: nat)
    requires n <= |groups|
    ensures |GroupLines(groups[..n])| <= |GroupLines(groups)|
    ensures GroupLines(groups)[..|GroupLines(groups[..n])|] == GroupLines(groups[..n])
    decreases |groups| - n
  {
    if n == |groups| {
      assert groups[..n] == groups;
    } else {
      var init := groups[..|groups| - 1];
      assert init[..n] == groups[..n];
      GroupLinesPrefix(init, n);
    }
  }

  /**
   * In the group listing, a group's heading opens its block and its `k`-th
   * member is listed `k + 1` lines below it.
   */
  lemma {:induction false} MemberUnderHeading(groups: seq<(string, seq<string>)>, g: nat, k: nat)
    requires g < |groups| && k < |groups[g].1|
    ensures |GroupLines(groups[..g])| + k + 1 < |GroupLines(groups)|
    ensures GroupLines(groups)[|GroupLines(groups[..g])|] == Heading(groups[g].0)
    ensures GroupLines(groups)[|GroupLines(groups[..g])| + k + 1] == MemberLine(groups[g].1[k])
  {
    var upTo := groups[..g + 1];
    assert upTo[..g] == groups[..g];
    assert upTo[g] == groups[g];
    GroupLinesPrefix(groups, g + 1);
  }

  /** With no newline inside any name, the page splits back into its lines. */
  lemma GroupsPageSplits(groups: seq<(string, seq<string>)>)
    requires forall g :: 0 <= g < |groups| ==> '\n' !in groups[g].0 && forall m | m in groups[g].1 :: '\n' !in m
    ensures SplitOn(Join(GroupsPage(groups), "\n"), '\n') == GroupsPage(groups)
  {
    GroupLinesSingle(groups);
    SplitOnOfJoin(GroupsPage(groups), '\n');
  }

  lemma {:induction false} GroupLinesSingle(groups: seq<(string, seq<string>)>)
    requires forall g :: 0 <= g < |groups| ==> '\n' !in groups[g].0 && forall m | m in groups[g].1 :: '\n' !in m
    ensures forall p | p in GroupLines(groups) :: '\n' !in p
    decreases |groups|
  {
    if groups != [] {
      var init, last := groups[..|groups| - 1], groups[|groups| - 1];
      GroupLinesSingle(init);
      forall p | p in GroupBlock(last) ensures '\n' !in p {
        var i :| 0 <= i < |GroupBlock(last)| && GroupBlock(last)[i] == p;
        if 0 < i <= |last.1| {
          assert last.1[i - 1] in last.1;
        }
      }
    }
  }

  // ---------------------------------------------------------------------
  // The character detail
  // ---------------------------------------------------------------------

  /** `CHARACTERS.get(name, [])`: the aliases of the entry named `name`, or none. */
  function AliasesOf(table: Table, name: string): (r: seq<string>)
    ensures (forall i :: 0 <= i < |table| ==> table[i].0 != name) ==> r == []
    ensures forall i :: 0 <= i < |table| && table[i].0 == name && (forall j :: 0 <= j < i ==> table[j].0 != name) ==> r == table[i].1
    decreases |table|
  {
    if table == [] then []
    else if table[0].0 == name then table[0].1
    else
      var r := AliasesOf(table[1..], name);
      assert forall i :: 1 <= i < |table| ==> table[i] == table[1..][i - 1];
      r
  }

  /** The index of the first group listing `name`, if any. */
  function FirstGroupIndex(groups: seq<(string, seq<string>)>, name: string): (r: Option<nat>)
    ensures r.None? <==> forall g :: 0 <= g < |groups| ==> name !in groups[g].1
    ensures r.Some? ==> r.value < |groups| && name in groups[r.value].1
    ensures r.Some? ==> forall g :: 0 <= g < r.value ==> name !in groups[g].1
    decreases |groups|
  {
    if groups == [] then None
    else if name in groups[0].1 then Some(0)
    else
      match FirstGroupIndex(groups[1..], name)
      case None =>
        assert forall g :: 1 <= g < |groups| ==> groups[g] == groups[1..][g - 1];
        None
      case Some(g) =>
        assert forall h :: 1 <= h <= g ==> groups[h] == groups[1..][h - 1];
        Some(g + 1)
  }

  /** The group name the detail shows: that of the first group listing `name`, or "". */
  function GroupName(groups: seq<(string, seq<string>)>, name: string): string {
    match FirstGroupIndex(groups, name)
    case None => ""
    case Some(g) => groups[g].0
  }

  /** Finds the first group listing the character, stopping at the first hit. */
  method FindGroup(characterName: string) returns (group: string)
    ensures group == GroupName(CharacterGroups, characterName)
  {
    var groups := CharacterGroups;
    group := "";
    var i := 0;
    while i < |groups|
      invariant i <= |groups|
      invariant group == ""
      invariant forall g :: 0 <= g < i ==> characterName !in groups[g].1
    {
      var (groupName, members) := groups[i];
      if characterName in members {
        group := groupName;
        assert FirstGroupIndex(groups, characterName) == Some(i);
        return;
      }
      i := i + 1;
    }
  }

  function DetailHeading(name: string): string {
    "👤 角色信息 - " + name
  }

  function AliasLine(aliases: seq<string>): string {
    "别名：" + Join(aliases, ", ")
  }

  function GroupLine(group: string): string {
    "所属组合：" + group
  }

  const ClosingHint: string := "发送 /pjsk 开始创建表情包吧！"

  /** The lines of `format_character_detail`; the group line only when the group name is non-empty. */
  function DetailLines(name: string, aliases: seq<string>, group: string): seq<string> {
    [DetailHeading(name), "", AliasLine(aliases)]
    + (if group != "" then [GroupLine(group)] else [])
    + ["", ClosingHint]
  }

  /** `format_character_detail`: aliases, the first group if any, and a closing hint. */
  method FormatCharacterDetail(characterName: string) returns (text: string)
    ensures text == Join(DetailLines(characterName, AliasesOf(Characters, characterName), GroupName(CharacterGroups, characterName)), "\n")
  {
    var aliases := AliasesOf(Characters, characterName);
    var group := FindGroup(characterName);
    text := AssembleDetail(characterName, aliases, group);
  }

  /** Appends the detail lines one by one and joins them with newlines. */
  method AssembleDetail(characterName: string, aliases: seq<string>, group: string) returns (text: string)
    ensures text == Join(DetailLines(characterName, aliases, group), "\n")
  {
    var lines := [DetailHeading(characterName), ""];
    lines := lines + [AliasLine(aliases)];
    if group != "" {
      lines := lines + [GroupLine(group)];
    }
    lines := lines + [""];
    lines := lines + [ClosingHint];
    assert lines == DetailLines(characterName, aliases, group);
    text := Join(lines, "\n");
  }

  /**
   * When every group has a name, the detail carries a group line exactly
   * when some group lists the character, and that line names the first such group.
   */
  lemma DetailGroupLine(groups: seq<(string, seq<string>)>, name: string, aliases: seq<string>)
    requires forall g :: 0 <= g < |groups| ==> groups[g].0 != ""
    ensures |DetailLines(name, aliases, GroupName(groups, name))| == 6 <==> exists g :: 0 <= g < |groups| && name in groups[g].1
    ensures |DetailLines(name, aliases, GroupName(groups, name))| == 5 <==> forall g :: 0 <= g < |groups| ==> name !in groups[g].1
    ensures FirstGroupIndex(groups, name).Some? ==>
              DetailLines(name, aliases, GroupName(groups, name))[3] == GroupLine(groups[FirstGroupIndex(groups, name).value].0)
  {
  }

  /** Every group of the character database has a non-empty name. */
  lemma CharacterGroupsNamed()
    ensures forall g :: 0 <= g < |CharacterGroups| ==> CharacterGroups[g].0 != ""
  {
  }

  // ---------------------------------------------------------------------
  // Numeric selection
  // ---------------------------------------------------------------------

  /** There are eight characters, and no name spans two lines. */
  lemma CharacterNamesShape()
    ensures |CharacterNames| == 8
    ensures forall n | n in CharacterNames :: '\n' !in n
  {
  }

  /**
   * A user answering with the number `k` shown in the list, `1 <= k <= 8`,
   * selects `CHARACTER_NAMES[k - 1]`: the list shows that name under that
   * number, and typing the name instead resolves to the same character.
   */
  lemma NumberedSelection(k: nat)
    requires 1 <= k <= |CharacterNames|
    ensures |SplitOn(Join(ListLines(CharacterNames), "\n"), '\n')| == |CharacterNames| + 2
    ensures SplitOn(Join(ListLines(CharacterNames), "\n"), '\n')[k + 1] == NatToString(k) + ". " + CharacterNames[k - 1]
    ensures GetCharacterName(CharacterNames[k - 1]) == Some(CharacterNames[k - 1])
  {
    CharacterNamesShape();
    ListNumbering(CharacterNames, k);
    CanonicalNamesResolve(k - 1);
  }
}
