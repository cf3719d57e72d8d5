# pjsk-emoji-maker in Dafny

A model of the core of the AstrBot plugin that draws Project SEKAI
"emoji" cards, with proofs about it. The model covers:

- **The render-state card.** Text, font size, line spacing, curve, X/Y offset and role.
  The plugin keeps one card per (platform, session).
- **The two chat commands.** `pjsk.draw` creates or refreshes the card.
  `pjsk.调整` ("adjust") parses a command head with dotted variants (`字号.大`, `位置.上 24`) and changes the card in place.
- **The alias tables and lookups.** Commands, size and curve variants, directions and roles.
- **The character catalogue.** Name resolution and the list, group and detail texts.
- **The persistent state store.** Keyed by `platform:session`, with an age limit.
- **Interactive sessions.** Per (platform, user), with an idle timeout.
- **The messaging helpers.** Button matrices, the message builder, composite replies and the Koishi-style button text.
- **The text utilities.** Offsets, longest line, sanitising, Koishi flag parsing and applying defaults.

Modules (one file each):

- **`Wrappers`:** `Option` and `Result`.
- **`Text`:** Python's `strip`, `lower`, `split`, `join` and `replace` on code-point strings.
- **`Numbers`:** integer and float literals, and two-decimal formatting.
- **`Aliases`:** building the alias lookups and resolving a token against them.
- **`Tokens`:** splitting an adjust message into its head, variants and arguments.
- **`Card`:**
  - the constants and alias tables;
  - the `RenderState` class and its `Config` value;
  - notices and failures with the plugin's own wording;
  - clamping and number parsing.
- **`Rules`:** each adjustment as a function from the old card to the new card and its headline, or to a refusal. These are the specifications.
- **`Plugin`:**
  - the `StateManager` class;
  - the state key;
  - `PjskPlugin`, whose methods change the stored `RenderState` objects in place and are proved against `Rules`.
- **`Utils`:** the layout and flag helpers.
- **`Domain`:** the characters, groups and their texts.
- **`Session`:** the `InteractiveSession` and `SessionManager` classes.
- **`Persistence`:** the `StatePersistence` class over an abstract storage document.
- **`Messaging`:** buttons, the builder class and reply composition.

The clock is the parameter `now`. Python's `random.choice` is the parameter `pick`: the chosen candidate is `candidates[pick % |candidates|]`. The storage file is a value of the `Document` datatype: missing, corrupt or parsed.

## Model

| member | source | states |
|---|---|---|
| Card.RenderState.constructor | main.py:12-22 | a render state holds exactly the seven fields it was built with |
| Card.InitialInRange | main.py:493-506 | a freshly drawn card has non-empty text and every numeric field within its command's limits |
| Card.SizeAction | main.py:249-257 | a size variant resolves only to "increase" or "decrease"; the empty variant resolves to nothing |
| Card.CurveChoice | main.py:249-257 | a curve variant resolves only to "on", "off" or "toggle"; the empty variant resolves to nothing |
| Card.Clamp | main.py:285-286 | the result lies in [lo, hi]; a value inside is kept; a value below becomes lo; a value above becomes hi |
| Card.ClampFloat | main.py:285-286 | as for Clamp on finite floats; NaN and +inf become hi (max(lo, min(hi, x)) keeps hi); -inf becomes lo |
| Card.ConvertAsWritten | main.py:264-270 | `int(float(s))` on the sanitised text overflows exactly when the text reads as an infinity |
| Card.ParseInt | main.py:264-270 | (corrected, see Findings) a value exactly when the sanitised text is a finite float literal; that value is its truncation toward zero; otherwise the "cannot parse" failure naming the raw text |
| Card.ParsePositiveInt | main.py:272-276 | succeeds iff the integer parse succeeds with a positive value; a parse failure is passed on; zero or below gives the step failure |
| Card.ParseFloat | main.py:278-283 | fails exactly when the sanitised text (no 倍, no x, comma as point) is no float literal, naming the raw text; otherwise it yields that literal |
| Card.ParseIntOfIntToString | main.py:264-270 | every integer written in decimal parses back to itself; floats are exact rationals here, so this is the source's behaviour only for magnitudes up to 2^53 (see "## Left out") |
| Card.ParseFloatOfFormat | main.py:278-283 | a spacing printed with two decimals parses back to the same value |
| Card.InfinityOverflows | main.py:264-270 | the input "inf" makes the code as written overflow, and the corrected parse refuses it |
| Card.ParseIntCorrects | main.py:264-270 | the corrected parse agrees with the code as written wherever that converts, and refuses exactly where it would raise |
| Aliases.BuildLookup | main.py:241-247 | the nested loops build exactly the lookup defined by LookupOf |
| Aliases.LookupKeys | pjsk_emoji/domain.py:35-49 | a key is in the lookup iff some group names it as written or lower-cased |
| Aliases.LaterGroupWins | main.py:241-247 | a key maps to the canonical name of the last group that names it |
| Aliases.LookupValue | main.py:241-247 | every stored value is the canonical name of a group naming that key |
| Aliases.Resolve | main.py:230-239 | an empty token resolves to nothing; a result exists iff the stripped or the lowered stripped token is a key; the stripped form wins |
| Aliases.ResolveCanonical | main.py:230-239 | whatever a table's lookup resolves is one of that table's canonical names |
| Aliases.ResolvesToGroup | main.py:230-239 | a stripped token that a group names last resolves to that group |
| Aliases.ResolvesLoweredToGroup | main.py:230-239 | a token no group names as written but whose lowered form a group names last resolves to that group |
| Aliases.UnknownUnresolved | main.py:230-239 | a token that no group names in either form resolves to nothing |
| Aliases.SelfNamedResolves | pjsk_emoji/domain.py:52-73 | a trimmed canonical name in its own alias set, apart from every later group, resolves to itself |
| Aliases.CaseFoldedResolves | pjsk_emoji/domain.py:52-73 | the case-insensitive path: a trimmed token whose lower-case form a group names last resolves to it |
| Aliases.FirstMatch | main.py:249-257 | nothing iff no group holds the stripped or lowered token; otherwise a group holding it gives its canonical name |
| Aliases.NormalizeVariant | main.py:249-257 | an empty variant is unresolved; a result is always a canonical name of the table |
| Tokens.ExtractFirstToken | main.py:215-222 | the head is empty iff the message is blank, and the rest is then empty; the head holds no whitespace; the rest has no whitespace at either end |
| Tokens.ExtractFirstTokenHead | main.py:215-222 | the head is the longest whitespace-free prefix of the stripped message |
| Tokens.ExtractFirstTokenRest | main.py:215-222 | the rest is the stripped message's own suffix, character for character, and only whitespace lies between the head and it, so inner spaces and line breaks survive |
| Tokens.SplitFirst | main.py:215-222 | `split(maxsplit=1)` of a stripped text: a whitespace-free prefix ended by whitespace or the end, then a verbatim suffix behind a whitespace-only gap |
| Tokens.SplitFirstAgrees | main.py:215-222 | the split cuts at the end of the first word and resumes where `lstrip` of the remaining text starts |
| Tokens.ExtractFirstTokenWords | main.py:215-222 | the head followed by the words of the rest are exactly the words of the message |
| Tokens.SplitToken | main.py:224-228 | the head and variants are the non-empty dot pieces in order; the head is empty iff every piece is |
| Tokens.SplitTokenOfJoin | main.py:224-228 | `head.v1.v2` splits back into its head and its variants |
| Tokens.SplitArgs | main.py:259-262 | the arguments are exactly the whitespace-separated words, none empty |
| Tokens.SplitArgsOfJoin | main.py:259-262 | words joined by spaces split back into the same words |
| Rules.TextRule | main.py:308-316 | accepted iff the text is not blank and its stripped form has at most 120 characters; only the text changes, to the stripped form; the two refusals otherwise |
| Rules.TextRuleStoresStripped | main.py:308-316 | the stored text has no whitespace at either end, so stripping it again changes nothing |
| Rules.FontSizeRule | main.py:318-341 | on success only the font size changes and it stays in [18, 84] |
| Rules.FontSizeSteps | main.py:319-332 | a step moves by 4 toward the limit; the limit headline comes iff nothing changed iff the size already sat at that limit |
| Rules.SizeVariantChoice | main.py:319-323 | an unknown variant is refused for both size and spacing; a known one steps up or down |
| Rules.FontSizeAbsolute | main.py:334-341 | no argument or an unparsable one is refused; otherwise the value is clamped, with the range note iff clamping changed it |
| Rules.LineSpacingRule | main.py:343-372 | on success only the line spacing changes and it stays in [0.60, 3.00] |
| Rules.LineSpacingSteps | main.py:344-363 | a step moves by 0.10 toward the limit; the limit headline comes iff nothing changed iff the spacing sat at that limit |
| Rules.SpacingOf | main.py:365-368 | a stored spacing always lies in [0.60, 3.00] |
| Rules.SpacingOfValue | main.py:365-372 | in range: the value is rounded to hundredths; beyond a limit: the limit; NaN gives 3.00 without a note; an infinity gives its limit with the note |
| Rules.SpacingKeepsTwoDecimals | main.py:365-372 | a two-decimal value in range is stored as typed, without the range note |
| Rules.LineSpacingAbsolute | main.py:365-372 | no argument or an unparsable one is refused; otherwise the spacing is the clamped and rounded value, with the note iff it deviates |
| Rules.CurveRule | main.py:374-389 | never refuses; only the curve flag changes and the headline reports the new setting |
| Rules.CurveSwitches | main.py:374-389 | "on" switches it on, "off" switches it off, anything else toggles |
| Rules.PositionRequest | main.py:391-406 | an accepted request has a positive step; a refusal is never a dispatching error |
| Rules.PositionRefusals | main.py:391-406 | a refusal is the missing direction, the non-positive step, or the parse failure of one of the arguments |
| Rules.StepOf | main.py:404-406 | a step is positive; a refusal comes only from a given argument that does not parse or is not positive |
| Rules.StepDefault | main.py:404-406 | no argument gives the step 12; otherwise the step is the parsed argument, accepted iff it is positive |
| Rules.NoDirection | main.py:392-402 | the direction refusal comes iff neither the first variant nor the first argument names a direction |
| Rules.DirectionFromVariant | main.py:392-394 | a direction in the first variant leaves all arguments for the step |
| Rules.DirectionFromArgument | main.py:395-398 | a direction taken from the first argument consumes it |
| Rules.Move | main.py:408-435 | only the chosen axis changes and it stays in [-240, 240]; the boundary headline comes iff the card is unchanged |
| Rules.MoveSteps | main.py:408-435 | the move is the step or what is left before the limit, and the reported amount is that positive distance |
| Rules.PositionRule | main.py:391-435 | on success only one offset changes, and an offset within range stays within range |
| Rules.PickRandomRole | main.py:291-295 | the pick is a known role different from the excluded one |
| Rules.EveryOtherRoleReachable | main.py:291-295 | every other known role can be the pick |
| Rules.RandomRoleDiffers | main.py:438-441 | `-r` always changes the role to a different known one |
| Rules.RoleRule | main.py:437-450 | on success only the role changes, to a known role |
| Rules.RoleByName | main.py:443-450 | an empty name is refused; an unknown one is refused and echoed; a known alias switches to its canonical role |
| Rules.Process | main.py:452-459 | an unknown command head is refused naming that head |
| Rules.UnknownCommandExactly | main.py:452-459 | the unknown-command refusal comes iff the head resolves to no command |
| Rules.NeverUnsupported | main.py:452-481 | the final "unsupported command" refusal is unreachable |
| Rules.ProcessKeepsInRange | main.py:452-481 | every accepted adjustment keeps all fields within their limits and the role among the known ones |
| Plugin.FirstTruthy | main.py:186-206 | a non-empty candidate at a position before which every candidate is empty, i.e. the first non-empty one; nothing exactly when none is non-empty |
| Plugin.StateKeyPriority | main.py:186-206 | the user part of the key is the session id when non-empty, else the sender id, else the sender name, else "unknown" |
| Plugin.StateKey | main.py:186-206 | platform or "unknown"; then the first non-empty of session id, sender id and sender name, else "unknown" |
| Plugin.StateManager.constructor | main.py:25-29 | the store starts empty |
| Plugin.StateManager.Get | main.py:31-32 | the state stored under the key, or nothing |
| Plugin.StateManager.Set | main.py:34-35 | the key maps to the given state; all other keys are unchanged |
| Plugin.StateManager.Exists | main.py:37-38 | true iff the key is stored |
| Plugin.PjskPlugin.constructor | main.py:170-178 | the alias lookups are built from the tables and the store is empty |
| Plugin.PjskPlugin.RequireState | main.py:208-213 | the stored state iff the event's key is stored, else the missing-state failure |
| Plugin.PjskPlugin.ExecuteText | main.py:308-316 | the card in place and the headline are exactly what TextRule prescribes; a refusal changes nothing |
| Plugin.PjskPlugin.ExecuteFontSize | main.py:318-341 | the card in place and the headline are exactly what FontSizeRule prescribes |
| Plugin.PjskPlugin.StepFontSizeIn | main.py:323-332 | one step of 4 up or down, applied to the card in place, gives exactly the card and the limit or change headline of StepFontSize |
| Plugin.PjskPlugin.ExecuteLineSpacing | main.py:343-372 | the card in place and the headline are exactly what LineSpacingRule prescribes |
| Plugin.PjskPlugin.ExecuteCurve | main.py:374-389 | the card in place and the headline are exactly what CurveRule prescribes |
| Plugin.PjskPlugin.LocateDirection | main.py:392-406 | no direction iff the request is refused for want of one; otherwise the request is that direction with the step from what is left |
| Plugin.PjskPlugin.Shift | main.py:408-435 | the card moves exactly as Move prescribes and the headline is Move's |
| Plugin.PjskPlugin.ExecutePosition | main.py:391-435 | the card in place and the headline are exactly what PositionRule prescribes |
| Plugin.PjskPlugin.RandomizeRole | main.py:438-441 | the role becomes the random pick as RandomRole prescribes |
| Plugin.PjskPlugin.SwitchRole | main.py:443-450 | the role becomes the resolved name, or the card is untouched and the refusal is returned |
| Plugin.PjskPlugin.ExecuteRole | main.py:437-450 | the card in place and the headline are exactly what RoleRule prescribes |
| Plugin.PjskPlugin.ProcessAdjustment | main.py:452-481 | the command is dispatched and the card changes exactly as Process prescribes |
| Plugin.PjskPlugin.Create | main.py:493-503 | a fresh state with the defaults (the message as text when non-empty) is stored under the key; other keys are unchanged |
| Plugin.PjskPlugin.Refresh | main.py:504-505 | a non-empty message replaces the text; an empty one changes nothing |
| Plugin.PjskPlugin.DrawAt | main.py:489-508 | for a given key and stripped message: a missing card is created with the defaults and the "initial render" headline; an existing one has only its text replaced, and only by a non-empty message; every other key is unchanged |
| Plugin.PjskPlugin.Draw | main.py:483-510 | first use stores a new default card with the "initial render" headline; later uses replace only the text, and only with a non-empty message; every other key is unchanged |
| Plugin.PjskPlugin.Apply | main.py:524-529 | the message is split into head, variants and remainder, and the card and reply follow Process |
| Plugin.PjskPlugin.Adjust | main.py:512-532 | the guide for a blank message; the missing-state refusal without a card; otherwise the reply and card follow Process; no other card changes |
| Utils.Lines | pjsk_emoji/utils.py:20-21 | splitting at line breaks always gives at least one line |
| Utils.Offsets | pjsk_emoji/utils.py:9-38 | x is the font size floor-divided by 4; y is the vertically centred offset clamped to [-240, 240] |
| Utils.OffsetsMoreLines | pjsk_emoji/utils.py:27-36 | with more lines the vertical offset never grows |
| Utils.NonBlank | pjsk_emoji/utils.py:84 | exactly the lines that are not blank |
| Utils.FirstLongest | pjsk_emoji/utils.py:88 | the index of a longest line, the first such one (as `max(key=len)` picks) |
| Utils.LongestLine | pjsk_emoji/utils.py:70-88 | empty iff every line is blank; otherwise a non-blank line at least as long as every other non-blank line |
| Utils.LongestLineFirst | pjsk_emoji/utils.py:70-88 | the longest line is the first one of that length among the non-blank lines |
| Utils.PrefixUpTo | pjsk_emoji/utils.py:134 | Python slice `s[:n]`, including negative n |
| Utils.SanitizedWords | pjsk_emoji/utils.py:130-131 | collapsing whitespace runs in the stripped text joins its words with single spaces |
| Utils.SanitizeShort | pjsk_emoji/utils.py:117-137 | a text whose collapsed form fits is returned collapsed |
| Utils.SanitizeLong | pjsk_emoji/utils.py:117-137 | a longer text is cut to exactly the limit, ending in "..." |
| Utils.SanitizeTinyLimit | pjsk_emoji/utils.py:133-134 | with a limit under 3 the result exceeds the limit |
| Utils.FindParts | pjsk_emoji/utils.py:177 | the parts are non-empty |
| Utils.FindPartsUnquoted | pjsk_emoji/utils.py:177 | without quotes the parts are exactly the whitespace-separated words |
| Utils.QuotedPart | pjsk_emoji/utils.py:177-184 | a quoted run with spaces stays one part, and stripping quotes gives back its inside |
| Utils.StripQuotes | pjsk_emoji/utils.py:181 | the result is no longer and neither starts nor ends with a quote |
| Utils.InitialFlags | pjsk_emoji/utils.py:165-174 | the eight keys, all None except `default_font` false |
| Utils.Step | pjsk_emoji/utils.py:179-221 | one step advances by one or two parts and only ever sets known keys |
| Utils.ParseKoishiFlags | pjsk_emoji/utils.py:152-223 | the loop computes exactly the flags defined by Flags |
| Utils.ScanPart | pjsk_emoji/utils.py:181-221 | one loop iteration computes exactly the step defined by Step |
| Utils.FlagsKeys | pjsk_emoji/utils.py:161-174 | empty arguments give the empty map; otherwise exactly the eight flag keys |
| Utils.StepAdvances | pjsk_emoji/utils.py:179-221 | a flag taking a value, with one following, consumes two parts; any other part consumes one |
| Utils.StepQuotedValue | pjsk_emoji/utils.py:183-200 | `-n` and `-r` store the next part with its quotes stripped |
| Utils.StepBadNumber | pjsk_emoji/utils.py:185-212 | an unparsable integer after `-x`, `-y` or `-s`, or an unparsable float after `-l`, is skipped with its flag and changes nothing |
| Utils.StepGoodInt | pjsk_emoji/utils.py:185-206 | an integer that parses after `-x`, `-y` or `-s` is stored under that flag's key, and both parts are consumed |
| Utils.StepGoodFloat | pjsk_emoji/utils.py:207-212 | a float that parses after `-l` is stored as the line spacing, and both parts are consumed |
| Utils.StepSwitches | pjsk_emoji/utils.py:213-218 | `-c` and `--daf` set `curve` and `default_font` to true and consume one part, also as the last part |
| Utils.StepSkipsUnknown | pjsk_emoji/utils.py:219-221 | any other part is skipped and changes nothing |
| Utils.ApplyDefaults | pjsk_emoji/utils.py:226-246 | every key of either map; options override; other defaults are kept |
| Utils.CopyEntries | pjsk_emoji/utils.py:239-244 | one copying loop: the source's entries overwrite, the rest are kept |
| Domain.GetCharacterName | pjsk_emoji/domain.py:52-73 | empty input resolves to nothing; any result is a canonical character name |
| Domain.CanonicalNamesResolve | pjsk_emoji/domain.py:52-73 | every canonical name resolves to itself |
| Domain.CaseInsensitiveResolve | pjsk_emoji/domain.py:52-73 | MIKU, Miku, MiKu, ICHIKA and Ichika resolve to their characters, and so do "\u212Aohane" and "\u212AOHANE" (KELVIN SIGN first) to 小豆泽心羽 |
| Domain.CharacterNamesShape | pjsk_emoji/domain.py:13-32 | there are eight names, none with a line break |
| Domain.NumberedLines | pjsk_emoji/domain.py:133-134 | line i is "i+1. name" |
| Domain.FormatCharacterList | pjsk_emoji/domain.py:126-135 | the loop builds the header, a blank line and the numbered names joined by line breaks |
| Domain.ListNumbering | pjsk_emoji/domain.py:126-135 | the text has the names plus two lines, and line k+1 is "k. name" for the k-th name |
| Domain.NumberedSelection | pjsk_emoji/domain.py:126-135 | the k-th listed line names the k-th character, which resolves to itself |
| Domain.MemberLines | pjsk_emoji/domain.py:147-148 | one bulleted line per member, in order |
| Domain.FormatCharacterGroups | pjsk_emoji/domain.py:138-150 | the loops build the heading and each group block joined by line breaks |
| Domain.MemberUnderHeading | pjsk_emoji/domain.py:138-150 | each member's line follows its group's heading at the expected position |
| Domain.GroupsPageSplits | pjsk_emoji/domain.py:138-150 | splitting the text at line breaks gives back the built lines |
| Domain.AliasesOf | pjsk_emoji/domain.py:161 | an unknown name has no aliases; a known one has the aliases of its first entry |
| Domain.FirstGroupIndex | pjsk_emoji/domain.py:163-168 | nothing iff no group lists the name; otherwise the first group that lists it |
| Domain.FindGroup | pjsk_emoji/domain.py:163-168 | the loop finds exactly the first group listing the name, or "" |
| Domain.AssembleDetail | pjsk_emoji/domain.py:170-177 | the detail text is the heading, aliases, optional group line and closing hint joined by line breaks |
| Domain.FormatCharacterDetail | pjsk_emoji/domain.py:153-177 | the detail text uses the character's aliases and first group |
| Domain.DetailGroupLine | pjsk_emoji/domain.py:163-177 | the group line is present iff some group lists the name, and it names the first such group |
| Session.SessionIdSeconds | pjsk_emoji/session.py:115 | the session id ends in the whole seconds of the creation time |
| Session.InteractiveSession.constructor | pjsk_emoji/session.py:27-37 | a new session: created and active at `now`, no character selected |
| Session.InteractiveSession.UpdateActivity | pjsk_emoji/session.py:43-45 | activity is now; nothing else changes; the session is then live unless its timeout is negative |
| Session.ExpiryPersists | pjsk_emoji/session.py:39-41 | once expired, a session stays expired as time moves on |
| Session.SessionManager.constructor | pjsk_emoji/session.py:51-54 | no sessions |
| Session.SessionManager.ActiveSessions | pjsk_emoji/session.py:181-186 | exactly the sessions not expired at `now`, unchanged |
| Session.SessionManager.CreateSession | pjsk_emoji/session.py:100-129 | any previous session under the key is marked cancelled and replaced by a fresh one in the initial state, which defaults to waiting for a character with a 30-second timeout |
| Session.SessionManager.GetSession | pjsk_emoji/session.py:131-141 | a live session is returned untouched; an expired one is marked timed out and removed |
| Session.SessionManager.UpdateSession | pjsk_emoji/session.py:143-166 | a live session gets the given truthy fields and fresh activity; otherwise nothing changes |
| Session.SessionManager.CancelSession | pjsk_emoji/session.py:168-179 | true iff a session was present; it is marked cancelled and removed |
| Session.SessionManager.ExpiredKeys | pjsk_emoji/session.py:82-86 | exactly the keys whose sessions have expired |
| Session.SessionManager.SweepExpired | pjsk_emoji/session.py:82-93 | after one sweep the sessions are exactly the live ones; each removed one is marked timed out |
| Session.SessionManager.CollectExpired | pjsk_emoji/session.py:82-86 | the first loop collects exactly the expired keys |
| Session.SessionManager.ExpireAll | pjsk_emoji/session.py:88-93 | the second loop removes the keys and marks each of their sessions timed out |
| Session.SessionManager.ExpireOne | pjsk_emoji/session.py:89-93 | one key is removed and its session marked timed out |
| Persistence.MakeKey | persistence.py:46-48 | the key is the platform, a colon, then the session |
| Persistence.KeyInjective | persistence.py:46-48 | keys of colon-free platforms identify their pair |
| Persistence.KeyAmbiguousWithColon | persistence.py:46-48 | with a colon in the platform, two different pairs share a key |
| Persistence.Lookup | persistence.py:50-74 | a state exactly when the key is stored, not expired and rebuildable |
| Persistence.Cleaned | persistence.py:100-116 | exactly the entries that are not stale, unchanged |
| Persistence.Readable | persistence.py:118-131 | exactly the rebuildable entries, with no age filter |
| Persistence.StatePersistence.constructor | persistence.py:17-19 | the store sees whatever document is on disk |
| Persistence.StatePersistence.Save | persistence.py:36-44 | the whole document is rewritten with the states and the time |
| Persistence.StatePersistence.GetState | persistence.py:50-74 | with a lifetime of 24 hours unless given, the result is Lookup's; an expired entry is deleted and the file rewritten; otherwise the file is untouched |
| Persistence.StatePersistence.SetState | persistence.py:76-86 | the entry under the key becomes the state stamped with now; nothing else changes |
| Persistence.StatePersistence.DeleteState | persistence.py:88-98 | true iff the key was stored; the file is rewritten only then |
| Persistence.StatePersistence.CleanupExpired | persistence.py:100-116 | with a lifetime of 24 hours unless given, the count is the number of stale entries; they are removed and the file rewritten only when there was one |
| Persistence.StatePersistence.CollectStale | persistence.py:105-108 | the first loop collects exactly the stale keys and counts them |
| Persistence.StatePersistence.RemoveKeys | persistence.py:110-111 | the second loop deletes exactly the collected keys |
| Persistence.StatePersistence.GetAllStates | persistence.py:118-131 | the loop returns exactly Readable of the stored states |
| Persistence.SetThenGet | persistence.py:76-86 | a state written within the age limit reads back field for field |
| Persistence.SetThenGetExpired | persistence.py:60-67 | past the age limit the same entry reads as absent |
| Persistence.SetKeepsOthers | persistence.py:76-86 | writing one key changes what no other key reads |
| Persistence.StaleIffExpired | persistence.py:100-116 | cleanup removes exactly the entries that reading would treat as expired |
| Persistence.CleanupKeepsLookups | persistence.py:100-116 | a cleanup changes nothing that reading with the same limit and clock returns |
| Persistence.CleanupIdempotent | persistence.py:100-116 | a second cleanup at the same cutoff removes nothing |
| Persistence.ReadableIgnoresExpiry | persistence.py:118-131 | listing ignores age, and agrees with reading wherever reading returns a state |
| Messaging.ButtonMatrix.Flatten | pjsk_emoji/messaging.py:73-78 | the loop returns the rows concatenated in order |
| Messaging.ConcatLength | pjsk_emoji/messaging.py:73-78 | the flattened length is the sum of the row lengths |
| Messaging.ConcatPosition | pjsk_emoji/messaging.py:73-78 | button k of row i sits after all earlier rows' buttons |
| Messaging.ConcatMembers | pjsk_emoji/messaging.py:73-78 | a button is in the flat list iff it is in some row |
| Messaging.ButtonToDict | pjsk_emoji/messaging.py:54-60 | the dictionary has exactly the keys label, command and emoji |
| Messaging.MatrixToDict | pjsk_emoji/messaging.py:80-88 | the dictionary has exactly the keys title and rows |
| Messaging.ButtonDictRoundTrip | pjsk_emoji/messaging.py:54-60 | a button is recovered from its dictionary |
| Messaging.MatrixDictRoundTrip | pjsk_emoji/messaging.py:80-88 | a matrix is recovered from its dictionary |
| Messaging.ImageLines | pjsk_emoji/messaging.py:161-165 | one placeholder line per image, numbered from 1, with its size and type |
| Messaging.MessageComponentBuilder.constructor | pjsk_emoji/messaging.py:98-107 | no text, no images, no buttons |
| Messaging.MessageComponentBuilder.AddText | pjsk_emoji/messaging.py:109-120 | non-empty text is appended; empty text is ignored; the builder itself is returned |
| Messaging.MessageComponentBuilder.AddImage | pjsk_emoji/messaging.py:122-134 | non-empty bytes are appended with their type; empty bytes are ignored |
| Messaging.MessageComponentBuilder.AddButtons | pjsk_emoji/messaging.py:136-146 | the matrix replaces any earlier one |
| Messaging.MessageComponentBuilder.BuildTextContent | pjsk_emoji/messaging.py:148-150 | no parts give the empty text; otherwise splitting the text at line breaks gives back the parts, when none holds a line break |
| Messaging.MessageComponentBuilder.BuildWithImages | pjsk_emoji/messaging.py:152-169 | the text, then a blank line when both exist, then the image lines |
| Messaging.BuiltLines | pjsk_emoji/messaging.py:148-169 | splitting the built text at line breaks gives back the parts, the blank line and the image lines |
| Messaging.ShouldWaitForInput | pjsk_emoji/messaging.py:419-435 | true iff the setting is present and true |
| Messaging.ShouldMentionUser | pjsk_emoji/messaging.py:438-454 | true iff the setting is present and true |
| Messaging.GetRetractDelayMs | pjsk_emoji/messaging.py:457-474 | the configured delay, or nothing when it is absent |
| Messaging.EmitText | pjsk_emoji/messaging.py:208-228 | "@sender " is prefixed exactly when mentions are on and the sender is known |
| Messaging.MentionOnlyWhenConfigured | pjsk_emoji/messaging.py:208-228 | the text changes iff a mention is added, and it always ends with the original text |
| Messaging.EmitComposite | pjsk_emoji/messaging.py:255-287 | takes the composite branch (tag `Composite`) iff there are image bytes or buttons, else the text branch (tag `Plain`); both answer with plain text, and the content is the built text |
| Messaging.ComposedContentCases | pjsk_emoji/messaging.py:255-287 | without an image the content is the text; with one it is the image line, after the text and a blank line when there is text |
| Messaging.RowLines | pjsk_emoji/messaging.py:409-414 | one text line per row |
| Messaging.EncodeKoishiButtonText | pjsk_emoji/messaging.py:390-416 | the loop builds the title block and row lines joined by line breaks |
| Messaging.KoishiLayout | pjsk_emoji/messaging.py:390-416 | the title in brackets and a blank line come first when there is a title, then one line per row |
| Messaging.ButtonShown | pjsk_emoji/messaging.py:410-413 | each button appears in its row as "emoji label", or as the label alone when there is no emoji |

## Left out

- Rendering the card image, the renderer and `_render_via_draw` are left out. Adjust returns the headline and the new card; the re-render that follows it is not modelled.
- `MessagingHelper.summary`, `guidance` and `error` replies are left out. Their text is a rendering of the card and is not modelled; the replies appear as the `Reply` datatype.
- File and JSON I/O are left out: the storage file is the `Document` value. `json.dump` failures, logging and the `mkdir` of the data directory are not modelled.
- Ill-typed JSON documents cannot be written as a `Document`, so the model does not show how the source fails on them. A top level that is not an object makes `data.get` raise `AttributeError` (persistence.py:30). A `states` value that is not a dictionary fails at its first lookup. A non-numeric `timestamp` makes the subtraction raise `TypeError` (persistence.py:62). A `Document` is always an object whose `states` map keys to entries with optional numeric timestamps.
- The background cleanup task is left out. `start_cleanup_task`, `stop_cleanup_task`, the ten-second sleep and the asyncio loop are not modelled; one pass of the sweep is, as `SweepExpired`.
- The clock and `random.choice` are parameters (`now`, `pick`).
- `InteractiveSession.constructor`: `created_at` and `last_activity` are both `now`. In the source each default factory calls `time.time()` separately.
- `calculateFontSize`, `calculateTextDimensions` and `validateCurveIntensity` are left out. They are not part of the modelled core.
- `Utils.Offsets`: the line height `int(font_size * line_spacing)` is a parameter. Float multiplication is not modelled.
- `emit_image`, the `send_*_async` generators, `create_adjustment_buttons` and `create_list_buttons` are left out. So are the base64 preview strings, which are computed and never used.
- `plain_result` is the identity on the text.
- In messaging.py the 【 】 brackets and the ｜ separator are stored mis-encoded. The model uses the intended characters.
- `Messaging.EmitText`: the configuration holds optional booleans. Python truthiness of arbitrary configuration values, and a `None` text, are not modelled.
- `Messaging.ShouldWaitForInput`, `Messaging.ShouldMentionUser`: a present but non-boolean setting is returned as is by the source. The model reduces it to "present and true".
- Floats are exact rationals. Rounding to two decimals is round-half-up on the exact value, so binary-float ties may differ. A huge exponent does not overflow to infinity. Underscores and non-ASCII digits in literals are not accepted.
- Card.ParseIntOfIntToString: the round trip is proved for every integer, because floats are exact rationals here. In the source `int(float(str(n)))` is exact only for magnitudes up to 2^53; past that it gives the nearest double's integer value, and past about 1.8e308 it raises `OverflowError`.
- Card.ParseInt, Card.ParsePositiveInt, Rules.FontSizeRule, Rules.StepOf, Plugin.PjskPlugin.ExecuteFontSize, Plugin.PjskPlugin.ExecutePosition, Plugin.PjskPlugin.Adjust: these follow the corrected parse of the Findings table. For `字号 inf`, `字号 -infinity` or `位置 上 inf` the model refuses with "无法解析数值". The source raises an `OverflowError` there (main.py:268), which nothing catches (main.py:524-529). A literal too large for a float, such as `1e400`, also becomes infinity and overflows in the source; the model parses it to its exact value.
- `Text.LowerChar` folds `A`-`Z` and U+212A KELVIN SIGN (to `k`), the only characters whose `str.lower()` is an ASCII letter. Every other Unicode case mapping is left unchanged. Such a mapping still changes no lookup: no alias, table key or command word holds a non-ASCII cased letter, so only an ASCII result can match. U+0130 lowers to two characters, `i` followed by a combining dot, and that pair appears in no key either.
- Alias tables are sets in the source; their iteration order is taken as declaration order.
- `Domain.CaseInsensitiveResolve` covers seven concrete inputs. The general case-insensitive property is `Aliases.CaseFoldedResolves`.
- `Utils.Sanitize` has no contract of its own. Its lemmas `SanitizeShort`, `SanitizeLong` and `SanitizeTinyLimit` carry the properties.
- The configuration schema, `models.py` and the AstrBot event API are left out. The event is the `Event` datatype.

## Findings

| source | as written | input that shows it | evidently intended | confidence | as-written member | corrected member |
|---|---|---|---|---|---|---|
| main.py:264-270 | `_parse_int` computes `int(float(s))` and catches only `ValueError`; `int(float("inf"))` raises `OverflowError`, which neither `_parse_int` nor `adjust` (main.py:524-529, catching `AdjustError`) handles | `字号 inf` (or `位置 上 inf`) | the validation error "无法解析数值：inf" like any other unparsable number | not executed | Card.InfinityOverflows | Card.ParseIntCorrects |
