/**
 * Reply building for the chat platform: quick-reply button grids, a builder
 * that collects text parts and images into one reply text, the adapter's
 * text and composite replies, the Koishi-style text rendering of a button
 * grid and the messaging configuration flags.
 *
 * The platform's `plain_result` wraps a string without changing it, so a
 * reply is modelled as the string it carries.  Image bytes only matter
 * through their length.
 */
module Messaging {
  import opened Wrappers
  import opened Text
  import opened Numbers

  type Bytes = seq<bv8>

  /** One quick-reply button: what it shows and the command it sends. */
  datatype ButtonMapping = ButtonMapping(labelText: string, command: string, emoji: Option<string>)

  /** A grid of buttons, row by row, with an optional title. */
  datatype ButtonMatrix = ButtonMatrix(rows: seq<seq<ButtonMapping>>, title: Option<string>)
  {
    /** `flatten`: the buttons of every row, row after row. */
    method Flatten() returns (result: seq<ButtonMapping>)
      ensures result == Concat(rows)
    {
      result := [];
      for i := 0 to |rows|
        invariant result == Concat(rows[..i])
      {
        assert rows[..i + 1][..i] == rows[..i];
        result := result + rows[i];
      }
      assert rows[..|rows|] == rows;
    }
  }

  /** The rows of a grid laid end to end. */
  function Concat<T>(rows: seq<seq<T>>): seq<T> {
    if rows == [] then [] else Concat(rows[..|rows| - 1]) + rows[|rows| - 1]
  }

  /** The number of entries over all rows. */
  function TotalLength<T>(rows: seq<seq<T>>): nat {
    if rows == [] then 0 else TotalLength(rows[..|rows| - 1]) + |rows[|rows| - 1]|
  }

  /** Flattening keeps every button: the length is the sum of the row lengths. */
  lemma {:induction false} ConcatLength<T>(rows: seq<seq<T>>)
    ensures |Concat(rows)| == TotalLength(rows)
  {
    if rows != [] {
      ConcatLength(rows[..|rows| - 1]);
    }
  }

  /** The flattened rows of a prefix of the grid are a prefix of the flattened grid. */
  lemma {:induction false} ConcatPrefix<T>(rows: seq<seq<T>>, n: nat)
    requires n <= |rows|
    ensures Concat(rows[..n]) <= Concat(rows)
    decreases |rows|
  {
    if n < |rows| {
      var front := rows[..|rows| - 1];
      assert front[..n] == rows[..n];
      ConcatPrefix(front, n);
    } else {
      assert rows[..n] == rows;
    }
  }

  /** Button `k` of row `i` sits after all buttons of the earlier rows. */
  lemma ConcatPosition<T>(rows: seq<seq<T>>, i: nat, k: nat)
    requires i < |rows| && k < |rows[i]|
    ensures |Concat(rows[..i])| + k < |Concat(rows)|
    ensures Concat(rows)[|Concat(rows[..i])| + k] == rows[i][k]
  {
    assert rows[..i + 1][..i] == rows[..i];
    ConcatPrefix(rows, i + 1);
  }

  /** A button is in the flattened grid exactly when some row holds it. */
  lemma {:induction false} ConcatMembers<T>(rows: seq<seq<T>>, x: T)
    ensures x in Concat(rows) <==> exists i :: 0 <= i < |rows| && x in rows[i]
  {
    if rows != [] {
      var front := rows[..|rows| - 1];
      ConcatMembers(front, x);
      if x in Concat(front) {
        var i :| 0 <= i < |front| && x in front[i];
        assert rows[i] == front[i];
      } else if x in rows[|rows| - 1] {
      } else {
        forall i | 0 <= i < |rows| ensures x !in rows[i] {
          if i < |front| {
            assert rows[i] == front[i];
          }
        }
      }
    }
  }

  // ---------------------------------------------------------------------------
  // Dictionary form

  /** The JSON-like values the dictionary forms are made of. */
  datatype Value = Null | Str(text: string) | Items(items: seq<Value>) | Object(fields: map<string, Value>)

  function OptionalText(s: Option<string>): Value {
    if s.Some? then Str(s.value) else Null
  }

  /** `ButtonMapping.to_dict`: label, command and emoji (null when absent). */
  function ButtonToDict(b: ButtonMapping): (d: map<string, Value>)
    ensures d.Keys == {"label", "command", "emoji"}
  {
    map["label" := Str(b.labelText), "command" := Str(b.command), "emoji" := OptionalText(b.emoji)]
  }

  /** Reads a button back from its dictionary form. */
  function ButtonFromDict(d: map<string, Value>): Option<ButtonMapping> {
    if "label" in d && d["label"].Str? && "command" in d && d["command"].Str?
       && "emoji" in d && (d["emoji"].Str? || d["emoji"].Null?)
    then Some(ButtonMapping(d["label"].text, d["command"].text,
                            if d["emoji"].Str? then Some(d["emoji"].text) else None))
    else None
  }

  function RowValue(row: seq<ButtonMapping>): (v: Value)
    ensures v.Items? && |v.items| == |row|
  {
    Items(seq(|row|, j requires 0 <= j < |row| => Object(ButtonToDict(row[j]))))
  }

  /** `ButtonMatrix.to_dict`: the title (null when absent) and the rows of button dictionaries. */
  function MatrixToDict(m: ButtonMatrix): (d: map<string, Value>)
    ensures d.Keys == {"title", "rows"}
  {
    map["title" := OptionalText(m.title),
        "rows" := Items(RowValues(m.rows))]
  }

  function RowValues(rows: seq<seq<ButtonMapping>>): (r: seq<Value>)
    ensures |r| == |rows|
  {
    seq(|rows|, i requires 0 <= i < |rows| => RowValue(rows[i]))
  }

  function ButtonsFromValues(items: seq<Value>): Option<seq<ButtonMapping>> {
    if items == [] then Some([])
    else if !items[0].Object? then None
    else
      match (ButtonFromDict(items[0].fields), ButtonsFromValues(items[1..]))
      case (Some(b), Some(rest)) => Some([b] + rest)
      case _ => None
  }

  function RowsFromValues(items: seq<Value>): Option<seq<seq<ButtonMapping>>> {
    if items == [] then Some([])
    else if !items[0].Items? then None
    else
      match (ButtonsFromValues(items[0].items), RowsFromValues(items[1..]))
      case (Some(row), Some(rest)) => Some([row] + rest)
      case _ => None
  }

  /** Reads a grid back from its dictionary form. */
  function MatrixFromDict(d: map<string, Value>): Option<ButtonMatrix> {
    if "title" in d && (d["title"].Str? || d["title"].Null?) && "rows" in d && d["rows"].Items? then
      match RowsFromValues(d["rows"].items)
      case Some(rows) => Some(ButtonMatrix(rows, if d["title"].Str? then Some(d["title"].text) else None))
      case None => None
    else None
  }

  /** A button's dictionary holds all of it. */
  lemma ButtonDictRoundTrip(b: ButtonMapping)
    ensures ButtonFromDict(ButtonToDict(b)) == Some(b)
  {
  }

  lemma {:induction false} RowRoundTrip(row: seq<ButtonMapping>)
    ensures ButtonsFromValues(RowValue(row).items) == Some(row)
  {
    if row != [] {
      ButtonDictRoundTrip(row[0]);
      assert RowValue(row).items[1..] == RowValue(row[1..]).items;
      RowRoundTrip(row[1..]);
      assert row == [row[0]] + row[1..];
    }
  }

  lemma {:induction false} RowsRoundTrip(rows: seq<seq<ButtonMapping>>)
    ensures RowsFromValues(RowValues(rows)) == Some(rows)
  {
    if rows != [] {
      RowRoundTrip(rows[0]);
      assert RowValues(rows)[1..] == RowValues(rows[1..]);
      RowsRoundTrip(rows[1..]);
      assert rows == [rows[0]] + rows[1..];
    }
  }

  /** A grid's dictionary holds all of it: title, rows and every button in order. */
  lemma MatrixDictRoundTrip(m: ButtonMatrix)
    ensures MatrixFromDict(MatrixToDict(m)) == Some(m)
  {
    RowsRoundTrip(m.rows);
  }

  // ---------------------------------------------------------------------------
  // Reply text with images

  const DefaultMime: string := "image/png"

  /** The placeholder line for the image at 1-based `position`. */
  function ImageLine(position: nat, size: nat, mime: string): string {
    "[Image " + NatToString(position) + ": " + NatToString(size) + " bytes, " + mime + "]"
  }

  /** One placeholder line per image, numbered from 1 in the order they were added. */
  function ImageLines(images: seq<(Bytes, string)>): (r: seq<string>)
    ensures |r| == |images|
    ensures forall i | 0 <= i < |images| :: r[i] == ImageLine(i + 1, |images[i].0|, images[i].1)
  {
    seq(|images|, i requires 0 <= i < |images| => ImageLine(i + 1, |images[i].0|, images[i].1))
  }

  /** The text, a blank line when there is text, then the image lines. */
  function WithImages(text: string, blocks: seq<string>): string {
    if blocks == [] then text
    else if text != "" then text + "\n\n" + Join(blocks, "\n")
    else Join(blocks, "\n")
  }

  class MessageComponentBuilder {
    var textParts: seq<string>
    var images: seq<(Bytes, string)>
    var buttons: Option<ButtonMatrix>

    /** An empty builder. */
    constructor()
      ensures textParts == [] && images == [] && buttons == None
    {
      textParts := [];
      images := [];
      buttons := None;
    }

    /** `add_text`: appends the text unless it is empty; returns the builder. */
    method AddText(text: string) returns (self: MessageComponentBuilder)
      modifies this
      ensures self == this
      ensures textParts == if text != "" then old(textParts) + [text] else old(textParts)
      ensures images == old(images) && buttons == old(buttons)
    {
      if text != "" {
        textParts := textParts + [text];
      }
      return this;
    }

    /** `add_image`: appends the image with its MIME type unless it has no bytes; returns the builder. */
    method AddImage(imageBytes: Bytes, mimeType: string := DefaultMime) returns (self: MessageComponentBuilder)
      modifies this
      ensures self == this
      ensures images == if imageBytes != [] then old(images) + [(imageBytes, mimeType)] else old(images)
      ensures textParts == old(textParts) && buttons == old(buttons)
    {
      if imageBytes != [] {
        images := images + [(imageBytes, mimeType)];
      }
      return this;
    }

    /** `add_buttons`: replaces any grid given before; returns the builder. */
    method AddButtons(matrix: ButtonMatrix) returns (self: MessageComponentBuilder)
      modifies this
      ensures self == this
      ensures buttons == Some(matrix)
      ensures textParts == old(textParts) && images == old(images)
    {
      buttons := Some(matrix);
      return this;
    }

    /**
     * `_build_text_content` (and the text result): the parts, one per line, so
     * splitting at line breaks gives the parts back when none holds a line break.
     */
    function BuildTextContent(): (r: string)
      reads this
      ensures textParts == [] ==> r == ""
      ensures textParts != [] && (forall p | p in textParts :: '\n' !in p) ==> SplitOn(r, '\n') == textParts
    {
      LinesSplitBack(textParts);
      Join(textParts, "\n")
    }

    /** `_build_with_images` (and the composite result): the text followed by one line per image. */
    method BuildWithImages() returns (content: string)
      ensures content == WithImages(BuildTextContent(), ImageLines(images))
    {
      var text := BuildTextContent();
      if images == [] {
        return text;
      }
      var blocks: seq<string> := [];
      for idx := 0 to |images|
        invariant blocks == ImageLines(images)[..idx]
      {
        blocks := blocks + [ImageLine(idx + 1, |images[idx].0|, images[idx].1)];
      }
      assert blocks == ImageLines(images);
      if text != "" {
        return text + "\n\n" + Join(blocks, "\n");
      }
      return Join(blocks, "\n");
    }
  }

  /** The decimal digits of a number never contain a line break. */
  lemma DigitsHaveNoBreak(n: nat)
    ensures '\n' !in NatToString(n)
  {
    var s := NatToString(n);
    forall i | 0 <= i < |s| ensures s[i] != '\n' {
      assert IsDigit(s[i]);
    }
  }

  /** An image line is a single line when its MIME type is. */
  lemma ImageLineSingle(position: nat, size: nat, mime: string)
    requires '\n' !in mime
    ensures '\n' !in ImageLine(position, size, mime)
  {
    DigitsHaveNoBreak(position);
    DigitsHaveNoBreak(size);
  }

  /** The lines of a built text: the parts, a blank line when there are both parts and images, the image lines. */
  function BuiltLineList(parts: seq<string>, images: seq<(Bytes, string)>): seq<string> {
    parts + (if parts != [] && images != [] then [""] else []) + ImageLines(images)
  }

  /**
   * Splitting the built text at line breaks gives back the text parts, a
   * blank line when there are both parts and images, and the image lines.
   */
  lemma BuiltLines(parts: seq<string>, images: seq<(Bytes, string)>)
    requires parts != [] || images != []
    requires forall i | 0 <= i < |parts| :: parts[i] != "" && '\n' !in parts[i]
    requires forall i | 0 <= i < |images| :: '\n' !in images[i].1
    ensures SplitOn(WithImages(Join(parts, "\n"), ImageLines(images)), '\n') == BuiltLineList(parts, images)
  {
    BuiltLinesSingle(parts, images);
    BuiltJoin(parts, images);
    SplitOnOfJoin(BuiltLineList(parts, images), '\n');
  }

  lemma BuiltLinesSingle(parts: seq<string>, images: seq<(Bytes, string)>)
    requires forall i | 0 <= i < |parts| :: '\n' !in parts[i]
    requires forall i | 0 <= i < |images| :: '\n' !in images[i].1
    ensures forall p | p in BuiltLineList(parts, images) :: '\n' !in p
  {
    var blocks := ImageLines(images);
    var lines := BuiltLineList(parts, images);
    forall p | p in lines ensures '\n' !in p {
      var k :| 0 <= k < |lines| && lines[k] == p;
      if k < |parts| {
        assert p == parts[k];
      } else if k >= |lines| - |blocks| {
        var i := k - (|lines| - |blocks|);
        assert p == blocks[i];
        ImageLineSingle(i + 1, |images[i].0|, images[i].1);
      }
    }
  }

  lemma BuiltJoin(parts: seq<string>, images: seq<(Bytes, string)>)
    requires parts != [] || images != []
    requires forall i | 0 <= i < |parts| :: parts[i] != ""
    ensures WithImages(Join(parts, "\n"), ImageLines(images)) == Join(BuiltLineList(parts, images), "\n")
  {
    var blocks := ImageLines(images);
    if parts != [] && images != [] {
      var before, after := JoinPart(parts, "\n", 0);
      JoinWithBlank(parts, blocks);
    } else if parts == [] {
      assert BuiltLineList(parts, images) == blocks;
    } else {
      assert BuiltLineList(parts, images) == parts;
    }
  }

  /** A blank line between two groups of lines is a doubled line break. */
  lemma JoinWithBlank(parts: seq<string>, blocks: seq<string>)
    requires parts != [] && blocks != []
    ensures Join(parts + [""] + blocks, "\n") == Join(parts, "\n") + "\n\n" + Join(blocks, "\n")
  {
    JoinAppend(parts, [""], "\n");
    JoinAppend(parts + [""], blocks, "\n");
    assert Join(parts, "\n") + "\n" + "" + "\n" == Join(parts, "\n") + "\n\n";
  }

  // ---------------------------------------------------------------------------
  // Adapter

  /** The messaging attributes of the configuration; `None` is an attribute that is not set. */
  datatype MessagingConfig = MessagingConfig(
    waitForUserInput: Option<bool>,
    mentionUserOnRender: Option<bool>,
    retractDelayMs: Option<int>)

  /** `should_wait_for_input`: the configured flag, false when it is not set. */
  function ShouldWaitForInput(config: MessagingConfig): (r: bool)
    ensures r <==> config.waitForUserInput == Some(true)
  {
    if config.waitForUserInput.Some? then config.waitForUserInput.value else false
  }

  /** `should_mention_user`: the configured flag, false when it is not set. */
  function ShouldMentionUser(config: MessagingConfig): (r: bool)
    ensures r <==> config.mentionUserOnRender == Some(true)
  {
    if config.mentionUserOnRender.Some? then config.mentionUserOnRender.value else false
  }

  /** `get_retract_delay_ms`: the configured delay, none when it is not set. */
  function GetRetractDelayMs(config: MessagingConfig): (r: Option<int>)
    ensures config.retractDelayMs.None? ==> r.None?
    ensures config.retractDelayMs.Some? ==> r == Some(config.retractDelayMs.value)
  {
    if config.retractDelayMs.Some? then Some(config.retractDelayMs.value) else None
  }

  /**
   * `MessageAdapter.emit_text`.  `sender` is the sender's display name, or
   * `None` when looking it up fails (the failure is only logged).
   */
  function EmitText(config: MessagingConfig, sender: Option<string>, text: string): (r: string)
    ensures ShouldMentionUser(config) && sender.Some? ==> r == "@" + sender.value + " " + text
    ensures !(ShouldMentionUser(config) && sender.Some?) ==> r == text
  {
    if config.mentionUserOnRender == Some(true) && sender.Some? then "@" + sender.value + " " + text else text
  }

  /** The reply text is changed exactly when a mention is configured and the sender is known, and then only by a prefix. */
  lemma MentionOnlyWhenConfigured(config: MessagingConfig, sender: Option<string>, text: string)
    ensures EmitText(config, sender, text) != text <==> ShouldMentionUser(config) && sender.Some?
    ensures EmitText(config, sender, text)[|EmitText(config, sender, text)| - |text|..] == text
  {
    var r := EmitText(config, sender, text);
    if ShouldMentionUser(config) && sender.Some? {
      assert |r| > |text|;
    }
  }

  /** Parts joined one per line split back into the parts when none holds a line break. */
  lemma LinesSplitBack(parts: seq<string>)
    ensures parts != [] && (forall p | p in parts :: '\n' !in p) ==> SplitOn(Join(parts, "\n"), '\n') == parts
  {
    if parts != [] && (forall p | p in parts :: '\n' !in p) {
      SplitOnOfJoin(parts, '\n');
    }
  }

  /**
   * A reply and the builder result it came from: `get_text_result` gives
   * `Plain`, `get_composite_result` gives `Composite`. Both answer with the
   * event's plain-text result of `content`, so the tag records only which
   * branch the builder took, not a different kind of message.
   */
  datatype Reply = Plain(content: string) | Composite(content: string)

  /** The reply text of `emit_composite`: buttons never show in it. */
  function ComposedContent(text: Option<string>, imageBytes: Option<Bytes>): string {
    var parts := if text.Some? && text.value != "" then [text.value] else [];
    var images := if imageBytes.Some? && imageBytes.value != [] then [(imageBytes.value, DefaultMime)] else [];
    WithImages(Join(parts, "\n"), ImageLines(images))
  }

  /**
   * `MessageAdapter.emit_composite`: builds the reply from whichever of text,
   * image and buttons are given; it goes through the composite result exactly
   * when an image or buttons are given (the `Reply` tag records that branch;
   * either way the reply is plain text).
   */
  method EmitComposite(text: Option<string>, imageBytes: Option<Bytes>, buttons: Option<ButtonMatrix>)
    returns (r: Reply)
    ensures r.Composite? <==> (imageBytes.Some? && imageBytes.value != []) || buttons.Some?
    ensures r.content == ComposedContent(text, imageBytes)
  {
    var builder := new MessageComponentBuilder();
    if text.Some? && text.value != "" {
      var _ := builder.AddText(text.value);
    }
    if imageBytes.Some? && imageBytes.value != [] {
      var _ := builder.AddImage(imageBytes.value);
    }
    if buttons.Some? {
      var _ := builder.AddButtons(buttons.value);
    }
    if (imageBytes.Some? && imageBytes.value != []) || buttons.Some? {
      var content := builder.BuildWithImages();
      r := Composite(content);
    } else {
      r := Plain(builder.BuildTextContent());
    }
  }

  /**
   * What a composite reply reads: the text alone (empty when there is none)
   * without an image; the image line alone without text; otherwise the text,
   * a blank line and the image line.
   */
  lemma ComposedContentCases(text: Option<string>, imageBytes: Option<Bytes>)
    ensures !(imageBytes.Some? && imageBytes.value != []) ==>
              ComposedContent(text, imageBytes) == (if text.Some? then text.value else "")
    ensures imageBytes.Some? && imageBytes.value != [] && !(text.Some? && text.value != "") ==>
              ComposedContent(text, imageBytes) == ImageLine(1, |imageBytes.value|, DefaultMime)
    ensures imageBytes.Some? && imageBytes.value != [] && text.Some? && text.value != "" ==>
              ComposedContent(text, imageBytes) == text.value + "\n\n" + ImageLine(1, |imageBytes.value|, DefaultMime)
  {
  }

  // ---------------------------------------------------------------------------
  // Koishi-style button text

  /** One button as text: the emoji, a space and the label, or the label alone without an emoji. */
  function ButtonText(b: ButtonMapping): string {
    if b.emoji.Some? && b.emoji.value != "" then b.emoji.value + " " + b.labelText else b.labelText
  }

  const ButtonSeparator: string := " ｜ "

  /** A row of buttons on one line, separated by a full-width bar. */
  function RowText(row: seq<ButtonMapping>): string {
    Join(seq(|row|, j requires 0 <= j < |row| => ButtonText(row[j])), ButtonSeparator)
  }

  /** The title in corner brackets followed by a blank line, or nothing without a title. */
  function TitleLines(title: Option<string>): (r: seq<string>)
    ensures |r| == 0 || |r| == 2
  {
    if title.Some? && title.value != "" then ["【" + title.value + "】", ""] else []
  }

  function RowLines(rows: seq<seq<ButtonMapping>>): (r: seq<string>)
    ensures |r| == |rows|
    ensures forall i | 0 <= i < |rows| :: r[i] == RowText(rows[i])
  {
    seq(|rows|, i requires 0 <= i < |rows| => RowText(rows[i]))
  }

  function KoishiLines(buttons: ButtonMatrix): seq<string> {
    TitleLines(buttons.title) + RowLines(buttons.rows)
  }

  /** `encode_koishi_button_text`: the title lines, then one line per row. */
  method EncodeKoishiButtonText(buttons: ButtonMatrix) returns (text: string)
    ensures text == Join(KoishiLines(buttons), "\n")
  {
    var lines: seq<string> := [];
    if buttons.title.Some? && buttons.title.value != "" {
      lines := lines + ["【" + buttons.title.value + "】"];
      lines := lines + [""];
    }
    for i := 0 to |buttons.rows|
      invariant lines == TitleLines(buttons.title) + RowLines(buttons.rows)[..i]
    {
      lines := lines + [RowText(buttons.rows[i])];
    }
    assert RowLines(buttons.rows)[..|buttons.rows|] == RowLines(buttons.rows);
    text := Join(lines, "\n");
  }

  /** No title, label or emoji of the grid holds a line break. */
  predicate SingleLineGrid(buttons: ButtonMatrix) {
    && (buttons.title.Some? ==> '\n' !in buttons.title.value)
    && forall i, j | 0 <= i < |buttons.rows| && 0 <= j < |buttons.rows[i]| ::
         && '\n' !in buttons.rows[i][j].labelText
         && (buttons.rows[i][j].emoji.Some? ==> '\n' !in buttons.rows[i][j].emoji.value)
  }

  lemma RowSingle(row: seq<ButtonMapping>)
    requires forall j | 0 <= j < |row| :: '\n' !in row[j].labelText && (row[j].emoji.Some? ==> '\n' !in row[j].emoji.value)
    ensures '\n' !in RowText(row)
  {
    var texts := seq(|row|, j requires 0 <= j < |row| => ButtonText(row[j]));
    forall p | p in texts ensures '\n' !in p {
      var j :| 0 <= j < |texts| && texts[j] == p;
    }
    JoinFree(texts, ButtonSeparator, '\n');
  }

  /**
   * The encoded grid reads line by line as: the bracketed title and a blank
   * line when there is a title, then row `i` on line `i` after them.
   */
  lemma KoishiLayout(buttons: ButtonMatrix)
    requires SingleLineGrid(buttons)
    requires (buttons.title.Some? && buttons.title.value != "") || buttons.rows != []
    ensures SplitOn(Join(KoishiLines(buttons), "\n"), '\n') == KoishiLines(buttons)
    ensures buttons.title.Some? && buttons.title.value != "" ==>
              |KoishiLines(buttons)| == |buttons.rows| + 2
              && KoishiLines(buttons)[0] == "【" + buttons.title.value + "】"
              && KoishiLines(buttons)[1] == ""
    ensures !(buttons.title.Some? && buttons.title.value != "") ==> |KoishiLines(buttons)| == |buttons.rows|
    ensures forall i | 0 <= i < |buttons.rows| ::
              KoishiLines(buttons)[|TitleLines(buttons.title)| + i] == RowText(buttons.rows[i])
  {
    var lines := KoishiLines(buttons);
    forall i | 0 <= i < |buttons.rows| ensures '\n' !in RowText(buttons.rows[i]) {
      RowSingle(buttons.rows[i]);
    }
    forall p | p in lines ensures '\n' !in p {
      var k :| 0 <= k < |lines| && lines[k] == p;
      if k >= |TitleLines(buttons.title)| {
        assert p == RowText(buttons.rows[k - |TitleLines(buttons.title)|]);
      }
    }
    SplitOnOfJoin(lines, '\n');
  }

  /** Every button of a row shows in the row's line, emoji first when it has one. */
  lemma ButtonShown(row: seq<ButtonMapping>, j: nat) returns (before: string, after: string)
    requires j < |row|
    ensures RowText(row) == before + ButtonText(row[j]) + after
    ensures row[j].emoji.Some? && row[j].emoji.value != "" ==>
              ButtonText(row[j]) == row[j].emoji.value + " " + row[j].labelText
    ensures !(row[j].emoji.Some? && row[j].emoji.value != "") ==> ButtonText(row[j]) == row[j].labelText
  {
    var texts := seq(|row|, k requires 0 <= k < |row| => ButtonText(row[k]));
    before, after := JoinPart(texts, ButtonSeparator, j);
  }
}
