/** The task card that `createTaskElement` builds for one task
    (kanban-app/public/app.js:48-79): first as a structure, then as the exact
    markup assigned to the card's `innerHTML`. */
module Cards {
  import opened Tasks

  /** The advance button: the call `moveTask(taskId, target)` and its caption. */
  datatype MoveButton = MoveButton(taskId: int, target: Status, caption: string)

  /** A card. `id` is the card's `data-id`; `paragraph` is the description
      paragraph, absent when there is none; `deleteId` is the argument of the
      delete button's `deleteTask` call; `date` is the localised creation date. */
  datatype Card = Card(id: int, title: string, paragraph: Option<string>,
                       move: MoveButton, deleteId: int, date: string)

  /** `task.description || ''`: the text is non-empty exactly when the
      description is present and truthy, and then it is that description. */
  function DescriptionText(d: Option<string>): (r: string)
    ensures r != "" <==> d.Some? && d.value != ""
    ensures r != "" ==> r == d.value
  {
    match d
    case None => ""
    case Some(text) => text
  }

  /** The card of task `t`. The date formatting is a browser call, so the
      formatted date is passed in. Only tasks with a known status get a card:
      for any other status the caller throws before the card is used. */
  function CardOf(t: Task, date: string): (c: Card)
    requires IsStatusName(t.status)
    ensures c.id == t.id && c.move.taskId == t.id && c.deleteId == t.id
    ensures c.title == t.title && c.date == date
    ensures c.paragraph.Some? <==> t.description.Some? && t.description.value != ""
    ensures c.paragraph.Some? ==> c.paragraph.value == t.description.value
    ensures c.move.target == Next(StatusOf(t.status).value)
    ensures c.move.caption == Label(StatusOf(t.status).value)
  {
    var s := StatusOf(t.status).value;
    var desc := DescriptionText(t.description);
    Card(t.id, t.title, if desc != "" then Some(desc) else None,
         MoveButton(t.id, Next(s), Label(s)), t.id, date)
  }

  /** Decimal digits of a natural number, most significant first. */
  function Digits(n: nat): (r: string)
    ensures |r| >= 1
    ensures forall i :: 0 <= i < |r| ==> '0' <= r[i] <= '9'
    ensures r[0] == '0' ==> n == 0 && |r| == 1
  {
    if n < 10 then [(48 + n) as char]
    else Digits(n / 10) + [(48 + n % 10) as char]
  }

  /** The number a string of decimal digits denotes. */
  function DigitsValue(s: string): int {
    if s == [] then 0
    else 10 * DigitsValue(s[..|s| - 1]) + (s[|s| - 1] as int - 48)
  }

  /** Printing a number and reading it back gives the number: the id written
      into a button's `onclick` source is the id that the call receives. */
  lemma {:induction false} DigitsRoundTrip(n: nat)
    ensures DigitsValue(Digits(n)) == n
  {
    if n >= 10 {
      var d := Digits(n / 10);
      var r := d + [(48 + n % 10) as char];
      assert r[..|r| - 1] == d;
      DigitsRoundTrip(n / 10);
    }
  }

  /** The integer a string of decimal digits with an optional leading minus
      denotes. */
  function DecimalValue(s: string): int {
    if |s| > 0 && s[0] == '-' then -DigitsValue(s[1..]) else DigitsValue(s)
  }

  /** JavaScript's conversion of a safe integer (magnitude below 2^53) to a
      string in concatenation: a minus sign exactly for negative numbers,
      then decimal digits with no leading zero, and the string reads back as
      the number. Larger ids are not printed this way by JavaScript. */
  function DecimalString(n: int): (r: string)
    ensures |r| >= 1
    ensures r[0] == '-' <==> n < 0
    ensures var ds := if n < 0 then r[1..] else r;
      |ds| >= 1 && (forall i :: 0 <= i < |ds| ==> '0' <= ds[i] <= '9') &&
      (ds[0] == '0' ==> n == 0 && |ds| == 1)
    ensures DecimalValue(r) == n
  {
    if n < 0 then
      DigitsRoundTrip(-n);
      assert ("-" + Digits(-n))[1..] == Digits(-n);
      "-" + Digits(-n)
    else
      DigitsRoundTrip(n);
      Digits(n)
  }

  /** The title heading: the title between `<h4>` and `</h4>`. */
  function Heading(title: string): (r: string)
    ensures |r| == |title| + 9
    ensures r[..4] == "<h4>" && r[|r| - 5..] == "</h4>"
    ensures r[4..|r| - 5] == title
  {
    ThreePieces("<h4>", title, "</h4>");
    "<h4>" + title + "</h4>"
  }

  /** The description paragraph: nothing without a description, otherwise
      the text between `<p>` and `</p>`. */
  function ParagraphMarkup(p: Option<string>): (r: string)
    ensures r == "" <==> p.None?
    ensures p.Some? ==> |r| == |p.value| + 7 && r[3..|r| - 4] == p.value
    ensures p.Some? ==> r[..3] == "<p>" && r[|r| - 4..] == "</p>"
  {
    match p
    case None => ""
    case Some(text) =>
      ThreePieces("<p>", text, "</p>");
      "<p>" + text + "</p>"
  }

  const ActionsOpen := "<div class=\"task-actions\">"

  function ActionsMarkup(c: Card): string {
    ActionsOpen + ButtonsMarkup(c) + "</div>"
  }

  const MoveOpen := "<button class=\"btn-move\" onclick=\"moveTask("
  const DeleteOpen := "<button class=\"btn-delete\" onclick=\"deleteTask("
  const DeleteClose := ")\">🗑️ Delete</button>"

  /** The arguments of the move call: the task id in decimal and the quoted
      target key. */
  function MoveArguments(c: Card): (r: string)
    ensures var d := DecimalString(c.move.taskId);
      |r| == |d| + |Name(c.move.target)| + 4 &&
      r[..|d|] == d && r[|d|..|d| + 3] == ", '" &&
      r[|d| + 3..|r| - 1] == Name(c.move.target) && r[|r| - 1] == '\''
  {
    var d := DecimalString(c.move.taskId);
    var head := d + ", '";
    ThreePieces(head, Name(c.move.target), "'");
    SplitAt(d, ", '");
    var r := head + Name(c.move.target) + "'";
    assert r[..|d|] == r[..|head|][..|d|];
    assert r[|d|..|d| + 3] == r[..|head|][|d|..];
    r
  }

  /** The end of the move call and the button's caption. */
  function MoveTail(c: Card): (r: string)
    ensures |r| == |c.move.caption| + 12
    ensures r[..3] == ")\">" && r[|r| - 9..] == "</button>"
    ensures r[3..|r| - 9] == c.move.caption
  {
    ThreePieces(")\">", c.move.caption, "</button>");
    ")\">" + c.move.caption + "</button>"
  }

  /** The advance button: the `moveTask(` call on its arguments, then the
      caption. */
  function MoveButtonMarkup(c: Card): (r: string)
    ensures |r| == |MoveOpen| + |MoveArguments(c)| + |MoveTail(c)|
    ensures r[..|MoveOpen|] == MoveOpen && r[|r| - |MoveTail(c)|..] == MoveTail(c)
    ensures r[|MoveOpen|..|r| - |MoveTail(c)|] == MoveArguments(c)
  {
    ThreePieces(MoveOpen, MoveArguments(c), MoveTail(c));
    MoveOpen + MoveArguments(c) + MoveTail(c)
  }

  /** The delete button: the `deleteTask(` call on the id in decimal, then
      the delete caption. */
  function DeleteButtonMarkup(c: Card): (r: string)
    ensures |r| == |DeleteOpen| + |DecimalString(c.deleteId)| + |DeleteClose|
    ensures r[..|DeleteOpen|] == DeleteOpen && r[|r| - |DeleteClose|..] == DeleteClose
    ensures r[|DeleteOpen|..|r| - |DeleteClose|] == DecimalString(c.deleteId)
  {
    ThreePieces(DeleteOpen, DecimalString(c.deleteId), DeleteClose);
    DeleteOpen + DecimalString(c.deleteId) + DeleteClose
  }

  /** The two buttons: the advance button, then the delete button. */
  function ButtonsMarkup(c: Card): (r: string)
    ensures |r| == |MoveButtonMarkup(c)| + |DeleteButtonMarkup(c)|
    ensures r[..|MoveButtonMarkup(c)|] == MoveButtonMarkup(c)
    ensures r[|MoveButtonMarkup(c)|..] == DeleteButtonMarkup(c)
  {
    SplitAt(MoveButtonMarkup(c), DeleteButtonMarkup(c));
    MoveButtonMarkup(c) + DeleteButtonMarkup(c)
  }

  const DateOpen := "<div class=\"task-date\">Created: "

  /** The date block: the formatted date between the `Created:` opening and
      the closing tag. */
  function DateMarkup(date: string): (r: string)
    ensures |r| == |DateOpen| + |date| + 6
    ensures r[..|DateOpen|] == DateOpen && r[|r| - 6..] == "</div>"
    ensures r[|DateOpen|..|r| - 6] == date
  {
    ThreePieces(DateOpen, date, "</div>");
    DateOpen + date + "</div>"
  }

  /** The `innerHTML` of the card. Title and description are inserted as they
      are, without escaping. */
  function Markup(c: Card): string {
    Heading(c.title) + ParagraphMarkup(c.paragraph) + ActionsMarkup(c) + DateMarkup(c.date)
  }

  /** Each of three concatenated strings can be cut back out of the whole. */
  lemma ThreePieces(a: string, b: string, c: string)
    ensures var r := a + b + c;
      |r| == |a| + |b| + |c| && r[..|a|] == a && r[|a|..|r| - |c|] == b && r[|r| - |c|..] == c
  {
    var r := a + b + c;
    SplitAt(a + b, c);
    assert r[|a|..|r| - |c|] == (a + b)[|a|..];
  }

  lemma SplitAt(x: string, y: string)
    ensures (x + y)[..|x|] == x && (x + y)[|x|..] == y
  {
  }

  lemma PrefixOfConcat(x: string, y: string, n: nat)
    requires n <= |x|
    ensures (x + y)[..n] == x[..n]
  {
  }

  lemma Regroup(x: string, y: string, z: string)
    ensures x + y + z == x + (y + z)
  {
  }

  /** The markup opens with the title heading, and right after it comes a
      `<p>` exactly when the card has a description paragraph. */
  lemma MarkupHeadingThenParagraph(c: Card)
    ensures |Heading(c.title)| + 3 <= |Markup(c)|
    ensures Markup(c)[..|Heading(c.title)|] == Heading(c.title)
    ensures Markup(c)[|Heading(c.title)|..][..3] == "<p>" <==> c.paragraph.Some?
  {
    var h, p, a, d := Heading(c.title), ParagraphMarkup(c.paragraph), ActionsMarkup(c), DateMarkup(c.date);
    Regroup(h + p, a, d);
    Regroup(h, p, a + d);
    SplitAt(h, p + (a + d));
    if c.paragraph.Some? {
      ParagraphOpens(c.paragraph.value, a + d);
    } else {
      ActionsOpenWithoutParagraph(c, d);
    }
  }

  lemma ParagraphOpens(text: string, rest: string)
    ensures |ParagraphMarkup(Some(text)) + rest| >= 3
    ensures (ParagraphMarkup(Some(text)) + rest)[..3] == "<p>"
  {
    var open: string := "<p>";
    var p := ParagraphMarkup(Some(text));
    Regroup(open, text, "</p>");
    SplitAt(open, text + "</p>");
    PrefixOfConcat(p, rest, 3);
  }

  lemma ActionsOpenWithoutParagraph(c: Card, d: string)
    requires c.paragraph.None?
    ensures |ParagraphMarkup(c.paragraph) + (ActionsMarkup(c) + d)| >= 3
    ensures (ParagraphMarkup(c.paragraph) + (ActionsMarkup(c) + d))[..3] != "<p>"
  {
    var tail := ButtonsMarkup(c) + "</div>";
    Regroup(ActionsOpen, ButtonsMarkup(c), "</div>");
    Regroup(ActionsOpen, tail, d);
    assert ParagraphMarkup(c.paragraph) == [];
    ActionsOpenIsNoParagraph(tail + d);
  }

  /** Whatever follows it, the actions opening does not start like `<p>`. */
  lemma ActionsOpenIsNoParagraph(rest: string)
    ensures |ActionsOpen + rest| >= 3 && (ActionsOpen + rest)[..3] != "<p>"
  {
    PrefixOfConcat(ActionsOpen, rest, 3);
    assert ActionsOpen[..3] == "<di";
  }

  /** The markup closes with the creation date. */
  lemma MarkupEndsWithDate(c: Card)
    ensures |DateMarkup(c.date)| <= |Markup(c)|
    ensures Markup(c)[|Markup(c)| - |DateMarkup(c.date)|..] == DateMarkup(c.date)
  {
    var h, p, a, d := Heading(c.title), ParagraphMarkup(c.paragraph), ActionsMarkup(c), DateMarkup(c.date);
    SplitAt(h + p + a, d);
  }
}
