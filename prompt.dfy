/** The prompt put in front of every message (`PARSING_PROMPT`,
    telegram_bot.py:19-48) and the request text built from it at line 70. The
    template is written with single braces around its JSON shape and its
    examples, and `str.format` reads a single brace as the start of a
    replacement field; `CorrectedTemplate` is the same text with those braces
    doubled. */
module Prompt {
  import opened Wrappers
  import opened PyFormat

  /** The keyword argument the template is formatted with. */
  const DateKey: string := "current_date"

  /** Lines 19-29: the instructions and the category list, in pieces short
      enough that each one's lack of braces is a small proof. */
  const Intro00: string := "You are a personal dashboard "
  const Intro01: string := "assistant. Parse the user's "
  const Intro02: string := "message and extract structured "
  const Intro03: string := "data.\n\nIdentify which category "
  const Intro04: string := "this belongs to:\n- finance: "
  const Intro05: string := "spending, income, bills\n- "
  const Intro06: string := "fitness: workouts, exercise, "
  const Intro07: string := "health\n- relationships: contact "
  const Intro08: string := "with friends/family, reminders\n"
  const Intro09: string := "- dating: dates, dating app "
  const Intro10: string := "matches, follow-ups\n- trips: "
  const Intro11: string := "travel plans, bookings, "
  const Intro12: string := "itineraries\n- todos: tasks, "
  const Intro13: string := "reminders, goals\n\nReturn ONLY a "
  const Intro14: string := "JSON object with this "
  const Intro15: string := "structure:\n"

  /** The instructions as one text. */
  const Intro: string := Concat([Intro00, Intro01, Intro02, Intro03, Intro04, Intro05, Intro06, Intro07, Intro08, Intro09, Intro10, Intro11, Intro12, Intro13, Intro14, Intro15])

  /** Lines 31-47 up to the date field: the JSON shape, the examples and the
      closing request, each line a piece. */
  const SchemaLines: string :=
    "  \"category\": \"finance|fitness|relationships|dating|trips|todos\",\n"
    + "  \"data\": {\n"
    + "    // Category-specific fields\n"
    + "  },\n"
    + "  \"confidence\": 0.0-1.0,\n"
    + "  \"needs_clarification\": false,\n"
    + "  \"clarification_question\": \"optional question if unclear\"\n"
    + "}\n"
    + "\n"
    + "Examples:\n"
    + "- \"Spent $47 on dinner\" \U{2192} {\"category\": \"finance\", \"data\": {\"type\": \"expense\", \"amount\": 47, \"currency\": \"USD\", \"description\": \"dinner\", \"date\": \"2026-02-13\"}}\n"
    + "- \"Leg day - squats 225x5x3\" \U{2192} {\"category\": \"fitness\", \"data\": {\"type\": \"workout\", \"exercise\": \"squats\", \"weight\": 225, \"sets\": 3, \"reps\": 5, \"notes\": \"leg day\"}}\n"
    + "- \"Coffee date with Sarah tomorrow at 2pm\" \U{2192} {\"category\": \"dating\", \"data\": {\"type\": \"scheduled_date\", \"person\": \"Sarah\", \"activity\": \"coffee\", \"datetime\": \"2026-02-14T14:00:00\"}}\n"
    + "- \"Call mom this weekend\" \U{2192} {\"category\": \"relationships\", \"data\": {\"type\": \"reminder\", \"person\": \"mom\", \"action\": \"call\", \"timeframe\": \"this weekend\"}}\n"
    + "- \"Tokyo trip April 15-22\" \U{2192} {\"category\": \"trips\", \"data\": {\"destination\": \"Tokyo\", \"start_date\": \"2026-04-15\", \"end_date\": \"2026-04-22\"}}\n"
    + "\n"
    + "Be smart about parsing dates, amounts, and context. Current date is "

  /** Line 30's opening brace, then the rest of the shape. */
  const Schema: string := "{" + "\n" + SchemaLines

  /** What follows the date field: line 47's full stop and its line break. */
  const Tail: string := ".\n"

  /** The template as the program writes it, around a given shape text. */
  function TemplateOf(schema: string): string
  {
    Intro + schema + "{" + DateKey + "}" + Tail
  }

  /** The same template with every literal brace doubled and the date field kept. */
  function CorrectedTemplateOf(schema: string): string
  {
    Escape(Intro + schema) + ("{" + DateKey + "}" + Escape(Tail))
  }

  /** `PARSING_PROMPT` as written. */
  const Template: string := TemplateOf(Schema)

  /** `PARSING_PROMPT` with its literal braces doubled. */
  const CorrectedTemplate: string := CorrectedTemplateOf(Schema)

  /** The prompt the template is evidently meant to produce for `date`: the
      template's text with the date in place of its field. */
  function IntendedPrompt(date: string): string
  {
    Intro + Schema + date + Tail
  }

  /** The pieces of a text, joined. */
  function Concat(ps: seq<string>): string
  {
    if ps == [] then [] else ps[0] + Concat(ps[1..])
  }

  /** Joining brace-free pieces gives a brace-free text. */
  lemma {:induction false} PlainConcat(ps: seq<string>)
    requires forall i :: 0 <= i < |ps| ==> Plain(ps[i])
    ensures Plain(Concat(ps))
  {
    if ps != [] {
      PlainConcat(ps[1..]);
      var c := Concat(ps[1..]);
      assert Concat(ps) == ps[0] + c;
      forall k | 0 <= k < |ps[0] + c|
        ensures (ps[0] + c)[k] != '{' && (ps[0] + c)[k] != '}'
      {
        if k >= |ps[0]| {
          assert (ps[0] + c)[k] == c[k - |ps[0]|];
        }
      }
    }
  }

  lemma IntroPiecesPlain0()
    ensures Plain(Intro00) && Plain(Intro01) && Plain(Intro02) && Plain(Intro03)
  {
  }

  lemma IntroPiecesPlain1()
    ensures Plain(Intro04) && Plain(Intro05) && Plain(Intro06) && Plain(Intro07)
  {
  }

  lemma IntroPiecesPlain2()
    ensures Plain(Intro08) && Plain(Intro09) && Plain(Intro10) && Plain(Intro11)
  {
  }

  lemma IntroPiecesPlain3()
    ensures Plain(Intro12) && Plain(Intro13) && Plain(Intro14) && Plain(Intro15)
  {
  }

  /** The instructions hold no brace. */
  lemma IntroPlain()
    ensures Plain(Intro)
  {
    IntroPiecesPlain0();
    IntroPiecesPlain1();
    IntroPiecesPlain2();
    IntroPiecesPlain3();
    PlainConcat([Intro00, Intro01, Intro02, Intro03, Intro04, Intro05, Intro06, Intro07, Intro08, Intro09, Intro10, Intro11, Intro12, Intro13, Intro14, Intro15]);
  }

  /** Line 70: the formatted template, a blank line and the message; `None`
      when formatting the template raises. */
  function RequestText(template: string, date: string, message: string): Option<string>
  {
    match Format(template, DateKey, date)
    case None => None
    case Some(prompt) => Some(prompt + "\n\nMessage: " + message)
  }

  /** As written, a shape that opens with a brace and a line break opens a
      field whose name starts with that line break and so is not
      `current_date`: formatting raises KeyError, whatever the date. */
  lemma UnescapedShapeRaises(lines: string, date: string)
    ensures Format(TemplateOf("{" + "\n" + lines), DateKey, date) == None
  {
    IntroPlain();
    var b := "\n" + lines + "{" + DateKey + "}" + Tail;
    assert TemplateOf("{" + "\n" + lines) == Intro + ("{" + b);
    assert b[0] == '\n';
    FormatUnknownField(Intro, b, DateKey, date);
  }

  /** So `PARSING_PROMPT.format(current_date=...)` raises for every date and
      no request text is ever built. */
  lemma TemplateRaises(date: string, message: string)
    ensures Format(Template, DateKey, date) == None
    ensures RequestText(Template, date, message) == None
  {
    UnescapedShapeRaises(SchemaLines, date);
  }

  /** With its braces doubled, any shape text formats back to itself with the
      date in place of the field. */
  lemma CorrectedShapeFormats(schema: string, date: string)
    ensures Format(CorrectedTemplateOf(schema), DateKey, date) == Some(Intro + schema + date + Tail)
  {
    assert Plain(DateKey);
    EscapedTemplate(Intro + schema, DateKey, date, Tail);
  }

  /** So the corrected template formats to the intended prompt. */
  lemma CorrectedTemplateFormats(date: string)
    ensures Format(CorrectedTemplate, DateKey, date) == Some(IntendedPrompt(date))
  {
    CorrectedShapeFormats(Schema, date);
  }
}
