# Personal dashboard bot: message interpretation kernel

This project is a Dafny model of the logic in `telegram_bot.py` that decides what the bot does with a chat message:

- **Prompt.** `parse_with_claude` fills the current date into the `PARSING_PROMPT` template with `str.format` and appends the message. As written, the template's JSON braces are not doubled, so `str.format` raises before any request is made (see Findings).
- **Fence stripping.** In `parse_with_claude`, a Markdown code fence is stripped from the model's reply text before `json.loads`.
- **Fallback.** When building the request, fetching or reading the reply, or decoding it raises, `parse_with_claude` returns a fixed fallback dictionary that asks the user to rephrase.
- **Decision.** `handle_message` either asks for clarification without saving, or saves and then sends a confirmation or the fixed error text.
- **Confirmation.** The confirmation starts with the category's emoji, then a header, then a body assembled per category with defaults for missing fields.

The model is pure, like this part of the source. There are no loops and no mutated state. The handler's sequence of effects (reply, save, reply) becomes one `Outcome` value. `SaveRequest` says whether `save_to_database` is called and with which arguments.

Modules:

- `Wrappers`: `Option`.
- `PyStr`: the Python `str` operations the code relies on:
  - `p in s`;
  - `s.split(p)[0]` and `s.split(p)[1]`;
  - `s.strip()`, using the whitespace set of `str.isspace()`.
- `Json`: decoded JSON values and their Python behaviour:
  - `dict.get` with a default;
  - truthiness;
  - the `str()` an f-string applies. `None`, `True`/`False`, integers and strings are written out; other values go through a library parameter.
- `PyFormat`: `str.format` with one keyword argument, and `Escape`, which doubles braces.
- `Prompt`: the `PARSING_PROMPT` template as written, the same template with its braces doubled, and the request text built from either.
- `Parse`: `StripFences`, the fallback dictionary, `ParseWithModel` and `ParseMessage`.
- `Handler`: `Emoji`, `Body`, `Confirmation`, `SaveRequest` and `HandleMessage`.

Behaviour that lies outside this file is passed in as a `Library` value. It consists of:

- `json.loads`;
- `json.dumps(data, indent=2)`, which gives `None` where it raises, e.g. on a list nested too deeply for the encoder;
- `str.title()`;
- `str()` of floats, lists and dicts.

The HTTP exchange with the model is a `post` parameter from the request text to a `Reply`. The current date is a `date` input. The outcome of the save is a `bool` input.

Python exceptions that escape `handle_message` are modelled as the outcome `Crashed`: no reply is sent. This happens when:

- the decoded value is not a dictionary (`parsed.get` raises);
- `data` is not a dictionary for finance, fitness, dating or trips (`data.get` raises);
- the exercise or activity is not a string (`.title()` raises);
- the category is a list or dictionary (unhashable in `emoji_map.get`);
- `json.dumps` raises on the `data` of a category shown as JSON. This happens after the save, so the entry is stored and no reply is sent.

The code differs from a simple reading of the `` ```json `` branch in one case. The simple reading is "the text after the first `` ```json `` up to the next `` ``` ``". The code computes `split("```json")[1]`, which stops at the next `` ```json ``. That occurrence can start one or two characters after the first `` ``` ``, inside a run of four or more backticks. The model follows the code:

- `Parse.JsonFenceBody` proves that the code gives the simple reading exactly when this does not happen (`Parse.FencesApart`).
- `Parse.FirstFenceEndsEarly` gives a sufficient condition: the text after the fence holds no `` ````json ``.
- `Parse.OverlappingFence` gives an input where the two readings differ.

The project has no validation, defaulting, deletion matching or reminder sweep, because this version of the code has none of them.

## Model

| member | source | states |
|---|---|---|
| PyStr.FindFrom | telegram_bot.py:80 | The result is the first index at or after the start where the pattern occurs; `None` means it occurs nowhere from there on |
| PyStr.Find | telegram_bot.py:80 | `Some(i)` means the pattern occurs at `i` and at no earlier index; `None` means it occurs nowhere (Python's `in`, `str.find`) |
| PyStr.FirstIndex | telegram_bot.py:81 | For a string containing the separator, the index of its first occurrence: it occurs there and nowhere earlier |
| PyStr.Before | telegram_bot.py:81 | `split(p)[0]` is a prefix of `s` with no occurrence of `p` starting inside it; it is either all of `s` or ends exactly where `p` first occurs |
| PyStr.After | telegram_bot.py:81 | The input is the text before the first separator, then the separator, then this suffix |
| PyStr.SplitSecond | telegram_bot.py:81 | `split(p)[1]` is a prefix of the text after the first `p`; no `p` starts inside it, and it is either all of that text or ends where the next `p` starts |
| PyStr.BeforeHasNoOccurrence | telegram_bot.py:81 | For a non-empty separator, `split(p)[0]` does not contain `p` |
| PyStr.BeforeIdempotent | telegram_bot.py:81 | Taking `split(p)[0]` twice gives the same text as taking it once |
| PyStr.ContainsPiece | telegram_bot.py:80-82 | A string that contains a pattern contains every contiguous piece of it |
| PyStr.SliceLacks | telegram_bot.py:81 | A slice of a string without `p` is without `p` |
| PyStr.LeadEnd | telegram_bot.py:81 | The end of the run of whitespace starting at the given index: everything skipped is whitespace, and the character there (if any) is not |
| PyStr.TrailStart | telegram_bot.py:81 | The start of the run of whitespace ending at the given index, bounded on the left: everything skipped is whitespace, and the character before it (if any, above the bound) is not |
| PyStr.Strip | telegram_bot.py:81 | `strip()` gives a contiguous slice; everything cut off on either side is whitespace; the result neither starts nor ends with whitespace |
| PyStr.StripEmpty | telegram_bot.py:81 | `strip()` gives the empty string if and only if the input is all whitespace |
| PyStr.StripLacks | telegram_bot.py:81 | Stripping a text that does not contain `p` leaves a text without `p` |
| PyStr.StripShorterPrefix | telegram_bot.py:81 | Cutting a text that ends in non-whitespace just before a non-whitespace character makes its `strip()` strictly shorter |
| PyStr.StripTrimmed | telegram_bot.py:81 | A text with no whitespace at either end is unchanged by `strip()` |
| PyStr.StripIdempotent | telegram_bot.py:81 | `strip()` twice equals `strip()` once |
| Parse.JsonFenceIsFence | telegram_bot.py:80-82 | Any content with a `` ```json `` fence also contains `` ``` ``, so the `elif` is reached only without `` ```json `` |
| Parse.NoFenceUnchanged | telegram_bot.py:80-85 | Content without `` ``` `` reaches `json.loads` unchanged, with no trimming |
| Parse.BareFenceBody | telegram_bot.py:82-83 | With `` ``` `` but no `` ```json ``, the result is the text after the first fence up to the next one (or to the end), stripped |
| Parse.BeforeOfPrefix | telegram_bot.py:81 | Cutting a text at a point beyond the end of its first `p` does not change `split(p)[0]` |
| Parse.BeforeOfCut | telegram_bot.py:81 | A text cut exactly at its first `p` is its own `split(p)[0]` and contains no `p` |
| Parse.BacktickRun | telegram_bot.py:80-81 | A `` ``` `` and a `` ```json `` whose starts are one or two characters apart form `` ````json `` |
| Parse.FirstFenceEndsEarly | telegram_bot.py:81 | In a text without `` ````json ``, the first `` ``` `` is either the start of the first `` ```json `` or ends before it |
| Parse.JsonFenceBody | telegram_bot.py:80-81 | With `` ```json ``, the result equals the text after the first `` ```json `` up to the next `` ``` `` (or to the end), stripped, if and only if in that text the first `` ```json `` is absent, starts with the first `` ``` ``, or starts after it ends |
| Parse.JsonFenceDiverges | telegram_bot.py:80-81 | When the first `` ```json `` starts one or two characters after the first `` ``` ``, the code's result is strictly longer than the simple reading's |
| Parse.OverlappingFence | telegram_bot.py:80-81 | On `` ```json````jsonX `` the code yields a single backtick, while "up to the next `` ``` ``" would yield the empty string; the fences there are not apart |
| Parse.OverlappingFenceSplit | telegram_bot.py:81 | The split steps the code takes on `` ```json````jsonX ``: the text after the first `` ```json `` is `` ````jsonX ``, its `split("```json")[0]` is one backtick, and its `split("```")[0]` is empty |
| Parse.FindAtStart | telegram_bot.py:80 | A text that starts with the pattern has its first occurrence at index 0 |
| Parse.FindInRun | telegram_bot.py:81 | In `` ````jsonX `` the first `` ```json `` starts at index 1 |
| Parse.CutAndStripLacksFence | telegram_bot.py:81-83 | Cutting a text at its first `` ``` `` and stripping it leaves no `` ``` `` |
| Parse.FencedResultClean | telegram_bot.py:80-83 | Whenever a fence branch fires, the result contains no `` ``` `` and has no leading or trailing whitespace |
| Parse.StripFencesIdempotent | telegram_bot.py:79-83 | Stripping fences twice gives the same text as stripping once |
| Parse.ParseResult | telegram_bot.py:85-93 | The parse result is either what `json.loads` decoded from the stripped reply, or a dictionary with category "unknown", `needs_clarification` true and the fixed rephrase question |
| PyFormat.FieldEnd | telegram_bot.py:70 | The end found for a replacement field is an index inside the text that holds a `}` |
| PyFormat.FormatPlain | telegram_bot.py:70 | `str.format` copies brace-free text unchanged in front of whatever the rest formats to, or raises exactly when the rest raises |
| PyFormat.FormatEscaped | telegram_bot.py:70 | Text whose braces are all doubled formats back to the original text, in front of whatever the rest formats to |
| PyFormat.FieldEndPlain | telegram_bot.py:70 | A field whose name holds no brace ends at the first `}` after the name |
| PyFormat.FormatField | telegram_bot.py:70 | The field `{current_date}` (any non-empty brace-free keyword) is replaced by the argument's text |
| PyFormat.EscapedTemplate | telegram_bot.py:70 | Escaped text, the keyword's field, then escaped text formats to the two texts with the argument between them |
| PyFormat.FormatUnknownField | telegram_bot.py:70 | A single `{` after brace-free text, followed by a character that is neither a brace nor the keyword's first letter, makes `str.format` raise |
| Prompt.IntroPiecesPlain0 | telegram_bot.py:19-21 | The first pieces of the instructions hold no brace |
| Prompt.IntroPiecesPlain1 | telegram_bot.py:21-24 | The next pieces of the instructions hold no brace |
| Prompt.IntroPiecesPlain2 | telegram_bot.py:24-26 | The next pieces of the instructions hold no brace |
| Prompt.IntroPiecesPlain3 | telegram_bot.py:26-29 | The last pieces of the instructions hold no brace |
| Prompt.PlainConcat | telegram_bot.py:19-29 | Joining brace-free pieces gives a brace-free text |
| Prompt.IntroPlain | telegram_bot.py:19-29 | The template's instructions, up to the line before the JSON shape, hold no brace |
| Prompt.UnescapedShapeRaises | telegram_bot.py:29-70 | Any template whose shape opens with a single `{` and a line break raises in `format(current_date=...)`, for every date |
| Prompt.TemplateRaises | telegram_bot.py:19-70 | `PARSING_PROMPT.format(current_date=...)` raises for every date, so no request text is built |
| Prompt.CorrectedShapeFormats | telegram_bot.py:19-70 | With every literal brace doubled, the template formats to its own text with the date in place of `{current_date}` |
| Prompt.CorrectedTemplateFormats | telegram_bot.py:19-70 | The corrected `PARSING_PROMPT` formats to the intended prompt for every date |
| Parse.ParseMessageFormats | telegram_bot.py:55-93 | A template that formats to a prompt posts that prompt, a blank line and the message, and the result is parsed from the reply |
| Parse.ParseMessageAsWritten | telegram_bot.py:55-93 | As written, `parse_with_claude` returns the fallback dictionary for every message and date, whatever the model would answer |
| Parse.ParseMessageCorrected | telegram_bot.py:55-93 | With the braces doubled, the request is the intended prompt, a blank line and the message, and the result is parsed from the model's reply to it |
| Json.DigitChar | telegram_bot.py:185 | A digit value becomes a character between '0' and '9' |
| Json.Digits | telegram_bot.py:185 | `str()` of a natural number is a non-empty string of decimal digits with no leading zero, and it is "0" exactly for zero |
| Json.DigitsRoundTrip | telegram_bot.py:185 | Reading back the digits `str()` writes gives the number again |
| Json.Decimal | telegram_bot.py:185 | `str()` of an integer starts with '-' exactly when the integer is negative; the rest is non-empty decimal digits, with no leading zero unless the integer is zero, that read back as the integer's magnitude |
| Handler.ReplyText | telegram_bot.py:155-203 | Every outcome except `Crashed` sends a message to the chat |
| Handler.EmojiDefault | telegram_bot.py:168-177 | For a hashable category an emoji is found, and it is the note emoji exactly when the category is not one of the six in the map |
| Handler.SaveIffNoClarification | telegram_bot.py:155-164 | Save is called exactly when the parsed dictionary's `needs_clarification` is falsy; the clarification reply is given exactly when a dictionary is parsed and save is not called |
| Handler.NoSaveNoInfluence | telegram_bot.py:155-158 | When save is not called, the save outcome cannot change the result |
| Handler.SaveResultDecides | telegram_bot.py:164-203 | After a save, failure gives exactly the text "❌ Error saving data. Please try again."; success gives a confirmation, unless formatting raises |
| Handler.DefaultClarification | telegram_bot.py:155-157 | Without `clarification_question`, the reply is "🤔 Could you provide more details?" |
| Handler.NonDictCrashes | telegram_bot.py:155 | A parsed value that is not a dictionary raises before saving or replying |
| Handler.ParseFailureAsksToRephrase | telegram_bot.py:87-158 | A failed request or decode never reaches the save; the user gets "🤔 Sorry, I couldn't parse that. Could you rephrase?" |
| Handler.EveryMessageAsksToRephrase | telegram_bot.py:55-158 | As written, every message is answered "🤔 Sorry, I couldn't parse that. Could you rephrase?" and the save is never called, whatever the model, the date or the save outcome |
| Handler.LoggedHeader | telegram_bot.py:168-180 | Every confirmation begins with the category's emoji (the note emoji outside the map) followed by " Logged to {category}:\n" |
| Handler.MissingDataIsEmpty | telegram_bot.py:162 | A missing `data` key behaves exactly like an empty dictionary, both for the save arguments and for the outcome |
| Handler.FinanceDefaultAmount | telegram_bot.py:182-185 | A finance entry without `amount` reads exactly as one whose amount is the empty string, whatever its other fields |
| Handler.FinanceDefaultDescription | telegram_bot.py:182-185 | A finance entry without `description` reads exactly as one whose description is the empty string, whatever its other fields |
| Handler.FinanceMissingFields | telegram_bot.py:182-185 | Finance without amount and description reads "$ - " |
| Handler.FitnessWeightSuffix | telegram_bot.py:186-190 | Adding a `weight` key appends exactly " - {weight}lbs" to the fitness line and changes nothing else |
| Handler.FitnessDefaultExercise | telegram_bot.py:187-188 | A fitness entry without `exercise` reads as the exercise "workout" |
| Handler.DatingDefaultActivity | telegram_bot.py:191-194 | A dating entry without `activity` reads exactly as one whose activity is "date", whatever its other fields |
| Handler.DatingDefaultPerson | telegram_bot.py:191-194 | A dating entry without `person` reads exactly as one whose person is the empty string, whatever its other fields |
| Handler.DatingDefaults | telegram_bot.py:191-194 | A dating entry without activity and person reads "{title('date')} with " |
| Handler.TitleNeedsString | telegram_bot.py:187-194 | The fitness and dating bodies raise exactly when the exercise or activity is present and is not a string |
| Handler.BodyOfNonDict | telegram_bot.py:182-199 | A `data` that is not a dictionary raises for finance, fitness, dating and trips; for every other category the body is what `json.dumps` gives, raising exactly when it raises |
| Handler.TripsDefaultDestination | telegram_bot.py:195-197 | A trips entry without `destination` has an empty body |
| Handler.OtherCategoriesDump | telegram_bot.py:198-199 | Every category other than finance, fitness, dating and trips, including relationships, todos, "unknown" and a missing category, shows `data` through `json.dumps`, and the body raises exactly when `json.dumps` raises |
| Handler.DumpsFailureCrashesAfterSave | telegram_bot.py:160-201 | For a category shown as JSON whose `data` `json.dumps` cannot encode, save is called and then the handler raises without replying; a failed save still gives the error text |

## Left out

- The HTTP request to the model API and the reading of `result["content"][0]["text"]` (telegram_bot.py:58-77) are network I/O. They are the `post` parameter of `Parse.ParseMessage`, whose `Parse.Reply` result is the text or `RequestFailed` with the exception's message. Before them, line 70 formats the template, and as written that raises KeyError on line 30's single `{`. So every message ends in the fallback (`Parse.ParseMessageAsWritten`). A `Reply(text)` arises only from the template with its braces doubled (`Prompt.CorrectedTemplate`). `StripFences`, `ParseWithModel` and `HandleMessage` describe that corrected program.
- PyFormat.Format: only one keyword argument is modelled. Conversions (`!r`), formatting options after `:`, attribute and index access in field names, and positional fields are not modelled. Where a field ends is found by counting braces. Any field name other than the keyword is an error (`None`), as are a single `}` and an unclosed field.
- The message of a formatting exception (`str(e)`, here `'\n  "category"'`) is the `formatError` input of `Parse.ParseMessage`.
- The Supabase insert and its `status_code == 201` test (telegram_bot.py:108-120) are network I/O. The save outcome is the `saved` input of `HandleMessage`.
- The local-file fallback of `save_to_database` (telegram_bot.py:121-127) is filesystem I/O. It makes the save report success, which the `saved` input covers. An exception raised inside that fallback is not modelled.
- `json.loads`, `json.dumps(..., indent=2)`, `str.title()` and `str()` of floats, lists and dicts are library behaviour outside this file. They are fields of `Json.Library`, and their results are not modelled. An exception from `json.loads` is caught at telegram_bot.py:87 and is a `DecodeError`. A `json.dumps` that raises is `None`.
- Json.Library: `str.title()` and `str()` of a float, list or dict (`Library.repr`) are assumed to return normally. `str()` of a list or dict nested a thousand or more levels deep raises `RecursionError` in CPython. In an f-string at telegram_bot.py:180-197 that would end the handler without a reply, which the model does not capture.
- The timestamps and `user_id` stored with an entry (telegram_bot.py:98-104, 146) are not modelled. They read the clock and only pass through to storage. The current date of line 53 is the `date` input.
- The Telegram wiring, the typing indicator, `/start`, `/stats` and `main` (telegram_bot.py:130-140, 149, 206-231) are transport and user interface, and are not modelled.
- Json.Value: a dictionary is a `map`, so the key order that `json.dumps` would print is not modelled; `json.dumps` is uninterpreted anyway.
- Json.Value: a JSON number with a fraction or exponent is a `real`, so the `NaN` and `Infinity` that `json.loads` also accepts have no value of their own; no modelled behaviour depends on them, since `str()` of a float goes through `Library.repr`.
- The model covers only the code in `telegram_bot.py`. It has no schema validation, defaulting, fuzzy deletion matching or reminder scheduling, because this code has none.

## Findings

| source | as written | input that shows it | evidently intended | confidence | as-written member | corrected member |
|---|---|---|---|---|---|---|
| telegram_bot.py:70 | `PARSING_PROMPT.format(current_date=...)` on a template whose JSON braces (line 30 on, and the examples at lines 41-45) are single; `str.format` reads line 30's `{` as a field named `\n  "category"` and raises KeyError inside the `try`, which line 87 turns into the fallback | any message, any date | the braces are literal text, the date is filled in, and the prompt and message are sent to the model | not executed | Handler.EveryMessageAsksToRephrase | Parse.ParseMessageCorrected |
