/** `handle_message`: what the bot does with one decoded reply — ask for
    clarification without saving, or save and then confirm or report the
    failure. The handler's effects (reply, save, reply) are folded into one
    `Outcome` value; whether and with what the save is called is `SaveRequest`. */
module Handler {
  import opened Wrappers
  import opened Json
  import Parse
  import Prompt

  const DefaultQuestion: string := "Could you provide more details?"
  const ThinkingFace: string := "\U{1F914}"
  const SaveErrorText: string := "\U{274C} Error saving data. Please try again."
  const DefaultEmoji: string := "\U{1F4DD}"

  /** `emoji_map` of the confirmation. */
  const EmojiMap: map<string, string> := map[
    "finance" := "\U{1F4B0}",
    "fitness" := "\U{1F4AA}",
    "relationships" := "\U{1F465}",
    "dating" := "\U{1F495}",
    "trips" := "\U{2708}\U{FE0F}",
    "todos" := "\U{2705}"]

  /** What the user sees, or that the handler raised before replying. */
  datatype Outcome =
    | AskClarification(text: string)
    | Logged(text: string)
    | SaveFailed
    | Crashed

  /** The message sent back to the chat, if any. */
  function ReplyText(o: Outcome): (r: Option<string>)
    ensures r.None? <==> o.Crashed?
  {
    match o
    case AskClarification(text) => Some(text)
    case Logged(text) => Some(text)
    case SaveFailed => Some(SaveErrorText)
    case Crashed => None
  }

  /** `emoji_map.get(category, "📝")`. A list or dict used as a dictionary key
      raises `TypeError` (unhashable), hence `None`. */
  function Emoji(category: Value): Option<string>
  {
    match category
    case Arr(_) => None
    case Obj(_) => None
    case Str(c) => Some(if c in EmojiMap then EmojiMap[c] else DefaultEmoji)
    case _ => Some(DefaultEmoji)
  }

  /** The six categories with an emoji of their own. */
  predicate KnownCategory(category: Value)
  {
    category in {Str("finance"), Str("fitness"), Str("relationships"),
                 Str("dating"), Str("trips"), Str("todos")}
  }

  /** The note emoji is used exactly for the hashable categories outside the map. */
  lemma EmojiDefault(category: Value)
    requires !category.Arr? && !category.Obj?
    ensures Emoji(category).Some?
    ensures Emoji(category).value == DefaultEmoji <==> !KnownCategory(category)
  {
  }

  /** The category-specific part of the confirmation; `None` when it raises:
      `data.get` on a `data` that is not a dict, or `.title()` on an exercise
      or activity that is not a string. */
  function Body(category: Value, data: Value, lib: Library): Option<string>
  {
    if category == Str("finance") then
      if !data.Obj? then None
      else
        var amount := Get(data.fields, "amount", Str(""));
        var desc := Get(data.fields, "description", Str(""));
        Some("$" + Show(amount, lib) + " - " + Show(desc, lib))
    else if category == Str("fitness") then
      if !data.Obj? then None
      else
        var exercise := Get(data.fields, "exercise", Str("workout"));
        if !exercise.Str? then None
        else
          var weight := if "weight" in data.fields
                        then " - " + Show(data.fields["weight"], lib) + "lbs" else "";
          Some(lib.title(exercise.s) + weight)
    else if category == Str("dating") then
      if !data.Obj? then None
      else
        var person := Get(data.fields, "person", Str(""));
        var activity := Get(data.fields, "activity", Str("date"));
        if !activity.Str? then None
        else Some(lib.title(activity.s) + " with " + Show(person, lib))
    else if category == Str("trips") then
      if !data.Obj? then None
      else Some(Show(Get(data.fields, "destination", Str("")), lib))
    else
      lib.dumps(data)
  }

  /** The header line every confirmation starts with. */
  function Header(emoji: string, category: Value, lib: Library): string
  {
    emoji + " Logged to " + Show(category, lib) + ":\n"
  }

  /** The confirmation sent after a successful save. */
  function Confirmation(category: Value, data: Value, lib: Library): Option<string>
  {
    match Emoji(category)
    case None => None
    case Some(emoji) =>
      match Body(category, data, lib)
      case None => None
      case Some(body) => Some(Header(emoji, category, lib) + body)
  }

  /** `parsed.get("needs_clarification")` is truthy. */
  predicate NeedsClarification(parsed: map<string, Value>)
  {
    Truthy(Get(parsed, "needs_clarification", Null))
  }

  /** The arguments `save_to_database` is called with (category and data), or
      `None` when it is not called. `parsed.get` on a value that is not a dict
      raises before anything else happens. */
  function SaveRequest(parsed: Value): Option<(Value, Value)>
  {
    if parsed.Obj? && !NeedsClarification(parsed.fields) then
      Some((Get(parsed.fields, "category", Null), Get(parsed.fields, "data", Obj(map[]))))
    else None
  }

  /** `handle_message` after parsing, given whether the save reported success. */
  function HandleMessage(parsed: Value, saved: bool, lib: Library): Outcome
  {
    match parsed
    case Obj(fields) =>
      if NeedsClarification(fields) then
        var question := Get(fields, "clarification_question", Str(DefaultQuestion));
        AskClarification(ThinkingFace + " " + Show(question, lib))
      else if !saved then SaveFailed
      else
        var category := Get(fields, "category", Null);
        var data := Get(fields, "data", Obj(map[]));
        (match Confirmation(category, data, lib)
         case None => Crashed
         case Some(text) => Logged(text))
    case _ => Crashed
  }

  /** The clarification branch is taken exactly when the save is skipped
      (for a decoded dictionary), and the save is called exactly when
      `needs_clarification` is falsy. */
  lemma SaveIffNoClarification(parsed: Value, saved: bool, lib: Library)
    ensures SaveRequest(parsed).Some? <==> parsed.Obj? && !NeedsClarification(parsed.fields)
    ensures HandleMessage(parsed, saved, lib).AskClarification?
            <==> parsed.Obj? && SaveRequest(parsed).None?
  {
  }

  /** When the save is not called, its outcome cannot influence the reply. */
  lemma NoSaveNoInfluence(parsed: Value, lib: Library)
    requires SaveRequest(parsed).None?
    ensures HandleMessage(parsed, true, lib) == HandleMessage(parsed, false, lib)
  {
  }

  /** After a save, a failed save gives exactly the fixed error reply and a
      successful one a confirmation (unless formatting raises). */
  lemma SaveResultDecides(parsed: Value, lib: Library)
    requires SaveRequest(parsed).Some?
    ensures HandleMessage(parsed, false, lib) == SaveFailed
    ensures ReplyText(HandleMessage(parsed, false, lib))
            == Some(SaveErrorText)
    ensures HandleMessage(parsed, true, lib).Logged? || HandleMessage(parsed, true, lib).Crashed?
  {
  }

  /** Without a `clarification_question` the default question is asked. */
  lemma DefaultClarification(fields: map<string, Value>, saved: bool, lib: Library)
    requires NeedsClarification(fields) && "clarification_question" !in fields
    ensures HandleMessage(Obj(fields), saved, lib)
            == AskClarification(ThinkingFace + " " + DefaultQuestion)
  {
  }

  /** A decoded value that is not a dictionary makes the handler raise before
      saving or replying. */
  lemma NonDictCrashes(parsed: Value, saved: bool, lib: Library)
    requires !parsed.Obj?
    ensures SaveRequest(parsed).None?
    ensures HandleMessage(parsed, saved, lib) == Crashed
  {
  }

  /** A reply that could not be fetched or decoded never reaches the save: the
      user is asked to rephrase. */
  lemma ParseFailureAsksToRephrase(reply: Parse.Reply, saved: bool, lib: Library)
    requires reply.RequestFailed?
             || (reply.Reply? && lib.loads(Parse.StripFences(reply.text)).DecodeError?)
    ensures SaveRequest(Parse.ParseWithModel(reply, lib)).None?
    ensures HandleMessage(Parse.ParseWithModel(reply, lib), saved, lib)
            == AskClarification(ThinkingFace + " " + Parse.RephraseQuestion)
  {
    var message := if reply.RequestFailed? then reply.message
                   else lib.loads(Parse.StripFences(reply.text)).message;
    assert Parse.ParseWithModel(reply, lib) == Parse.Fallback(message);
  }

  /** As the template is written, every message, whatever the model would
      have answered and whatever the save would have reported, is answered
      with the request to rephrase, and nothing is saved. */
  lemma EveryMessageAsksToRephrase(date: string, message: string, post: string -> Parse.Reply,
                                   formatError: string, saved: bool, lib: Library)
    ensures SaveRequest(Parse.ParseMessage(Prompt.Template, date, message, post, formatError, lib)).None?
    ensures HandleMessage(Parse.ParseMessage(Prompt.Template, date, message, post, formatError, lib), saved, lib)
            == AskClarification(ThinkingFace + " " + Parse.RephraseQuestion)
  {
    Parse.ParseMessageAsWritten(date, message, post, formatError, lib);
    ParseFailureAsksToRephrase(Parse.RequestFailed(formatError), saved, lib);
  }

  /** Every confirmation starts with the category's emoji (the note emoji
      for a category outside the map) and " Logged to {category}:\n". */
  lemma LoggedHeader(parsed: Value, lib: Library)
    requires HandleMessage(parsed, true, lib).Logged?
    ensures parsed.Obj?
    ensures var category := Get(parsed.fields, "category", Null);
            && Emoji(category).Some?
            && (Emoji(category).value == DefaultEmoji <==> !KnownCategory(category))
            && Header(Emoji(category).value, category, lib) <= HandleMessage(parsed, true, lib).text
  {
    assert parsed.Obj?;
    var category := Get(parsed.fields, "category", Null);
    EmojiDefault(category);
  }

  /** A missing `data` key is handled as an empty dictionary. */
  lemma MissingDataIsEmpty(fields: map<string, Value>, saved: bool, lib: Library)
    requires "data" !in fields
    ensures var filled := Obj(fields["data" := Obj(map[])]);
            && SaveRequest(Obj(fields)) == SaveRequest(filled)
            && HandleMessage(Obj(fields), saved, lib) == HandleMessage(filled, saved, lib)
  {
  }

  /** A finance entry without `amount` reads as one whose amount is the
      empty string. */
  lemma FinanceDefaultAmount(fields: map<string, Value>, lib: Library)
    requires "amount" !in fields
    ensures Body(Str("finance"), Obj(fields), lib)
            == Body(Str("finance"), Obj(fields["amount" := Str("")]), lib)
  {
    assert Get(fields["amount" := Str("")], "description", Str(""))
           == Get(fields, "description", Str(""));
  }

  /** A finance entry without `description` reads as one whose description
      is the empty string. */
  lemma FinanceDefaultDescription(fields: map<string, Value>, lib: Library)
    requires "description" !in fields
    ensures Body(Str("finance"), Obj(fields), lib)
            == Body(Str("finance"), Obj(fields["description" := Str("")]), lib)
  {
    assert Get(fields["description" := Str("")], "amount", Str(""))
           == Get(fields, "amount", Str(""));
  }

  /** Hence a finance entry with neither field reads "$ - ". */
  lemma FinanceMissingFields(fields: map<string, Value>, lib: Library)
    requires "amount" !in fields && "description" !in fields
    ensures Body(Str("finance"), Obj(fields), lib) == Some("$ - ")
  {
    assert "$" + "" + " - " + "" == "$ - ";
  }

  /** A `weight` key adds " - {weight}lbs" to the fitness line, and nothing
      else changes. */
  lemma FitnessWeightSuffix(fields: map<string, Value>, w: Value, lib: Library)
    requires "weight" !in fields
    ensures var without := Body(Str("fitness"), Obj(fields), lib);
            var with := Body(Str("fitness"), Obj(fields["weight" := w]), lib);
            && (without.Some? <==> with.Some?)
            && (without.Some? ==> with.value == without.value + " - " + Show(w, lib) + "lbs")
  {
    var filled := fields["weight" := w];
    assert Get(filled, "exercise", Str("workout")) == Get(fields, "exercise", Str("workout"));
    assert "weight" in filled && filled["weight"] == w;
  }

  /** A fitness entry without `exercise` reads as the exercise "workout". */
  lemma FitnessDefaultExercise(fields: map<string, Value>, lib: Library)
    requires "exercise" !in fields
    ensures Body(Str("fitness"), Obj(fields), lib)
            == Body(Str("fitness"), Obj(fields["exercise" := Str("workout")]), lib)
  {
  }

  /** A dating entry without `activity` reads as the activity "date",
      whatever its other fields. */
  lemma DatingDefaultActivity(fields: map<string, Value>, lib: Library)
    requires "activity" !in fields
    ensures Body(Str("dating"), Obj(fields), lib)
            == Body(Str("dating"), Obj(fields["activity" := Str("date")]), lib)
  {
    assert Get(fields["activity" := Str("date")], "person", Str(""))
           == Get(fields, "person", Str(""));
  }

  /** A dating entry without `person` reads as one with the empty name,
      whatever its other fields. */
  lemma DatingDefaultPerson(fields: map<string, Value>, lib: Library)
    requires "person" !in fields
    ensures Body(Str("dating"), Obj(fields), lib)
            == Body(Str("dating"), Obj(fields["person" := Str("")]), lib)
  {
    assert Get(fields["person" := Str("")], "activity", Str("date"))
           == Get(fields, "activity", Str("date"));
  }

  /** Hence a dating entry with neither field reads "{title('date')} with ". */
  lemma DatingDefaults(fields: map<string, Value>, lib: Library)
    requires "activity" !in fields && "person" !in fields
    ensures Body(Str("dating"), Obj(fields), lib) == Some(lib.title("date") + " with ")
  {
    assert lib.title("date") + " with " + "" == lib.title("date") + " with ";
  }

  /** `.title()` raises exactly when the exercise or activity is present and
      not a string. */
  lemma TitleNeedsString(fields: map<string, Value>, lib: Library)
    ensures Body(Str("fitness"), Obj(fields), lib).None?
            <==> "exercise" in fields && !fields["exercise"].Str?
    ensures Body(Str("dating"), Obj(fields), lib).None?
            <==> "activity" in fields && !fields["activity"].Str?
  {
  }

  /** A `data` that is not a dictionary raises for the four categories that
      read fields from it; every other category dumps it as JSON, which
      raises only if `json.dumps` does. */
  lemma BodyOfNonDict(category: Value, data: Value, lib: Library)
    requires !data.Obj?
    ensures category in {Str("finance"), Str("fitness"), Str("dating"), Str("trips")}
            ==> Body(category, data, lib).None?
    ensures category !in {Str("finance"), Str("fitness"), Str("dating"), Str("trips")}
            ==> Body(category, data, lib) == lib.dumps(data)
  {
  }

  /** A trips entry without `destination` has an empty body. */
  lemma TripsDefaultDestination(fields: map<string, Value>, lib: Library)
    requires "destination" !in fields
    ensures Body(Str("trips"), Obj(fields), lib) == Some("")
  {
  }

  /** Every category other than finance, fitness, dating and trips —
      relationships, todos, "unknown", a missing one — shows `data` as JSON;
      the body raises exactly when `json.dumps` does. */
  lemma OtherCategoriesDump(category: Value, data: Value, lib: Library)
    requires category !in {Str("finance"), Str("fitness"), Str("dating"), Str("trips")}
    ensures Body(category, data, lib) == lib.dumps(data)
  {
  }

  /** When `json.dumps` raises on `data` of a category shown as JSON, the
      handler raises after the save has been called: the entry is stored,
      yet no reply is sent. */
  lemma DumpsFailureCrashesAfterSave(fields: map<string, Value>, lib: Library)
    requires !NeedsClarification(fields)
    requires var category := Get(fields, "category", Null);
             && !category.Arr? && !category.Obj?
             && category !in {Str("finance"), Str("fitness"), Str("dating"), Str("trips")}
    requires lib.dumps(Get(fields, "data", Obj(map[]))).None?
    ensures SaveRequest(Obj(fields)).Some?
    ensures HandleMessage(Obj(fields), true, lib) == Crashed
    ensures HandleMessage(Obj(fields), false, lib) == SaveFailed
  {
  }
}
