/**
 * Reading and validating the fields of an incoming request: each field is
 * taken from the query string when it is truthy there, otherwise from the
 * form; bot id, chat id and title are required.
 */
module Intake {
  import opened Wrappers
  import opened Strings

  /** `d.get(key)` on a dictionary of strings; an empty form behaves as `None`, whose lookups give `None`. */
  function Get(d: map<string, string>, key: string): Option<string>
  {
    if key in d then Some(d[key]) else None
  }

  /** Python's `a or b` on optional strings: `a` when it is truthy, otherwise `b`. */
  function Or(a: Option<string>, b: Option<string>): Option<string>
  {
    if Truthy(a) then a else b
  }

  /** `request.args.get(key) or (form.get(key) if form else None)`. */
  function Field(args: map<string, string>, form: map<string, string>, key: string): Option<string>
  {
    Or(Get(args, key), Get(form, key))
  }

  /**
   * A field is present exactly when the query string has it non-empty or the
   * form has it at all; the query string wins when its value is non-empty,
   * otherwise the form's value is taken; an empty value can only come from
   * the form.
   */
  lemma FieldSource(args: map<string, string>, form: map<string, string>, key: string)
    ensures Field(args, form, key).Some? <==> (key in args && args[key] != "") || key in form
    ensures key in args && args[key] != "" ==> Field(args, form, key) == Some(args[key])
    ensures !(key in args && args[key] != "") && key in form ==> Field(args, form, key) == Some(form[key])
    ensures Field(args, form, key) == Some("") ==> key in form && form[key] == ""
  {
  }

  /** The error reported for a missing required field. */
  function RequiredError(name: string): string
  {
    name + " is a required field."
  }

  /** The required fields, in the order they are checked. */
  const BotIdError: string := RequiredError("bot_id")
  const ChatIdError: string := RequiredError("chat_id")
  const TitleError: string := RequiredError("title")

  /** Position of an error message in the checking order. */
  function ErrorRank(error: string): int
  {
    if error == BotIdError then 0 else if error == ChatIdError then 1 else 2
  }

  /**
   * The error list of the handler: one message per required field that is
   * absent (an empty string counts as present), in the order bot id, chat
   * id, title, and nothing else.
   */
  method CollectErrors(botId: Option<string>, chatId: Option<string>, title: Option<string>)
    returns (errors: seq<string>)
    ensures errors == [] <==> botId.Some? && chatId.Some? && title.Some?
    ensures BotIdError in errors <==> botId.None?
    ensures ChatIdError in errors <==> chatId.None?
    ensures TitleError in errors <==> title.None?
    ensures forall e :: e in errors ==> e == BotIdError || e == ChatIdError || e == TitleError
    ensures forall a, b :: 0 <= a < b < |errors| ==> ErrorRank(errors[a]) < ErrorRank(errors[b])
  {
    errors := [];
    if botId.None? {
      errors := errors + [BotIdError];
    }
    if chatId.None? {
      errors := errors + [ChatIdError];
    }
    if title.None? {
      errors := errors + [TitleError];
    }
  }
}
