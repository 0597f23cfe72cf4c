/**
 * The Telegram inline keyboard that carries a one-tap "copy" button for an
 * extracted verification code.
 */
module Markup {
  import opened Wrappers
  import opened PyValues

  /**
   * `build_copy_code_markup(code)`: a keyboard of one row holding one button
   * whose label is the code and whose `copy_text` copies the code.
   */
  function BuildCopyCodeMarkup(code: string): (v: Value)
    ensures v.Dict? && v.entries.Keys == {"inline_keyboard"}
    ensures var rows := v.entries["inline_keyboard"];
      rows.List? && |rows.items| == 1 &&
      rows.items[0].List? && |rows.items[0].items| == 1
    ensures var button := v.entries["inline_keyboard"].items[0].items[0];
      button.Dict? && button.entries.Keys == {"text", "copy_text"} &&
      button.entries["text"] == Str(code) &&
      button.entries["copy_text"].Dict? &&
      button.entries["copy_text"].entries == map["text" := Str(code)]
  {
    var button := map["text" := Str(code), "copy_text" := Dict(map["text" := Str(code)])];
    Dict(map["inline_keyboard" := List([List([Dict(button)])])])
  }

  /**
   * The code a copy-code keyboard copies: the `copy_text.text` of its only
   * button, when `v` has the shape of such a keyboard and the label agrees.
   */
  function CopiedCode(v: Value): Option<string> {
    if v.Dict? && v.entries.Keys == {"inline_keyboard"} then
      var rows := v.entries["inline_keyboard"];
      if rows.List? && |rows.items| == 1 && rows.items[0].List? && |rows.items[0].items| == 1 then
        var button := rows.items[0].items[0];
        if button.Dict? && button.entries.Keys == {"text", "copy_text"} then
          var copy := button.entries["copy_text"];
          if copy.Dict? && copy.entries.Keys == {"text"} && copy.entries["text"].Str? &&
             button.entries["text"] == copy.entries["text"]
          then Some(copy.entries["text"].s)
          else None
        else None
      else None
    else None
  }

  /** The keyboard built for a code copies exactly that code. */
  lemma CopiedCodeOfMarkup(code: string)
    ensures CopiedCode(BuildCopyCodeMarkup(code)) == Some(code)
  {
    var v := BuildCopyCodeMarkup(code);
    var copy := v.entries["inline_keyboard"].items[0].items[0].entries["copy_text"];
    assert copy.entries.Keys == {"text"};
  }

  /** A value that reads as a copy-code keyboard is the one built for its code. */
  lemma MarkupOfCopiedCode(v: Value)
    requires CopiedCode(v).Some?
    ensures BuildCopyCodeMarkup(CopiedCode(v).value) == v
  {
    var code := CopiedCode(v).value;
    var rows := v.entries["inline_keyboard"];
    var button := rows.items[0].items[0];
    var copy := button.entries["copy_text"];
    assert copy.entries == map["text" := Str(code)];
    assert button.entries == map["text" := Str(code), "copy_text" := copy];
    assert rows.items[0].items == [button];
    assert rows.items == [rows.items[0]];
    assert v.entries == map["inline_keyboard" := rows];
  }

  /** Different codes give different keyboards. */
  lemma MarkupInjective(a: string, b: string)
    requires BuildCopyCodeMarkup(a) == BuildCopyCodeMarkup(b)
    ensures a == b
  {
    CopiedCodeOfMarkup(a);
    CopiedCodeOfMarkup(b);
  }
}
