/**
 * The gates of the XP handler that decide whether a Telegram update is looked at
 * (a message, from a human, with text or a caption, in a group) and whether its
 * trimmed text is substantial enough to earn XP.
 */
module Eligibility {
  import opened Common
  import opened JsString

  datatype Sender = Sender(id: int, isBot: bool)
  datatype Chat = Chat(kind: string)

  /** The fields of `ctx.message` the handler reads; absent fields are `None`. */
  datatype Message = Message(
    from: Option<Sender>,
    text: Option<string>,
    caption: Option<string>,
    chat: Option<Chat>)

  /** Why an update was passed on without touching the user. */
  datatype Skip = NoMessage | NoHumanSender | NoText | NotGroupChat

  datatype Admission = Admitted(text: string) | Skipped(why: Skip)

  /** `msg.text || msg.caption || ''`: an empty string counts as absent. */
  function Payload(m: Message): (t: string)
    ensures m.text.Some? && m.text.value != "" ==> t == m.text.value
    ensures (m.text.None? || m.text.value == "") ==> t == m.caption.GetOr("")
    ensures t == "" <==> m.text.GetOr("") == "" && m.caption.GetOr("") == ""
  {
    if m.text.GetOr("") != "" then m.text.value else m.caption.GetOr("")
  }

  predicate IsGroupChat(chat: Option<Chat>) {
    chat.Some? && (chat.value.kind == "group" || chat.value.kind == "supergroup")
  }

  /**
   * The four early exits of the handler, in the order the source tests them.
   * An update is admitted exactly when it passes all four, and then carries its payload.
   */
  function Admit(message: Option<Message>): (a: Admission)
    ensures a.Admitted? <==>
      message.Some? && message.value.from.Some? && !message.value.from.value.isBot
      && Payload(message.value) != "" && IsGroupChat(message.value.chat)
    ensures a.Admitted? ==> a.text == Payload(message.value) && a.text != ""
    ensures a == Skipped(NoMessage) <==> message.None?
    ensures a == Skipped(NoHumanSender) <==>
      message.Some? && (message.value.from.None? || message.value.from.value.isBot)
    ensures a == Skipped(NoText) <==>
      message.Some? && message.value.from.Some? && !message.value.from.value.isBot
      && Payload(message.value) == ""
    ensures a == Skipped(NotGroupChat) <==>
      message.Some? && message.value.from.Some? && !message.value.from.value.isBot
      && Payload(message.value) != "" && !IsGroupChat(message.value.chat)
  {
    if message.None? then Skipped(NoMessage)
    else
      var msg := message.value;
      if msg.from.None? || msg.from.value.isBot then Skipped(NoHumanSender)
      else
        var text := Payload(msg);
        if text == "" then Skipped(NoText)
        else if !IsGroupChat(msg.chat) then Skipped(NotGroupChat)
        else Admitted(text)
  }

  /** The character class `[a-zA-Z0-9À-ỹ]`, where `À-ỹ` is U+00C0 through U+1EF9. */
  predicate IsWordChar(c: char) {
    ('a' <= c <= 'z') || ('A' <= c <= 'Z') || ('0' <= c <= '9') || ('\U{C0}' <= c <= '\U{1EF9}')
  }

  predicate HasWordChar(s: string) {
    exists i :: 0 <= i < |s| && IsWordChar(s[i])
  }

  /**
   * The same class applied to one UTF-16 code unit, as a regular expression without the
   * `u` flag applies it.
   */
  predicate IsWordUnit(u: int) {
    (0x61 <= u <= 0x7A) || (0x41 <= u <= 0x5A) || (0x30 <= u <= 0x39) || (0xC0 <= u <= 0x1EF9)
  }

  /**
   * A word character is a single code unit outside the surrogate range. It is white
   * space only when it is U+1680 OGHAM SPACE MARK, which lies inside `À-ỹ`.
   */
  lemma WordCharFacts(c: char)
    requires IsWordChar(c)
    ensures CodeUnitsOf(c) == [c as int] && IsWordUnit(c as int)
    ensures !(0xD800 <= c as int <= 0xDFFF)
    ensures IsWhiteSpace(c) <==> c == '\U{1680}'
  {
  }

  /**
   * Testing the class on the code units of `s` finds a match exactly when testing it on
   * the characters of `s` does: surrogates never fall in U+00C0..U+1EF9.
   */
  lemma {:induction false} WordTestOnCodeUnits(s: string)
    ensures HasWordChar(s) <==> exists k :: 0 <= k < |Utf16(s)| && IsWordUnit(Utf16(s)[k])
  {
    if s != [] {
      var head, tail := CodeUnitsOf(s[0]), Utf16(s[1..]);
      WordTestOnCodeUnits(s[1..]);
      assert Utf16(s) == head + tail;
      if HasWordChar(s) {
        var i :| 0 <= i < |s| && IsWordChar(s[i]);
        if i == 0 {
          WordCharFacts(s[0]);
          assert IsWordUnit(Utf16(s)[0]);
        } else {
          assert IsWordChar(s[1..][i - 1]);
          var k :| 0 <= k < |tail| && IsWordUnit(tail[k]);
          assert Utf16(s)[|head| + k] == tail[k];
        }
      }
      if exists k :: 0 <= k < |Utf16(s)| && IsWordUnit(Utf16(s)[k]) {
        var k :| 0 <= k < |Utf16(s)| && IsWordUnit(Utf16(s)[k]);
        if k < |head| {
          assert s[0] as int <= 0xFFFF && IsWordChar(s[0]);
        } else {
          assert IsWordUnit(tail[k - |head|]);
          var i :| 0 <= i < |s[1..]| && IsWordChar(s[1..][i]);
          assert IsWordChar(s[i + 1]);
        }
      }
    }
  }

  /**
   * Trimming removes only white space, so a word character of the trimmed text is one
   * of the text, and every word character of the text other than U+1680 survives it.
   */
  lemma TrimKeepsWordTest(s: string)
    ensures HasWordChar(Trim(s)) ==> HasWordChar(s)
    ensures (exists j :: 0 <= j < |s| && IsWordChar(s[j]) && s[j] != '\U{1680}') ==> HasWordChar(Trim(s))
  {
    if HasWordChar(Trim(s)) {
      var i :| 0 <= i < |Trim(s)| && IsWordChar(Trim(s)[i]);
      TrimmedCharOfText(s, i);
    }
    if exists j :: 0 <= j < |s| && IsWordChar(s[j]) && s[j] != '\U{1680}' {
      var j :| 0 <= j < |s| && IsWordChar(s[j]) && s[j] != '\U{1680}';
      WordCharFacts(s[j]);
      SolidCharSurvivesTrim(s, j);
    }
  }

  /** U+1680 matches `[À-ỹ]` but is trimmed away: on its own it earns nothing. */
  lemma OghamSpaceTrimmedAway()
    ensures HasWordChar("\U{1680}") && Trim("\U{1680}") == "" && !EarnsXp(Trim("\U{1680}"))
  {
    assert IsWordChar("\U{1680}"[0]);
    assert LeadingSpace("\U{1680}") == 1;
  }

  /**
   * A trimmed text earns XP when it is at least 5 UTF-16 code units long and
   * contains a character of the word class.
   */
  predicate EarnsXp(trimmed: string) {
    JsLength(trimmed) >= 5 && HasWordChar(trimmed)
  }

  /** "hi!!" is too short to earn XP whatever the quota; "hello" earns it. */
  lemma EarnsXpBoundary()
    ensures !EarnsXp(Trim("hi!!"))
    ensures EarnsXp(Trim("hello"))
  {
    ShortTextEarnsNothing();
    FiveLettersEarn();
  }

  /** Four code units are one too few. */
  lemma ShortTextEarnsNothing()
    ensures !EarnsXp(Trim("hi!!"))
  {
    var s := "hi!!";
    TrimOfTrimmed(s);
    assert JsLength(s[3..]) == 1;
    assert JsLength(s[2..]) == 2;
    assert JsLength(s[1..]) == 3;
  }

  /** Five code units with a letter are enough. */
  lemma FiveLettersEarn()
    ensures EarnsXp(Trim("hello"))
  {
    var s := "hello";
    TrimOfTrimmed(s);
    assert JsLength(s[4..]) == 1;
    assert JsLength(s[3..]) == 2;
    assert JsLength(s[2..]) == 3;
    assert JsLength(s[1..]) == 4;
    assert IsWordChar(s[0]);
  }
}
