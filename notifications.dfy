/**
 * User notifications (`rendercue/notifications.py`): the webhook payload
 * for Discord or Slack, and the Blender log line and Windows toast of
 * `show_notification`.
 *
 * Nothing is sent here: `SendWebhook` yields the request it would start
 * in a subprocess, and `ShowNotification` yields the log line and the toast
 * it would start in PowerShell. The preference `use_online_access` (absent
 * on older Blender), the platform and the subprocess error are parameters.
 */
module Notifications {
  import opened Wrappers
  import opened Strings

  // ------------------------------------------------------------- JSON

  /** JSON values as `json.dumps` receives them; an object keeps key order. */
  datatype Json = JStr(s: string) | JInt(i: int) | JArray(items: seq<Json>) | JObject(fields: seq<(string, Json)>)

  /** The position of the first field named `key`, or `|fields|` when there is none. */
  function FieldIndex(fields: seq<(string, Json)>, key: string): (k: nat)
    ensures k <= |fields|
    ensures k < |fields| ==> fields[k].0 == key
    ensures forall i :: 0 <= i < k ==> fields[i].0 != key
    decreases |fields|
  {
    if fields == [] || fields[0].0 == key then 0 else 1 + FieldIndex(fields[1..], key)
  }

  /** `obj[key]`: the value of the first field named `key`, or `None`. */
  function Lookup(j: Json, key: string): (r: Option<Json>)
    ensures r.Some? ==> j.JObject? && exists k :: 0 <= k < |j.fields| && j.fields[k] == (key, r.value)
    ensures r.None? ==> !j.JObject? || forall k :: 0 <= k < |j.fields| ==> j.fields[k].0 != key
  {
    if !j.JObject? then None
    else
      var k := FieldIndex(j.fields, key);
      if k < |j.fields| then Some(j.fields[k].1) else None
  }

  // ---------------------------------------------------------- webhook

  const DEFAULT_TITLE: string := "RenderCue Notification"
  const DEFAULT_COLOR: int := 0x00ff00
  const BOT_NAME: string := "RenderCue Bot"
  const SLACK_HOST: string := "hooks.slack.com"

  /** The Slack message text: the title in bold, a newline, the message. */
  function SlackText(title: string, message: string): (t: string)
    ensures |t| == |title| + |message| + 3
    ensures t[1..|title| + 1] == title && t[|title| + 3..] == message
    ensures t[0] == '*' && t[|title| + 1] == '*' && t[|title| + 2] == '\n'
  {
    var t := "*" + title + "*\n" + message;
    assert t[1..|title| + 1] == title;
    assert t[|title| + 3..] == message;
    t
  }

  /** The payload: a Discord embed, replaced by a Slack text when the URL is a Slack hook. */
  function Payload(url: string, message: string, title: string, color: int): Json {
    if Contains(url, SLACK_HOST) then JObject([("text", JStr(SlackText(title, message)))])
    else JObject([
      ("username", JStr(BOT_NAME)),
      ("embeds", JArray([JObject([("title", JStr(title)), ("description", JStr(message)), ("color", JInt(color))])]))
    ])
  }

  /**
   * A Slack payload holds the text and nothing else, and the text gives
   * back the title and the message; any other URL gets an embed from
   * "RenderCue Bot" with the title, the message as description and the
   * colour.
   */
  lemma PayloadShape(url: string, message: string, title: string, color: int)
    ensures var p := Payload(url, message, title, color);
      && p.JObject?
      && (Contains(url, SLACK_HOST) ==>
            |p.fields| == 1 && Lookup(p, "text") == Some(JStr(SlackText(title, message)))
            && Lookup(p, "username").None? && Lookup(p, "embeds").None?)
      && (!Contains(url, SLACK_HOST) ==>
            Lookup(p, "username") == Some(JStr(BOT_NAME))
            && Lookup(p, "text").None?
            && Lookup(p, "embeds").Some? && Lookup(p, "embeds").value.JArray?
            && |Lookup(p, "embeds").value.items| == 1
            && var e := Lookup(p, "embeds").value.items[0];
               Lookup(e, "title") == Some(JStr(title))
               && Lookup(e, "description") == Some(JStr(message))
               && Lookup(e, "color") == Some(JInt(color)))
  {
    var p := Payload(url, message, title, color);
    if !Contains(url, SLACK_HOST) {
      var e := p.fields[1].1.items[0];
      assert FieldIndex(e.fields, "title") == 0;
      assert FieldIndex(e.fields, "description") == 1;
      assert FieldIndex(e.fields[2..], "color") == 0;
      assert FieldIndex(e.fields[1..], "color") == 1;
      assert FieldIndex(e.fields, "color") == 2;
    }
  }

  datatype LogLevel = Info | Warning | Error
  datatype LogLine = LogLine(level: LogLevel, text: string)

  /** What `send_webhook` does. */
  datatype WebhookOutcome =
    | NoUrl
    | Offline(log: LogLine)
    | Spawned(url: string, payload: Json)
    | SpawnFailed(url: string, payload: Json, log: LogLine)

  /**
   * `send_webhook`: nothing for an empty URL; a log line and nothing else
   * when online access is switched off (`None`: the preference does not
   * exist); otherwise the subprocess request, logged as an error when the
   * subprocess cannot start.
   */
  function SendWebhook(url: string, message: string, title: string, color: int,
                       onlineAccess: Option<bool>, spawnError: Option<string>): (r: WebhookOutcome)
    ensures r.NoUrl? <==> url == ""
    ensures r.Offline? <==> url != "" && onlineAccess == Some(false)
    ensures (r.Spawned? || r.SpawnFailed?) <==> url != "" && onlineAccess != Some(false)
    ensures (r.Spawned? || r.SpawnFailed?) ==> r.url == url && r.payload == Payload(url, message, title, color)
    ensures r.SpawnFailed? <==> (r.Spawned? || r.SpawnFailed?) && spawnError.Some?
  {
    if url == "" then NoUrl
    else if onlineAccess == Some(false) then
      Offline(LogLine(Info, "Online Access disabled in preferences. Skipping webhook."))
    else
      var p := Payload(url, message, title, color);
      match spawnError
      case None => Spawned(url, p)
      case Some(e) => SpawnFailed(url, p, LogLine(Error, "Failed to trigger webhook subprocess: " + e))
  }

  // ------------------------------------------------------------ toast

  /** The toast's escaping as written: `"` doubled, then `'` doubled. */
  function ToastEscape(s: string): (r: string) {
    Double(Double(s, '"'), '\'')
  }

  /** Every quote is doubled, and undoubling both kinds gives the text back. */
  lemma ToastEscapeDoubles(s: string)
    ensures |ToastEscape(s)| == |s| + CountChar(s, '"') + CountChar(s, '\'')
    ensures Undouble(Undouble(ToastEscape(s), '\''), '"') == s
  {
    DoubleLength(s, '"');
    DoubleLength(Double(s, '"'), '\'');
    CountKeptByDouble(s, '"', '\'');
    UndoubleDouble(Double(s, '"'), '\'');
    UndoubleDouble(s, '"');
  }

  /** Doubling one character leaves the count of another unchanged. */
  lemma {:induction false} CountKeptByDouble(s: string, q: char, c: char)
    requires q != c
    ensures CountChar(Double(s, q), c) == CountChar(s, c)
    decreases |s|
  {
    if s != [] {
      CountKeptByDouble(s[1..], q, c);
      var head := if s[0] == q then [q, q] else [s[0]];
      CountAppend(head, Double(s[1..], q), c);
    }
  }

  lemma {:induction false} CountAppend(a: string, b: string, c: char)
    ensures CountChar(a + b, c) == CountChar(a, c) + CountChar(b, c)
    decreases |a|
  {
    if a != [] {
      assert (a + b)[1..] == a[1..] + b;
      CountAppend(a[1..], b, c);
    } else {
      assert a + b == b;
    }
  }

  /**
   * How PowerShell reads the body of a double-quoted (expandable) string:
   * the literal text, or `Expands` when an unescaped `$` starts a variable
   * or subexpression, or `Breaks` when an unpaired `"` (or a final
   * backtick escaping the closing quote) ends the string elsewhere.
   */
  datatype Reading = Literal(text: string) | Expands | Breaks

  function Cons(c: char, r: Reading): Reading {
    if r.Literal? then Literal([c] + r.text) else r
  }

  /** A `$` followed by one of these starts an expansion. */
  predicate StartsExpansion(c: char) {
    IsLetter(c) || IsDigit(c) || c in "_({?^$:"
  }

  /** The character a backtick escape stands for. */
  function Escaped(c: char): char {
    if c == '0' then 0 as char
    else if c == 'a' then 7 as char
    else if c == 'b' then 8 as char
    else if c == 't' then '\t'
    else if c == 'n' then '\n'
    else if c == 'v' then 11 as char
    else if c == 'f' then 12 as char
    else if c == 'r' then '\r'
    else if c == 'e' then 27 as char
    else c
  }

  function ReadExpandable(s: string): Reading
    decreases |s|
  {
    if s == [] then Literal([])
    else if s[0] == '`' then
      if |s| >= 2 then Cons(Escaped(s[1]), ReadExpandable(s[2..])) else Breaks
    else if s[0] == '"' then
      if |s| >= 2 && s[1] == '"' then Cons('"', ReadExpandable(s[2..])) else Breaks
    else if s[0] == '$' && |s| >= 2 && StartsExpansion(s[1]) then Expands
    else Cons(s[0], ReadExpandable(s[1..]))
  }

  /** Doubling a character that does not occur changes nothing. */
  lemma {:induction false} DoubleAbsent(s: string, q: char)
    requires q !in s
    ensures Double(s, q) == s
    decreases |s|
  {
    if s != [] {
      assert s[1..] + [] == s[1..];
      DoubleAbsent(s[1..], q);
      assert [s[0]] + s[1..] == s;
    }
  }

  /** Text without a backtick, a `$` or a `"` is read literally. */
  lemma {:induction false} ReadPlain(s: string)
    requires forall i :: 0 <= i < |s| ==> !Special(s[i])
    ensures ReadExpandable(s) == Literal(s)
    decreases |s|
  {
    if s != [] {
      ReadPlain(s[1..]);
      assert [s[0]] + s[1..] == s;
    }
  }

  /** Doubling brings in no character the text did not have. */
  lemma {:induction false} DoubleChars(s: string, q: char, c: char)
    requires c in Double(s, q)
    ensures c in s
    decreases |s|
  {
    if s != [] {
      var head := if s[0] == q then [q, q] else [s[0]];
      if c !in head {
        DoubleChars(s[1..], q, c);
      }
    }
  }

  lemma {:induction false} CountPositive(s: string, c: char)
    requires c in s
    ensures CountChar(s, c) > 0
    decreases |s|
  {
    if s[0] != c { CountPositive(s[1..], c); }
  }

  /**
   * The as-written escaping lets a subexpression run inside the toast
   * script: a title such as `$(calc)` passes through unchanged and
   * PowerShell expands it.
   */
  lemma ToastEscapeLetsSubexpressionRun(s: string)
    requires |s| >= 2 && s[0] == '$' && s[1] == '(' && '"' !in s && '\'' !in s
    ensures ToastEscape(s) == s
    ensures ReadExpandable(ToastEscape(s)) == Expands
  {
    DoubleAbsent(s, '"');
    DoubleAbsent(s, '\'');
  }

  /**
   * The as-written escaping shows each apostrophe twice, since `''` is not
   * an escape inside double quotes: a title such as `it's` reads as
   * `it''s`.
   */
  lemma ToastEscapeDoublesApostrophe(s: string)
    requires '\'' in s && forall i :: 0 <= i < |s| ==> !Special(s[i])
    ensures ReadExpandable(ToastEscape(s)) == Literal(Double(s, '\''))
    ensures ReadExpandable(ToastEscape(s)) != Literal(s)
  {
    DoubleAbsent(s, '"');
    var d := Double(s, '\'');
    forall i | 0 <= i < |d|
      ensures !Special(d[i])
    {
      DoubleChars(s, '\'', d[i]);
    }
    ReadPlain(d);
    DoubleLength(s, '\'');
    CountPositive(s, '\'');
  }

  /** Characters PowerShell treats specially inside double quotes. */
  predicate Special(c: char) {
    c == '`' || c == '$' || c == '"'
  }

  /** The corrected escaping: a backtick before each backtick, `$` and `"`. */
  function EscapeExpandable(s: string): string
    decreases |s|
  {
    if s == [] then []
    else (if Special(s[0]) then ['`', s[0]] else [s[0]]) + EscapeExpandable(s[1..])
  }

  /** PowerShell reads the corrected escaping back as exactly the original text. */
  lemma {:induction false} EscapeExpandableReadsBack(s: string)
    ensures ReadExpandable(EscapeExpandable(s)) == Literal(s)
    decreases |s|
  {
    if s != [] {
      var rest := EscapeExpandable(s[1..]);
      EscapeExpandableReadsBack(s[1..]);
      if Special(s[0]) {
        var e := ['`', s[0]] + rest;
        assert e[2..] == rest;
        assert ReadExpandable(e) == Cons(s[0], ReadExpandable(rest));
      } else {
        var e := [s[0]] + rest;
        assert e[1..] == rest;
        assert ReadExpandable(e) == Cons(s[0], ReadExpandable(rest));
      }
      assert [s[0]] + s[1..] == s;
    }
  }

  // --------------------------------------------------------- dispatch

  /** The toast's two text nodes, escaped for the PowerShell script. */
  datatype Toast = Toast(title: string, message: string)

  datatype Shown = Shown(log: LogLine, toast: Option<Toast>)

  /**
   * `show_notification`: always an info line "title: message"; on win32
   * also a toast whose texts are the title and the message with every
   * quote doubled, which undoubling gives back. How PowerShell then reads
   * those texts is what `ToastEscapeLetsSubexpressionRun` and
   * `ToastEscapeDoublesApostrophe` show.
   */
  function ShowNotification(title: string, message: string, platform: string): (r: Shown)
    ensures r.log == LogLine(Info, title + ": " + message)
    ensures r.toast.Some? <==> platform == "win32"
    ensures r.toast.Some? ==>
      && |r.toast.value.title| == |title| + CountChar(title, '"') + CountChar(title, '\'')
      && Undouble(Undouble(r.toast.value.title, '\''), '"') == title
      && |r.toast.value.message| == |message| + CountChar(message, '"') + CountChar(message, '\'')
      && Undouble(Undouble(r.toast.value.message, '\''), '"') == message
  {
    ToastEscapeDoubles(title);
    ToastEscapeDoubles(message);
    Shown(LogLine(Info, title + ": " + message),
          if platform == "win32" then Some(Toast(ToastEscape(title), ToastEscape(message))) else None)
  }

  /**
   * The corrected `show_notification`: the toast's texts escaped with
   * `EscapeExpandable`, which PowerShell reads back as exactly the title
   * and the message.
   */
  function ShowNotificationEscaped(title: string, message: string, platform: string): (r: Shown)
    ensures r.log == LogLine(Info, title + ": " + message)
    ensures r.toast.Some? <==> platform == "win32"
    ensures r.toast.Some? ==>
      ReadExpandable(r.toast.value.title) == Literal(title) && ReadExpandable(r.toast.value.message) == Literal(message)
  {
    EscapeExpandableReadsBack(title);
    EscapeExpandableReadsBack(message);
    Shown(LogLine(Info, title + ": " + message),
          if platform == "win32" then Some(Toast(EscapeExpandable(title), EscapeExpandable(message))) else None)
  }
}
