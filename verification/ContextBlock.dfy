/** The conversation-settings block put before a message, and its removal from what users see. */
module ContextBlock {
  import opened Wallet
  import opened Strings

  /** A value of the request's `context` object. */
  datatype Raw = Text(text: string) | NotText

  const ANCHOR := "[Conversation settings for this message: "
  const KEY_ORDER: seq<string> := ["codeLanguage", "responseStyle", "verbosity", "tone", "locale"]

  /** Letters and digits of ASCII, underscore, hyphen. */
  predicate IsLocaleChar(c: char) {
    'a' <= c <= 'z' || 'A' <= c <= 'Z' || '0' <= c <= '9' || c == '_' || c == '-'
  }

  function Word(s: string): (w: string)
    ensures w <= s && forall i :: 0 <= i < |w| ==> !IsSpace(w[i])
    ensures s != "" && !IsSpace(s[0]) ==> w != ""
  {
    if s == "" || IsSpace(s[0]) then "" else [s[0]] + Word(s[1..])
  }

  /** `s.split()`. */
  function Words(s: string): seq<string>
    decreases |s|
  {
    if s == "" then []
    else if IsSpace(s[0]) then Words(s[1..])
    else [Word(s)] + Words(s[|Word(s)|..])
  }

  function Join(separator: string, parts: seq<string>): string {
    if parts == [] then ""
    else if |parts| == 1 then parts[0]
    else parts[0] + separator + Join(separator, parts[1..])
  }

  function Plain(c: char): char { if c == '\n' || c == '\r' || c == ';' || c == '=' then ' ' else c }

  /** Delimiters become spaces, runs of whitespace one space. */
  function Sanitize(s: string): string {
    Join(" ", Words(seq(|s|, i requires 0 <= i < |s| => Plain(s[i]))))
  }

  function MaxLength(key: string): nat { if key == "locale" then 35 else 40 }

  predicate InEnum(key: string, value: string) {
    if key == "responseStyle" then value == "concise" || value == "balanced" || value == "detailed"
    else value == "low" || value == "medium" || value == "high"
  }

  predicate IsEnum(key: string) { key == "responseStyle" || key == "verbosity" }

  /** `lower` is the case mapping of `str.lower`. */
  function Validated(lower: string -> string, key: string, raw: Raw): Option<string> {
    if raw.NotText? then None
    else
      var value := Trim(raw.text);
      if value == "" then None
      else if IsEnum(key) then
        if InEnum(key, lower(value)) then Some(lower(value)) else None
      else if |value| > MaxLength(key) then None
      else if key == "locale" then
        if forall i :: 0 <= i < |value| ==> IsLocaleChar(value[i]) then Some(value) else None
      else if Sanitize(value) == "" then None
      else Some(Sanitize(value))
  }

  datatype Setting = Setting(key: string, value: string)

  /** The settings that survive, for the first `n` keys in the fixed order. */
  function Surviving(lower: string -> string, context: map<string, Raw>, n: nat): seq<Setting>
    requires n <= |KEY_ORDER|
  {
    if n == 0 then []
    else
      var key := KEY_ORDER[n - 1];
      Surviving(lower, context, n - 1) +
      (if key !in context then []
       else
         match Validated(lower, key, context[key])
         case None => []
         case Some(value) => [Setting(key, value)])
  }

  function Settings(lower: string -> string, context: map<string, Raw>): seq<Setting> {
    Surviving(lower, context, |KEY_ORDER|)
  }

  function Shown(settings: seq<Setting>): seq<string> {
    seq(|settings|, i requires 0 <= i < |settings| => settings[i].key + "=" + settings[i].value)
  }

  function Body(settings: seq<Setting>): string { Join("; ", Shown(settings)) }

  function Render(lower: string -> string, context: map<string, Raw>): Option<string> {
    var settings := Settings(lower, context);
    if settings == [] then None else Some(ANCHOR + Body(settings) + "]")
  }

  function Compose(block: Option<string>, message: string): string {
    if Blank(message) then (if block.Some? then block.value else "")
    else if block.Some? then block.value + "\n\n" + message
    else message
  }

  function IndexOf(s: string, c: char): (i: nat)
    ensures i <= |s| && (i < |s| ==> s[i] == c)
    ensures forall j :: 0 <= j < i ==> s[j] != c
  {
    if s == "" || s[0] == c then 0 else 1 + IndexOf(s[1..], c)
  }

  /** What the pattern leaves: the anchor, no `]` up to the first one, then a blank line or the end. */
  function Remainder(text: string): Option<string> {
    if !(ANCHOR <= text) then None
    else
      var rest := text[|ANCHOR|..];
      var i := IndexOf(rest, ']');
      if i == |rest| then None
      else
        var tail := rest[i + 1..];
        if tail == "" then Some("")
        else if "\n\n" <= tail then Some(tail[2..])
        else None
  }

  function Strip(text: string): string {
    match Remainder(text)
    case Some(rest) => rest
    case None => text
  }

  // ---- what sanitized values contain ----

  /** No line break, no delimiter of the block. */
  predicate Clean(s: string) { '\n' !in s && '\r' !in s && ';' !in s && '=' !in s }

  lemma {:induction false} WordsFrom(s: string, c: char, i: nat)
    requires i < |Words(s)| && c in Words(s)[i]
    ensures c in s && !IsSpace(c)
    decreases |s|
  {
    if IsSpace(s[0]) {
      WordsFrom(s[1..], c, i);
    } else if i > 0 {
      WordsFrom(s[|Word(s)|..], c, i - 1);
    }
  }

  lemma {:induction false} JoinFrom(separator: string, parts: seq<string>, c: char)
    requires c in Join(separator, parts)
    ensures c in separator || exists i :: 0 <= i < |parts| && c in parts[i]
  {
    if |parts| > 1 && c !in parts[0] && c !in separator {
      JoinFrom(separator, parts[1..], c);
      var i :| 0 <= i < |parts[1..]| && c in parts[1..][i];
      assert parts[i + 1] == parts[1..][i];
    }
  }

  lemma {:induction false} SanitizeClean(s: string)
    ensures Clean(Sanitize(s))
  {
    var t := seq(|s|, i requires 0 <= i < |s| => Plain(s[i]));
    forall c | c in Sanitize(s) ensures c != '\n' && c != '\r' && c != ';' && c != '=' {
      JoinFrom(" ", Words(t), c);
      if c != ' ' {
        var i :| 0 <= i < |Words(t)| && c in Words(t)[i];
        WordsFrom(t, c, i);
      }
    }
  }

  lemma {:induction false} ValidatedClean(lower: string -> string, key: string, raw: Raw)
    requires Validated(lower, key, raw).Some?
    ensures Clean(Validated(lower, key, raw).value) && Validated(lower, key, raw).value != ""
  {
    hide Sanitize, Trim;
    var value := Trim(raw.text);
    var shown := Validated(lower, key, raw).value;
    if IsEnum(key) {
    } else if key == "locale" {
      forall c | c in value ensures IsLocaleChar(c) { }
    } else {
      SanitizeClean(value);
    }
  }

  predicate SettingOk(s: Setting) { s.key in KEY_ORDER && Clean(s.value) }

  lemma {:induction false} SurvivingClean(lower: string -> string, context: map<string, Raw>, n: nat)
    requires n <= |KEY_ORDER|
    ensures forall i :: 0 <= i < |Surviving(lower, context, n)| ==> SettingOk(Surviving(lower, context, n)[i])
  {
    hide Validated, Clean;
    if n > 0 {
      var key := KEY_ORDER[n - 1];
      SurvivingClean(lower, context, n - 1);
      if key in context && Validated(lower, key, context[key]).Some? { ValidatedClean(lower, key, context[key]); }
    }
  }

  lemma {:induction false} KeysClean()
    ensures forall i :: 0 <= i < |KEY_ORDER| ==> Clean(KEY_ORDER[i]) && ']' !in KEY_ORDER[i]
  {
  }

  /** The block is one line. */
  lemma {:induction false} BodyOneLine(settings: seq<Setting>)
    requires forall i :: 0 <= i < |settings| ==> SettingOk(settings[i])
    ensures '\n' !in Body(settings)
  {
    if '\n' in Body(settings) {
      JoinFrom("; ", Shown(settings), '\n');
      var i :| 0 <= i < |settings| && '\n' in Shown(settings)[i];
      assert SettingOk(settings[i]);
      KeysClean();
    }
  }

  // ---- the round trip ----

  lemma {:induction false} IndexOfConcat(a: string, b: string, c: char)
    ensures IndexOf(a + b, c) == if c in a then IndexOf(a, c) else |a| + IndexOf(b, c)
  {
    if a == "" {
      assert a + b == b;
    } else if a[0] != c {
      assert (a + b)[1..] == a[1..] + b;
      IndexOfConcat(a[1..], b, c);
      assert c in a <==> c in a[1..];
    }
  }

  /** A one-line body is removed exactly when it holds no `]`; otherwise the text stays whole. */
  lemma {:induction false} StripBlock(body: string, tail: string)
    requires '\n' !in body
    requires tail == "" || "\n\n" <= tail
    ensures var text := ANCHOR + body + "]" + tail;
            Remainder(text) == if ']' in body then None else Some(if tail == "" then "" else tail[2..])
  {
    var text := ANCHOR + body + "]" + tail;
    var rest := body + ("]" + tail);
    assert text == ANCHOR + rest;
    assert text[|ANCHOR|..] == rest && ANCHOR <= text;
    IndexOfConcat(body, "]" + tail, ']');
    var i := IndexOf(rest, ']');
    if ']' in body {
      assert i < |body|;
      var after := rest[i + 1..];
      assert after[0] == if i + 1 < |body| then body[i + 1] else ']';
      assert after[0] != '\n';
    } else {
      assert ("]" + tail)[0] == ']';
      assert rest[i + 1..] == tail;
    }
  }

  function Tail(message: string): string { if Blank(message) then "" else "\n\n" + message }

  lemma {:induction false} ComposeShape(body: string, message: string)
    ensures Compose(Some(ANCHOR + body + "]"), message) == ANCHOR + body + "]" + Tail(message)
    ensures Tail(message) == "" || "\n\n" <= Tail(message)
    ensures (if Tail(message) == "" then "" else Tail(message)[2..]) == if Blank(message) then "" else message
  {
    hide Blank;
    assert ANCHOR + body + "]" + "\n\n" + message == ANCHOR + body + "]" + ("\n\n" + message);
    assert ANCHOR + body + "]" + "" == ANCHOR + body + "]";
    assert ("\n\n" + message)[2..] == message;
  }

  /** The text a run stores for its message, stripped for display: the message comes back (the empty
      text, if it was blank) exactly when no rendered value holds a `]`; otherwise nothing is removed.
      A message that itself starts with the anchor comes back too. */
  lemma {:induction false} StripRoundTrip(lower: string -> string, context: map<string, Raw>, message: string)
    requires Render(lower, context).Some?
    ensures var text := Compose(Render(lower, context), message);
            var settings := Settings(lower, context);
            && (Strip(text) == (if Blank(message) then "" else message) <==>
                  forall i :: 0 <= i < |settings| ==> ']' !in settings[i].value)
            && (Strip(text) != (if Blank(message) then "" else message) ==> Strip(text) == text)
  {
    hide Blank, Remainder, Compose, Tail, SettingOk;
    var settings := Settings(lower, context);
    var body := Body(settings);
    SurvivingClean(lower, context, |KEY_ORDER|);
    hide Settings, Surviving;
    BodyOneLine(settings);
    BracketsInBody(settings);
    hide Body;
    ComposeShape(body, message);
    StripBlock(body, Tail(message));
    var text := Compose(Render(lower, context), message);
    assert text == ANCHOR + body + "]" + Tail(message);
    assert |text| > |Tail(message)|;
    var shown := if Blank(message) then "" else message;
    assert |Tail(message)| >= |shown|;
    if ']' in body {
      assert Strip(text) == text && |text| > |shown|;
      assert Strip(text) != shown;
      var i :| 0 <= i < |settings| && ']' in settings[i].value;
      assert !(forall i :: 0 <= i < |settings| ==> ']' !in settings[i].value);
    } else {
      assert Strip(text) == shown;
      assert forall i :: 0 <= i < |settings| ==> ']' !in settings[i].value;
    }
  }

  lemma {:induction false} BracketsInBody(settings: seq<Setting>)
    requires forall i :: 0 <= i < |settings| ==> SettingOk(settings[i])
    ensures ']' in Body(settings) <==> exists i :: 0 <= i < |settings| && ']' in settings[i].value
  {
    if ']' in Body(settings) {
      JoinFrom("; ", Shown(settings), ']');
      var i :| 0 <= i < |settings| && ']' in Shown(settings)[i];
      assert SettingOk(settings[i]);
      KeysClean();
    }
    if i :| 0 <= i < |settings| && ']' in settings[i].value {
      assert ']' in Shown(settings)[i];
      JoinHolds("; ", Shown(settings), i, ']');
    }
  }

  lemma {:induction false} JoinHolds(separator: string, parts: seq<string>, i: nat, c: char)
    requires i < |parts| && c in parts[i]
    ensures c in Join(separator, parts)
  {
    if |parts| > 1 && i > 0 { JoinHolds(separator, parts[1..], i - 1, c); }
  }

  /** Without settings the stored text is the message, and display leaves it alone exactly when it does
      not itself look like a block. */
  lemma {:induction false} PlainMessage(message: string)
    ensures var text := Compose(None, message);
            && text == (if Blank(message) then "" else message)
            && (!(ANCHOR <= message) ==> Strip(text) == text)
            && (Strip(message) == message <==> Remainder(message).None?)
  {
    if Remainder(message).Some? { assert |Remainder(message).value| < |message|; }
  }

  // ---- the block can be read back ----

  /** Splitting at every occurrence of a delimiter. */
  function SplitAll(s: string, c: char): (r: seq<string>)
    ensures r != []
    decreases |s|
  {
    var i := IndexOf(s, c);
    if i == |s| then [s] else [s[..i]] + SplitAll(s[i + 1..], c)
  }

  function ParseSetting(s: string): Setting {
    var i := IndexOf(s, '=');
    Setting(s[..i], if i < |s| then s[i + 1..] else "")
  }

  /** Fields are separated by `; `: all but the first begin with a space. */
  function Parse(body: string): seq<Setting> {
    var fields := SplitAll(body, ';');
    seq(|fields|, i requires 0 <= i < |fields| =>
          ParseSetting(if i > 0 && fields[i] != "" then fields[i][1..] else fields[i]))
  }

  lemma {:induction false} SplitFirst(a: string, b: string)
    requires ';' !in a
    ensures SplitAll(a + ";" + b, ';') == [a] + SplitAll(b, ';')
  {
    var s := a + ";" + b;
    assert s == a + (";" + b);
    IndexOfConcat(a, ";" + b, ';');
    assert s[..|a|] == a && s[|a| + 1..] == b;
  }

  lemma {:induction false} SplitOne(a: string)
    requires ';' !in a
    ensures SplitAll(a, ';') == [a]
  {
  }

  lemma {:induction false} SplitJoin(parts: seq<string>)
    requires parts != [] && forall i :: 0 <= i < |parts| ==> ';' !in parts[i]
    ensures var fields := SplitAll(Join("; ", parts), ';');
            |fields| == |parts| && forall i :: 0 <= i < |parts| ==>
                fields[i] == if i == 0 then parts[0] else " " + parts[i]
  {
    hide SplitAll;
    if |parts| == 1 {
      SplitOne(parts[0]);
    } else {
      var rest := Join("; ", parts[1..]);
      assert Join("; ", parts) == parts[0] + ";" + (" " + rest);
      SplitFirst(parts[0], " " + rest);
      SplitJoin(parts[1..]);
      SplitSpace(rest);
      var fields := SplitAll(Join("; ", parts), ';');
      var tail := SplitAll(" " + rest, ';');
      forall i | 0 < i < |parts| ensures fields[i] == " " + parts[i] {
        assert fields[i] == tail[i - 1];
        if i > 1 { assert tail[i - 1] == tail[1..][i - 2] == SplitAll(rest, ';')[1..][i - 2]; }
      }
    }
  }

  /** A leading space belongs to the first field. */
  lemma {:induction false} SplitSpace(s: string)
    ensures var a, b := SplitAll(" " + s, ';'), SplitAll(s, ';');
            |a| == |b| && a[0] == " " + b[0] && a[1..] == b[1..]
  {
    IndexOfConcat(" ", s, ';');
    var i := IndexOf(s, ';');
    if i < |s| { assert (" " + s)[i + 2..] == s[i + 1..] && (" " + s)[..i + 1] == " " + s[..i]; }
  }

  lemma {:induction false} ParsePair(key: string, value: string)
    requires '=' !in key && ';' !in key && ';' !in value
    ensures ParseSetting(key + "=" + value) == Setting(key, value) && ';' !in key + "=" + value
  {
    var s := key + "=" + value;
    assert s == key + ("=" + value);
    IndexOfConcat(key, "=" + value, '=');
    assert s[..|key|] == key && s[|key| + 1..] == value;
  }

  lemma {:induction false} ParseShown(s: Setting)
    requires SettingOk(s)
    ensures ParseSetting(s.key + "=" + s.value) == s && ';' !in s.key + "=" + s.value
  {
    hide ParseSetting, IndexOf;
    KeysClean();
    ParsePair(s.key, s.value);
  }

  /** No value can smuggle a delimiter into the block: reading the block back gives exactly the settings
      that survived, so two contexts with the same block have the same settings. */
  lemma {:induction false} BlockReadsBack(lower: string -> string, context: map<string, Raw>)
    requires Render(lower, context).Some?
    ensures var settings := Settings(lower, context); Parse(Body(settings)) == settings
  {
    hide SplitAll, Join, ParseSetting;
    var settings := Settings(lower, context);
    SurvivingClean(lower, context, |KEY_ORDER|);
    forall i | 0 <= i < |settings|
      ensures ParseSetting(Shown(settings)[i]) == settings[i] && ';' !in Shown(settings)[i]
    {
      ParseShown(settings[i]);
    }
    SplitJoin(Shown(settings));
    var fields := SplitAll(Body(settings), ';');
    forall i | 0 <= i < |settings| ensures Parse(Body(settings))[i] == settings[i] {
      if i > 0 { assert fields[i][1..] == Shown(settings)[i]; }
    }
  }

  // ---- the renderer as it is written ----

  method RenderContextBlock(lower: string -> string, context: map<string, Raw>) returns (block: Option<string>)
    ensures block == Render(lower, context)
  {
    var parts: seq<string> := [];
    for n := 0 to |KEY_ORDER|
      invariant parts == Shown(Surviving(lower, context, n))
    {
      var key := KEY_ORDER[n];
      if key in context {
        var value := Validated(lower, key, context[key]);
        if value.Some? {
          ShownSnoc(Surviving(lower, context, n), Setting(key, value.value));
          parts := parts + [key + "=" + value.value];
        }
      }
    }
    if parts == [] { return None; }
    return Some(ANCHOR + Join("; ", parts) + "]");
  }

  lemma {:induction false} ShownSnoc(settings: seq<Setting>, s: Setting)
    ensures Shown(settings + [s]) == Shown(settings) + [s.key + "=" + s.value]
  {
  }
}
