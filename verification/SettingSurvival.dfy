/** Which conversation settings reach the model, and in what form. */
module SettingSurvival {
  import opened Wallet
  import opened Strings
  import opened ContextBlock

  // ---- sanitizing ----

  predicate Dropped(c: char) { IsSpace(c) || c == ';' || c == '=' }

  /** What is left of a text without its whitespace and delimiters. */
  function Visible(s: string): string {
    if s == "" then "" else (if Dropped(s[0]) then "" else [s[0]]) + Visible(s[1..])
  }

  /** Whitespace only as single spaces between visible characters. */
  predicate OneSpaced(s: string) {
    forall i :: 0 <= i < |s| && IsSpace(s[i]) ==> s[i] == ' ' && 0 < i < |s| - 1 && !IsSpace(s[i - 1]) && !IsSpace(s[i + 1])
  }

  lemma {:induction false} VisibleHead(s: string)
    ensures s == "" ==> Visible(s) == ""
    ensures s != "" ==> Visible(s) == (if Dropped(s[0]) then "" else [s[0]]) + Visible(s[1..])
  {
  }

  lemma {:induction false} VisibleConcat(a: string, b: string)
    ensures Visible(a + b) == Visible(a) + Visible(b)
  {
    hide Visible, Dropped;
    VisibleHead(a);
    VisibleHead(a + b);
    if a == "" {
      assert a + b == b && Visible(a) + Visible(b) == Visible(b);
    } else {
      VisibleConcat(a[1..], b);
      assert (a + b)[1..] == a[1..] + b && (a + b)[0] == a[0];
      var own := if Dropped(a[0]) then "" else [a[0]];
      assert own + (Visible(a[1..]) + Visible(b)) == own + Visible(a[1..]) + Visible(b);
    }
  }

  function Plained(s: string): string { seq(|s|, i requires 0 <= i < |s| => Plain(s[i])) }

  lemma {:induction false} PlainedVisible(s: string)
    ensures Visible(Plained(s)) == Visible(s)
  {
    if s != "" {
      PlainedVisible(s[1..]);
      assert Plained(s)[1..] == Plained(s[1..]);
      assert Plained(s)[0] == Plain(s[0]);
    }
  }

  lemma {:induction false} WordSplits(s: string)
    ensures Word(s) + s[|Word(s)|..] == s
  {
  }

  /** Joining the words of a text keeps what is visible of it. */
  lemma {:induction false} JoinedVisible(s: string)
    ensures Visible(Join(" ", Words(s))) == Visible(s)
    decreases |s|
  {
    hide Dropped;
    if s != "" {
      if IsSpace(s[0]) {
        JoinedVisible(s[1..]);
        assert Visible(s) == Visible(s[1..]) by { assert Dropped(s[0]) by { DroppedSpace(s[0]); } }
      } else {
        var (w, rest) := (Word(s), s[|Word(s)|..]);
        JoinedVisible(rest);
        WordSplits(s);
        VisibleConcat(w, rest);
        assert Words(s) == [w] + Words(rest) && Words(s)[1..] == Words(rest);
        if Words(rest) == [] {
          assert Join(" ", Words(s)) == w && Visible(w) + "" == Visible(w);
        } else {
          var more := Join(" ", Words(rest));
          assert Join(" ", Words(s)) == w + " " + more == w + (" " + more);
          VisibleConcat(w, " " + more);
          VisibleConcat(" ", more);
          assert Visible(" ") == "" by { assert Dropped(' ') by { DroppedSpace(' '); } }
          assert "" + Visible(more) == Visible(more);
        }
      }
    }
  }

  lemma {:induction false} DroppedSpace(c: char)
    requires IsSpace(c)
    ensures Dropped(c)
  {
  }

  lemma {:induction false} JoinedSpaced(s: string)
    ensures var r := Join(" ", Words(s)); OneSpaced(r) && (r != "" ==> !IsSpace(r[0]))
    ensures Words(s) != [] ==> Join(" ", Words(s)) != ""
    decreases |s|
  {
    hide IsSpace;
    assert IsSpace(' ') by { Spaces(); }
    if s != "" {
      if IsSpace(s[0]) {
        JoinedSpaced(s[1..]);
      } else {
        var (w, rest) := (Word(s), s[|Word(s)|..]);
        JoinedSpaced(rest);
        assert Words(s) == [w] + Words(rest) && Words(s)[1..] == Words(rest);
        if Words(rest) != [] {
          SpacedJoin(w, Join(" ", Words(rest)));
        } else {
          assert Join(" ", Words(s)) == w;
        }
      }
    }
  }

  lemma {:induction false} Spaces()
    ensures IsSpace(' ')
  {
  }

  lemma {:induction false} SpacedJoin(w: string, more: string)
    requires w != "" && more != "" && (forall i :: 0 <= i < |w| ==> !IsSpace(w[i])) && OneSpaced(more) && !IsSpace(more[0])
    ensures OneSpaced(w + " " + more) && !IsSpace((w + " " + more)[0])
  {
    hide IsSpace;
    var r, n := w + " " + more, |w| + 1;
    assert forall i :: n <= i < |r| ==> r[i] == more[i - n];
    forall i | 0 <= i < |r| && IsSpace(r[i])
      ensures r[i] == ' ' && 0 < i < |r| - 1 && !IsSpace(r[i - 1]) && !IsSpace(r[i + 1])
    {
      if i > n { assert IsSpace(more[i - n]); }
    }
  }

  /** Sanitizing takes out the delimiters and collapses whitespace, and keeps every other character in order. */
  lemma {:induction false} SanitizeMeans(s: string)
    ensures Visible(Sanitize(s)) == Visible(s) && OneSpaced(Sanitize(s)) && Clean(Sanitize(s))
  {
    hide Words, Join, OneSpaced, Clean;
    assert seq(|s|, i requires 0 <= i < |s| => Plain(s[i])) == Plained(s);
    PlainedVisible(s);
    JoinedVisible(Plained(s));
    JoinedSpaced(Plained(s));
    SanitizeClean(s);
  }

  lemma {:induction false} SomethingVisible(s: string)
    requires OneSpaced(s) && s != "" && ';' !in s && '=' !in s
    ensures Visible(s) != ""
  {
    assert s[0] in s;
  }

  // ---- which settings survive ----

  /** What a setting of this name may be, after trimming, and the value it is shown with. */
  predicate ShownAs(lower: string -> string, key: string, text: string, value: string) {
    if key == "responseStyle" then value == lower(text) && value in {"concise", "balanced", "detailed"}
    else if key == "verbosity" then value == lower(text) && value in {"low", "medium", "high"}
    else if key == "locale" then value == text && |text| <= 35 && forall i :: 0 <= i < |text| ==> IsLocaleChar(text[i])
    else
      && (key == "codeLanguage" || key == "tone")
      && |text| <= 40 && Visible(text) != "" && Visible(value) == Visible(text) && OneSpaced(value) && Clean(value)
  }

  predicate Shows(lower: string -> string, key: string, raw: Raw, value: string) {
    raw.Text? && Trim(raw.text) != "" && ShownAs(lower, key, Trim(raw.text), value)
  }

  ghost predicate Acceptable(lower: string -> string, key: string, raw: Raw) {
    exists value :: Shows(lower, key, raw, value)
  }

  lemma {:induction false} ValidatedMeans(lower: string -> string, key: string, raw: Raw)
    requires key in {"codeLanguage", "responseStyle", "verbosity", "tone", "locale"}
    ensures Validated(lower, key, raw).Some? ==> Shows(lower, key, raw, Validated(lower, key, raw).value)
    ensures Acceptable(lower, key, raw) ==> Validated(lower, key, raw).Some?
  {
    hide Trim, Sanitize, Visible, OneSpaced;
    if raw.Text? {
      var text := Trim(raw.text);
      SanitizeMeans(text);
      assert Visible("") == "" by { NoneVisible(); }
      if Sanitize(text) != "" { SomethingVisible(Sanitize(text)); }
    }
  }

  lemma {:induction false} NoneVisible()
    ensures Visible("") == ""
  {
  }

  /** The order of the block. */
  function Rank(key: string): nat {
    if key == "codeLanguage" then 0
    else if key == "responseStyle" then 1
    else if key == "verbosity" then 2
    else if key == "tone" then 3
    else if key == "locale" then 4
    else 5
  }

  ghost predicate Present(settings: seq<Setting>, key: string) {
    exists i :: 0 <= i < |settings| && settings[i].key == key
  }

  /** These are the acceptable settings of rank below `n`, in order of rank. */
  ghost predicate Survive(lower: string -> string, context: map<string, Raw>, settings: seq<Setting>, n: nat) {
    && (forall i :: 0 <= i < |settings| ==>
          && Rank(settings[i].key) < n && settings[i].key in context
          && Shows(lower, settings[i].key, context[settings[i].key], settings[i].value))
    && (forall i, j :: 0 <= i < j < |settings| ==> Rank(settings[i].key) < Rank(settings[j].key))
    && (forall key :: key in context && Rank(key) < n && Acceptable(lower, key, context[key]) ==> Present(settings, key))
  }

  lemma {:induction false} RankOfKey(n: nat)
    requires n < 5
    ensures |KEY_ORDER| == 5 && Rank(KEY_ORDER[n]) == n
    ensures KEY_ORDER[n] in {"codeLanguage", "responseStyle", "verbosity", "tone", "locale"}
    ensures forall key :: Rank(key) == n ==> key == KEY_ORDER[n]
  {
  }

  lemma {:induction false} OneMore(lower: string -> string, context: map<string, Raw>, settings: seq<Setting>, n: nat,
                                   key: string)
    requires Survive(lower, context, settings, n) && Rank(key) == n && forall k :: Rank(k) == n ==> k == key
    ensures key in context ==> forall value :: Shows(lower, key, context[key], value) ==>
              Survive(lower, context, settings + [Setting(key, value)], n + 1)
    ensures key !in context || !Acceptable(lower, key, context[key]) ==> Survive(lower, context, settings, n + 1)
  {
    hide Shows, Rank;
    if key in context {
      forall value | Shows(lower, key, context[key], value)
        ensures Survive(lower, context, settings + [Setting(key, value)], n + 1)
      {
        var all := settings + [Setting(key, value)];
        assert all[|settings|].key == key;
        forall k | Present(settings, k) ensures Present(all, k) {
          var i :| 0 <= i < |settings| && settings[i].key == k;
          assert all[i].key == k;
        }
      }
    }
  }

  lemma {:induction false} SurvivingMeans(lower: string -> string, context: map<string, Raw>, n: nat)
    requires n <= |KEY_ORDER|
    ensures Survive(lower, context, Surviving(lower, context, n), n)
  {
    hide Validated, Shows, Acceptable, Rank, Survive;
    if n == 0 {
      NoneSurvive(lower, context);
    } else {
      var key := KEY_ORDER[n - 1];
      SurvivingMeans(lower, context, n - 1);
      RankOfKey(n - 1);
      OneMore(lower, context, Surviving(lower, context, n - 1), n - 1, key);
      if key in context { ValidatedMeans(lower, key, context[key]); }
      assert Surviving(lower, context, n - 1) + [] == Surviving(lower, context, n - 1);
    }
  }

  lemma {:induction false} NoneSurvive(lower: string -> string, context: map<string, Raw>)
    ensures Survive(lower, context, [], 0)
  {
  }

  /** The settings in a block are exactly the acceptable ones of the five known names, each shown with its
      normalized value, in the fixed order of the names and once. */
  lemma {:induction false} WhichSurvive(lower: string -> string, context: map<string, Raw>)
    ensures Survive(lower, context, Settings(lower, context), 5)
    ensures forall key :: Present(Settings(lower, context), key) <==>
              key in context && Rank(key) < 5 && Acceptable(lower, key, context[key])
  {
    hide Shows, Rank, Surviving;
    SurvivingMeans(lower, context, |KEY_ORDER|);
  }
}
