/** `AgentFactory._sanitize_agent_name`: turns a free-text display name into an
    identifier the agent-hosting service accepts. The five steps of the source
    are five functions here; `Sanitize` composes them. */
module NameSanitizer {

  /** Longest identifier the service accepts. */
  const MaxNameLength: nat := 63

  /** Identifier used when nothing of the display name survives. */
  const FallbackName: string := "agent"

  /** ASCII letters and digits: Python's `[a-zA-Z0-9]` on `str`. */
  predicate IsAsciiAlnum(c: char) {
    ('a' <= c <= 'z') || ('A' <= c <= 'Z') || ('0' <= c <= '9')
  }

  /** The character class `[a-zA-Z0-9-]`. */
  predicate IsNameChar(c: char) {
    IsAsciiAlnum(c) || c == '-'
  }

  ghost predicate AllNameChars(s: string) {
    forall i :: 0 <= i < |s| ==> IsNameChar(s[i])
  }

  ghost predicate NoDoubleHyphen(s: string) {
    forall i :: 0 <= i < |s| - 1 ==> !(s[i] == '-' && s[i + 1] == '-')
  }

  ghost predicate AllHyphens(s: string) {
    forall i :: 0 <= i < |s| ==> s[i] == '-'
  }

  /** The service's naming grammar: alphanumerics and single inner hyphens,
      starting and ending with an alphanumeric, at most 63 characters. */
  ghost predicate ValidAgentName(s: string) {
    && 0 < |s| <= MaxNameLength
    && AllNameChars(s)
    && NoDoubleHyphen(s)
    && s[0] != '-'
    && s[|s| - 1] != '-'
  }

  ghost predicate HasAlnum(s: string) {
    exists i :: 0 <= i < |s| && IsAsciiAlnum(s[i])
  }

  /** The letters and digits of `s`, in order. */
  ghost function Alnums(s: string): string {
    if s == [] then [] else (if IsAsciiAlnum(s[0]) then [s[0]] else []) + Alnums(s[1..])
  }

  /** Step 1, `re.sub(r'[^a-zA-Z0-9-]', '-', name)`. */
  function ReplaceInvalid(s: string): (r: string)
    ensures |r| == |s| && AllNameChars(r)
    ensures forall i :: 0 <= i < |s| ==> r[i] == (if IsNameChar(s[i]) then s[i] else '-')
  {
    seq(|s|, i requires 0 <= i < |s| => if IsNameChar(s[i]) then s[i] else '-')
  }

  /** Step 2, `re.sub(r'-+', '-', s)`: every run of hyphens becomes one hyphen. */
  function CollapseHyphens(s: string): (r: string)
    ensures |r| <= |s|
    ensures |s| > 0 ==> |r| > 0 && r[0] == s[0]
    ensures NoDoubleHyphen(r)
    decreases |s|
  {
    if |s| == 0 then []
    else if s[0] == '-' && |s| > 1 && s[1] == '-' then CollapseHyphens(s[1..])
    else [s[0]] + CollapseHyphens(s[1..])
  }

  /** `s.lstrip('-')`. */
  function StripLeading(s: string): (r: string)
    ensures |r| <= |s| && r == s[|s| - |r|..]
    ensures AllHyphens(s[..|s| - |r|])
    ensures |r| > 0 ==> r[0] != '-'
    decreases |s|
  {
    if |s| > 0 && s[0] == '-' then StripLeading(s[1..]) else s
  }

  /** `s.rstrip('-')`. */
  function StripTrailing(s: string): (r: string)
    ensures |r| <= |s| && r == s[..|r|]
    ensures AllHyphens(s[|r|..])
    ensures |r| > 0 ==> r[|r| - 1] != '-'
    decreases |s|
  {
    if |s| > 0 && s[|s| - 1] == '-' then StripTrailing(s[..|s| - 1]) else s
  }

  /** `s[:63]`. */
  function Truncate(s: string): (r: string)
    ensures |r| <= MaxNameLength && |r| <= |s| && r == s[..|r|]
    ensures |s| <= MaxNameLength ==> r == s
    ensures |s| > MaxNameLength ==> |r| == MaxNameLength
  {
    if |s| <= MaxNameLength then s else s[..MaxNameLength]
  }

  /** Steps 1 to 3: replace, collapse, `strip('-')`. */
  function Stripped(name: string): string {
    StripTrailing(StripLeading(CollapseHyphens(ReplaceInvalid(name))))
  }

  /** Steps 1 to 5 without the fallback. */
  function Trimmed(name: string): string {
    StripTrailing(Truncate(Stripped(name)))
  }

  /** `_sanitize_agent_name`: the grammar of `ValidAgentName` holds of every result. */
  function Sanitize(name: string): (r: string)
    ensures ValidAgentName(r)
  {
    var t := Trimmed(name);
    TrimmedShape(name);
    FallbackIsValid();
    if t == "" then FallbackName else t
  }

  lemma FallbackIsValid()
    ensures ValidAgentName(FallbackName)
  {
    var s := FallbackName;
    assert s == ['a', 'g', 'e', 'n', 't'];
    assert forall i :: 0 <= i < |s| ==> IsAsciiAlnum(s[i]);
  }

  // ---------------------------------------------------------------------------
  // Facts about the steps

  lemma SliceKeepsGrammar(s: string, a: int, b: int)
    requires 0 <= a <= b <= |s|
    requires AllNameChars(s) && NoDoubleHyphen(s)
    ensures AllNameChars(s[a..b]) && NoDoubleHyphen(s[a..b])
  {
    var t := s[a..b];
    forall i | 0 <= i < |t| - 1 ensures !(t[i] == '-' && t[i + 1] == '-') {
      assert t[i] == s[a + i] && t[i + 1] == s[a + i + 1];
    }
  }

  lemma {:induction false} CollapseKeepsNameChars(s: string)
    requires AllNameChars(s)
    ensures AllNameChars(CollapseHyphens(s))
    decreases |s|
  {
    if |s| > 0 {
      CollapseKeepsNameChars(s[1..]);
    }
  }

  lemma {:induction false} CollapseIdentity(s: string)
    requires NoDoubleHyphen(s)
    ensures CollapseHyphens(s) == s
    decreases |s|
  {
    if |s| > 0 {
      CollapseIdentity(s[1..]);
      assert [s[0]] + s[1..] == s;
    }
  }

  /** After the strips the first and last characters are not hyphens, so the
      text is empty exactly when it had no letter or digit. */
  lemma TrimmedShape(name: string)
    ensures ValidAgentName(Trimmed(name)) || Trimmed(name) == ""
  {
    var d := Stripped(name);
    StrippedGrammar(name);
    var e := Truncate(d);
    SliceKeepsGrammar(d, 0, |e|);
    var f := StripTrailing(e);
    SliceKeepsGrammar(e, 0, |f|);
    if |f| > 0 {
      assert f[0] == e[0] == d[0];
    }
  }

  /** After the three first steps the text is in the grammar and does not
      start with a hyphen. */
  lemma StrippedGrammar(name: string)
    ensures var d := Stripped(name);
      AllNameChars(d) && NoDoubleHyphen(d) && (d != [] ==> d[0] != '-')
  {
    var a := ReplaceInvalid(name);
    var b := CollapseHyphens(a);
    CollapseKeepsNameChars(a);
    var c := StripLeading(b);
    SliceKeepsGrammar(b, |b| - |c|, |b|);
    var d := StripTrailing(c);
    SliceKeepsGrammar(c, 0, |d|);
    if |d| > 0 {
      assert d[0] == c[0];
    }
  }

  // ---------------------------------------------------------------------------
  // Letters and digits are kept, in order

  lemma {:induction false} AlnumsConcat(a: string, b: string)
    ensures Alnums(a + b) == Alnums(a) + Alnums(b)
    decreases |a|
  {
    if a != [] {
      assert (a + b)[1..] == a[1..] + b;
      AlnumsConcat(a[1..], b);
    } else {
      assert a + b == b;
    }
  }

  lemma {:induction false} AlnumsOfHyphens(s: string)
    requires AllHyphens(s)
    ensures Alnums(s) == []
    decreases |s|
  {
    if s != [] {
      AlnumsOfHyphens(s[1..]);
    }
  }

  lemma {:induction false} HasAlnumIff(s: string)
    ensures HasAlnum(s) <==> Alnums(s) != []
    decreases |s|
  {
    if s != [] {
      HasAlnumIff(s[1..]);
      if HasAlnum(s[1..]) {
        var i :| 0 <= i < |s[1..]| && IsAsciiAlnum(s[1..][i]);
        assert IsAsciiAlnum(s[i + 1]);
      }
      if HasAlnum(s) && !IsAsciiAlnum(s[0]) {
        var i :| 0 <= i < |s| && IsAsciiAlnum(s[i]);
        assert IsAsciiAlnum(s[1..][i - 1]);
      }
    }
  }

  lemma {:induction false} ReplaceKeepsAlnums(s: string)
    ensures Alnums(ReplaceInvalid(s)) == Alnums(s)
    decreases |s|
  {
    if s != [] {
      ReplaceKeepsAlnums(s[1..]);
      assert ReplaceInvalid(s)[1..] == ReplaceInvalid(s[1..]);
    }
  }

  lemma {:induction false} CollapseKeepsAlnums(s: string)
    ensures Alnums(CollapseHyphens(s)) == Alnums(s)
    decreases |s|
  {
    if s != [] {
      CollapseKeepsAlnums(s[1..]);
      if !(s[0] == '-' && |s| > 1 && s[1] == '-') {
        assert ([s[0]] + CollapseHyphens(s[1..]))[1..] == CollapseHyphens(s[1..]);
      }
    }
  }

  /** Stripping hyphens from both ends removes no letter or digit. */
  lemma StripsKeepAlnums(s: string)
    ensures Alnums(StripLeading(s)) == Alnums(s)
    ensures Alnums(StripTrailing(s)) == Alnums(s)
  {
    StripLeadingKeepsAlnums(s);
    StripTrailingKeepsAlnums(s);
  }

  lemma StripLeadingKeepsAlnums(s: string)
    ensures Alnums(StripLeading(s)) == Alnums(s)
  {
    var l := StripLeading(s);
    var h := s[..|s| - |l|];
    assert s == h + l;
    AlnumsConcat(h, l);
    AlnumsOfHyphens(h);
  }

  lemma StripTrailingKeepsAlnums(s: string)
    ensures Alnums(StripTrailing(s)) == Alnums(s)
  {
    var t := StripTrailing(s);
    var h := s[|t|..];
    assert s == t + h;
    AlnumsConcat(t, h);
    AlnumsOfHyphens(h);
  }

  lemma TruncateKeepsAlnumPrefix(s: string)
    ensures Alnums(Truncate(s)) <= Alnums(s)
  {
    var t := Truncate(s);
    assert s == t + s[|t|..];
    AlnumsConcat(t, s[|t|..]);
  }

  lemma StrippedKeepsAlnums(name: string)
    ensures Alnums(Stripped(name)) == Alnums(name)
  {
    var a := ReplaceInvalid(name);
    var b := CollapseHyphens(a);
    ReplaceKeepsAlnums(name);
    CollapseKeepsAlnums(a);
    StripsKeepAlnums(b);
    StripsKeepAlnums(StripLeading(b));
  }

  lemma TrimmedKeepsAlnumPrefix(name: string)
    ensures Alnums(Trimmed(name)) <= Alnums(name)
    ensures |name| <= MaxNameLength ==> Alnums(Trimmed(name)) == Alnums(name)
  {
    var d := Stripped(name);
    StrippedKeepsAlnums(name);
    TruncateKeepsAlnumPrefix(d);
    StripsKeepAlnums(Truncate(d));
    // the steps never lengthen the text
    assert |d| <= |name|;
  }

  /** Only a name without ASCII letters or digits reaches the fallback. */
  lemma TrimmedEmptyIff(name: string)
    ensures Trimmed(name) == "" <==> !HasAlnum(name)
  {
    var d := Stripped(name);
    var e := Truncate(d);
    var f := Trimmed(name);
    if HasAlnum(name) {
      StrippedKeepsAlnums(name);
      HasAlnumIff(name);
      HasAlnumIff(d);
      StrippedShape(name);
      assert e[0] == d[0];
      StripTrailingKeepsHead(e);
    }
    if f != [] {
      TrimmedShape(name);
      TrimmedKeepsAlnumPrefix(name);
      HasAlnumIff(name);
      HasAlnumIff(f);
      assert IsAsciiAlnum(f[0]);
    }
  }

  lemma {:induction false} StripTrailingKeepsHead(e: string)
    requires e != [] && IsAsciiAlnum(e[0])
    ensures StripTrailing(e) != [] && StripTrailing(e)[0] == e[0]
    decreases |e|
  {
    if |e| > 1 && e[|e| - 1] == '-' {
      StripTrailingKeepsHead(e[..|e| - 1]);
    }
  }

  /** Whatever text survives the three first steps starts with a letter or digit. */
  lemma StrippedShape(name: string)
    ensures Stripped(name) != [] ==> IsAsciiAlnum(Stripped(name)[0])
  {
    var a := ReplaceInvalid(name);
    var b := CollapseHyphens(a);
    CollapseKeepsNameChars(a);
    var c := StripLeading(b);
    var d := StripTrailing(c);
    if d != [] {
      assert d[0] == c[0] == b[|b| - |c|];
    }
  }

  /** Fallback, and what a name that does not fall back keeps of its input:
      a name without ASCII letters or digits becomes "agent"; otherwise the
      result's letters and digits are a non-empty prefix of the input's, and
      all of them when the input fits in 63 characters. */
  lemma SanitizeKeepsAlnums(name: string)
    ensures !HasAlnum(name) ==> Sanitize(name) == FallbackName
    ensures HasAlnum(name) ==> Alnums(Sanitize(name)) != [] && Alnums(Sanitize(name)) <= Alnums(name)
    ensures HasAlnum(name) && |name| <= MaxNameLength ==> Alnums(Sanitize(name)) == Alnums(name)
  {
    TrimmedEmptyIff(name);
    TrimmedKeepsAlnumPrefix(name);
    HasAlnumIff(Trimmed(name));
    if HasAlnum(name) {
      TrimmedShape(name);
      assert HasAlnum(Trimmed(name)) by { assert IsAsciiAlnum(Trimmed(name)[0]); }
    }
  }

  // ---------------------------------------------------------------------------
  // Idempotence

  /** A name already in the grammar passes through every step unchanged. */
  lemma SanitizeFixesValid(s: string)
    requires ValidAgentName(s)
    ensures Sanitize(s) == s
  {
    assert ReplaceInvalid(s) == s;
    CollapseIdentity(s);
    assert StripLeading(s) == s;
    assert StripTrailing(s) == s;
    assert Truncate(s) == s;
  }

  lemma SanitizeIdempotent(name: string)
    ensures Sanitize(Sanitize(name)) == Sanitize(name)
  {
    SanitizeFixesValid(Sanitize(name));
  }

  /** The display name "FAQ Bot!!" becomes the identifier "FAQ-Bot". */
  lemma SanitizeFaqBot()
    ensures Sanitize("FAQ Bot!!") == "FAQ-Bot"
  {
    FaqBotReplaced();
    FaqBotCollapsed();
    FaqBotStripped();
    assert Stripped("FAQ Bot!!") == "FAQ-Bot";
    assert Truncate("FAQ-Bot") == "FAQ-Bot";
  }

  lemma FaqBotReplaced()
    ensures ReplaceInvalid("FAQ Bot!!") == "FAQ-Bot--"
  {
    var a := ReplaceInvalid("FAQ Bot!!");
    assert forall i :: 0 <= i < 9 ==> a[i] == "FAQ-Bot--"[i];
  }

  lemma FaqBotCollapsed()
    ensures CollapseHyphens("FAQ-Bot--") == "FAQ-Bot-"
  {
    var x, t := "FAQ-Bot", "--";
    assert x + t == "FAQ-Bot--";
    assert x + "-" == "FAQ-Bot-";
    assert NoDoubleHyphen(x) by {
      assert forall i :: 0 <= i < |x| && i != 3 ==> x[i] != '-';
    }
    CollapsePrefix(x, t);
    assert CollapseHyphens(t) == "-" by {
      assert t[1..] == "-";
    }
  }

  lemma FaqBotStripped()
    ensures StripLeading("FAQ-Bot-") == "FAQ-Bot-"
    ensures StripTrailing("FAQ-Bot-") == "FAQ-Bot"
    ensures StripTrailing("FAQ-Bot") == "FAQ-Bot"
  {
    assert "FAQ-Bot-"[..7] == "FAQ-Bot";
  }

  /** A run of hyphens becomes one hyphen: wherever it stands, a double
      hyphen collapses exactly as a single one does. */
  lemma {:induction false} CollapseRun(a: string, b: string)
    ensures CollapseHyphens(a + ['-', '-'] + b) == CollapseHyphens(a + ['-'] + b)
    decreases |a|
  {
    var s, t := a + ['-', '-'] + b, a + ['-'] + b;
    if a == [] {
      assert s[1..] == t;
    } else {
      CollapseRun(a[1..], b);
      assert s[1..] == a[1..] + ['-', '-'] + b;
      assert t[1..] == a[1..] + ['-'] + b;
      assert s[0] == t[0] && s[1] == t[1];
    }
  }

  /** A prefix without a double hyphen and not ending in one is kept as it is. */
  lemma {:induction false} CollapsePrefix(x: string, s: string)
    requires NoDoubleHyphen(x) && (x != [] ==> x[|x| - 1] != '-')
    ensures CollapseHyphens(x + s) == x + CollapseHyphens(s)
    decreases |x|
  {
    if x == [] {
      assert x + s == s;
    } else {
      assert (x + s)[1..] == x[1..] + s;
      if |x| > 1 {
        assert x[1..][|x| - 2] == x[|x| - 1];
      }
      CollapsePrefix(x[1..], s);
      assert [x[0]] + (x[1..] + CollapseHyphens(s)) == x + CollapseHyphens(s);
    }
  }

  /** The empty name falls back to "agent". */
  lemma SanitizeEmpty()
    ensures Sanitize("") == FallbackName
  {
    SanitizeKeepsAlnums("");
  }

  /** A name of punctuation only falls back to "agent". */
  lemma SanitizeFallbackExamples()
    ensures Sanitize("!!!") == FallbackName
  {
    var bang := "!!!";
    assert !HasAlnum(bang) by {
      assert forall i :: 0 <= i < |bang| ==> bang[i] == '!';
    }
    SanitizeKeepsAlnums(bang);
  }
}
