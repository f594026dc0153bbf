/** `generate_agent_instructions`: assembles the instruction document of an
    agent from its purpose, personality, capabilities and rules. */
module Instructions {
  import opened Text

  const DefaultPersonality: string := "profesional y amigable"

  const Intro: string := "Eres un asistente especializado con el siguiente propósito:\n\n"
  const PurposeHeader: string := "PROPÓSITO PRINCIPAL:\n"
  const PersonalityHeader: string := "PERSONALIDAD:\n"
  const CapabilitiesHeader: string := "CAPACIDADES:\n"
  const RulesHeader: string := "REGLAS DE COMPORTAMIENTO:\n"
  const FormatHeader: string := "FORMATO DE RESPUESTA:\n"
  /** The blank line between two sections. */
  const Gap: string := "\n\n"
  const FormatBody: string :=
    "- Responde de manera clara y estructurada\n- Usa viñetas o numeración cuando sea apropiado\n- Incluye ejemplos cuando ayuden a clarificar\n"

  /** The capability section used when none are given. */
  const DefaultCapabilities: string :=
    "- Responder preguntas de manera clara y concisa\n- Ayudar al usuario con sus consultas"

  /** The rule section used when none are given. */
  const DefaultRules: string :=
    "1. Siempre mantén un tono profesional y respetuoso\n2. Si no sabes algo, admítelo honestamente\n3. Sé conciso pero completo en tus respuestas\n4. Usa emojis cuando sea apropiado para hacer la conversación más amena"

  /** `f"- {cap}"` for each capability. */
  function Bullets(caps: seq<string>): seq<string> {
    seq(|caps|, i requires 0 <= i < |caps| => "- " + caps[i])
  }

  /** `f"{i+1}. {rule}"` for each rule, numbered from one. */
  function Numbered(rules: seq<string>): seq<string> {
    seq(|rules|, i requires 0 <= i < |rules| => NatToString(i + 1) + ". " + rules[i])
  }

  /** Python's truth test on an optional list: `None` and `[]` are false. */
  predicate IsGiven(xs: Option<seq<string>>) {
    xs.Some? && xs.value != []
  }

  function CapabilitiesText(caps: Option<seq<string>>): string {
    if IsGiven(caps) then Join("\n", Bullets(caps.value)) else DefaultCapabilities
  }

  function RulesText(rules: Option<seq<string>>): string {
    if IsGiven(rules) then Join("\n", Numbered(rules.value)) else DefaultRules
  }

  /** The pieces of the f-string template, in order. */
  function Pieces(purpose: string, personality: string,
                  caps: Option<seq<string>>, rules: Option<seq<string>>): seq<string>
  {
    [ Intro,
      PurposeHeader, purpose, Gap,
      PersonalityHeader, personality, Gap,
      CapabilitiesHeader, CapabilitiesText(caps), Gap,
      RulesHeader, RulesText(rules), Gap,
      FormatHeader + FormatBody ]
  }

  /** `generate_agent_instructions`, with the source's defaults for the
      personality, the capabilities and the rules. The purpose, the
      personality and the two list sections all stand verbatim in the document. */
  function GenerateInstructions(purpose: string, personality: string := DefaultPersonality,
                                caps: Option<seq<string>> := None, rules: Option<seq<string>> := None): (r: string)
    ensures Contains(r, purpose) && Contains(r, personality)
    ensures Contains(r, CapabilitiesText(caps)) && Contains(r, RulesText(rules))
  {
    var parts := Pieces(purpose, personality, caps, rules);
    SectionsVerbatim(parts);
    Concat(parts)
  }

  /** Parts 2, 5, 8 and 11 of a template stand in its concatenation. */
  lemma SectionsVerbatim(parts: seq<string>)
    requires |parts| == 14
    ensures Contains(Concat(parts), parts[2]) && Contains(Concat(parts), parts[5])
    ensures Contains(Concat(parts), parts[8]) && Contains(Concat(parts), parts[11])
  {
    ConcatAt(parts, 2);
    ConcatAt(parts, 5);
    ConcatAt(parts, 8);
    ConcatAt(parts, 11);
    OccursContains(Concat(parts), parts[2], Offset(parts, 2));
    OccursContains(Concat(parts), parts[5], Offset(parts, 5));
    OccursContains(Concat(parts), parts[8], Offset(parts, 8));
    OccursContains(Concat(parts), parts[11], Offset(parts, 11));
  }

  // ---------------------------------------------------------------------------
  // Layout of the document

  /** The five section headers appear in the fixed order purpose, personality,
      capabilities, rules, response format; the purpose, the personality, the
      capability section and the rule section stand verbatim right after their
      headers, and the document ends with the fixed response-format section. */
  lemma InstructionsLayout(purpose: string, personality: string,
                           caps: Option<seq<string>>, rules: Option<seq<string>>)
    ensures var doc := GenerateInstructions(purpose, personality, caps, rules);
      exists p, q, c, r, f ::
        && 0 < p < q < c < r < f
        && OccursAt(doc, PurposeHeader, p) && OccursAt(doc, purpose, p + |PurposeHeader|)
        && OccursAt(doc, PersonalityHeader, q) && OccursAt(doc, personality, q + |PersonalityHeader|)
        && OccursAt(doc, CapabilitiesHeader, c) && OccursAt(doc, CapabilitiesText(caps), c + |CapabilitiesHeader|)
        && OccursAt(doc, RulesHeader, r) && OccursAt(doc, RulesText(rules), r + |RulesHeader|)
        && OccursAt(doc, FormatHeader + FormatBody, f) && f + |FormatHeader + FormatBody| == |doc|
  {
    var parts := Pieces(purpose, personality, caps, rules);
    DocumentIsConcat(purpose, personality, caps, rules);
    PiecesLayout(parts, purpose, personality, CapabilitiesText(caps), RulesText(rules));
  }

  /** Helper: unfolds the document into its pieces, apart from the layout argument. */
  lemma DocumentIsConcat(purpose: string, personality: string,
                         caps: Option<seq<string>>, rules: Option<seq<string>>)
    ensures GenerateInstructions(purpose, personality, caps, rules) == Concat(Pieces(purpose, personality, caps, rules))
  {
  }

  /** The layout argument over the template's pieces, kept apart from the
      template's text. */
  lemma PiecesLayout(parts: seq<string>, purpose: string, personality: string, ct: string, rt: string)
    requires |parts| == 14 && |parts[0]| > 0
    requires parts[1] == PurposeHeader && parts[4] == PersonalityHeader && parts[7] == CapabilitiesHeader
    requires parts[10] == RulesHeader && parts[13] == FormatHeader + FormatBody
    requires parts[2] == purpose && parts[5] == personality && parts[8] == ct && parts[11] == rt
    requires |parts[3]| > 0 && |parts[6]| > 0 && |parts[9]| > 0 && |parts[12]| > 0
    ensures var doc := Concat(parts);
      exists p, q, c, r, f ::
        && 0 < p < q < c < r < f
        && OccursAt(doc, PurposeHeader, p) && OccursAt(doc, purpose, p + |PurposeHeader|)
        && OccursAt(doc, PersonalityHeader, q) && OccursAt(doc, personality, q + |PersonalityHeader|)
        && OccursAt(doc, CapabilitiesHeader, c) && OccursAt(doc, ct, c + |CapabilitiesHeader|)
        && OccursAt(doc, RulesHeader, r) && OccursAt(doc, rt, r + |RulesHeader|)
        && OccursAt(doc, FormatHeader + FormatBody, f) && f + |FormatHeader + FormatBody| == |doc|
  {
    var doc := Concat(parts);
    ConcatLength(parts);
    var o1, o4, o7, o10, o13 := Offset(parts, 1), Offset(parts, 4), Offset(parts, 7), Offset(parts, 10), Offset(parts, 13);
    assert Offset(parts, 2) == o1 + |PurposeHeader|;
    assert Offset(parts, 5) == o4 + |PersonalityHeader|;
    assert Offset(parts, 8) == o7 + |CapabilitiesHeader|;
    assert Offset(parts, 11) == o10 + |RulesHeader|;
    assert Offset(parts, 14) == o13 + |FormatHeader + FormatBody|;
    assert o1 > 0;
    assert o4 > o1 by { OffsetMonotone(parts, 2, 3); }
    assert o7 > o4 by { OffsetMonotone(parts, 5, 6); }
    assert o10 > o7 by { OffsetMonotone(parts, 8, 9); }
    assert o13 > o10 by { OffsetMonotone(parts, 11, 12); }
    ConcatAt(parts, 1); ConcatAt(parts, 2); ConcatAt(parts, 4); ConcatAt(parts, 5);
    ConcatAt(parts, 7); ConcatAt(parts, 8); ConcatAt(parts, 10); ConcatAt(parts, 11);
    ConcatAt(parts, 13);
    LayoutWitness(doc, purpose, personality, ct, rt,
                  o1, Offset(parts, 2), o4, Offset(parts, 5), o7, Offset(parts, 8),
                  o10, Offset(parts, 11), o13);
  }

  lemma LayoutWitness(doc: string, purpose: string, personality: string, ct: string, rt: string,
                      p: int, p': int, q: int, q': int, c: int, c': int, r: int, r': int, f: int)
    requires 0 < p < q < c < r < f
    requires p' == p + |PurposeHeader| && q' == q + |PersonalityHeader|
    requires c' == c + |CapabilitiesHeader| && r' == r + |RulesHeader|
    requires OccursAt(doc, PurposeHeader, p) && OccursAt(doc, purpose, p')
    requires OccursAt(doc, PersonalityHeader, q) && OccursAt(doc, personality, q')
    requires OccursAt(doc, CapabilitiesHeader, c) && OccursAt(doc, ct, c')
    requires OccursAt(doc, RulesHeader, r) && OccursAt(doc, rt, r')
    requires OccursAt(doc, FormatHeader + FormatBody, f) && f + |FormatHeader + FormatBody| == |doc|
    ensures exists p, q, c, r, f ::
        && 0 < p < q < c < r < f
        && OccursAt(doc, PurposeHeader, p) && OccursAt(doc, purpose, p + |PurposeHeader|)
        && OccursAt(doc, PersonalityHeader, q) && OccursAt(doc, personality, q + |PersonalityHeader|)
        && OccursAt(doc, CapabilitiesHeader, c) && OccursAt(doc, ct, c + |CapabilitiesHeader|)
        && OccursAt(doc, RulesHeader, r) && OccursAt(doc, rt, r + |RulesHeader|)
        && OccursAt(doc, FormatHeader + FormatBody, f) && f + |FormatHeader + FormatBody| == |doc|
  {
  }

  /** The string concatenation of a list of parts. */
  function Concat(parts: seq<string>): string {
    if parts == [] then "" else Concat(parts[..|parts| - 1]) + parts[|parts| - 1]
  }

  /** Where part `k` starts in `Concat(parts)`. */
  function Offset(parts: seq<string>, k: nat): nat
    requires k <= |parts|
  {
    if k == 0 then 0 else Offset(parts, k - 1) + |parts[k - 1]|
  }

  lemma {:induction false} ConcatLength(parts: seq<string>)
    ensures |Concat(parts)| == Offset(parts, |parts|)
    decreases |parts|
  {
    if parts != [] {
      var init := parts[..|parts| - 1];
      ConcatLength(init);
      OffsetPrefix(parts, init, |init|);
    }
  }

  lemma {:induction false} OffsetPrefix(parts: seq<string>, init: seq<string>, k: nat)
    requires init <= parts && k <= |init|
    ensures Offset(parts, k) == Offset(init, k)
    decreases k
  {
    if k > 0 {
      OffsetPrefix(parts, init, k - 1);
    }
  }

  /** Part `k` stands at its offset in the concatenation. */
  lemma {:induction false} ConcatAt(parts: seq<string>, k: nat)
    requires k < |parts|
    ensures OccursAt(Concat(parts), parts[k], Offset(parts, k))
    decreases |parts|
  {
    var init := parts[..|parts| - 1];
    ConcatLength(init);
    OffsetPrefix(parts, init, |init|);
    if k < |parts| - 1 {
      ConcatAt(init, k);
      OffsetPrefix(parts, init, k);
      OffsetPrefix(parts, init, k + 1);
      ConcatLength(init);
      OffsetPrefix(parts, init, |init|);
      assert Offset(init, k) + |parts[k]| <= |Concat(init)| by {
        OffsetMonotone(init, k + 1, |init|);
      }
      var s := Concat(init);
      assert Concat(parts)[..|s|] == s;
    }
  }

  lemma {:induction false} OffsetMonotone(parts: seq<string>, j: nat, k: nat)
    requires j <= k <= |parts|
    ensures Offset(parts, j) <= Offset(parts, k)
    decreases k - j
  {
    if j < k {
      OffsetMonotone(parts, j, k - 1);
    }
  }

  // ---------------------------------------------------------------------------
  // The capability and rule sections

  ghost predicate NoNewline(xs: seq<string>) {
    forall i, k :: 0 <= i < |xs| && 0 <= k < |xs[i]| ==> xs[i][k] != '\n'
  }

  /** Given capabilities render one bullet line per capability, in input order:
      line i is "- " followed by capability i. */
  lemma CapabilityLines(caps: seq<string>)
    requires caps != [] && NoNewline(caps)
    ensures var lines := Split(CapabilitiesText(Some(caps)), '\n');
      |lines| == |caps| && forall i :: 0 <= i < |caps| ==> lines[i] == "- " + caps[i]
  {
    var b := Bullets(caps);
    forall i, k | 0 <= i < |b| && 0 <= k < |b[i]| ensures b[i][k] != '\n' {
      if k >= 2 { assert b[i][k] == caps[i][k - 2]; }
    }
    SplitJoinLines(b);
  }

  /** Given rules render one numbered line per rule, in input order: line i
      is the decimal number i + 1, a dot, a space and rule i. */
  lemma RuleLines(rules: seq<string>)
    requires rules != [] && NoNewline(rules)
    ensures var lines := Split(RulesText(Some(rules)), '\n');
      |lines| == |rules| && forall i :: 0 <= i < |rules| ==> lines[i] == NatToString(i + 1) + ". " + rules[i]
  {
    var n := Numbered(rules);
    forall i | 0 <= i < |n| ensures forall k :: 0 <= k < |n[i]| ==> n[i][k] != '\n' {
      NumberedLineNoNewline(NatToString(i + 1), rules[i]);
    }
    SplitJoinLines(n);
  }

  /** A numbered line holds a newline only where its rule does. */
  lemma NumberedLineNoNewline(d: string, rule: string)
    requires forall k :: 0 <= k < |d| ==> IsDigit(d[k])
    requires forall k :: 0 <= k < |rule| ==> rule[k] != '\n'
    ensures var line := d + ". " + rule;
      forall k :: 0 <= k < |line| ==> line[k] != '\n'
  {
    var line := d + ". " + rule;
    forall k | 0 <= k < |line| ensures line[k] != '\n' {
      if k < |d| {
        assert line[k] == d[k];
      } else if k >= |d| + 2 {
        assert line[k] == rule[k - |d| - 2];
      }
    }
  }

  /** A missing or an empty list selects the fixed default text. */
  lemma DefaultsWhenAbsent(caps: Option<seq<string>>, rules: Option<seq<string>>)
    ensures (caps.None? || caps.value == []) ==> CapabilitiesText(caps) == DefaultCapabilities
    ensures (rules.None? || rules.value == []) ==> RulesText(rules) == DefaultRules
  {
  }

  /** Called with the purpose alone, the document carries the default
      personality, capability section and rule section. */
  lemma OmittedArguments(purpose: string)
    ensures var doc := GenerateInstructions(purpose);
      Contains(doc, DefaultPersonality) && Contains(doc, DefaultCapabilities) && Contains(doc, DefaultRules)
  {
    DefaultsWhenAbsent(None, None);
  }
}
