/**
  `PersonalityEngine`: a fixed catalog of persona instructions and the
  system prompt that combines the selected instruction with a dossier
  rendered from the user's profile.

  The prompt is a pure function of the persona name and the profile; a
  read-back function recovers the instruction and the three lists from a
  composed prompt, which shows that nothing in the prompt is lost or mixed
  up as long as the profile's items are plain (non-empty, without commas
  or line breaks).
 */
module Persona {
  import opened Wrappers
  import opened Models

  // ---- The catalog ----

  const WittyFriend: string := "Witty Friend"
  const CalmMentor: string := "Calm Mentor"
  const EmpatheticTherapist: string := "Empathetic Therapist"
  const IndianMom: string := "Indian Mom"

  const WittyFriendInstruction: string :=
    "You are my savage, unfiltered bestie \U{2014} think a mix of Deadpool-level sarcasm and Gen-Z " +
    "roast energy. You roast me mercilessly when I deserve it, drop truth bombs without " +
    "sugarcoating, and use heavy slang (lol, fr, bet, no cap, deadass, tea, periodt, " +
    "slay/yikes). Emojis are mandatory \U{2014} spam them for vibe. Responses must be short, punchy " +
    "(1-4 sentences max), chaotic, and feel like chaotic late-night texts. Never be polite or " +
    "motivational unless mocking it. Be brutally honest even if it stings."

  const CalmMentorInstruction: string :=
    "You are an ancient Stoic sage \U{2014} a timeless mentor blending Marcus Aurelius' unflinching " +
    "wisdom, Epictetus' discipline, and Seneca's clarity. Speak only in calm, profound, " +
    "measured prose: short paragraphs, elevated language, no contractions, no slang ever. " +
    "Focus relentlessly on dichotomy of control, long-term virtue, and turning obstacles into " +
    "growth. End every response with a relevant Stoic quote (real or in spirit). Never offer " +
    "quick fixes or empathy fluff \U{2014} guide toward self-mastery."

  const EmpatheticTherapistInstruction: string :=
    "You are an elite clinical psychologist and master therapist \U{2014} deeply trained in CBT and " +
    "ACT. Use advanced active listening: always start by fully validating and reflecting " +
    "feelings. Ask one thoughtful, open-ended question per response to deepen exploration. " +
    "Prioritize emotional processing over solutions \U{2014} hold space, mirror nuances, gently " +
    "challenge distortions only after full validation. Stay warm, non-judgmental, and present; " +
    "never rush to advice. Use precise therapeutic phrasing naturally."

  const IndianMomInstruction: string :=
    "You are my ultimate overprotective Indian mom. You DO NOT care about my job, code, boss, " +
    "deadlines, servers, APIs, bugs, or career \U{2014} zero, nada. No matter what I say, you MUST " +
    "instantly pivot to ONLY these three things: 1. Have I eaten properly? (Freak out if I " +
    "haven't. Offer specific comforting desi foods like biryani, aloo paratha, warm doodh, cut " +
    "fruits). 2. Am I sleeping enough? (Blame the laptop/phone for ruining my health/eyes. " +
    "Order me to sleep RIGHT NOW). 3. Dismiss my boss (Steve) as a total nuisance who doesn't " +
    "deserve me. You are funny, overly dramatic, guilt-trippy, and shower me with love bombs. " +
    "Always use desi terms of endearment mixed with English: 'Beta', 'Mera beta', 'Sonu', " +
    "'Honey', 'Arre baba', 'Hayee'. Speak in classic mom sentence structure \U{2014} short dramatic " +
    "sentences, repetition for emphasis. End half your responses with 'I'm coming right now' " +
    "or 'I'm packing food'. Example: 'Arre beta server-verrer ki baat mat karo! Tumne khana " +
    "khaya ki nahi?? Woh Steve ko bol do beta, he doesn't even let you eat properly. Ignore " +
    "him!'"

  /** The persona catalog: name to instruction text. */
  const Personas: map<string, string> := map[
    WittyFriend := WittyFriendInstruction,
    CalmMentor := CalmMentorInstruction,
    EmpatheticTherapist := EmpatheticTherapistInstruction,
    IndianMom := IndianMomInstruction]

  /** The persona used for a name that is not in the catalog. */
  const DefaultPersona: string := WittyFriend

  /** The instruction of the named persona, or the default persona's when the name is not in the catalog. */
  function BaseInstruction(personaType: string): (r: string)
    ensures r in Personas.Values
  {
    if personaType in Personas then Personas[personaType] else Personas[DefaultPersona]
  }

  // ---- Rendering lists ----

  const ListSeparator: string := ", "

  /** Python's `sep.join(parts)`. */
  function Join(parts: seq<string>, sep: string): string {
    if |parts| == 0 then ""
    else if |parts| == 1 then parts[0]
    else parts[0] + sep + Join(parts[1..], sep)
  }

  /** A profile list as the dossier shows it. */
  function RenderList(xs: seq<string>): string {
    Join(xs, ListSeparator)
  }

  // ---- The dossier template ----

  /** The fixed text of the dossier block around its three list lines. */
  datatype DossierTemplate = DossierTemplate(
    intro: string,
    factsLabel: string,
    psychLabel: string,
    preferencesLabel: string,
    outro: string)

  const Dossier: DossierTemplate := DossierTemplate(
    "\n        [CONFIDENTIAL USER DOSSIER]\n" +
    "        The user you are speaking to has the following profile. " +
    "Use this to personalize your response implicitly.\n" +
    "        \n",
    "        - KNOWN FACTS: ",
    "        - PSYCH PROFILE: ",
    "        - PREFERENCES: ",
    "\n        \n" +
    "        INSTRUCTION: Combine your specific persona with the known facts above. \n" +
    "        If the user's input relates to a known fact or trigger, reference it in your specific voice.\n" +
    "        ")

  /** The separator between the instruction and the dossier. */
  const BlankLine: string := "\n\n"

  /** The template filled with three rendered lists: facts, then emotional patterns, then preferences, one labelled line each. */
  function Fill(t: DossierTemplate, facts: string, patterns: string, preferences: string): string {
    t.intro +
    t.factsLabel + facts + "\n" +
    t.psychLabel + patterns + "\n" +
    t.preferencesLabel + preferences +
    t.outro
  }

  /** The dossier block rendered from a profile. */
  function ContextBlock(memory: UserProfile): string {
    Fill(Dossier, RenderList(memory.facts), RenderList(memory.emotionalPatterns), RenderList(memory.preferences))
  }

  /** The engine holds the profile it was constructed with and only reads it. */
  datatype PersonalityEngine = PersonalityEngine(memory: UserProfile) {

    /** The selected instruction, a blank line, and the dossier rendered from `memory`. */
    function ConstructSystemPrompt(personaType: string): (r: string)
      ensures BaseInstruction(personaType) + BlankLine <= r
    {
      BaseInstruction(personaType) + BlankLine + ContextBlock(memory)
    }
  }

  // ---- Catalog properties ----

  /** The catalog holds exactly the four personas. */
  lemma CatalogHasFourPersonas()
    ensures Personas.Keys == {WittyFriend, CalmMentor, EmpatheticTherapist, IndianMom}
    ensures |Personas| == 4
  {
    assert |Personas.Keys| == 4;
  }

  /** A name in the catalog selects its own instruction. */
  lemma KnownPersonaSelectsOwnText(personaType: string)
    requires personaType in Personas
    ensures BaseInstruction(personaType) == Personas[personaType]
  {
  }

  /** A name outside the catalog selects the Witty Friend instruction rather than failing. */
  lemma UnknownPersonaFallsBack(personaType: string)
    requires personaType !in Personas
    ensures BaseInstruction(personaType) == WittyFriendInstruction
  {
  }

  // ---- Join ----

  /** An empty list renders as the empty string. */
  lemma JoinEmpty(sep: string)
    ensures Join([], sep) == ""
  {
  }

  /** A one-element list renders as that element, with no separator. */
  lemma JoinSingleton(x: string, sep: string)
    ensures Join([x], sep) == x
  {
  }

  /** Joining two non-empty lists is joining each and putting one separator between. */
  lemma {:induction false} JoinConcat(xs: seq<string>, ys: seq<string>, sep: string)
    requires |xs| > 0 && |ys| > 0
    ensures Join(xs + ys, sep) == Join(xs, sep) + sep + Join(ys, sep)
  {
    if |xs| == 1 {
      assert (xs + ys)[1..] == ys;
    } else {
      assert (xs + ys)[1..] == xs[1..] + ys;
      JoinConcat(xs[1..], ys, sep);
    }
  }

  /** A character that is in no element and not in the separator is not in the joined string. */
  lemma {:induction false} JoinAvoids(parts: seq<string>, sep: string, c: char)
    requires c !in sep
    requires forall i :: 0 <= i < |parts| ==> c !in parts[i]
    ensures c !in Join(parts, sep)
  {
    if |parts| > 1 {
      JoinAvoids(parts[1..], sep, c);
    }
  }

  /** The empty list and the list holding one empty string render alike. */
  lemma EmptyAndBlankRenderAlike()
    ensures RenderList([]) == RenderList([""])
  {
  }

  // ---- Reading a rendered list back ----

  /** The index of the first `c` in `s`, or `|s|` when there is none. */
  function IndexOf(s: string, c: char): (i: nat)
    ensures i <= |s|
    ensures i < |s| ==> s[i] == c
    ensures forall k :: 0 <= k < i ==> s[k] != c
  {
    if s == [] then 0
    else if s[0] == c then 0
    else 1 + IndexOf(s[1..], c)
  }

  /** Splits at each comma, dropping one space after it. */
  function SplitItems(s: string): seq<string>
    decreases |s|
  {
    var i := IndexOf(s, ',');
    if i == |s| then [s]
    else if i + 1 < |s| && s[i + 1] == ' ' then [s[..i]] + SplitItems(s[i + 2..])
    else [s[..i]] + SplitItems(s[i + 1..])
  }

  /** The list a dossier line shows. */
  function ReadList(line: string): seq<string> {
    if line == "" then [] else SplitItems(line)
  }

  /** An item that the dossier shows unambiguously: non-empty, with no comma and no line break. */
  predicate PlainItem(x: string) {
    x != "" && ',' !in x && '\n' !in x
  }

  predicate PlainItems(xs: seq<string>) {
    forall i :: 0 <= i < |xs| ==> PlainItem(xs[i])
  }

  lemma {:induction false} SplitJoin(xs: seq<string>)
    requires |xs| > 0 && forall i :: 0 <= i < |xs| ==> ',' !in xs[i]
    ensures SplitItems(Join(xs, ListSeparator)) == xs
  {
    var s := Join(xs, ListSeparator);
    var i := IndexOf(s, ',');
    if |xs| == 1 {
      assert s == xs[0];
    } else {
      var rest := Join(xs[1..], ListSeparator);
      assert s == xs[0] + ", " + rest;
      assert s[|xs[0]|] == ',';
      assert i == |xs[0]|;
      assert s[..i] == xs[0];
      assert s[i + 2..] == rest;
      SplitJoin(xs[1..]);
    }
  }

  /** Reading a rendered list of plain items gives the list back. */
  lemma ReadRenderedList(xs: seq<string>)
    requires PlainItems(xs)
    ensures ReadList(RenderList(xs)) == xs
  {
    if |xs| > 0 {
      assert |Join(xs, ListSeparator)| > 0 by {
        if |xs| > 1 {
          assert Join(xs, ListSeparator) == xs[0] + ListSeparator + Join(xs[1..], ListSeparator);
        }
      }
      SplitJoin(xs);
    }
  }

  // ---- Reading a composed prompt back ----

  /** What a composed prompt shows: the instruction and the three lists. */
  datatype PromptParts = PromptParts(
    instruction: string,
    facts: seq<string>,
    emotionalPatterns: seq<string>,
    preferences: seq<string>)

  /** The longest suffix of `s` without a line break. */
  function LastLine(s: string): (r: string)
    ensures |r| <= |s| && r == s[|s| - |r|..]
    ensures '\n' !in r
    ensures |r| < |s| ==> s[|s| - |r| - 1] == '\n'
  {
    if s == [] then []
    else if s[|s| - 1] == '\n' then []
    else LastLine(s[..|s| - 1]) + [s[|s| - 1]]
  }

  lemma LastLineAfterBreak(x: string, y: string)
    requires '\n' !in y
    requires x == [] || x[|x| - 1] == '\n'
    ensures LastLine(x + y) == y
  {
    var s := x + y;
    var r := LastLine(s);
    assert |r| == |y|;
    assert r == s[|x|..];
  }

  /** `s` without the given suffix, if it ends with it. */
  function DropSuffix(s: string, suffix: string): (r: Option<string>)
    ensures r.Some? ==> r.value + suffix == s
  {
    if |suffix| <= |s| && s[|s| - |suffix|..] == suffix then Some(s[..|s| - |suffix|]) else None
  }

  lemma DropSuffixOf(x: string, suffix: string)
    ensures DropSuffix(x + suffix, suffix) == Some(x)
  {
    assert (x + suffix)[|x|..] == suffix;
  }

  /** Splits off the last line, which must start with `heading`: what precedes it, and what follows the heading. */
  function ReadLabelledLine(s: string, heading: string): Option<(string, string)> {
    var line := LastLine(s);
    if heading <= line then Some((s[..|s| - |line|], line[|heading|..])) else None
  }

  lemma ReadLabelledLineOf(x: string, heading: string, content: string)
    requires '\n' !in heading && '\n' !in content
    requires x == [] || x[|x| - 1] == '\n'
    ensures ReadLabelledLine(x + (heading + content), heading) == Some((x, content))
  {
    var line := heading + content;
    assert '\n' !in line;
    LastLineAfterBreak(x, line);
    assert LastLine(x + line) == line;
    assert (x + line)[..|x + line| - |line|] == x;
    assert heading <= line;
    assert line[|heading|..] == content;
  }

  /** Reads a prompt from its end: the template's fixed text, each labelled line, and what remains is the instruction. */
  function ReadPromptWith(t: DossierTemplate, prompt: string): Option<PromptParts> {
    var s1 :- DropSuffix(prompt, t.outro);
    var prefs :- ReadLabelledLine(s1, t.preferencesLabel);
    var s3 :- DropSuffix(prefs.0, "\n");
    var patterns :- ReadLabelledLine(s3, t.psychLabel);
    var s5 :- DropSuffix(patterns.0, "\n");
    var facts :- ReadLabelledLine(s5, t.factsLabel);
    var instruction :- DropSuffix(facts.0, BlankLine + t.intro);
    Some(PromptParts(instruction, ReadList(facts.1), ReadList(patterns.1), ReadList(prefs.1)))
  }

  /** Reads a composed system prompt. */
  function ReadPrompt(prompt: string): Option<PromptParts> {
    ReadPromptWith(Dossier, prompt)
  }

  /** The template's labels hold no line break, and its intro ends with one. */
  predicate Readable(t: DossierTemplate) {
    && '\n' !in t.factsLabel && '\n' !in t.psychLabel && '\n' !in t.preferencesLabel
    && |t.intro| > 0 && t.intro[|t.intro| - 1] == '\n'
  }

  lemma DossierIsReadable()
    ensures Readable(Dossier)
  {
  }

  /** Reading a prompt assembled from an instruction and three rendered lines without line breaks. */
  lemma ReadFilledPrompt(t: DossierTemplate, instr: string, f: string, e: string, p: string)
    requires Readable(t)
    requires '\n' !in f && '\n' !in e && '\n' !in p
    ensures ReadPromptWith(t, instr + BlankLine + Fill(t, f, e, p))
         == Some(PromptParts(instr, ReadList(f), ReadList(e), ReadList(p)))
  {
    var s6 := instr + (BlankLine + t.intro);
    var s5 := s6 + (t.factsLabel + f);
    var s4 := s5 + "\n";
    var s3 := s4 + (t.psychLabel + e);
    var s2 := s3 + "\n";
    var s1 := s2 + (t.preferencesLabel + p);
    assert instr + BlankLine + Fill(t, f, e, p) == s1 + t.outro;
    DropSuffixOf(s1, t.outro);
    ReadLabelledLineOf(s2, t.preferencesLabel, p);
    DropSuffixOf(s3, "\n");
    ReadLabelledLineOf(s4, t.psychLabel, e);
    DropSuffixOf(s5, "\n");
    assert s6[|s6| - 1] == t.intro[|t.intro| - 1];
    ReadLabelledLineOf(s6, t.factsLabel, f);
    DropSuffixOf(instr, BlankLine + t.intro);
  }

  /**
    For a profile of plain items, the composed prompt can be read back into
    the selected instruction and the profile's three lists.
   */
  lemma ReadComposedPrompt(personaType: string, memory: UserProfile)
    requires PlainItems(memory.facts) && PlainItems(memory.emotionalPatterns) && PlainItems(memory.preferences)
    ensures ReadPrompt(PersonalityEngine(memory).ConstructSystemPrompt(personaType))
         == Some(PromptParts(BaseInstruction(personaType), memory.facts, memory.emotionalPatterns, memory.preferences))
  {
    JoinAvoids(memory.facts, ListSeparator, '\n');
    JoinAvoids(memory.emotionalPatterns, ListSeparator, '\n');
    JoinAvoids(memory.preferences, ListSeparator, '\n');
    ReadRenderedList(memory.facts);
    ReadRenderedList(memory.emotionalPatterns);
    ReadRenderedList(memory.preferences);
    DossierIsReadable();
    ReadFilledPrompt(Dossier, BaseInstruction(personaType), RenderList(memory.facts),
                     RenderList(memory.emotionalPatterns), RenderList(memory.preferences));
  }

  /** Two prompts composed from profiles of plain items are equal only if they select the same instruction and the profiles are equal. */
  lemma PromptDeterminesInputs(name1: string, memory1: UserProfile, name2: string, memory2: UserProfile)
    requires PlainItems(memory1.facts) && PlainItems(memory1.emotionalPatterns) && PlainItems(memory1.preferences)
    requires PlainItems(memory2.facts) && PlainItems(memory2.emotionalPatterns) && PlainItems(memory2.preferences)
    requires PersonalityEngine(memory1).ConstructSystemPrompt(name1) == PersonalityEngine(memory2).ConstructSystemPrompt(name2)
    ensures BaseInstruction(name1) == BaseInstruction(name2)
    ensures memory1 == memory2
  {
    ReadComposedPrompt(name1, memory1);
    ReadComposedPrompt(name2, memory2);
  }

  /** The empty profile composes into a dossier whose three lists are empty. */
  lemma EmptyProfilePrompt(personaType: string)
    ensures PersonalityEngine(EmptyProfile()).ConstructSystemPrompt(personaType)
         == BaseInstruction(personaType) + BlankLine + Fill(Dossier, "", "", "")
    ensures ReadPrompt(PersonalityEngine(EmptyProfile()).ConstructSystemPrompt(personaType))
         == Some(PromptParts(BaseInstruction(personaType), [], [], []))
  {
    ReadComposedPrompt(personaType, EmptyProfile());
  }
}
