/**
 * The prompt generator: from a user-intent record and a template document it renders
 * one prompt per step of the template's prompt sequence, in the sequence's order. All
 * steps share one context string assembled from the template's context fragments, the
 * experience modifier for the user's level and the technology instruction.
 */
module PromptEngine {
  import opened Wrappers
  import opened Text
  import opened Interpolation

  /** One stage of the prompt sequence, as the template document defines it. */
  datatype StepSpec = StepSpec(
    step: int,
    stage: string,
    role: string,
    objective: string,
    instructions: seq<string>,
    constraints: seq<string>,
    outputFormat: seq<string>)

  /** The context fragments: a base text, a modifier per experience level, optional constraints. */
  datatype ContextTemplate = ContextTemplate(
    base: string,
    experienceModifier: map<string, string>,
    constraintsModifier: Option<string>)

  /** The two canonical technology instructions: the AI decides, or the user has chosen. */
  datatype TechnologyRule = TechnologyRule(aiDecides: string, userSelects: string)

  /** The template document, supplied as a value instead of being loaded from disk. */
  datatype Template = Template(
    context: ContextTemplate,
    technologyRule: TechnologyRule,
    wrapper: seq<string>,
    sequence: seq<StepSpec>)

  /** The user-intent record; every field may be missing. */
  datatype UserInput = UserInput(
    applicationType: Option<string>,
    experienceLevel: Option<string>,
    technologyPreference: Option<string>,
    selectedStack: Option<string>)

  /** One rendered prompt of the output list. */
  datatype RenderedPrompt = RenderedPrompt(stepNumber: int, stage: string, role: string, content: string)

  const InvalidInput := "Invalid user input"
  const LetAiDecide := "let_ai_decide"
  const StackFallback := "As defined in architecture"
  const SelectedLeadIn := "User selected tech: "

  /** JavaScript truthiness of an optional string: present and not empty. */
  predicate Present(o: Option<string>)
  {
    o.Some? && o.value != ""
  }

  /** The guard of the generator: the record exists and names an application type and a level. */
  predicate Accepted(input: Option<UserInput>)
  {
    input.Some? && Present(input.value.applicationType) && Present(input.value.experienceLevel)
  }

  /** The modifier text for an experience level; "" for a level the template does not know. */
  function ExperienceModifier(c: ContextTemplate, level: string): string
  {
    if level in c.experienceModifier then c.experienceModifier[level] else ""
  }

  /** The stack the user named, or the fallback phrase when none was given. */
  function StackName(stack: Option<string>): string
  {
    if Present(stack) then stack.value else StackFallback
  }

  /** The technology instruction for a preference: only exactly "let_ai_decide" selects the first form. */
  function TechInstruction(rule: TechnologyRule, preference: Option<string>, stack: Option<string>): string
  {
    if preference == Some(LetAiDecide) then rule.aiDecides
    else SelectedLeadIn + StackName(stack) + ". " + rule.userSelects
  }

  /** The constraints modifier, or "" when the template has none. */
  function ConstraintsText(c: ContextTemplate): string
  {
    if c.constraintsModifier.Some? then c.constraintsModifier.value else ""
  }

  /** The four context fragments joined with single spaces, before interpolation. */
  function RawContext(t: Template, u: UserInput): string
    requires Present(u.experienceLevel)
  {
    Join([t.context.base,
          ExperienceModifier(t.context, u.experienceLevel.value),
          TechInstruction(t.technologyRule, u.technologyPreference, u.selectedStack),
          ConstraintsText(t.context)], " ")
  }

  /** The shared context string: the raw context interpolated with the application type only. */
  function Context(t: Template, u: UserInput): string
    requires Present(u.applicationType) && Present(u.experienceLevel)
  {
    Interpolate(Some(RawContext(t, u)), map["application_type" := u.applicationType.value])
  }

  /** Every entry prefixed by a dash and a space, in order. */
  function Dashed(xs: seq<string>): seq<string>
  {
    seq(|xs|, i requires 0 <= i < |xs| => "- " + xs[i])
  }

  /** A list rendered as a block of `- entry` lines. */
  function Bullets(xs: seq<string>): string
  {
    Join(Dashed(xs), "\n")
  }

  /** The per-step data mapping the wrapper is interpolated against. */
  function StepData(s: StepSpec, context: string): map<string, string>
  {
    map["role" := s.role,
        "context" := context,
        "objective" := s.objective,
        "instructions" := Bullets(s.instructions),
        "constraints" := Bullets(s.constraints),
        "output_format" := Bullets(s.outputFormat)]
  }

  /** The body of one prompt: the wrapper lines joined by newlines, interpolated for the step. */
  function Content(t: Template, s: StepSpec, context: string): string
  {
    Interpolate(Some(Join(t.wrapper, "\n")), StepData(s, context))
  }

  /** The prompt rendered for one step. */
  function Render(t: Template, s: StepSpec, context: string): RenderedPrompt
  {
    RenderedPrompt(s.step, s.stage, s.role, Content(t, s, context))
  }

  /** Renders every step spec in order against one shared context. */
  function RenderAll(t: Template, steps: seq<StepSpec>, context: string): (r: seq<RenderedPrompt>)
    ensures |r| == |steps|
    ensures forall i :: 0 <= i < |steps| ==> r[i] == Render(t, steps[i], context)
    decreases |steps|
  {
    if |steps| == 0 then [] else [Render(t, steps[0], context)] + RenderAll(t, steps[1..], context)
  }

  /**
   * `generatePrompts`: fails with "Invalid user input" when the record is missing or lacks an
   * application type or an experience level; otherwise renders one prompt per step spec,
   * in the template's order, each carrying the spec's step number, stage and role.
   */
  function GeneratePrompts(t: Template, input: Option<UserInput>): (r: Result<seq<RenderedPrompt>, string>)
    ensures r.Failure? <==> !Accepted(input)
    ensures r.Failure? ==> r.error == InvalidInput
    ensures r.Success? ==> |r.value| == |t.sequence|
    ensures r.Success? ==> forall i :: 0 <= i < |t.sequence| ==>
      && r.value[i].stepNumber == t.sequence[i].step
      && r.value[i].stage == t.sequence[i].stage
      && r.value[i].role == t.sequence[i].role
      && r.value[i].content == Content(t, t.sequence[i], Context(t, input.value))
  {
    if !Accepted(input) then Failure(InvalidInput)
    else Success(RenderAll(t, t.sequence, Context(t, input.value)))
  }

  /**
   * The raw context is the four fragments with a single space after each of the first
   * three, so an empty experience modifier still leaves its separator behind.
   */
  lemma ContextLayout(t: Template, u: UserInput)
    requires Present(u.experienceLevel)
    ensures RawContext(t, u)
         == t.context.base + " " + ExperienceModifier(t.context, u.experienceLevel.value) + " "
            + TechInstruction(t.technologyRule, u.technologyPreference, u.selectedStack) + " "
            + ConstraintsText(t.context)
  {
    JoinFour(t.context.base, ExperienceModifier(t.context, u.experienceLevel.value),
             TechInstruction(t.technologyRule, u.technologyPreference, u.selectedStack),
             ConstraintsText(t.context), " ");
  }

  /**
   * An experience level the template does not know does not make generation fail; the
   * modifier contributes an empty segment, leaving two adjacent spaces after the base.
   */
  lemma UnknownLevelTolerated(t: Template, u: UserInput)
    requires Accepted(Some(u)) && u.experienceLevel.value !in t.context.experienceModifier
    ensures GeneratePrompts(t, Some(u)).Success?
    ensures RawContext(t, u)
         == t.context.base + "  " + TechInstruction(t.technologyRule, u.technologyPreference, u.selectedStack)
            + " " + ConstraintsText(t.context)
  {
    ContextLayout(t, u);
    assert t.context.base + " " + "" + " " == t.context.base + "  ";
  }

  /**
   * The technology instruction is the AI-decides rule verbatim for exactly the preference
   * "let_ai_decide"; any other preference, a missing one included, names the chosen stack
   * (or the fallback phrase) ahead of the user-selects rule.
   */
  lemma TechnologyBranches(rule: TechnologyRule, preference: Option<string>, stack: Option<string>)
    ensures preference == Some("let_ai_decide") ==> TechInstruction(rule, preference, stack) == rule.aiDecides
    ensures preference != Some("let_ai_decide") && Present(stack) ==>
      TechInstruction(rule, preference, stack) == "User selected tech: " + stack.value + ". " + rule.userSelects
    ensures preference != Some("let_ai_decide") && !Present(stack) ==>
      TechInstruction(rule, preference, stack)
        == "User selected tech: " + "As defined in architecture" + ". " + rule.userSelects
  {
  }

  /**
   * The selected stack is not checked: an accepted record that chose "user_selected" but
   * named no stack is still rendered, with the fallback phrase in its context.
   */
  lemma UnvalidatedStack(t: Template, u: UserInput)
    requires Accepted(Some(u)) && u.technologyPreference == Some("user_selected") && !Present(u.selectedStack)
    ensures GeneratePrompts(t, Some(u)).Success?
    ensures TechInstruction(t.technologyRule, u.technologyPreference, u.selectedStack)
         == "User selected tech: " + "As defined in architecture" + ". " + t.technologyRule.userSelects
  {
  }

  /** Prefixing distributes over concatenation of lists. */
  lemma DashedConcat(xs: seq<string>, ys: seq<string>)
    ensures Dashed(xs + ys) == Dashed(xs) + Dashed(ys)
  {
  }

  /**
   * The bullet block: "" for no entries, `- x` for one, and the blocks of two consecutive
   * parts joined by a newline, so every entry keeps its input position.
   */
  lemma BulletsShape(xs: seq<string>, ys: seq<string>, x: string)
    ensures Bullets([]) == ""
    ensures Bullets([x]) == "- " + x
    ensures |xs| > 0 && |ys| > 0 ==> Bullets(xs + ys) == Bullets(xs) + "\n" + Bullets(ys)
  {
    assert Dashed([x]) == ["- " + x];
    if |xs| > 0 && |ys| > 0 {
      DashedConcat(xs, ys);
      JoinConcat(Dashed(xs), Dashed(ys), "\n");
    }
  }

  /** Every key of the per-step mapping is a name a placeholder token can carry. */
  lemma StepKeysAreNames(s: StepSpec, context: string)
    ensures forall key :: key in StepData(s, context) ==> IsName(key)
  {
    KeyNames();
  }

  /** The six field names are well-formed placeholder names. */
  lemma KeyNames()
    ensures IsName("role") && IsName("context") && IsName("objective")
    ensures IsName("instructions") && IsName("constraints") && IsName("output_format")
  {
  }

  /**
   * A field of the step mapping is inserted verbatim where its token stands in the wrapper,
   * wherever that is and whatever comes before it, tokens inside the inserted text
   * included: the context string's unresolved `{{...}}` reach the prompt body unchanged.
   */
  lemma FieldVerbatim(t: Template, s: StepSpec, context: string, p: string, key: string, q: string)
    requires key in StepData(s, context)
    requires Join(t.wrapper, "\n") == p + ("{{" + key + "}}" + q)
    ensures var data := StepData(s, context);
      Content(t, s, context) == Substitute(p, data) + (data[key] + Substitute(q, data))
  {
    StepKeysAreNames(s, context);
    TokenAnywhere(p, key, q, StepData(s, context));
  }

  /** The six keys of the per-step mapping and the text each one holds. */
  lemma StepDataFields(s: StepSpec, context: string)
    ensures var data := StepData(s, context);
      && "role" in data && data["role"] == s.role
      && "context" in data && data["context"] == context
      && "objective" in data && data["objective"] == s.objective
      && "instructions" in data && data["instructions"] == Bullets(s.instructions)
      && "constraints" in data && data["constraints"] == Bullets(s.constraints)
      && "output_format" in data && data["output_format"] == Bullets(s.outputFormat)
  {
  }

  /** The four-line layout against any mapping that gives the four keys their texts. */
  lemma FourLines(a: string, b: string, c: string, d: string, data: map<string, string>,
                  role: string, context: string, objective: string, instructions: string)
    requires '{' !in a && '{' !in b && '{' !in c && '{' !in d
    requires "role" in data && data["role"] == role && "context" in data && data["context"] == context
    requires "objective" in data && data["objective"] == objective
    requires "instructions" in data && data["instructions"] == instructions
    ensures Substitute(Join([a + "{{role}}", b + "{{context}}", c + "{{objective}}", d + "{{instructions}}"], "\n"), data)
         == Join([a + role, b + context, c + objective, d + instructions], "\n")
  {
    KeyNames();
    var nb, nc, nd := "\n" + b, "\n" + c, "\n" + d;
    assert '{' !in nb && '{' !in nc && '{' !in nd;
    var t1, t2, t3, t4 := "{{role}}", "{{context}}", "{{objective}}", "{{instructions}}";
    assert t1 == "{{" + "role" + "}}" && t2 == "{{" + "context" + "}}";
    assert t3 == "{{" + "objective" + "}}" && t4 == "{{" + "instructions" + "}}" + "";
    var rest := nc + (t3 + (nd + t4));
    assert Substitute(rest, data) == nc + (objective + (nd + (instructions + ""))) by {
      TwoSegments(nc, "objective", nd, "instructions", "", data);
    }
    assert Substitute(a + (t1 + (nb + (t2 + rest))), data)
        == a + (role + (nb + (context + Substitute(rest, data)))) by {
      TwoSegments(a, "role", nb, "context", rest, data);
    }
    assert instructions + "" == instructions;
    assert Join([a + t1, b + t2, c + t3, d + t4], "\n") == a + (t1 + (nb + (t2 + rest))) by {
      JoinFourLines(a, t1, b, t2, c, t3, d, t4);
    }
    JoinFourLines(a, role, b, context, c, objective, d, instructions);
  }

  /**
   * A wrapper of four labelled lines ending in `{{role}}`, `{{context}}`, `{{objective}}`
   * and `{{instructions}}` renders, line for line and in order, as the labels followed by
   * the step's role, the shared context, the objective and the bullet block of instructions.
   */
  lemma FourLineWrapper(t: Template, s: StepSpec, context: string, a: string, b: string, c: string, d: string)
    requires '{' !in a && '{' !in b && '{' !in c && '{' !in d
    requires t.wrapper == [a + "{{role}}", b + "{{context}}", c + "{{objective}}", d + "{{instructions}}"]
    ensures Content(t, s, context)
         == Join([a + s.role, b + context, c + s.objective, d + Bullets(s.instructions)], "\n")
  {
    StepDataFields(s, context);
    FourLines(a, b, c, d, StepData(s, context), s.role, context, s.objective, Bullets(s.instructions));
  }

  /**
   * A single-step scenario, for any labels without `{`: an accepted record
   * and a template with one step and a four-line wrapper give exactly one prompt, carrying
   * the step's number, stage and role, whose body is the four labelled lines in order.
   */
  lemma SingleStepScenario(t: Template, u: UserInput, s: StepSpec, a: string, b: string, c: string, d: string)
    requires Accepted(Some(u)) && t.sequence == [s]
    requires '{' !in a && '{' !in b && '{' !in c && '{' !in d
    requires t.wrapper == [a + "{{role}}", b + "{{context}}", c + "{{objective}}", d + "{{instructions}}"]
    ensures GeneratePrompts(t, Some(u)) == Success([RenderedPrompt(s.step, s.stage, s.role,
      Join([a + s.role, b + Context(t, u), c + s.objective, d + Bullets(s.instructions)], "\n"))])
  {
    var r := GeneratePrompts(t, Some(u));
    var ctx := Context(t, u);
    FourLineWrapper(t, s, ctx, a, b, c, d);
    var p := RenderedPrompt(s.step, s.stage, s.role,
      Join([a + s.role, b + ctx, c + s.objective, d + Bullets(s.instructions)], "\n"));
    assert t.sequence[0] == s;
    assert |r.value| == 1 && r.value[0] == p;
    assert r.value == [p];
  }

  /**
   * The context is interpolated with the application type only: a base that opens with
   * any other token keeps that token literally at the front of the shared context.
   */
  lemma ContextKeepsOtherTokens(t: Template, u: UserInput, k: string, rest: string)
    requires Present(u.applicationType) && Present(u.experienceLevel)
    requires IsName(k) && k != "application_type" && t.context.base == "{{" + k + "}}" + rest
    ensures |Context(t, u)| >= |k| + 4 && Context(t, u)[..|k| + 4] == "{{" + k + "}}"
  {
    var data := map["application_type" := u.applicationType.value];
    var tok := "{{" + k + "}}";
    var raw := RawContext(t, u);
    ContextLayout(t, u);
    var tail := raw[|tok|..];
    assert raw[..|tok|] == tok by {
      assert raw == t.context.base + (raw[|t.context.base|..]);
    }
    assert raw == tok + tail;
    assert k !in data;
    TokenPrefix(k, tail, data);
    assert Context(t, u) == tok + Substitute(tail, data);
  }
}
