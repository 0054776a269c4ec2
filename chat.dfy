/** The chat panel's dispatcher: it classifies a message by ordered
    keyword rules and then lists a budget template (keeping it in the single
    pending-template slot), reports on the ledger, applies the pending
    template to the ledger, or hands the message to the language-model
    service. */
module Chat {
  import opened Util
  import opened Text
  import opened Ledger
  import opened Breakdown
  import opened Ollama

  // ---------------------------------------------------------------------
  // Template catalogs

  datatype TemplateItem = TemplateItem(category: string, subcategory: string, description: string, amount: int)

  datatype Template = Template(name: string, description: string, items: seq<TemplateItem>)

  const FeatureFilm: Template := Template(
    "Feature Film Budget Template",
    "Standard template for a feature film production",
    [ TemplateItem("Above the Line", "Director", "Director Fee", 150000),
      TemplateItem("Above the Line", "Producer", "Producer Fee", 100000),
      TemplateItem("Above the Line", "Cast", "Lead Actor", 500000),
      TemplateItem("Production", "Equipment", "Camera Package", 75000),
      TemplateItem("Production", "Location", "Location Fees", 50000),
      TemplateItem("Post-Production", "Editing", "Editor Fee", 60000),
      TemplateItem("Post-Production", "Visual Effects", "VFX Budget", 100000),
      TemplateItem("Other", "Insurance", "Production Insurance", 25000),
      TemplateItem("Contingency", "Emergency Fund", "Contingency Fund", 100000) ])

  const ShortFilm: Template := Template(
    "Short Film Budget Template",
    "Template for short film production",
    [ TemplateItem("Above the Line", "Director", "Director Fee", 5000),
      TemplateItem("Production", "Equipment", "Camera Rental", 2000),
      TemplateItem("Production", "Location", "Location Fees", 1000),
      TemplateItem("Post-Production", "Editing", "Editor Fee", 3000),
      TemplateItem("Other", "Marketing", "Festival Submissions", 500) ])

  const Documentary: Template := Template(
    "Documentary Budget Template",
    "Template for documentary production",
    [ TemplateItem("Above the Line", "Director", "Director Fee", 30000),
      TemplateItem("Production", "Equipment", "Camera & Sound Equipment", 15000),
      TemplateItem("Production", "Transportation", "Travel Expenses", 10000),
      TemplateItem("Post-Production", "Editing", "Editor Fee", 25000),
      TemplateItem("Other", "Legal", "Clearance & Rights", 5000) ])

  /** The sum of a template's amounts. */
  function TemplateTotal(items: seq<TemplateItem>): int
  {
    if items == [] then 0 else items[0].amount + TemplateTotal(items[1..])
  }

  /** The three catalogs: nine feature-film lines summing to 1,160,000,
      five short-film lines summing to 11,500 and five documentary lines
      summing to 85,000. */
  lemma CatalogTotals()
    ensures |FeatureFilm.items| == 9 && TemplateTotal(FeatureFilm.items) == 1160000
    ensures |ShortFilm.items| == 5 && TemplateTotal(ShortFilm.items) == 11500
    ensures |Documentary.items| == 5 && TemplateTotal(Documentary.items) == 85000
  {
  }

  /** `generateBudgetTemplate(projectType)`: the catalog under that key; any
      other key gets the feature-film catalog. */
  function GenerateBudgetTemplate(projectType: string): (t: Template)
    ensures projectType == "short-film" ==> t == ShortFilm
    ensures projectType == "documentary" ==> t == Documentary
    ensures projectType != "short-film" && projectType != "documentary" ==> t == FeatureFilm
  {
    if projectType == "short-film" then ShortFilm
    else if projectType == "documentary" then Documentary
    else FeatureFilm
  }

  /** The catalog key a generation request asks for: "short" wins over
      "documentary", and everything else is a feature film. */
  function ProjectType(lower: string): (key: string)
    ensures key == "short-film" <==> Contains(lower, "short")
    ensures key == "documentary" <==> !Contains(lower, "short") && Contains(lower, "documentary")
    ensures key == "feature-film" <==> !Contains(lower, "short") && !Contains(lower, "documentary")
  {
    if Contains(lower, "short") then "short-film"
    else if Contains(lower, "documentary") then "documentary"
    else "feature-film"
  }

  // ---------------------------------------------------------------------
  // Classification

  datatype Intent = GenerateTemplate | Analyze | ApplyTemplate | Delegate

  /** The if-chain of `handleSendMessage` over the lower-cased input; the
      first matching rule wins. */
  function Classify(input: string): Intent
  {
    var lower := Lower(input);
    if AsksForTemplate(lower) then GenerateTemplate
    else if AsksForAnalysis(lower) then Analyze
    else if Contains(lower, "apply") || Contains(lower, "use template") then ApplyTemplate
    else Delegate
  }

  /** "use template" contains "template", so the second alternative of the
      apply rule never fires: such input is routed to generation. */
  lemma UseTemplateIsGeneration(input: string)
    requires Contains(Lower(input), "use template")
    ensures Classify(input) == GenerateTemplate
  {
    ContainsPart(Lower(input), "use template", 4, "template");
  }

  /** The apply branch is reached exactly when the input says "apply" and
      none of the four earlier keywords. */
  lemma ApplyRoute(input: string)
    ensures Classify(input) == ApplyTemplate <==>
      Contains(Lower(input), "apply") && !AsksForTemplate(Lower(input)) && !AsksForAnalysis(Lower(input))
  {
    if Contains(Lower(input), "use template") {
      UseTemplateIsGeneration(input);
    }
  }

  /** What reaches the language model contains none of "template",
      "create", "analyze" and "report"; so if the call fails, the offline
      reply is the recommendation list or the catch-all, never the other two. */
  lemma DelegatedFallback(input: string, reply: HttpReply)
    requires Classify(input) == Delegate
    ensures !(reply.Answered? && reply.ok) ==>
      (ResponseText(input, reply) == RecommendationsText <==> AsksForAdvice(Lower(input)))
      && (ResponseText(input, reply) == CatchAllText(input) <==> !AsksForAdvice(Lower(input)))
      && ResponseText(input, reply) != TemplateAdviceText
      && ResponseText(input, reply) != AnalysisRequestText
  {
    FallbackIdentifiesRule(input);
  }

  // ---------------------------------------------------------------------
  // Analysis

  /** What the analysis report shows, without its text formatting. */
  datatype Analysis = Analysis(
    totalBudget: int,
    totalSpent: int,
    variance: int,
    utilization: real,
    overBudgetLabel: bool,
    overrunAlert: bool,
    goodStatus: bool,
    breakdown: seq<CategoryRow>)

  /** `analyzeBudget`: the report repeats the ledger's three totals;
      utilization is spent as a percentage of a positive budget, else 0;
      the label says "over budget" for any variance >= 0; the overrun block
      appears only for a positive variance and the good-status block only
      for a negative one; the breakdown lists the categories with a positive
      summed amount. */
  function AnalyzeBudget(s: BudgetState): (a: Analysis)
    ensures a.totalBudget == s.totalBudget && a.totalSpent == s.totalActual && a.variance == s.totalVariance
    ensures s.totalBudget > 0 ==> a.utilization * s.totalBudget as real == s.totalActual as real * 100.0
    ensures s.totalBudget <= 0 ==> a.utilization == 0.0
    ensures a.overBudgetLabel <==> s.totalVariance >= 0
    ensures a.overrunAlert <==> s.totalVariance > 0
    ensures a.goodStatus <==> s.totalVariance < 0
    ensures a.breakdown == Rows(s.items, s.categories)
  {
    Analysis(
      s.totalBudget,
      s.totalActual,
      s.totalVariance,
      if s.totalBudget > 0 then (s.totalActual as real / s.totalBudget as real) * 100.0 else 0.0,
      s.totalVariance >= 0,
      s.totalVariance > 0,
      s.totalVariance < 0,
      Rows(s.items, s.categories))
  }

  /** On a consistent ledger whose items keep variance = actual - amount,
      the overrun block appears exactly when more was spent than budgeted,
      the good-status block exactly when less was, and at a balanced ledger
      neither appears although the label still reads "over budget". */
  lemma AnalysisMeaning(s: BudgetState)
    requires Consistent(s)
    requires forall i :: 0 <= i < |s.items| ==> s.items[i].variance == s.items[i].actual - s.items[i].amount
    ensures AnalyzeBudget(s).overrunAlert <==> s.totalActual > s.totalBudget
    ensures AnalyzeBudget(s).goodStatus <==> s.totalActual < s.totalBudget
    ensures s.totalActual == s.totalBudget ==>
      AnalyzeBudget(s).overBudgetLabel && !AnalyzeBudget(s).overrunAlert && !AnalyzeBudget(s).goodStatus
  {
    TotalVarianceIsDifference(s.items);
  }

  // ---------------------------------------------------------------------
  // Applying a template

  /** The ledger line `applyTemplate` makes from one template line: nothing
      spent yet, so the variance is minus the amount. */
  function TemplateLineItem(t: Template, item: TemplateItem, id: string, today: string): BudgetItem
  {
    BudgetItem(id, item.category, item.subcategory, item.description,
               item.amount, 0, -item.amount, "Template item from " + t.name, today)
  }

  /** The ledger lines of a whole template; `ids(k)` is the fresh id of the k-th. */
  function LineItems(t: Template, ids: nat -> string, today: string): (lines: seq<BudgetItem>)
    ensures |lines| == |t.items|
    ensures forall k :: 0 <= k < |lines| ==>
      lines[k].amount == t.items[k].amount && lines[k].actual == 0 && lines[k].variance == -t.items[k].amount
      && lines[k].category == t.items[k].category && lines[k].subcategory == t.items[k].subcategory
      && lines[k].description == t.items[k].description && lines[k].id == ids(k)
      && lines[k].notes == "Template item from " + t.name && lines[k].date == today
  {
    var lines := seq(|t.items|, k requires 0 <= k < |t.items| => TemplateLineItem(t, t.items[k], ids(k), today));
    assert forall k :: 0 <= k < |lines| ==> lines[k] == TemplateLineItem(t, t.items[k], ids(k), today);
    lines
  }

  /** One ADD_ITEM per template line, in template order. */
  function TemplateActions(t: Template, ids: nat -> string, today: string): (acts: seq<Action>)
    ensures |acts| == |t.items|
    ensures forall k :: 0 <= k < |acts| ==> acts[k] == AddItem(TemplateLineItem(t, t.items[k], ids(k), today))
  {
    var acts := seq(|t.items|, k requires 0 <= k < |t.items| => AddItem(TemplateLineItem(t, t.items[k], ids(k), today)));
    assert forall k :: 0 <= k < |acts| ==> acts[k] == AddItem(TemplateLineItem(t, t.items[k], ids(k), today));
    acts
  }

  lemma {:induction false} TemplateTotalSnoc(items: seq<TemplateItem>, n: nat)
    requires n < |items|
    ensures TemplateTotal(items[..n + 1]) == TemplateTotal(items[..n]) + items[n].amount
  {
    if n == 0 {
      assert items[..1][1..] == [];
    } else {
      assert items[..n + 1][1..] == items[1..][..n];
      assert items[..n][1..] == items[1..][..n - 1];
      TemplateTotalSnoc(items[1..], n - 1);
    }
  }

  /** After dispatching the first `n` template lines. */
  lemma {:induction false} ApplyPrefix(s: BudgetState, t: Template, ids: nat -> string, today: string, n: nat)
    requires n <= |t.items|
    ensures Run(s, TemplateActions(t, ids, today)[..n]).items == s.items + LineItems(t, ids, today)[..n]
    ensures Run(s, TemplateActions(t, ids, today)[..n]).totalBudget == s.totalBudget + TemplateTotal(t.items[..n])
    ensures Run(s, TemplateActions(t, ids, today)[..n]).totalActual == s.totalActual
    ensures Run(s, TemplateActions(t, ids, today)[..n]).totalVariance == s.totalVariance - TemplateTotal(t.items[..n])
    ensures Run(s, TemplateActions(t, ids, today)[..n]).categories == s.categories
    ensures Run(s, TemplateActions(t, ids, today)[..n]).subcategories == s.subcategories
  {
    var acts := TemplateActions(t, ids, today);
    var lines := LineItems(t, ids, today);
    if n == 0 {
      assert acts[..0] == [];
      assert lines[..0] == [];
      assert t.items[..0] == [];
    } else {
      ApplyPrefix(s, t, ids, today, n - 1);
      assert acts[..n][..n - 1] == acts[..n - 1];
      assert lines[..n] == lines[..n - 1] + [lines[n - 1]];
      TemplateTotalSnoc(t.items, n - 1);
    }
  }

  /** `applyTemplate`: the template's lines are appended in order; the total
      budget rises by the template's sum, the total spent stays, the total
      variance falls by the sum, and the taxonomy is untouched. */
  lemma ApplyTemplateEffect(s: BudgetState, t: Template, ids: nat -> string, today: string)
    ensures Run(s, TemplateActions(t, ids, today)).items == s.items + LineItems(t, ids, today)
    ensures Run(s, TemplateActions(t, ids, today)).totalBudget == s.totalBudget + TemplateTotal(t.items)
    ensures Run(s, TemplateActions(t, ids, today)).totalActual == s.totalActual
    ensures Run(s, TemplateActions(t, ids, today)).totalVariance == s.totalVariance - TemplateTotal(t.items)
    ensures Run(s, TemplateActions(t, ids, today)).categories == s.categories
    ensures Run(s, TemplateActions(t, ids, today)).subcategories == s.subcategories
  {
    var acts := TemplateActions(t, ids, today);
    var lines := LineItems(t, ids, today);
    ApplyPrefix(s, t, ids, today, |t.items|);
    assert acts[..|acts|] == acts;
    assert t.items[..|t.items|] == t.items;
    assert lines[..|lines|] == lines;
  }

  // ---------------------------------------------------------------------
  // One turn of the conversation

  datatype Role = User | Assistant

  /** A message's content: plain text, or one of the structured replies
      whose rendering to text is not modelled. */
  datatype Content =
    | Plain(text: string)
    | TemplateListing(template: Template)
    | AnalysisReport(analysis: Analysis)
    | TemplateApplied(count: nat)

  datatype Message = Message(role: Role, content: Content)

  const WelcomeText: string :=
    "\U{1F3AC} **Welcome to Movie Magic Budgeting AI!**\n\n"
    + "I'm here to help you with your movie budgeting needs. I can:\n\n"
    + "• **Create budget templates** for different types of projects\n"
    + "• **Analyze your current budget** and provide recommendations\n"
    + "• **Suggest optimizations** based on industry standards\n"
    + "• **Help with category organization** and expense tracking\n"
    + "• **Generate reports** and insights\n\n"
    + "What would you like to work on today?"

  const NoTemplateText: string := "\U{274C} No template available to apply. Please create a template first."

  const ApologyText: string :=
    "I apologize, but I'm having trouble processing your request right now. "
    + "Please try again or ask me something else about movie budgeting."

  /** The outcome of the branch a message takes: the reply, the ledger
      after it and the pending-template slot after it. */
  datatype Turn = Turn(reply: Content, ledger: BudgetState, slot: Option<Template>)

  /** What `handleSendMessage`'s branches do with a non-blank message. */
  function Respond(input: string, ledger: BudgetState, slot: Option<Template>,
                   reply: HttpReply, ids: nat -> string, today: string): Turn
  {
    match Classify(input)
    case GenerateTemplate =>
      var t := GenerateBudgetTemplate(ProjectType(Lower(input)));
      Turn(TemplateListing(t), ledger, Some(t))
    case Analyze =>
      Turn(AnalysisReport(AnalyzeBudget(ledger)), ledger, slot)
    case ApplyTemplate =>
      if slot.None? then Turn(Plain(NoTemplateText), ledger, None)
      else Turn(TemplateApplied(|slot.value.items|), Run(ledger, TemplateActions(slot.value, ids, today)), None)
    case Delegate =>
      Turn(Plain(ResponseText(input, reply)), ledger, slot)
  }

  /** No turn breaks the ledger invariant. */
  lemma RespondKeepsLedgerConsistent(input: string, ledger: BudgetState, slot: Option<Template>,
                                     reply: HttpReply, ids: nat -> string, today: string)
    requires Consistent(ledger)
    ensures Consistent(Respond(input, ledger, slot, reply, ids, today).ledger)
  {
    if Classify(input) == ApplyTemplate && slot.Some? {
      RunPreservesConsistent(ledger, TemplateActions(slot.value, ids, today));
    }
  }

  /** Generation stores the chosen catalog in the slot, whatever was there,
      and leaves the ledger alone; applying with an empty slot answers the
      fixed no-template text and changes nothing. */
  lemma SlotLifecycle(input: string, ledger: BudgetState, slot: Option<Template>,
                      reply: HttpReply, ids: nat -> string, today: string)
    ensures Classify(input) == GenerateTemplate ==>
      Respond(input, ledger, slot, reply, ids, today) ==
        Turn(TemplateListing(GenerateBudgetTemplate(ProjectType(Lower(input)))), ledger,
             Some(GenerateBudgetTemplate(ProjectType(Lower(input)))))
    ensures Classify(input) == ApplyTemplate && slot.None? ==>
      Respond(input, ledger, slot, reply, ids, today) == Turn(Plain(NoTemplateText), ledger, None)
    ensures Classify(input) == ApplyTemplate ==>
      Respond(input, ledger, slot, reply, ids, today).slot == None
  {
  }

  /** Asking for a short-film template and then to apply it adds exactly the
      five short-film lines, each with nothing spent and variance -amount,
      raises the budget by 11,500 and empties the slot, so applying once
      more only answers the no-template text. */
  lemma ShortFilmScenario(ask: string, apply: string, again: string, ledger: BudgetState,
                          slot: Option<Template>, reply: HttpReply, ids: nat -> string, today: string)
    requires Classify(ask) == GenerateTemplate && Contains(Lower(ask), "short")
    requires Classify(apply) == ApplyTemplate && Classify(again) == ApplyTemplate
    ensures var first := Respond(ask, ledger, slot, reply, ids, today);
            var second := Respond(apply, first.ledger, first.slot, reply, ids, today);
            var third := Respond(again, second.ledger, second.slot, reply, ids, today);
            && |second.ledger.items| == |ledger.items| + 5
            && second.ledger.items[..|ledger.items|] == ledger.items
            && (forall k :: |ledger.items| <= k < |second.ledger.items| ==>
                  second.ledger.items[k].actual == 0 && second.ledger.items[k].variance == -second.ledger.items[k].amount)
            && second.ledger.totalBudget == ledger.totalBudget + 11500
            && second.ledger.totalActual == ledger.totalActual
            && second.reply == TemplateApplied(5)
            && second.slot == None
            && third == Turn(Plain(NoTemplateText), second.ledger, None)
  {
    CatalogTotals();
    assert ProjectType(Lower(ask)) == "short-film";
    var first := Respond(ask, ledger, slot, reply, ids, today);
    assert first == Turn(TemplateListing(ShortFilm), ledger, Some(ShortFilm));
    ApplyTemplateEffect(ledger, ShortFilm, ids, today);
    var after := Run(ledger, TemplateActions(ShortFilm, ids, today));
    var second := Respond(apply, first.ledger, first.slot, reply, ids, today);
    assert second == Turn(TemplateApplied(5), after, None);
    var lines := LineItems(ShortFilm, ids, today);
    assert after.items == ledger.items + lines;
    assert after.items[..|ledger.items|] == ledger.items;
    forall k | |ledger.items| <= k < |after.items|
      ensures after.items[k].actual == 0 && after.items[k].variance == -after.items[k].amount
    {
      assert after.items[k] == lines[k - |ledger.items|];
    }
  }

  // ---------------------------------------------------------------------
  // The chat component

  /** The chat component's state: the message log, the draft in the input
      box, the busy flag and the pending-template slot, beside the shared
      ledger store and the language-model service. */
  class ChatSession {
    const store: Store
    const ollama: OllamaService
    var messages: seq<Message>
    var draft: string
    var isLoading: bool
    var pendingTemplate: Option<Template>

    /** A fresh panel shows only the welcome message; the slot holds
        whatever an earlier session left in browser storage. */
    constructor (store: Store, ollama: OllamaService, storedTemplate: Option<Template>)
      ensures this.store == store && this.ollama == ollama
      ensures messages == [Message(Assistant, Plain(WelcomeText))]
      ensures draft == "" && !isLoading && pendingTemplate == storedTemplate
    {
      this.store := store;
      this.ollama := ollama;
      messages := [Message(Assistant, Plain(WelcomeText))];
      draft := "";
      isLoading := false;
      pendingTemplate := storedTemplate;
    }

    /** `setInput`: typing into the box. */
    method SetInput(text: string)
      modifies this
      ensures draft == text
      ensures messages == old(messages) && isLoading == old(isLoading) && pendingTemplate == old(pendingTemplate)
    {
      draft := text;
    }

    /** `applyTemplate`: one ADD_ITEM dispatch per template line, in order. */
    method ApplyTemplate(t: Template, ids: nat -> string, today: string)
      modifies store
      ensures store.state == Run(old(store.state), TemplateActions(t, ids, today))
    {
      var acts := TemplateActions(t, ids, today);
      var i := 0;
      while i < |t.items|
        invariant 0 <= i <= |t.items|
        invariant store.state == Run(old(store.state), acts[..i])
      {
        var line := TemplateLineItem(t, t.items[i], ids(i), today);
        store.Dispatch(AddItem(line));
        assert acts[i] == AddItem(line);
        assert acts[..i + 1][..i] == acts[..i];
        i := i + 1;
      }
      assert acts[..|t.items|] == acts;
    }

    /** `handleSendMessage`. A blank draft, or a send while busy, changes
        nothing. Otherwise the draft is logged as the user's message and
        cleared, the branch chosen by `Classify` runs, its reply is logged
        as the assistant's message, and the panel is no longer busy. An
        exception escaping a branch (`crashed`) is answered with the fixed
        apology and leaves ledger and slot as they were. */
    method HandleSendMessage(reply: HttpReply, crashed: bool, ids: nat -> string, today: string)
      modifies this, store
      ensures IsBlank(old(draft)) || old(isLoading) ==>
        messages == old(messages) && draft == old(draft) && isLoading == old(isLoading)
        && pendingTemplate == old(pendingTemplate) && store.state == old(store.state)
      ensures !IsBlank(old(draft)) && !old(isLoading) ==>
        draft == "" && !isLoading && |messages| == |old(messages)| + 2
        && messages[..|old(messages)|] == old(messages)
        && messages[|old(messages)|] == Message(User, Plain(old(draft)))
        && messages[|old(messages)| + 1].role == Assistant
      ensures !IsBlank(old(draft)) && !old(isLoading) && crashed ==>
        messages[|old(messages)| + 1] == Message(Assistant, Plain(ApologyText))
        && pendingTemplate == old(pendingTemplate) && store.state == old(store.state)
      ensures !IsBlank(old(draft)) && !old(isLoading) && !crashed ==>
        var turn := Respond(old(draft), old(store.state), old(pendingTemplate), reply, ids, today);
        messages[|old(messages)| + 1] == Message(Assistant, turn.reply)
        && store.state == turn.ledger && pendingTemplate == turn.slot
    {
      if IsBlank(draft) || isLoading {
        return;
      }
      var input := draft;
      messages := messages + [Message(User, Plain(input))];
      draft := "";
      isLoading := true;

      var content: Content;
      if crashed {
        content := Plain(ApologyText);
      } else {
        var lower := Lower(input);
        if Contains(lower, "template") || Contains(lower, "create") {
          var t := GenerateBudgetTemplate(ProjectType(lower));
          content := TemplateListing(t);
          pendingTemplate := Some(t);
        } else if Contains(lower, "analyze") || Contains(lower, "report") {
          content := AnalysisReport(AnalyzeBudget(store.state));
        } else if Contains(lower, "apply") || Contains(lower, "use template") {
          if pendingTemplate.Some? {
            var t := pendingTemplate.value;
            ApplyTemplate(t, ids, today);
            content := TemplateApplied(|t.items|);
            pendingTemplate := None;
          } else {
            content := Plain(NoTemplateText);
          }
        } else {
          var _, text := ollama.GenerateResponse(input, None, reply);
          content := Plain(text);
        }
      }
      messages := messages + [Message(Assistant, content)];
      isLoading := false;
    }
  }
}
