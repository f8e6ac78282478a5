/** The proposal result page: it picks the proposal and the report HTML out
    of the generation result by fallback chains, then renders exactly one of
    a structured preview, the rendered report or a JSON dump. Text cells
    hold the JSON value React is given to display. */
module ProposalResult {
  import opened JsonValue

  const Dash := Str("—")

  // ---- selection -------------------------------------------------------------

  /** `res.proposal || res.refinedProposal || res.rfp?.generatedProposal || res.proposal` */
  function ProposalOf(res: Json): (r: Option<Json>)
    ensures IsTruthy(r) <==>
      IsTruthy(Get(res, "proposal")) || IsTruthy(Get(res, "refinedProposal"))
      || IsTruthy(Member(Get(res, "rfp"), "generatedProposal"))
    ensures IsTruthy(Get(res, "proposal")) ==> r == Get(res, "proposal")
    ensures !IsTruthy(Get(res, "proposal")) && IsTruthy(Get(res, "refinedProposal")) ==> r == Get(res, "refinedProposal")
    ensures !IsTruthy(Get(res, "proposal")) && !IsTruthy(Get(res, "refinedProposal")) ==>
              r == Or(Member(Get(res, "rfp"), "generatedProposal"), Get(res, "proposal"))
  {
    Or(Or(Or(Get(res, "proposal"), Get(res, "refinedProposal")), Member(Get(res, "rfp"), "generatedProposal")),
       Get(res, "proposal"))
  }

  /** `res.reportHtml || (res.rfp && res.rfp.reportHtml)` */
  function ReportHtmlOf(res: Json): (r: Option<Json>)
    ensures IsTruthy(r) <==> IsTruthy(Get(res, "reportHtml")) || IsTruthy(Member(Get(res, "rfp"), "reportHtml"))
    ensures IsTruthy(Get(res, "reportHtml")) ==> r == Get(res, "reportHtml")
    ensures !IsTruthy(Get(res, "reportHtml")) && IsTruthy(r) ==> r == Member(Get(res, "rfp"), "reportHtml")
  {
    Or(Get(res, "reportHtml"), And(Get(res, "rfp"), Member(Get(res, "rfp"), "reportHtml")))
  }

  /** `!!proposal && typeof proposal === "object"` */
  predicate HasStructured(proposal: Option<Json>) {
    IsTruthy(proposal) && IsObjectType(proposal.value)
  }

  /** `res?.rfp?._id || res?.rfp?.id || "n/a"` */
  function RfpId(res: Json): (r: Json)
    ensures Truthy(r)
    ensures !IsTruthy(Member(Get(res, "rfp"), "_id")) && !IsTruthy(Member(Get(res, "rfp"), "id")) ==> r == Str("n/a")
  {
    OrElse(Or(Member(Get(res, "rfp"), "_id"), Member(Get(res, "rfp"), "id")), Str("n/a"))
  }

  /** The status line: plain "Completed", or with a warnings note when
      `ok` is falsy. */
  function Status(res: Json): (r: string)
    ensures r == "Completed" || r == "Completed (with warnings)"
    ensures r == "Completed" <==> IsTruthy(Get(res, "ok"))
  {
    if IsTruthy(Get(res, "ok")) then "Completed" else "Completed (with warnings)"
  }

  // ---- the structured preview --------------------------------------------------

  /** `xs.map(item)`, aborting when rendering any element aborts. */
  function MapItems<T>(xs: seq<Json>, item: (Json, nat) -> Outcome<T>): (r: Outcome<seq<T>>)
    ensures r.Shown? <==> forall i :: 0 <= i < |xs| ==> item(xs[i], i).Shown?
    ensures r.Shown? ==> |r.value| == |xs| && forall i :: 0 <= i < |xs| ==> r.value[i] == item(xs[i], i).value
  {
    var rows := seq(|xs|, i requires 0 <= i < |xs| => item(xs[i], i));
    assert forall i :: 0 <= i < |xs| ==> rows[i] == item(xs[i], i);
    Collect(rows)
  }

  /** A list section that shows "—" when the list is empty. */
  datatype Listing<T> = DashOnly | Items(items: seq<T>)

  /** `(v || []).length === 0` of a value that is not an empty array or falsy:
      a non-empty string has a positive length, every other non-array reads
      `length` as a property. */
  predicate LengthIsZero(v: Json) {
    match v
    case Arr(items) => items == []
    case Obj(fields) => Lookup(fields, "length") == Some(Num(0))
    case _ => false
  }

  /** `(v || []).length === 0 ? "—" : (v || []).map(item)` */
  function DashOrItems<T>(v: Option<Json>, item: (Json, nat) -> Outcome<T>): (r: Outcome<Listing<T>>)
    ensures !IsTruthy(v) ==> r == Shown(DashOnly)
    ensures IsTruthy(v) && v.value.Arr? && v.value.items == [] ==> r == Shown(DashOnly)
    ensures IsTruthy(v) && v.value.Arr? && v.value.items != [] ==>
      (r.Shown? <==> forall i :: 0 <= i < |v.value.items| ==> item(v.value.items[i], i).Shown?)
    ensures r.Shown? && r.value.Items? ==>
      v.value.Arr? && |r.value.items| == |v.value.items| > 0 &&
      forall i :: 0 <= i < |v.value.items| ==> r.value.items[i] == item(v.value.items[i], i).value
    ensures IsTruthy(v) && !v.value.Arr? ==> (r.Shown? <==> LengthIsZero(v.value))
  {
    if !IsTruthy(v) || LengthIsZero(v.value) then Shown(DashOnly)
    else if v.value.Arr? then
      var rows := MapItems(v.value.items, item);
      if rows.Crash? then Crash else Shown(Items(rows.value))
    else Crash
  }

  /** An array's elements rendered by `item` (`Array.isArray(v) && v.map(item)`),
      not shown at all for a non-array. */
  function ArrayItems<T>(v: Option<Json>, item: (Json, nat) -> Outcome<T>): (r: Outcome<Option<seq<T>>>)
    ensures !(v.Some? && v.value.Arr?) ==> r == Shown(None)
    ensures v.Some? && v.value.Arr? ==>
      (r.Shown? <==> forall i :: 0 <= i < |v.value.items| ==> item(v.value.items[i], i).Shown?)
    ensures r.Shown? && r.value.Some? ==>
      v.Some? && v.value.Arr? && |r.value.value| == |v.value.items| &&
      forall i :: 0 <= i < |v.value.items| ==> r.value.value[i] == item(v.value.items[i], i).value
  {
    if v.Some? && v.value.Arr? then
      var rows := MapItems(v.value.items, item);
      if rows.Crash? then Crash else Shown(Some(rows.value))
    else Shown(None)
  }

  /** `(v || []).map(item)` */
  function ListItems<T>(v: Option<Json>, item: (Json, nat) -> Outcome<T>): (r: Outcome<seq<T>>)
    ensures ListOr(v).Crash? ==> r == Crash
    ensures ListOr(v).Shown? ==>
      (r.Shown? <==> forall i :: 0 <= i < |ListOr(v).value| ==> item(ListOr(v).value[i], i).Shown?)
    ensures r.Shown? ==>
      (ListOr(v).Shown? && |r.value| == |ListOr(v).value| &&
       forall i :: 0 <= i < |r.value| ==> r.value[i] == item(ListOr(v).value[i], i).value)
  {
    match ListOr(v)
    case Crash => Crash
    case Shown(xs) => MapItems(xs, item)
  }

  /** `<li>{x}</li>`: the element itself. */
  function Plain(x: Json, i: nat): Outcome<Json> {
    Shown(x)
  }

  /** `"REQ-" + (i + 1)`, `"Phase " + (i + 1)`, `"Component " + (i + 1)` */
  function Numbered(prefix: string, i: nat): Json {
    Str(prefix + NatToString(i + 1))
  }

  lemma NumberedTruthy(prefix: string, i: nat)
    ensures Truthy(Numbered(prefix, i))
  {
  }

  datatype MappingRow = MappingRow(id: Json, description: Json, mapping: Json)

  /** One requirement-mapping item; reading a field of a null item throws. */
  function MappingItem(r: Json, i: nat): (row: Outcome<MappingRow>)
    ensures row.Crash? <==> r.Null?
    ensures row.Shown? ==> Truthy(row.value.id)
    ensures row.Shown? && IsTruthy(Get(r, "requirement_id")) ==> row.value.id == Get(r, "requirement_id").value
    ensures row.Shown? && !IsTruthy(Get(r, "requirement_id")) ==> row.value.id == Numbered("REQ-", i)
  {
    if r.Null? then Crash
    else
      NumberedTruthy("REQ-", i);
      Shown(MappingRow(
        OrElse(Get(r, "requirement_id"), Numbered("REQ-", i)),
        Or(Or(Get(r, "description"), Get(r, "requirement")), Some(Str(""))).value,
        Or(Or(Or(Get(r, "mapped_service"), Get(r, "mapped_technology")), Get(r, "status")), Some(Str(""))).value))
  }

  datatype ComponentRow = ComponentRow(name: Json, description: Option<Json>)

  /** One architecture component: a string is its own label; an object is
      labelled by its name fields or its position and may carry a
      description. */
  function ComponentItem(c: Json, i: nat): (row: Outcome<ComponentRow>)
    ensures row.Crash? <==> c.Null?
    ensures row.Shown? && !c.Str? ==> Truthy(row.value.name)
    ensures row.Shown? && row.value.description.Some? ==> IsObjectType(c) && IsTruthy(row.value.description)
  {
    if c.Str? then Shown(ComponentRow(c, None))
    else if c.Null? then Crash
    else
      NumberedTruthy("Component ", i);
      var description := Or(Get(c, "component_description"), Get(c, "description"));
      Shown(ComponentRow(
        OrElse(Or(Get(c, "component_name"), Get(c, "name")), Numbered("Component ", i)),
        if IsObjectType(c) && IsTruthy(description) then description else None))
  }

  datatype PhaseRow = PhaseRow(title: Json, weeks: Option<Json>, deliverables: Option<seq<Json>>)

  /** One delivery phase: its name or "Phase n", the weeks suffix when
      `duration_weeks` is truthy, and its deliverables when truthy. */
  function PhaseItem(p: Json, i: nat): (row: Outcome<PhaseRow>)
    ensures row.Crash? <==> p.Null? || (IsTruthy(Get(p, "deliverables")) && ListOr(Get(p, "deliverables")).Crash?)
    ensures row.Shown? ==> Truthy(row.value.title)
    ensures row.Shown? ==> (row.value.weeks.Some? <==> IsTruthy(Get(p, "duration_weeks")))
    ensures row.Shown? ==> (row.value.deliverables.Some? <==> IsTruthy(Get(p, "deliverables")))
  {
    if p.Null? then Crash
    else
      NumberedTruthy("Phase ", i);
      var deliverables := if IsTruthy(Get(p, "deliverables")) then ListOr(Get(p, "deliverables")) else Shown([]);
      if deliverables.Crash? then Crash
      else
        Shown(PhaseRow(
          OrElse(Get(p, "phase_name"), Numbered("Phase ", i)),
          if IsTruthy(Get(p, "duration_weeks")) then Get(p, "duration_weeks") else None,
          if IsTruthy(Get(p, "deliverables")) then Some(deliverables.value) else None))
  }

  datatype TraceRow = TraceRow(id: Option<Json>, requirement: Option<Json>, reference: Option<Json>, status: Option<Json>)

  /** One traceability line; reading a member of a null row throws. */
  function TraceItem(r: Json, i: nat): (row: Outcome<TraceRow>)
    ensures row.Crash? <==> r.Null?
    ensures row.Shown? ==> row.value.id == Get(r, "requirement_id") && row.value.requirement == Get(r, "requirement")
    ensures row.Shown? ==> row.value.reference == Get(r, "solution_reference") && row.value.status == Get(r, "status")
  {
    if r.Null? then Crash
    else Shown(TraceRow(Get(r, "requirement_id"), Get(r, "requirement"), Get(r, "solution_reference"), Get(r, "status")))
  }

  datatype RiskRow = RiskRow(risk: Option<Json>, impact: Option<Json>, mitigation: Option<Json>)

  /** One risk line; reading a member of a null row throws. */
  function RiskItem(r: Json, i: nat): (row: Outcome<RiskRow>)
    ensures row.Crash? <==> r.Null?
    ensures row.Shown? ==> row.value.risk == Get(r, "risk") && row.value.impact == Get(r, "impact")
    ensures row.Shown? ==> row.value.mitigation == Get(r, "mitigation")
  {
    if r.Null? then Crash
    else Shown(RiskRow(Get(r, "risk"), Get(r, "impact"), Get(r, "mitigation")))
  }

  datatype TeamRow = TeamRow(role: Json, count: Json, currency: Json, monthlyCost: Json)

  datatype Pricing = Pricing(currency: Json, totalCost: Json, team: Option<TeamRow>)

  /** Currency with `||`, so an empty one shows "—"; total cost with `??`,
      so 0 is shown; the team line when `team_composition` is truthy. */
  function PricingOf(pc: Option<Json>): (r: Pricing)
    ensures Truthy(r.currency)
    ensures Member(pc, "total_cost").Some? && !Member(pc, "total_cost").value.Null? ==>
      r.totalCost == Member(pc, "total_cost").value
    ensures r.team.Some? <==> IsTruthy(Member(pc, "team_composition"))
  {
    var team := Member(pc, "team_composition");
    Pricing(
      OrElse(Member(pc, "currency"), Dash),
      Nullish(Member(pc, "total_cost"), Some(Dash)).value,
      if IsTruthy(team) then
        Some(TeamRow(
          OrElse(Get(team.value, "role"), Str("Role")),
          Or(Get(team.value, "count"), Some(Num(0))).value,
          Or(Member(pc, "currency"), Some(Str(""))).value,
          Or(Get(team.value, "monthly_cost"), Some(Num(0))).value))
      else None)
  }

  datatype Structured = Structured(
    overview: Json, valueProposition: Option<Json>,
    projectOverview: Json, keyObjectives: Option<seq<Json>>, inScope: Option<seq<Json>>, outOfScope: Option<seq<Json>>,
    mapping: Listing<MappingRow>,
    architectureOverview: Json, components: Option<seq<ComponentRow>>,
    phases: seq<PhaseRow>,
    pricing: Pricing,
    traceability: Listing<TraceRow>,
    assumptions: seq<Json>, exclusions: seq<Json>,
    risks: seq<RiskRow>,
    credentials: seq<Json>,
    exportButtons: bool)

  function Present(v: Option<Json>): Option<Json> {
    if IsTruthy(v) then v else None
  }

  /** Some section of the structured preview throws while rendering. */
  predicate SectionCrashes(p: Json) {
    var understanding := Get(p, "understanding_of_requirements");
    ArrayItems(Member(understanding, "key_objectives"), Plain).Crash?
    || ArrayItems(Member(understanding, "in_scope"), Plain).Crash?
    || ArrayItems(Member(understanding, "out_of_scope"), Plain).Crash?
    || DashOrItems(Get(p, "requirement_mapping"), MappingItem).Crash?
    || ArrayItems(Member(Get(p, "solution_architecture"), "components"), ComponentItem).Crash?
    || ListItems(Member(Get(p, "delivery_plan"), "phases"), PhaseItem).Crash?
    || DashOrItems(Get(p, "requirement_traceability_matrix"), TraceItem).Crash?
    || ListOr(Member(Get(p, "assumptions_and_exclusions"), "assumptions")).Crash?
    || ListOr(Member(Get(p, "assumptions_and_exclusions"), "exclusions")).Crash?
    || ListItems(Get(p, "risk_and_mitigation"), RiskItem).Crash?
    || ListOr(Member(Get(p, "company_credentials"), "relevant_experience")).Crash?
  }

  /** The sections of the structured preview, in page order. */
  function StructuredView(p: Json, reportHtml: Option<Json>): (r: Outcome<Structured>)
    ensures r.Crash? <==> SectionCrashes(p)
    ensures r.Shown? ==> r.value.mapping == DashOrItems(Get(p, "requirement_mapping"), MappingItem).value
    ensures r.Shown? ==> r.value.phases == ListItems(Member(Get(p, "delivery_plan"), "phases"), PhaseItem).value
    ensures r.Shown? ==> r.value.pricing == PricingOf(Get(p, "pricing_and_commercials"))
    ensures r.Shown? ==> Truthy(r.value.overview) && Truthy(r.value.projectOverview) && Truthy(r.value.architectureOverview)
    ensures r.Shown? ==> (r.value.exportButtons <==> IsTruthy(reportHtml))
    ensures r.Shown? ==>
      r.value.overview == OrElse(Member(Get(p, "executive_summary"), "overview"), Dash)
      && r.value.components == ArrayItems(Member(Get(p, "solution_architecture"), "components"), ComponentItem).value
      && r.value.traceability == DashOrItems(Get(p, "requirement_traceability_matrix"), TraceItem).value
      && r.value.risks == ListItems(Get(p, "risk_and_mitigation"), RiskItem).value
    ensures r.Shown? ==>
      r.value.assumptions == ListOr(Member(Get(p, "assumptions_and_exclusions"), "assumptions")).value
      && r.value.exclusions == ListOr(Member(Get(p, "assumptions_and_exclusions"), "exclusions")).value
      && r.value.credentials == ListOr(Member(Get(p, "company_credentials"), "relevant_experience")).value
  {
    if SectionCrashes(p) then Crash
    else
      var summary := Get(p, "executive_summary");
      var understanding := Get(p, "understanding_of_requirements");
      var architecture := Get(p, "solution_architecture");
      Shown(Structured(
        OrElse(Member(summary, "overview"), Dash), Present(Member(summary, "value_proposition")),
        OrElse(Member(understanding, "project_overview"), Dash),
        ArrayItems(Member(understanding, "key_objectives"), Plain).value,
        ArrayItems(Member(understanding, "in_scope"), Plain).value,
        ArrayItems(Member(understanding, "out_of_scope"), Plain).value,
        DashOrItems(Get(p, "requirement_mapping"), MappingItem).value,
        OrElse(Member(architecture, "architecture_overview"), Dash),
        ArrayItems(Member(architecture, "components"), ComponentItem).value,
        ListItems(Member(Get(p, "delivery_plan"), "phases"), PhaseItem).value,
        PricingOf(Get(p, "pricing_and_commercials")),
        DashOrItems(Get(p, "requirement_traceability_matrix"), TraceItem).value,
        ListOr(Member(Get(p, "assumptions_and_exclusions"), "assumptions")).value,
        ListOr(Member(Get(p, "assumptions_and_exclusions"), "exclusions")).value,
        ListItems(Get(p, "risk_and_mitigation"), RiskItem).value,
        ListOr(Member(Get(p, "company_credentials"), "relevant_experience")).value,
        IsTruthy(reportHtml)))
  }

  // ---- the page -------------------------------------------------------------

  datatype Body =
    | StructuredBody(sections: Structured)
    | RenderedReport(html: Json)
    | JsonDump(proposal: Option<Json>)

  datatype Page =
    | NoProposal   // "No proposal available"
    | Generated(rfpId: Json, status: string, body: Body)

  /** The page for the navigation state's `result`. */
  function View(result: Option<Json>): (r: Outcome<Page>)
    ensures r == Shown(NoProposal) <==> !IsTruthy(result)
    ensures r.Crash? ==> HasStructured(ProposalOf(result.value)) && StructuredView(ProposalOf(result.value).value, ReportHtmlOf(result.value)).Crash?
    ensures r.Shown? && r.value.Generated? ==>
      r.value.rfpId == RfpId(result.value) && r.value.status == Status(result.value)
    ensures r.Shown? && r.value.Generated? ==>
      (r.value.body.StructuredBody? <==> HasStructured(ProposalOf(result.value)))
  {
    if !IsTruthy(result) then Shown(NoProposal)
    else
      var res := result.value;
      var proposal := ProposalOf(res);
      var html := ReportHtmlOf(res);
      if HasStructured(proposal) then
        match StructuredView(proposal.value, html)
        case Crash => Crash
        case Shown(s) => Shown(Generated(RfpId(res), Status(res), StructuredBody(s)))
      else if IsTruthy(html) then Shown(Generated(RfpId(res), Status(res), RenderedReport(html.value)))
      else Shown(Generated(RfpId(res), Status(res), JsonDump(proposal)))
  }

  // ---- properties ------------------------------------------------------------

  /** A missing or falsy result shows the "No proposal available" card, and
      only then. */
  lemma NoResultCard(result: Option<Json>)
    ensures View(result) == Shown(NoProposal) <==> !IsTruthy(result)
  {
  }

  /** Exactly one body renders: the structured preview when the proposal is
      a truthy object, else the report when there is one, else the dump of
      the proposal; only the structured preview can crash. */
  lemma OneBranch(res: Json)
    requires Truthy(res)
    ensures var v := View(Some(res));
      && (v.Shown? ==> v.value.Generated? && v.value.rfpId == RfpId(res) && v.value.status == Status(res))
      && (HasStructured(ProposalOf(res)) ==>
            (v.Shown? <==> StructuredView(ProposalOf(res).value, ReportHtmlOf(res)).Shown?) &&
            (v.Shown? ==> v.value.body == StructuredBody(StructuredView(ProposalOf(res).value, ReportHtmlOf(res)).value)))
      && (!HasStructured(ProposalOf(res)) && IsTruthy(ReportHtmlOf(res)) ==>
            v == Shown(Generated(RfpId(res), Status(res), RenderedReport(ReportHtmlOf(res).value))))
      && (!HasStructured(ProposalOf(res)) && !IsTruthy(ReportHtmlOf(res)) ==>
            v == Shown(Generated(RfpId(res), Status(res), JsonDump(ProposalOf(res)))))
  {
  }

  /** A truthy proposal that is a string, number or `true` is not
      structured: the page falls to the report or the dump. */
  lemma PrimitiveProposalNotStructured(res: Json)
    requires IsTruthy(ProposalOf(res)) && IsPrimitive(ProposalOf(res).value)
    ensures !HasStructured(ProposalOf(res))
  {
  }

  /** The RFP id is the first truthy of `_id` and `id`, else "n/a"; the
      status reads "Completed" exactly when `ok` is truthy. */
  lemma RfpIdAndStatus(res: Json)
    ensures IsTruthy(Member(Get(res, "rfp"), "_id")) ==> RfpId(res) == Member(Get(res, "rfp"), "_id").value
    ensures !IsTruthy(Member(Get(res, "rfp"), "_id")) && IsTruthy(Member(Get(res, "rfp"), "id")) ==>
              RfpId(res) == Member(Get(res, "rfp"), "id").value
    ensures !IsTruthy(Member(Get(res, "rfp"), "_id")) && !IsTruthy(Member(Get(res, "rfp"), "id")) ==>
              RfpId(res) == Str("n/a")
    ensures Status(res) == "Completed" <==> IsTruthy(Get(res, "ok"))
  {
  }

  /** The requirement mapping shows "—" when it is missing or empty;
      otherwise one row per entry, in order, labelled with its
      `requirement_id` or `REQ-(i+1)`, and a null entry aborts the page. */
  lemma MappingRows(p: Json, reportHtml: Option<Json>, entries: seq<Json>)
    requires Get(p, "requirement_mapping") == Some(Arr(entries)) || (entries == [] && !IsTruthy(Get(p, "requirement_mapping")))
    requires StructuredView(p, reportHtml).Shown?
    ensures var m := StructuredView(p, reportHtml).value.mapping;
      && (entries == [] <==> m == DashOnly)
      && (m.Items? ==>
            (|m.items| == |entries| &&
             forall i :: 0 <= i < |entries| ==>
               m.items[i].id == (if IsTruthy(Get(entries[i], "requirement_id")) then Get(entries[i], "requirement_id").value
                                 else Str("REQ-" + NatToString(i + 1)))))
  {
    var m := DashOrItems(Get(p, "requirement_mapping"), MappingItem);
    assert m.Shown? && StructuredView(p, reportHtml).value.mapping == m.value;
    if entries != [] {
      forall i | 0 <= i < |entries|
        ensures MappingItem(entries[i], i).Shown?
      {
      }
    }
  }

  /** A null entry in a non-empty requirement mapping aborts the page. */
  lemma NullMappingEntryCrashes(p: Json, reportHtml: Option<Json>, entries: seq<Json>, k: nat)
    requires Get(p, "requirement_mapping") == Some(Arr(entries))
    requires k < |entries| && entries[k] == Null
    ensures StructuredView(p, reportHtml) == Crash
  {
    assert MappingItem(entries[k], k).Crash?;
    assert DashOrItems(Get(p, "requirement_mapping"), MappingItem) == Crash;
  }

  /** A truthy requirement mapping that is not an array (and has no zero
      `length`) makes `.map` throw. */
  lemma NonArrayMappingCrashes(p: Json, reportHtml: Option<Json>)
    requires IsTruthy(Get(p, "requirement_mapping")) && !Get(p, "requirement_mapping").value.Arr?
    requires !LengthIsZero(Get(p, "requirement_mapping").value)
    ensures StructuredView(p, reportHtml) == Crash
  {
  }

  /** A component's label is the string itself, else `component_name`,
      else `name`, else `Component (i+1)`. */
  lemma ComponentLabel(c: Json, i: nat)
    requires !c.Null?
    ensures ComponentItem(c, i).Shown?
    ensures c.Str? ==> ComponentItem(c, i).value.name == c
    ensures !c.Str? && IsTruthy(Get(c, "component_name")) ==> ComponentItem(c, i).value.name == Get(c, "component_name").value
    ensures !c.Str? && !IsTruthy(Get(c, "component_name")) && IsTruthy(Get(c, "name")) ==>
              ComponentItem(c, i).value.name == Get(c, "name").value
    ensures !c.Str? && !IsTruthy(Get(c, "component_name")) && !IsTruthy(Get(c, "name")) ==>
              ComponentItem(c, i).value.name == Str("Component " + NatToString(i + 1))
    ensures ComponentItem(c, i).value.description.Some? ==> c.Obj? || c.Arr?
  {
  }

  /** A phase is titled by `phase_name` or `Phase (i+1)`; the weeks suffix
      appears exactly when `duration_weeks` is truthy. */
  lemma PhaseTitle(p: Json, i: nat)
    requires !p.Null? && !IsTruthy(Get(p, "deliverables"))
    ensures PhaseItem(p, i).Shown?
    ensures PhaseItem(p, i).value.title ==
      (if IsTruthy(Get(p, "phase_name")) then Get(p, "phase_name").value else Str("Phase " + NatToString(i + 1)))
    ensures PhaseItem(p, i).value.weeks.Some? <==> IsTruthy(Get(p, "duration_weeks"))
    ensures PhaseItem(p, i).value.deliverables == None
  {
  }

  /** A zero total cost is shown as 0, while an empty currency shows "—". */
  lemma PricingFallbacks(pc: Json)
    requires pc.Obj?
    requires Lookup(pc.fields, "total_cost") == Some(Num(0)) && Lookup(pc.fields, "currency") == Some(Str(""))
    ensures PricingOf(Some(pc)).totalCost == Num(0)
    ensures PricingOf(Some(pc)).currency == Dash
  {
  }

  /** A missing total cost or currency shows "—". */
  lemma PricingMissing(pc: Option<Json>)
    requires Member(pc, "total_cost") == None && Member(pc, "currency") == None
    ensures PricingOf(pc).totalCost == Dash && PricingOf(pc).currency == Dash
  {
  }

  /** An empty proposal object shows every section's placeholder. */
  lemma EmptyProposalPlaceholders(reportHtml: Option<Json>)
    ensures StructuredView(Obj([]), reportHtml) == Shown(Structured(
      Dash, None, Dash, None, None, None, DashOnly, Dash, None, [],
      Pricing(Dash, Dash, None), DashOnly, [], [], [], [], IsTruthy(reportHtml)))
  {
  }
}
