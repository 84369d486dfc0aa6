/**
 * The System Security Plan renderer: a fixed-layout text document with the
 * organisation's details, the SPRS score (recomputed with the renderer's own
 * rule), and one section per family listing each control's status label,
 * level, id, requirement text and implementation notes.
 *
 * The document is specified the way it is built: every part is a function
 * that appends its lines to the text written so far, so the renderer's
 * `doc := doc + ...` steps and the specification advance in lock step.  The
 * clock reading printed on the `Generated:` line is a parameter.
 */
module Ssp {
  import opened Text
  import opened JsValues
  import opened Catalog
  import opened Scoring
  import opened Requirements

  /** The rule lines framing the document and its sections. */
  const RULE_WIDTH: nat := 72
  const RULE_EQ := Repeat('=', RULE_WIDTH)
  const RULE_DASH := Repeat('-', RULE_WIDTH)

  const NOT_PROVIDED := "Not Provided"
  const NOTES_PREFIX := "  Implementation Notes: "
  const END_BANNER := "END OF SYSTEM SECURITY PLAN\n"

  // ---------------------------------------------------------------------
  // Organisation details

  /**
   * The text of `v` where its conversion returns.  The plan is delivered only
   * when every value it prints converts (see `PlanOutcome`), so the empty
   * text standing in for a conversion that throws never reaches a reader.
   */
  function Printed(v: JsValue): string {
    match ToJsString(v)
    case Normal(s) => s
    case Throws => ""
  }

  /** `${org[key] || 'Not Provided'}`: the field's text, or `Not Provided` when it is missing or falsy. */
  function OrgField(org: JsValue, key: string): (r: string)
    ensures !Truthy(Get(org, key)) ==> r == NOT_PROVIDED
    ensures Truthy(Get(org, key)) && Printable(Get(org, key)) ==> Normal(r) == ToJsString(Get(org, key))
    ensures Get(org, key).Str? && Get(org, key).s != "" ==> r == Get(org, key).s
  {
    Printed(Or(Get(org, key), Str(NOT_PROVIDED)))
  }

  /** `orgInfo.targetLevel || 2`, as printed. */
  function TargetLevel(org: JsValue): (r: string)
    ensures !Truthy(Get(org, "targetLevel")) ==> r == "2"
    ensures Truthy(Get(org, "targetLevel")) && Printable(Get(org, "targetLevel")) ==>
      Normal(r) == ToJsString(Get(org, "targetLevel"))
  {
    Printed(Or(Get(org, "targetLevel"), Num(2)))
  }

  /**
   * Every organisation field the header and the boundary block print converts
   * to text.  A missing or falsy field prints its default, which always converts.
   */
  predicate HeaderPrints(org: JsValue) {
    && Printable(Get(org, "orgName"))
    && Printable(Get(org, "cageCode"))
    && Printable(Get(org, "assessorName"))
    && Printable(Get(org, "assessDate"))
    && Printable(Get(org, "systemName"))
    && Printable(Get(org, "targetLevel"))
    && Printable(Get(org, "systemBoundary"))
  }

  /** The title block. */
  function AppendTitle(doc: string): string {
    doc
    + (RULE_EQ + "\n")
    + "         SYSTEM SECURITY PLAN (SSP)\n"
    + "         CMMC 2.0 Self-Assessment\n"
    + (RULE_EQ + "\n\n")
  }

  /** The organisation's details and the time of writing. */
  function AppendDetails(doc: string, org: JsValue, timestamp: string): string {
    doc
    + ("Organization:    " + OrgField(org, "orgName") + "\n")
    + ("CAGE Code:       " + OrgField(org, "cageCode") + "\n")
    + ("Assessor:        " + OrgField(org, "assessorName") + "\n")
    + ("Assessment Date: " + OrgField(org, "assessDate") + "\n")
    + ("System Name:     " + OrgField(org, "systemName") + "\n")
    + ("Target Level:    CMMC Level " + TargetLevel(org) + "\n")
    + ("Generated:       " + timestamp + "\n\n")
  }

  /** The title block and the organisation's details. */
  function AppendHeader(doc: string, org: JsValue, timestamp: string): string {
    AppendDetails(AppendTitle(doc), org, timestamp)
  }

  /** The system environment and boundary block. */
  function AppendBoundary(doc: string, org: JsValue): string {
    doc
    + (RULE_DASH + "\n")
    + "SYSTEM ENVIRONMENT & BOUNDARY\n"
    + (RULE_DASH + "\n")
    + (OrgField(org, "systemBoundary") + "\n\n")
  }

  // ---------------------------------------------------------------------
  // The score

  /** The renderer's own deduction rule: a response deducts unless it is exactly `met` or `na`. */
  predicate RendererDeducts(r: JsValue) {
    r != Str("met") && r != Str("na")
  }

  /** The points the renderer takes off over the controls `cs`. */
  function RendererDeduction(cs: seq<Control>, resp: JsValue): int {
    if cs == [] then 0
    else
      var c := cs[|cs| - 1];
      RendererDeduction(cs[..|cs| - 1], resp) + (if RendererDeducts(Get(resp, c.id)) then c.weight else 0)
  }

  /** The line that carries the score. */
  function ScoreLine(sprs: int): string {
    "SPRS SCORE: " + IntToString(sprs) + " / 110\n"
  }

  function AppendScore(doc: string, sprs: int): string {
    doc
    + (RULE_DASH + "\n")
    + ScoreLine(sprs)
    + (RULE_DASH + "\n\n")
  }

  // ---------------------------------------------------------------------
  // Controls

  /** The status label, chosen by the control's response. */
  function Label(s: Status): string {
    match s
    case Met => "[ MET          ]"
    case Partial => "[ PARTIALLY MET ]"
    case NotMet => "[ NOT MET       ]"
    case NA => "[ N/A           ]"
    case Unassessed => "[ NOT ASSESSED  ]"
  }

  function LevelBadge(c: Control): string {
    if c.level == 1 then "L1" else "L2"
  }

  /** The first two lines of a control's block: label, level and id, then the requirement. */
  function ControlHead(c: Control, texts: string -> string, resp: JsValue): string {
    (Label(StatusOf(resp, c)) + " [" + LevelBadge(c) + "] " + c.id + "\n")
    + ("  " + texts(c.id) + "\n")
  }

  /** One control's block: its head, the notes line when the note is truthy, and a blank line. */
  function AppendControl(doc: string, c: Control, texts: string -> string, resp: JsValue, notes: JsValue): string {
    var head := doc
      + (Label(StatusOf(resp, c)) + " [" + LevelBadge(c) + "] " + c.id + "\n")
      + ("  " + texts(c.id) + "\n");
    var note := Get(notes, c.id);
    (if Truthy(note) then head + (NOTES_PREFIX + Printed(note) + "\n") else head) + "\n"
  }

  /** The note of every control of `cs` converts to text (a falsy note, which is not printed, always does). */
  predicate NotesPrint(cs: seq<Control>, notes: JsValue) {
    forall i | 0 <= i < |cs| :: Printable(Get(notes, cs[i].id))
  }

  function AppendControls(doc: string, cs: seq<Control>, texts: string -> string, resp: JsValue, notes: JsValue): string {
    if cs == [] then doc
    else AppendControl(AppendControls(doc, cs[..|cs| - 1], texts, resp, notes), cs[|cs| - 1], texts, resp, notes)
  }

  // ---------------------------------------------------------------------
  // Family sections

  /** The header line of a family's section: abbreviation, upper-cased name and number of controls. */
  function HeadLine(d: Domain, n: nat): string {
    d.abbr + " \U{2014} " + ToUpper(d.name) + " (" + NatToString(n) + " requirements)\n"
  }

  function AppendSection(doc: string, d: Domain, cs: seq<Control>, texts: string -> string, resp: JsValue, notes: JsValue): string {
    var controls := InDomain(cs, d.abbr);
    var head := doc
      + ("\n" + RULE_EQ + "\n")
      + HeadLine(d, |controls|)
      + (RULE_EQ + "\n\n");
    AppendControls(head, controls, texts, resp, notes)
  }

  /** The notes of every family's controls convert to text. */
  predicate SectionsPrint(ds: seq<Domain>, cs: seq<Control>, notes: JsValue) {
    forall j | 0 <= j < |ds| :: NotesPrint(InDomain(cs, ds[j].abbr), notes)
  }

  function AppendSections(doc: string, ds: seq<Domain>, cs: seq<Control>, texts: string -> string, resp: JsValue, notes: JsValue): string {
    if ds == [] then doc
    else AppendSection(AppendSections(doc, ds[..|ds| - 1], cs, texts, resp, notes), ds[|ds| - 1], cs, texts, resp, notes)
  }

  function AppendFooter(doc: string): string {
    doc
    + ("\n" + RULE_EQ + "\n")
    + END_BANNER
    + (RULE_EQ + "\n")
  }

  // ---------------------------------------------------------------------
  // The document

  /** Everything above the score block: the title, the organisation's details and the boundary block. */
  function Heading(org: JsValue, timestamp: string): string {
    AppendBoundary(AppendHeader("", org, timestamp), org)
  }

  /** The score block, the family sections and the closing banner, written after `heading`. */
  function PlanAfter(
    heading: string, ds: seq<Domain>, cs: seq<Control>, texts: string -> string,
    resp: JsValue, notes: JsValue): string
  {
    var scored := AppendScore(heading, MAX_SPRS - RendererDeduction(cs, resp));
    AppendFooter(AppendSections(scored, ds, cs, texts, resp, notes))
  }

  /** The plan for the families `ds` over the controls `cs`, with already coerced inputs. */
  function PlanOf(
    ds: seq<Domain>, cs: seq<Control>, texts: string -> string,
    resp: JsValue, org: JsValue, notes: JsValue, timestamp: string): string
  {
    PlanAfter(Heading(org, timestamp), ds, cs, texts, resp, notes)
  }

  /**
   * What rendering gives: the plan, or a thrown TypeError when an
   * organisation field or a printed note does not convert to text.
   */
  function PlanOutcome(
    ds: seq<Domain>, cs: seq<Control>, texts: string -> string,
    resp: JsValue, org: JsValue, notes: JsValue, timestamp: string): Completion<string>
  {
    if HeaderPrints(org) && SectionsPrint(ds, cs, notes) then Normal(PlanOf(ds, cs, texts, resp, org, notes, timestamp))
    else Throws
  }

  /** generateSSP: the plan of the catalog, after coercing every non-object argument to `{}`. */
  function Plan(responses: JsValue, orgInfo: JsValue, notes: JsValue, timestamp: string): Completion<string> {
    PlanOutcome(DOMAINS, CONTROLS, RequirementText,
      ObjectOrEmpty(responses), ObjectOrEmpty(orgInfo), ObjectOrEmpty(notes), timestamp)
  }

  // ---------------------------------------------------------------------
  // The renderer

  lemma {:induction false} RendererStep(cs: seq<Control>, i: nat, resp: JsValue)
    requires i < |cs|
    ensures RendererDeduction(cs[..i + 1], resp)
      == RendererDeduction(cs[..i], resp) + (if RendererDeducts(Get(resp, cs[i].id)) then cs[i].weight else 0)
  {
    assert cs[..i + 1][..i] == cs[..i];
  }

  lemma {:induction false} ControlsStep(doc: string, cs: seq<Control>, i: nat, texts: string -> string, resp: JsValue, notes: JsValue)
    requires i < |cs|
    ensures AppendControls(doc, cs[..i + 1], texts, resp, notes)
      == AppendControl(AppendControls(doc, cs[..i], texts, resp, notes), cs[i], texts, resp, notes)
  {
    assert cs[..i + 1][..i] == cs[..i];
  }

  lemma NotesPrintStep(cs: seq<Control>, i: nat, notes: JsValue)
    requires i < |cs| && NotesPrint(cs[..i], notes) && Printable(Get(notes, cs[i].id))
    ensures NotesPrint(cs[..i + 1], notes)
  {
    assert forall k | 0 <= k < i :: cs[..i + 1][k] == cs[..i][k];
  }

  lemma SectionsPrintStep(ds: seq<Domain>, j: nat, cs: seq<Control>, notes: JsValue)
    requires j < |ds| && SectionsPrint(ds[..j], cs, notes)
    requires NotesPrint(InDomain(cs, ds[j].abbr), notes)
    ensures SectionsPrint(ds[..j + 1], cs, notes)
  {
    assert forall k | 0 <= k < j :: ds[..j + 1][k] == ds[..j][k];
  }

  lemma {:induction false} SectionsStep(doc: string, ds: seq<Domain>, j: nat, cs: seq<Control>, texts: string -> string, resp: JsValue, notes: JsValue)
    requires j < |ds|
    ensures AppendSections(doc, ds[..j + 1], cs, texts, resp, notes)
      == AppendSection(AppendSections(doc, ds[..j], cs, texts, resp, notes), ds[j], cs, texts, resp, notes)
  {
    assert ds[..j + 1][..j] == ds[..j];
  }

  /** The if-chain that picks a control's label from its response. */
  method StatusLabel(r: JsValue) returns (status: string)
    ensures status == Label(Classify(r))
  {
    if r == Str("met") {
      status := "[ MET          ]";
    } else if r == Str("partial") {
      status := "[ PARTIALLY MET ]";
    } else if r == Str("not-met") {
      status := "[ NOT MET       ]";
    } else if r == Str("na") {
      status := "[ N/A           ]";
    } else {
      status := "[ NOT ASSESSED  ]";
    }
  }

  /** Writes the blocks of the controls `controls` after `doc`; printing a note may throw. */
  method WriteControls(doc0: string, controls: seq<Control>, texts: string -> string, resp: JsValue, notes: JsValue)
    returns (r: Completion<string>)
    ensures r.Normal? <==> NotesPrint(controls, notes)
    ensures r.Normal? ==> r.value == AppendControls(doc0, controls, texts, resp, notes)
  {
    var doc := doc0;
    assert controls[..0] == [];
    for i := 0 to |controls|
      invariant doc == AppendControls(doc0, controls[..i], texts, resp, notes)
      invariant NotesPrint(controls[..i], notes)
    {
      ghost var before := doc;
      var c := controls[i];
      var response := Get(resp, c.id);
      var status := StatusLabel(response);
      var lvl := if c.level == 1 then "L1" else "L2";
      doc := doc + (status + " [" + lvl + "] " + c.id + "\n");
      doc := doc + ("  " + texts(c.id) + "\n");
      if Truthy(Get(notes, c.id)) {
        var note := ToJsString(Get(notes, c.id));
        if note.Throws? {
          assert !NotesPrint(controls, notes);
          return Throws;
        }
        assert note.value == Printed(Get(notes, c.id));
        doc := doc + (NOTES_PREFIX + note.value + "\n");
      } else {
        FalsyPrintable(Get(notes, c.id));
      }
      doc := doc + "\n";
      NotesPrintStep(controls, i, notes);
      assert doc == AppendControl(before, c, texts, resp, notes);
      assert doc == AppendControls(doc0, controls[..i + 1], texts, resp, notes) by {
        ControlsStep(doc0, controls, i, texts, resp, notes);
      }
    }
    assert controls[..|controls|] == controls;
    return Normal(doc);
  }

  /**
   * The title block, the organisation's details and the boundary block;
   * printing an organisation field may throw.
   */
  method WriteHeader(org: JsValue, timestamp: string) returns (r: Completion<string>)
    ensures r == if HeaderPrints(org) then Normal(Heading(org, timestamp)) else Throws
  {
    var targetLevel := Or(Get(org, "targetLevel"), Num(2));

    var doc := "";
    doc := doc + (RULE_EQ + "\n");
    doc := doc + "         SYSTEM SECURITY PLAN (SSP)\n";
    doc := doc + "         CMMC 2.0 Self-Assessment\n";
    doc := doc + (RULE_EQ + "\n\n");
    var orgName := ToJsString(Or(Get(org, "orgName"), Str(NOT_PROVIDED)));
    if orgName.Throws? { return Throws; }
    doc := doc + ("Organization:    " + orgName.value + "\n");
    var cageCode := ToJsString(Or(Get(org, "cageCode"), Str(NOT_PROVIDED)));
    if cageCode.Throws? { return Throws; }
    doc := doc + ("CAGE Code:       " + cageCode.value + "\n");
    var assessorName := ToJsString(Or(Get(org, "assessorName"), Str(NOT_PROVIDED)));
    if assessorName.Throws? { return Throws; }
    doc := doc + ("Assessor:        " + assessorName.value + "\n");
    var assessDate := ToJsString(Or(Get(org, "assessDate"), Str(NOT_PROVIDED)));
    if assessDate.Throws? { return Throws; }
    doc := doc + ("Assessment Date: " + assessDate.value + "\n");
    var systemName := ToJsString(Or(Get(org, "systemName"), Str(NOT_PROVIDED)));
    if systemName.Throws? { return Throws; }
    doc := doc + ("System Name:     " + systemName.value + "\n");
    var level := ToJsString(targetLevel);
    if level.Throws? { return Throws; }
    doc := doc + ("Target Level:    CMMC Level " + level.value + "\n");
    doc := doc + ("Generated:       " + timestamp + "\n\n");

    doc := doc + (RULE_DASH + "\n");
    doc := doc + "SYSTEM ENVIRONMENT & BOUNDARY\n";
    doc := doc + (RULE_DASH + "\n");
    var boundary := ToJsString(Or(Get(org, "systemBoundary"), Str(NOT_PROVIDED)));
    if boundary.Throws? { return Throws; }
    doc := doc + (boundary.value + "\n\n");
    return Normal(doc);
  }

  /** The renderer's score loop: 110 less the weight of every control whose response deducts. */
  method RendererScore(cs: seq<Control>, resp: JsValue) returns (sprs: int)
    ensures sprs == MAX_SPRS - RendererDeduction(cs, resp)
  {
    var sprsDeduction := 0;
    assert cs[..0] == [];
    for i := 0 to |cs|
      invariant sprsDeduction == RendererDeduction(cs[..i], resp)
    {
      RendererStep(cs, i, resp);
      var r := Get(resp, cs[i].id);
      if r != Str("met") && r != Str("na") {
        sprsDeduction := sprsDeduction + cs[i].weight;
      }
    }
    assert cs[..|cs|] == cs;
    sprs := MAX_SPRS - sprsDeduction;
  }

  /** One section per family of `ds`, in order, each listing the controls of `cs` in that family. */
  method WriteSections(
    doc0: string, ds: seq<Domain>, cs: seq<Control>, texts: string -> string,
    resp: JsValue, notes: JsValue)
    returns (r: Completion<string>)
    ensures r.Normal? <==> SectionsPrint(ds, cs, notes)
    ensures r.Normal? ==> r.value == AppendSections(doc0, ds, cs, texts, resp, notes)
  {
    var doc := doc0;
    assert ds[..0] == [];
    for j := 0 to |ds|
      invariant doc == AppendSections(doc0, ds[..j], cs, texts, resp, notes)
      invariant SectionsPrint(ds[..j], cs, notes)
    {
      SectionsStep(doc0, ds, j, cs, texts, resp, notes);
      var domain := ds[j];
      var controls := InDomain(cs, domain.abbr);
      doc := doc + ("\n" + RULE_EQ + "\n");
      doc := doc + HeadLine(domain, |controls|);
      doc := doc + (RULE_EQ + "\n\n");
      var written := WriteControls(doc, controls, texts, resp, notes);
      if written.Throws? {
        assert !SectionsPrint(ds, cs, notes);
        return Throws;
      }
      doc := written.value;
      SectionsPrintStep(ds, j, cs, notes);
    }
    assert ds[..|ds|] == ds;
    return Normal(doc);
  }

  /**
   * The body of generateSSP after its argument coercion, over the families
   * `ds` and the controls `cs`: the header, the score from the renderer's own
   * deduction loop, one section per family, and the closing banner.
   */
  method RenderPlan(
    ds: seq<Domain>, cs: seq<Control>, texts: string -> string,
    resp: JsValue, org: JsValue, notes: JsValue, timestamp: string)
    returns (r: Completion<string>)
    ensures r == PlanOutcome(ds, cs, texts, resp, org, notes, timestamp)
  {
    var header := WriteHeader(org, timestamp);
    if header.Throws? {
      return Throws;
    }
    r := WriteAfter(header.value, ds, cs, texts, resp, notes);
  }

  /** Everything the renderer writes after the heading: the score from its own deduction loop, the sections and the banner. */
  method WriteAfter(
    heading: string, ds: seq<Domain>, cs: seq<Control>, texts: string -> string,
    resp: JsValue, notes: JsValue)
    returns (r: Completion<string>)
    ensures r.Normal? <==> SectionsPrint(ds, cs, notes)
    ensures r.Normal? ==> r.value == PlanAfter(heading, ds, cs, texts, resp, notes)
  {
    var doc := heading;
    var sprs := RendererScore(cs, resp);
    doc := doc + (RULE_DASH + "\n");
    doc := doc + ("SPRS SCORE: " + IntToString(sprs) + " / 110\n");
    doc := doc + (RULE_DASH + "\n\n");
    assert doc == AppendScore(heading, sprs);

    var sections := WriteSections(doc, ds, cs, texts, resp, notes);
    if sections.Throws? {
      return Throws;
    }
    doc := sections.value;
    ghost var sectioned := doc;

    doc := doc + ("\n" + RULE_EQ + "\n");
    doc := doc + END_BANNER;
    doc := doc + (RULE_EQ + "\n");
    assert doc == AppendFooter(sectioned);
    return Normal(doc);
  }

  /** generateSSP over the families `ds` and the controls `cs`: coerce each argument that is not an object to `{}`, then render. */
  method GeneratePlan(
    ds: seq<Domain>, cs: seq<Control>, texts: string -> string,
    responses: JsValue, orgInfo: JsValue, notes: JsValue, timestamp: string)
    returns (r: Completion<string>)
    ensures r == PlanOutcome(ds, cs, texts,
      ObjectOrEmpty(responses), ObjectOrEmpty(orgInfo), ObjectOrEmpty(notes), timestamp)
  {
    var resp, org, notesObj := responses, orgInfo, notes;
    if !Truthy(resp) || !IsObject(resp) {
      resp := Obj([]);
    }
    if !Truthy(org) || !IsObject(org) {
      org := Obj([]);
    }
    if !Truthy(notesObj) || !IsObject(notesObj) {
      notesObj := Obj([]);
    }
    r := RenderPlan(ds, cs, texts, resp, org, notesObj, timestamp);
  }

  /** generateSSP: the catalog's plan, or the TypeError a printed value throws. */
  method GenerateSSP(responses: JsValue, orgInfo: JsValue, notes: JsValue, timestamp: string) returns (r: Completion<string>)
    ensures r == Plan(responses, orgInfo, notes, timestamp)
  {
    r := GeneratePlan(DOMAINS, CONTROLS, RequirementText, responses, orgInfo, notes, timestamp);
  }

  // ---------------------------------------------------------------------
  // What the plan says

  /** The renderer's deduction rule agrees with the scoring engine's on every response. */
  lemma {:induction false} RendererAgrees(cs: seq<Control>, resp: JsValue)
    ensures RendererDeduction(cs, resp) == Deduction(cs, resp)
  {
    if cs != [] {
      RendererAgrees(cs[..|cs| - 1], resp);
    }
  }

  /** A control's block on its own. */
  function ControlBlock(c: Control, texts: string -> string, resp: JsValue, notes: JsValue): string {
    AppendControl("", c, texts, resp, notes)
  }

  /** The blocks of `cs`, one after another in order. */
  function BlocksText(cs: seq<Control>, texts: string -> string, resp: JsValue, notes: JsValue): string {
    if cs == [] then ""
    else BlocksText(cs[..|cs| - 1], texts, resp, notes) + ControlBlock(cs[|cs| - 1], texts, resp, notes)
  }

  /** A family's section on its own. */
  function SectionText(d: Domain, cs: seq<Control>, texts: string -> string, resp: JsValue, notes: JsValue): string {
    AppendSection("", d, cs, texts, resp, notes)
  }

  /** The sections of the families `ds`, one after another in order. */
  function SectionsText(ds: seq<Domain>, cs: seq<Control>, texts: string -> string, resp: JsValue, notes: JsValue): string {
    if ds == [] then ""
    else SectionsText(ds[..|ds| - 1], cs, texts, resp, notes) + SectionText(ds[|ds| - 1], cs, texts, resp, notes)
  }

  /** Text appended piece by piece is the text followed by the pieces joined. */
  lemma Regroup3(doc: string, x: string, y: string, z: string)
    ensures doc + x + y + z == doc + (x + y + z)
  {
    assert doc + x + y == doc + (x + y);
  }

  /** Regroup3, together with the same pieces appended to the empty document. */
  lemma Rebase3(doc: string, x: string, y: string, z: string)
    ensures doc + x + y + z == doc + (x + y + z)
    ensures "" + x + y + z == x + y + z
  {
    assert doc + x + y == doc + (x + y);
    assert "" + x == x;
  }

  /** Regroup4, together with the same pieces appended to the empty document. */
  lemma Rebase4(doc: string, x: string, y: string, z: string, w: string)
    ensures doc + x + y + z + w == doc + (x + y + z + w)
    ensures "" + x + y + z + w == x + y + z + w
  {
    Rebase3(doc, x, y, z);
    Rebase3(doc, x + y, z, w);
    Rebase3("", x, y, z);
  }

  /** A prefix of the middle piece of a three-piece text sits right after the first piece. */
  lemma PrefixAt(a: string, b: string, c: string, p: string)
    requires p <= b
    ensures (a + b + c)[|a|..|a| + |p|] == p
  {
    assert (a + b + c)[|a|..|a| + |p|] == b[..|p|];
  }

  /** Four pieces appended one by one are the document followed by the four joined. */
  lemma Regroup4(doc: string, x: string, y: string, z: string, w: string)
    ensures doc + x + y + z + w == doc + (x + y + z + w)
  {
    Regroup3(doc, x, y, z);
    Regroup3(doc, x + y, z, w);
  }

  lemma ControlExtends(doc: string, c: Control, texts: string -> string, resp: JsValue, notes: JsValue)
    ensures AppendControl(doc, c, texts, resp, notes) == doc + ControlBlock(c, texts, resp, notes)
  {
    var line := Label(StatusOf(resp, c)) + " [" + LevelBadge(c) + "] " + c.id + "\n";
    var text := "  " + texts(c.id) + "\n";
    var note := Get(notes, c.id);
    if Truthy(note) {
      Rebase4(doc, line, text, NOTES_PREFIX + Printed(note) + "\n", "\n");
    } else {
      Rebase3(doc, line, text, "\n");
    }
  }

  /** Writing the blocks of `cs` appends each control's block, in order, and nothing else. */
  lemma {:induction false} ControlsExtend(doc: string, cs: seq<Control>, texts: string -> string, resp: JsValue, notes: JsValue)
    ensures AppendControls(doc, cs, texts, resp, notes) == doc + BlocksText(cs, texts, resp, notes)
  {
    if cs != [] {
      var front, c := cs[..|cs| - 1], cs[|cs| - 1];
      ControlsExtend(doc, front, texts, resp, notes);
      ControlExtends(AppendControls(doc, front, texts, resp, notes), c, texts, resp, notes);
    }
  }

  /** A section is its rule-framed header line followed by the blocks of the family's controls. */
  lemma SectionOpens(doc: string, d: Domain, cs: seq<Control>, texts: string -> string, resp: JsValue, notes: JsValue)
    ensures AppendSection(doc, d, cs, texts, resp, notes) == doc + SectionText(d, cs, texts, resp, notes)
    ensures SectionText(d, cs, texts, resp, notes)
      == ("\n" + RULE_EQ + "\n") + HeadLine(d, |InDomain(cs, d.abbr)|) + (RULE_EQ + "\n\n")
         + BlocksText(InDomain(cs, d.abbr), texts, resp, notes)
  {
    var controls := InDomain(cs, d.abbr);
    var open, head, close := "\n" + RULE_EQ + "\n", HeadLine(d, |controls|), RULE_EQ + "\n\n";
    var blocks := BlocksText(controls, texts, resp, notes);
    ControlsExtend(doc + open + head + close, controls, texts, resp, notes);
    ControlsExtend("" + open + head + close, controls, texts, resp, notes);
    Rebase4(doc, open, head, close, blocks);
  }

  /** Writing the sections of `ds` appends each family's section, in order, and nothing else. */
  lemma {:induction false} SectionsInOrder(doc: string, ds: seq<Domain>, cs: seq<Control>, texts: string -> string, resp: JsValue, notes: JsValue)
    ensures AppendSections(doc, ds, cs, texts, resp, notes) == doc + SectionsText(ds, cs, texts, resp, notes)
  {
    if ds != [] {
      var front, d := ds[..|ds| - 1], ds[|ds| - 1];
      SectionsInOrder(doc, front, cs, texts, resp, notes);
      SectionOpens(AppendSections(doc, front, cs, texts, resp, notes), d, cs, texts, resp, notes);
    }
  }

  const FOOTER := ("\n" + RULE_EQ + "\n") + END_BANNER + (RULE_EQ + "\n")

  /**
   * Below its heading the plan has the score block (a rule, the score line
   * with 110 less the renderer's deduction, another rule), then one section
   * per family in order, then the closing banner.
   */
  lemma PlanLayout(
    heading: string, ds: seq<Domain>, cs: seq<Control>, texts: string -> string,
    resp: JsValue, notes: JsValue)
    ensures PlanAfter(heading, ds, cs, texts, resp, notes)
      == AppendScore(heading, MAX_SPRS - RendererDeduction(cs, resp)) + SectionsText(ds, cs, texts, resp, notes) + FOOTER
  {
    var scored := AppendScore(heading, MAX_SPRS - RendererDeduction(cs, resp));
    var sectioned := AppendSections(scored, ds, cs, texts, resp, notes);
    assert sectioned == scored + SectionsText(ds, cs, texts, resp, notes) by {
      SectionsInOrder(scored, ds, cs, texts, resp, notes);
    }
    assert AppendFooter(sectioned) == sectioned + FOOTER by {
      Regroup3(sectioned, "\n" + RULE_EQ + "\n", END_BANNER, RULE_EQ + "\n");
    }
  }

  /** The plan closes with the end banner between two rules of 72 `=`. */
  lemma PlanEnds(
    heading: string, ds: seq<Domain>, cs: seq<Control>, texts: string -> string,
    resp: JsValue, notes: JsValue)
    ensures |RULE_EQ| == 72 && forall i | 0 <= i < 72 :: RULE_EQ[i] == '='
    ensures var doc := PlanAfter(heading, ds, cs, texts, resp, notes);
      |doc| >= |FOOTER| && doc[|doc| - |FOOTER|..] == FOOTER
  {
    var sectioned := AppendSections(AppendScore(heading, MAX_SPRS - RendererDeduction(cs, resp)), ds, cs, texts, resp, notes);
    Regroup3(sectioned, "\n" + RULE_EQ + "\n", END_BANNER, RULE_EQ + "\n");
    EndsWith(sectioned, FOOTER);
  }

  lemma EndsWith(a: string, b: string)
    ensures |a + b| >= |b| && (a + b)[|a + b| - |b|..] == b
  {
  }

  /** The plan opens with its heading. */
  lemma PlanStarts(
    heading: string, ds: seq<Domain>, cs: seq<Control>, texts: string -> string,
    resp: JsValue, notes: JsValue)
    ensures heading <= PlanAfter(heading, ds, cs, texts, resp, notes)
  {
    var sprs := MAX_SPRS - RendererDeduction(cs, resp);
    SectionsInOrder(AppendScore(heading, sprs), ds, cs, texts, resp, notes);
    Extends7(heading, RULE_DASH + "\n", ScoreLine(sprs), RULE_DASH + "\n\n", SectionsText(ds, cs, texts, resp, notes),
      "\n" + RULE_EQ + "\n", END_BANNER, RULE_EQ + "\n");
  }

  /** The details only add text after what was written before them. */
  lemma DetailsGrow(doc: string, org: JsValue, timestamp: string)
    ensures doc <= AppendDetails(doc, org, timestamp)
  {
    Extends7(doc,
      "Organization:    " + OrgField(org, "orgName") + "\n",
      "CAGE Code:       " + OrgField(org, "cageCode") + "\n",
      "Assessor:        " + OrgField(org, "assessorName") + "\n",
      "Assessment Date: " + OrgField(org, "assessDate") + "\n",
      "System Name:     " + OrgField(org, "systemName") + "\n",
      "Target Level:    CMMC Level " + TargetLevel(org) + "\n",
      "Generated:       " + timestamp + "\n\n");
  }

  /** Appending pieces keeps what was there as a prefix. */
  lemma Extends7(doc: string, a: string, b: string, c: string, d: string, e: string, f: string, g: string)
    ensures doc <= doc + a + b + c + d + e + f + g
  {
    Extends4(doc, a, b, c, d);
    Extends4(doc + a + b + c + d, e, f, g, "");
    assert doc + a + b + c + d + e + f + g + "" == doc + a + b + c + d + e + f + g;
  }

  lemma Extends4(doc: string, a: string, b: string, c: string, d: string)
    ensures doc <= doc + a + b + c + d
  {
    Regroup4(doc, a, b, c, d);
  }

  /** The boundary block only adds text after what was written before it. */
  lemma BoundaryGrows(doc: string, org: JsValue)
    ensures doc <= AppendBoundary(doc, org)
  {
    Extends4(doc, RULE_DASH + "\n", "SYSTEM ENVIRONMENT & BOUNDARY\n", RULE_DASH + "\n", OrgField(org, "systemBoundary") + "\n\n");
  }

  /** The heading opens with a rule of 72 `=`. */
  lemma HeadingStarts(org: JsValue, timestamp: string)
    ensures RULE_EQ + "\n" <= Heading(org, timestamp)
  {
    var first := RULE_EQ + "\n";
    var title := AppendTitle("");
    Regroup4("", first, "         SYSTEM SECURITY PLAN (SSP)\n", "         CMMC 2.0 Self-Assessment\n", RULE_EQ + "\n\n");
    assert first <= title;
    var header := AppendHeader("", org, timestamp);
    DetailsGrow(title, org, timestamp);
    BoundaryGrows(header, org);
  }

  /**
   * The number the catalog's plan prints on its score line, 110 less the
   * renderer's deduction, is calculateScore's sprs for the same responses.
   */
  lemma RendererScoreAgrees(responses: JsValue)
    ensures MAX_SPRS - RendererDeduction(CONTROLS, ObjectOrEmpty(responses)) == Score(responses).sprs
  {
    RendererAgrees(CONTROLS, ObjectOrEmpty(responses));
  }

  /**
   * When every control belongs to one of the families, the sections print
   * exactly when the note of every control converts to text.
   */
  lemma SectionsPrintAll(ds: seq<Domain>, cs: seq<Control>, notes: JsValue)
    requires forall i | 0 <= i < |cs| :: cs[i].domain in Abbrs(ds)
    ensures SectionsPrint(ds, cs, notes) <==> NotesPrint(cs, notes)
  {
    if NotesPrint(cs, notes) {
      forall j, i | 0 <= j < |ds| && 0 <= i < |InDomain(cs, ds[j].abbr)|
        ensures Printable(Get(notes, InDomain(cs, ds[j].abbr)[i].id))
      {
        InDomainMembers(cs, ds[j].abbr, InDomain(cs, ds[j].abbr)[i]);
      }
    }
    if SectionsPrint(ds, cs, notes) {
      forall i | 0 <= i < |cs|
        ensures Printable(Get(notes, cs[i].id))
      {
        var d :| d in ds && d.abbr == cs[i].domain;
        var j :| 0 <= j < |ds| && ds[j] == d;
        InDomainMembers(cs, d.abbr, cs[i]);
        var controls := InDomain(cs, d.abbr);
        var k :| 0 <= k < |controls| && controls[k] == cs[i];
        assert NotesPrint(controls, notes);
      }
    }
  }

  /**
   * generateSSP throws exactly when an organisation field it prints or the
   * note of one of the catalog's controls does not convert to text.
   */
  lemma PlanThrows(responses: JsValue, orgInfo: JsValue, notes: JsValue, timestamp: string)
    ensures Plan(responses, orgInfo, notes, timestamp).Throws?
      <==> !HeaderPrints(ObjectOrEmpty(orgInfo)) || exists c | c in CONTROLS :: !Printable(Get(ObjectOrEmpty(notes), c.id))
  {
    var notesObj := ObjectOrEmpty(notes);
    assert Plan(responses, orgInfo, notes, timestamp).Throws?
      <==> !HeaderPrints(ObjectOrEmpty(orgInfo)) || !SectionsPrint(DOMAINS, CONTROLS, notesObj);
    ControlsInFamilies();
    SectionsPrintAll(DOMAINS, CONTROLS, notesObj);
    NotesPrintMembers(CONTROLS, notesObj);
  }

  /** The notes of a list print exactly when the note of each of its members does. */
  lemma NotesPrintMembers(cs: seq<Control>, notes: JsValue)
    ensures NotesPrint(cs, notes) <==> forall c | c in cs :: Printable(Get(notes, c.id))
  {
  }

  /**
   * Each family's section opens with a rule, then its abbreviation,
   * upper-cased name and the number of its controls in the catalog.
   */
  lemma SectionHeads(d: Domain, cs: seq<Control>, texts: string -> string, resp: JsValue, notes: JsValue)
    ensures ("\n" + RULE_EQ + "\n") + HeadLine(d, |InDomain(cs, d.abbr)|) <= SectionText(d, cs, texts, resp, notes)
  {
    SectionOpens("", d, cs, texts, resp, notes);
  }

  /**
   * Labels: one per status, all different; the `MET` label is 16 characters
   * and the others 17; a response gets `NOT ASSESSED` exactly when it is not
   * one of the four answers.
   */
  lemma Labels(s: Status, t: Status, r: JsValue)
    ensures s != t ==> Label(s) != Label(t)
    ensures |Label(s)| == if s == Met then 16 else 17
    ensures Label(Classify(r)) == "[ NOT ASSESSED  ]" <==> !(r.Str? && r.s in VALID_RESPONSES)
  {
    ClassifyTokens(r, s);
    if s != t {
      assert Label(s)[2] != Label(t)[2] || Label(s)[3] != Label(t)[3] || Label(s)[6] != Label(t)[6];
    }
  }

  /** The block has an implementation-notes line right after its head. */
  predicate HasNotesLine(block: string, head: string) {
    |block| >= |head| + |NOTES_PREFIX| && block[|head|..|head| + |NOTES_PREFIX|] == NOTES_PREFIX
  }

  /** A control's block opens with its head, which opens with its status label. */
  lemma ControlOpens(c: Control, texts: string -> string, resp: JsValue, notes: JsValue)
    ensures Label(StatusOf(resp, c)) <= ControlHead(c, texts, resp) <= ControlBlock(c, texts, resp, notes)
  {
    var line := Label(StatusOf(resp, c)) + " [" + LevelBadge(c) + "] " + c.id + "\n";
    var text := "  " + texts(c.id) + "\n";
    var head := ControlHead(c, texts, resp);
    var block := ControlBlock(c, texts, resp, notes);
    assert "" + line + text == head;
    assert block == head + block[|head|..];
  }

  /**
   * A control's block has a notes line exactly when the control's note is
   * truthy, and a string note is printed verbatim.
   */
  lemma NotesLine(c: Control, texts: string -> string, resp: JsValue, notes: JsValue)
    ensures HasNotesLine(ControlBlock(c, texts, resp, notes), ControlHead(c, texts, resp))
      <==> Truthy(Get(notes, c.id))
    ensures var note := Get(notes, c.id);
      note.Str? && note.s != "" ==>
        ControlBlock(c, texts, resp, notes) == ControlHead(c, texts, resp) + (NOTES_PREFIX + note.s + "\n") + "\n"
  {
    var line := Label(StatusOf(resp, c)) + " [" + LevelBadge(c) + "] " + c.id + "\n";
    var text := "  " + texts(c.id) + "\n";
    var head := ControlHead(c, texts, resp);
    var block := ControlBlock(c, texts, resp, notes);
    var note := Get(notes, c.id);
    assert "" + line + text == head;
    if Truthy(note) {
      var notesLine := NOTES_PREFIX + Printed(note) + "\n";
      assert block == head + notesLine + "\n";
      assert NOTES_PREFIX <= notesLine;
      PrefixAt(head, notesLine, "\n", NOTES_PREFIX);
    } else {
      assert block == head + "\n";
    }
  }
}
