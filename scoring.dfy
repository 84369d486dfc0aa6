/**
 * The SPRS scoring engine: every control of the catalog is read as one of five
 * statuses from the assessor's responses, counted overall, per CMMC level and
 * per family, and every control that is not met (and not "na") takes its
 * weight off the maximum score of 110.
 */
module Scoring {
  import opened JsValues
  import opened Catalog

  /** The five buckets a control falls into; anything but the four answers is "not assessed". */
  datatype Status = Met | Partial | NotMet | NA | Unassessed

  /** The four answers an assessor can give. */
  const VALID_RESPONSES: set<string> := {"met", "partial", "not-met", "na"}

  /** The highest score, reached when no control deducts. */
  const MAX_SPRS := 110

  /** The answer that selects an assessed status. */
  function Token(s: Status): (t: string)
    ensures s != Unassessed ==> t in VALID_RESPONSES
  {
    match s
    case Met => "met"
    case Partial => "partial"
    case NotMet => "not-met"
    case NA => "na"
    case Unassessed => ""
  }

  /** How the scorer reads one response value: strict comparison against the four answers. */
  function Classify(r: JsValue): Status {
    if r == Str("met") then Met
    else if r == Str("partial") then Partial
    else if r == Str("not-met") then NotMet
    else if r == Str("na") then NA
    else Unassessed
  }

  /**
   * A response is assessed exactly when it is one of the four answers, and
   * then it is the answer naming its status; each answer is read back as the
   * status it names.
   */
  lemma ClassifyTokens(r: JsValue, s: Status)
    ensures Classify(r) != Unassessed <==> r.Str? && r.s in VALID_RESPONSES
    ensures Classify(r) != Unassessed ==> r == Str(Token(Classify(r)))
    ensures s != Unassessed ==> Classify(Str(Token(s))) == s
  {
  }

  /** The status of control `c` under the (already coerced) responses `resp`. */
  function StatusOf(resp: JsValue, c: Control): Status {
    Classify(Get(resp, c.id))
  }

  /** Partial, not met and not assessed all cost the control's weight; met and na cost nothing. */
  predicate Deducts(s: Status) {
    s != Met && s != NA
  }

  /** Counted as met for the level breakdown: met or not applicable. */
  predicate CountsAsMet(s: Status) {
    s == Met || s == NA
  }

  function Deduct(c: Control, s: Status): int {
    if Deducts(s) then c.weight else 0
  }

  // ---------------------------------------------------------------------
  // Counters

  /** One counter per status plus the number of controls seen. */
  datatype Tally = Tally(met: nat, partial: nat, notMet: nat, na: nat, unassessed: nat, total: nat)

  const NO_TALLY := Tally(0, 0, 0, 0, 0, 0)

  /** 1 when `b` holds, else 0. */
  function Count(b: bool): nat {
    if b then 1 else 0
  }

  /** Count one more control with status `s`. */
  function Bump(t: Tally, s: Status): Tally {
    Tally(
      t.met + Count(s == Met),
      t.partial + Count(s == Partial),
      t.notMet + Count(s == NotMet),
      t.na + Count(s == NA),
      t.unassessed + Count(s == Unassessed),
      t.total + 1)
  }

  function Buckets(t: Tally): nat {
    t.met + t.partial + t.notMet + t.na + t.unassessed
  }

  /** The counters over the controls `cs`. */
  function TallyOf(cs: seq<Control>, resp: JsValue): Tally {
    if cs == [] then NO_TALLY
    else Bump(TallyOf(cs[..|cs| - 1], resp), StatusOf(resp, cs[|cs| - 1]))
  }

  /** The points lost over the controls `cs`. */
  function Deduction(cs: seq<Control>, resp: JsValue): int {
    if cs == [] then 0
    else Deduction(cs[..|cs| - 1], resp) + Deduct(cs[|cs| - 1], StatusOf(resp, cs[|cs| - 1]))
  }

  /** The controls of `cs` at Level 1 (`one`) or at any other level (`!one`). */
  function AtLevel(cs: seq<Control>, one: bool): seq<Control> {
    if cs == [] then []
    else
      var last := cs[|cs| - 1];
      AtLevel(cs[..|cs| - 1], one) + (if (last.level == 1) == one then [last] else [])
  }

  datatype LevelTally = LevelTally(met: nat, total: nat, achieved: bool)

  /** A level's breakdown: met or na counts as met, and the level is achieved when every control is. */
  function LevelOf(cs: seq<Control>, resp: JsValue, one: bool): LevelTally {
    var t := TallyOf(AtLevel(cs, one), resp);
    LevelTally(t.met + t.na, t.total, t.met + t.na == t.total)
  }

  /** The counters of each family named in `keys`, over the controls `cs`. */
  function TalliesFor(keys: set<string>, cs: seq<Control>, resp: JsValue): map<string, Tally> {
    map a | a in keys :: TallyOf(InDomain(cs, a), resp)
  }

  /** The abbreviations of the catalog's families: the keys of the per-family breakdown. */
  const DOMAIN_ABBRS := Abbrs(DOMAINS)

  datatype ScoreResult = ScoreResult(
    sprs: int,
    totalControls: nat,
    met: nat,
    partial: nat,
    notMet: nat,
    na: nat,
    unassessed: nat,
    l1: LevelTally,
    l2: LevelTally,
    domains: map<string, Tally>)

  /**
   * The result over the catalog `cs` with families `keys`, for responses
   * already read as an object.
   */
  function ScoreOf(cs: seq<Control>, keys: set<string>, resp: JsValue): ScoreResult {
    var t := TallyOf(cs, resp);
    ScoreResult(
      MAX_SPRS - Deduction(cs, resp),
      |cs|,
      t.met, t.partial, t.notMet, t.na, t.unassessed,
      LevelOf(cs, resp, true),
      LevelOf(cs, resp, false),
      TalliesFor(keys, cs, resp))
  }

  /** What the scorer returns for `responses`: anything but a non-null object reads as `{}`. */
  function Score(responses: JsValue): ScoreResult {
    ScoreOf(CONTROLS, DOMAIN_ABBRS, ObjectOrEmpty(responses))
  }

  // ---------------------------------------------------------------------
  // One step of the scan

  lemma {:induction false} TallySnoc(cs: seq<Control>, c: Control, resp: JsValue)
    ensures TallyOf(cs + [c], resp) == Bump(TallyOf(cs, resp), StatusOf(resp, c))
    ensures Deduction(cs + [c], resp) == Deduction(cs, resp) + Deduct(c, StatusOf(resp, c))
  {
    assert (cs + [c])[..|cs|] == cs;
  }

  lemma {:induction false} FilterSnoc(cs: seq<Control>, c: Control, a: string, one: bool)
    ensures InDomain(cs + [c], a) == InDomain(cs, a) + (if c.domain == a then [c] else [])
    ensures AtLevel(cs + [c], one) == AtLevel(cs, one) + (if (c.level == 1) == one then [c] else [])
  {
    assert (cs + [c])[..|cs|] == cs;
  }

  /**
   * `domains` holds exactly the families named in `keys`, each mapped to its
   * counters over the controls `cs`.
   */
  ghost predicate DomainsAt(domains: map<string, Tally>, keys: set<string>, cs: seq<Control>, resp: JsValue) {
    (forall a :: a in domains <==> a in keys) &&
    (forall a | a in domains :: domains[a] == TallyOf(InDomain(cs, a), resp))
  }

  lemma DomainsAtTallies(domains: map<string, Tally>, keys: set<string>, cs: seq<Control>, resp: JsValue)
    requires DomainsAt(domains, keys, cs, resp)
    ensures domains == TalliesFor(keys, cs, resp)
  {
  }

  /** Scanning control `cs[i]` bumps its family's counters and leaves the others alone. */
  lemma {:induction false} DomainsStep(domains: map<string, Tally>, keys: set<string>, cs: seq<Control>, i: nat, resp: JsValue)
    requires i < |cs| && cs[i].domain in keys
    requires DomainsAt(domains, keys, cs[..i], resp)
    ensures DomainsAt(domains[cs[i].domain := Bump(domains[cs[i].domain], StatusOf(resp, cs[i]))], keys, cs[..i + 1], resp)
  {
    var c := cs[i];
    var d := domains[c.domain := Bump(domains[c.domain], StatusOf(resp, c))];
    assert cs[..i + 1] == cs[..i] + [c];
    forall a | a in d
      ensures d[a] == TallyOf(InDomain(cs[..i + 1], a), resp)
    {
      FilterSnoc(cs[..i], c, a, true);
      if a == c.domain {
        TallySnoc(InDomain(cs[..i], a), c, resp);
      } else {
        assert InDomain(cs[..i] + [c], a) == InDomain(cs[..i], a) + [] == InDomain(cs[..i], a);
      }
    }
  }

  /** Scanning control `cs[i]` adds its status to the overall counters and its deduction to the total. */
  lemma {:induction false} ScanStep(cs: seq<Control>, i: nat, resp: JsValue)
    requires i < |cs|
    ensures TallyOf(cs[..i + 1], resp) == Bump(TallyOf(cs[..i], resp), StatusOf(resp, cs[i]))
    ensures Deduction(cs[..i + 1], resp) == Deduction(cs[..i], resp) + Deduct(cs[i], StatusOf(resp, cs[i]))
  {
    assert cs[..i + 1] == cs[..i] + [cs[i]];
    TallySnoc(cs[..i], cs[i], resp);
  }

  /** Scanning control `cs[i]` counts it in its own level, as met when it is met or na, and in no other. */
  lemma {:induction false} LevelStep(cs: seq<Control>, i: nat, resp: JsValue, one: bool)
    requires i < |cs|
    ensures var s := StatusOf(resp, cs[i]);
      if (cs[i].level == 1) == one then
        && LevelOf(cs[..i + 1], resp, one).met == LevelOf(cs[..i], resp, one).met + Count(s == Met) + Count(s == NA)
        && LevelOf(cs[..i + 1], resp, one).total == LevelOf(cs[..i], resp, one).total + 1
      else
        && LevelOf(cs[..i + 1], resp, one).met == LevelOf(cs[..i], resp, one).met
        && LevelOf(cs[..i + 1], resp, one).total == LevelOf(cs[..i], resp, one).total
  {
    var c := cs[i];
    assert cs[..i + 1] == cs[..i] + [c];
    FilterSnoc(cs[..i], c, "", one);
    if (c.level == 1) == one {
      TallySnoc(AtLevel(cs[..i], one), c, resp);
    } else {
      assert AtLevel(cs[..i] + [c], one) == AtLevel(cs[..i], one) + [] == AtLevel(cs[..i], one);
    }
  }

  // ---------------------------------------------------------------------
  // The scorer

  /**
   * The body of the scan for one control `c` whose response is `r`: the
   * control is counted in its family and its level, then in the bucket its
   * response selects; partial, not met and not assessed take its weight.
   */
  method CountControl(
    c: Control, r: JsValue,
    sprsDeduction: int, met: nat, partial: nat, notMet: nat, na: nat, unassessed: nat,
    l1: LevelTally, l2: LevelTally, domains: map<string, Tally>)
    returns (
    sprsDeduction': int, met': nat, partial': nat, notMet': nat, na': nat, unassessed': nat,
    l1': LevelTally, l2': LevelTally, domains': map<string, Tally>)
    requires c.domain in domains
    ensures Counted(c, Classify(r),
      sprsDeduction, met, partial, notMet, na, unassessed, l1, l2, domains,
      sprsDeduction', met', partial', notMet', na', unassessed', l1', l2', domains')
  {
    sprsDeduction', met', partial', notMet', na', unassessed' := sprsDeduction, met, partial, notMet, na, unassessed;
    l1', l2' := l1, l2;
    var dom := domains[c.domain];

    dom := dom.(total := dom.total + 1);

    if c.level == 1 {
      l1' := l1'.(total := l1'.total + 1);
    } else {
      l2' := l2'.(total := l2'.total + 1);
    }

    if r == Str("met") {
      met' := met' + 1;
      dom := dom.(met := dom.met + 1);
      if c.level == 1 {
        l1' := l1'.(met := l1'.met + 1);
      } else {
        l2' := l2'.(met := l2'.met + 1);
      }
    } else if r == Str("partial") {
      partial' := partial' + 1;
      dom := dom.(partial := dom.partial + 1);
      sprsDeduction' := sprsDeduction' + c.weight;
    } else if r == Str("not-met") {
      notMet' := notMet' + 1;
      dom := dom.(notMet := dom.notMet + 1);
      sprsDeduction' := sprsDeduction' + c.weight;
    } else if r == Str("na") {
      na' := na' + 1;
      dom := dom.(na := dom.na + 1);
      if c.level == 1 {
        l1' := l1'.(met := l1'.met + 1);
      } else {
        l2' := l2'.(met := l2'.met + 1);
      }
    } else {
      unassessed' := unassessed' + 1;
      dom := dom.(unassessed := dom.unassessed + 1);
      sprsDeduction' := sprsDeduction' + c.weight;
    }
    domains' := domains[c.domain := dom];
  }

  /**
   * The primed counters are the unprimed ones after counting control `c` with
   * status `s`: its weight is deducted unless it is met or na, exactly one
   * bucket grows, its own level grows (in met too when it is met or na) and
   * the other level is unchanged, and its family's counters are bumped.
   */
  ghost predicate Counted(
    c: Control, s: Status,
    sprsDeduction: int, met: nat, partial: nat, notMet: nat, na: nat, unassessed: nat,
    l1: LevelTally, l2: LevelTally, domains: map<string, Tally>,
    sprsDeduction': int, met': nat, partial': nat, notMet': nat, na': nat, unassessed': nat,
    l1': LevelTally, l2': LevelTally, domains': map<string, Tally>)
    requires c.domain in domains
  {
    && sprsDeduction' == sprsDeduction + Deduct(c, s)
    && met' == met + Count(s == Met)
    && partial' == partial + Count(s == Partial)
    && notMet' == notMet + Count(s == NotMet)
    && na' == na + Count(s == NA)
    && unassessed' == unassessed + Count(s == Unassessed)
    && (var m := Count(s == Met) + Count(s == NA);
        if c.level == 1 then l1' == LevelTally(l1.met + m, l1.total + 1, l1.achieved) && l2' == l2
        else l1' == l1 && l2' == LevelTally(l2.met + m, l2.total + 1, l2.achieved))
    && domains' == domains[c.domain := Bump(domains[c.domain], s)]
  }

  /** The counters hold the scan of the controls `cs`, with the levels not yet decided. */
  ghost predicate Scanned(
    cs: seq<Control>, resp: JsValue, keys: set<string>,
    sprsDeduction: int, met: nat, partial: nat, notMet: nat, na: nat, unassessed: nat,
    l1: LevelTally, l2: LevelTally, domains: map<string, Tally>)
  {
    && sprsDeduction == Deduction(cs, resp)
    && Tally(met, partial, notMet, na, unassessed, |cs|) == TallyOf(cs, resp)
    && l1 == LevelOf(cs, resp, true).(achieved := false)
    && l2 == LevelOf(cs, resp, false).(achieved := false)
    && DomainsAt(domains, keys, cs, resp)
  }

  /** Counting control `cs[i]` extends the scan of `cs[..i]` to the scan of `cs[..i + 1]`. */
  lemma ScannedStep(
    cs: seq<Control>, i: nat, resp: JsValue, keys: set<string>,
    sprsDeduction: int, met: nat, partial: nat, notMet: nat, na: nat, unassessed: nat,
    l1: LevelTally, l2: LevelTally, domains: map<string, Tally>,
    sprsDeduction': int, met': nat, partial': nat, notMet': nat, na': nat, unassessed': nat,
    l1': LevelTally, l2': LevelTally, domains': map<string, Tally>)
    requires i < |cs| && cs[i].domain in keys
    requires Scanned(cs[..i], resp, keys, sprsDeduction, met, partial, notMet, na, unassessed, l1, l2, domains)
    requires Counted(cs[i], StatusOf(resp, cs[i]),
      sprsDeduction, met, partial, notMet, na, unassessed, l1, l2, domains,
      sprsDeduction', met', partial', notMet', na', unassessed', l1', l2', domains')
    ensures Scanned(cs[..i + 1], resp, keys, sprsDeduction', met', partial', notMet', na', unassessed', l1', l2', domains')
  {
    var s := StatusOf(resp, cs[i]);
    assert sprsDeduction' == Deduction(cs[..i + 1], resp) by {
      ScanStep(cs, i, resp);
    }
    assert Tally(met', partial', notMet', na', unassessed', |cs[..i + 1]|) == TallyOf(cs[..i + 1], resp) by {
      ScanStep(cs, i, resp);
      TallyStep(cs, i, resp, s, met, partial, notMet, na, unassessed, met', partial', notMet', na', unassessed');
    }
    assert l1' == LevelOf(cs[..i + 1], resp, true).(achieved := false)
        && l2' == LevelOf(cs[..i + 1], resp, false).(achieved := false) by {
      LevelsStep(cs, i, resp, s, l1, l2, l1', l2');
    }
    assert DomainsAt(domains', keys, cs[..i + 1], resp) by {
      DomainsStep(domains, keys, cs, i, resp);
    }
  }

  lemma TallyStep(
    cs: seq<Control>, i: nat, resp: JsValue, s: Status,
    met: nat, partial: nat, notMet: nat, na: nat, unassessed: nat,
    met': nat, partial': nat, notMet': nat, na': nat, unassessed': nat)
    requires i < |cs| && s == StatusOf(resp, cs[i])
    requires TallyOf(cs[..i + 1], resp) == Bump(TallyOf(cs[..i], resp), s)
    requires Tally(met, partial, notMet, na, unassessed, |cs[..i]|) == TallyOf(cs[..i], resp)
    requires met' == met + Count(s == Met)
    requires partial' == partial + Count(s == Partial)
    requires notMet' == notMet + Count(s == NotMet)
    requires na' == na + Count(s == NA)
    requires unassessed' == unassessed + Count(s == Unassessed)
    ensures Tally(met', partial', notMet', na', unassessed', |cs[..i + 1]|) == TallyOf(cs[..i + 1], resp)
  {
  }

  lemma LevelsStep(cs: seq<Control>, i: nat, resp: JsValue, s: Status, l1: LevelTally, l2: LevelTally, l1': LevelTally, l2': LevelTally)
    requires i < |cs| && s == StatusOf(resp, cs[i])
    requires l1 == LevelOf(cs[..i], resp, true).(achieved := false)
    requires l2 == LevelOf(cs[..i], resp, false).(achieved := false)
    requires var m := Count(s == Met) + Count(s == NA);
        if cs[i].level == 1 then l1' == LevelTally(l1.met + m, l1.total + 1, l1.achieved) && l2' == l2
        else l1' == l1 && l2' == LevelTally(l2.met + m, l2.total + 1, l2.achieved)
    ensures l1' == LevelOf(cs[..i + 1], resp, true).(achieved := false)
    ensures l2' == LevelOf(cs[..i + 1], resp, false).(achieved := false)
  {
    LevelStep(cs, i, resp, true);
    LevelStep(cs, i, resp, false);
  }

  /** Counting control `cs[i]` with `CountControl` extends the scan of `cs[..i]` to `cs[..i + 1]`. */
  method CountNext(
    cs: seq<Control>, i: nat, resp: JsValue, keys: set<string>,
    sprsDeduction: int, met: nat, partial: nat, notMet: nat, na: nat, unassessed: nat,
    l1: LevelTally, l2: LevelTally, domains: map<string, Tally>)
    returns (
    sprsDeduction': int, met': nat, partial': nat, notMet': nat, na': nat, unassessed': nat,
    l1': LevelTally, l2': LevelTally, domains': map<string, Tally>)
    requires i < |cs| && cs[i].domain in keys
    requires Scanned(cs[..i], resp, keys, sprsDeduction, met, partial, notMet, na, unassessed, l1, l2, domains)
    ensures Scanned(cs[..i + 1], resp, keys, sprsDeduction', met', partial', notMet', na', unassessed', l1', l2', domains')
  {
    sprsDeduction', met', partial', notMet', na', unassessed', l1', l2', domains' :=
      CountControl(cs[i], Get(resp, cs[i].id), sprsDeduction, met, partial, notMet, na, unassessed, l1, l2, domains);
    ScannedStep(cs, i, resp, keys,
      sprsDeduction, met, partial, notMet, na, unassessed, l1, l2, domains,
      sprsDeduction', met', partial', notMet', na', unassessed', l1', l2', domains');
  }

  /**
   * The scan over the controls `cs` (the catalog, in the scorer): every
   * counter starts at zero, every family of `keys` starts in `domains0` with
   * zero counters, and each control is counted by `CountControl`.
   */
  method ScanControls(cs: seq<Control>, resp: JsValue, keys: set<string>, domains0: map<string, Tally>)
    returns (sprsDeduction: int, met: nat, partial: nat, notMet: nat, na: nat, unassessed: nat,
             l1: LevelTally, l2: LevelTally, domains: map<string, Tally>)
    requires forall i | 0 <= i < |cs| :: cs[i].domain in keys
    requires DomainsAt(domains0, keys, [], resp)
    ensures Scanned(cs, resp, keys, sprsDeduction, met, partial, notMet, na, unassessed, l1, l2, domains)
  {
    sprsDeduction := 0;
    met, partial, notMet, na, unassessed := 0, 0, 0, 0, 0;
    l1 := LevelTally(0, 0, false);
    l2 := LevelTally(0, 0, false);
    domains := domains0;
    assert cs[..0] == [];

    for i := 0 to |cs|
      invariant Scanned(cs[..i], resp, keys, sprsDeduction, met, partial, notMet, na, unassessed, l1, l2, domains)
    {
      sprsDeduction, met, partial, notMet, na, unassessed, l1, l2, domains :=
        CountNext(cs, i, resp, keys, sprsDeduction, met, partial, notMet, na, unassessed, l1, l2, domains);
    }
    ScannedWhole(cs, resp, keys, sprsDeduction, met, partial, notMet, na, unassessed, l1, l2, domains);
  }

  /** The scan of the prefix of all of `cs` is the scan of `cs`. */
  lemma ScannedWhole(
    cs: seq<Control>, resp: JsValue, keys: set<string>,
    sprsDeduction: int, met: nat, partial: nat, notMet: nat, na: nat, unassessed: nat,
    l1: LevelTally, l2: LevelTally, domains: map<string, Tally>)
    requires Scanned(cs[..|cs|], resp, keys, sprsDeduction, met, partial, notMet, na, unassessed, l1, l2, domains)
    ensures Scanned(cs, resp, keys, sprsDeduction, met, partial, notMet, na, unassessed, l1, l2, domains)
  {
    assert cs[..|cs|] == cs;
  }

  /** Family maps built with every key of `keys` at zero counters hold the scan of no controls. */
  lemma FreshDomains(domains: map<string, Tally>, keys: set<string>, resp: JsValue)
    requires forall a :: a in domains <==> a in keys
    requires forall a | a in domains :: domains[a] == NO_TALLY
    ensures DomainsAt(domains, keys, [], resp)
  {
  }

  /** Once the levels are decided, the scan of the whole catalog is its score. */
  lemma ScannedScore(
    cs: seq<Control>, resp: JsValue, keys: set<string>,
    sprsDeduction: int, met: nat, partial: nat, notMet: nat, na: nat, unassessed: nat,
    l1: LevelTally, l2: LevelTally, domains: map<string, Tally>)
    requires Scanned(cs, resp, keys, sprsDeduction, met, partial, notMet, na, unassessed, l1, l2, domains)
    ensures ScoreResult(
      MAX_SPRS - sprsDeduction, |cs|, met, partial, notMet, na, unassessed,
      l1.(achieved := l1.met == l1.total), l2.(achieved := l2.met == l2.total), domains)
      == ScoreOf(cs, keys, resp)
  {
    DomainsAtTallies(domains, keys, cs, resp);
  }

  /** Every control of the catalog belongs to one of its families. */
  lemma ControlsInFamilies()
    ensures forall i | 0 <= i < |CONTROLS| :: CONTROLS[i].domain in DOMAIN_ABBRS
  {
    ControlFields();
    forall i | 0 <= i < |CONTROLS| ensures CONTROLS[i].domain in DOMAIN_ABBRS {
      assert CONTROLS[i] in CONTROLS;
    }
  }

  /**
   * The body of calculateScore over the families `ds` and the controls `cs`:
   * give every family zero counters, scan the controls, then decide each level.
   */
  method ScoreControls(ds: seq<Domain>, cs: seq<Control>, resp: JsValue) returns (result: ScoreResult)
    requires forall i | 0 <= i < |cs| :: cs[i].domain in Abbrs(ds)
    ensures result == ScoreOf(cs, Abbrs(ds), resp)
  {
    var domains: map<string, Tally> := map[];
    for j := 0 to |ds|
      invariant forall a :: a in domains <==> exists k | 0 <= k < j :: ds[k].abbr == a
      invariant forall a | a in domains :: domains[a] == NO_TALLY
    {
      domains := domains[ds[j].abbr := NO_TALLY];
    }
    forall a ensures a in domains <==> a in Abbrs(ds) {
      if a in domains {
        var k :| 0 <= k < |ds| && ds[k].abbr == a;
        assert ds[k] in ds;
      }
    }

    FreshDomains(domains, Abbrs(ds), resp);
    var sprsDeduction, met, partial, notMet, na, unassessed, l1, l2;
    sprsDeduction, met, partial, notMet, na, unassessed, l1, l2, domains :=
      ScanControls(cs, resp, Abbrs(ds), domains);
    ScannedScore(cs, resp, Abbrs(ds), sprsDeduction, met, partial, notMet, na, unassessed, l1, l2, domains);

    l1 := l1.(achieved := l1.met == l1.total);
    l2 := l2.(achieved := l2.met == l2.total);

    result := ScoreResult(
      MAX_SPRS - sprsDeduction,
      |cs|,
      met, partial, notMet, na, unassessed,
      l1, l2,
      domains);
  }

  /** calculateScore: coerce the responses to an object, then score the catalog. */
  method CalculateScore(responses: JsValue) returns (result: ScoreResult)
    ensures result == Score(responses)
  {
    var resp := responses;
    if !Truthy(resp) || !IsObject(resp) {
      resp := Obj([]);
    }
    ControlsInFamilies();
    result := ScoreControls(DOMAINS, CONTROLS, resp);
  }
}
