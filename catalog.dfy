/**
 * The fixed catalog: the 14 requirement families of NIST SP 800-171 Rev. 2
 * (section 3.1 to section 3.14) and their 110 controls, each with its CMMC
 * level and its SPRS weight.  The table is written one family at a time, in
 * the catalog's own order; CONTROLS is their concatenation, exactly the
 * source's single array.  The lemmas state the table's well-formedness.
 */
module Catalog {
  import opened Text

  datatype Domain = Domain(abbr: string, name: string, nist: string)

  /**
   * One control of the catalog: its id, CMMC level, family, NIST SP 800-171
   * clause and SPRS weight.  Its wording lives in the Requirements module.
   */
  datatype Control = Control(id: string, level: int, domain: string, nist: string, weight: int)

  const DOMAINS: seq<Domain> := [
    Domain("AC", "Access Control", "3.1"),
    Domain("AT", "Awareness and Training", "3.2"),
    Domain("AU", "Audit and Accountability", "3.3"),
    Domain("CM", "Configuration Management", "3.4"),
    Domain("IA", "Identification and Authentication", "3.5"),
    Domain("IR", "Incident Response", "3.6"),
    Domain("MA", "Maintenance", "3.7"),
    Domain("MP", "Media Protection", "3.8"),
    Domain("PS", "Personnel Security", "3.9"),
    Domain("PE", "Physical Protection", "3.10"),
    Domain("RA", "Risk Assessment", "3.11"),
    Domain("CA", "Security Assessment", "3.12"),
    Domain("SC", "System and Communications Protection", "3.13"),
    Domain("SI", "System and Information Integrity", "3.14")
  ]

  // AC - Access Control (22 controls)
  const AC_CONTROLS: seq<Control> := [
    Control("AC.L1-3.1.1", 1, "AC", "3.1.1", 5),
    Control("AC.L1-3.1.2", 1, "AC", "3.1.2", 5),
    Control("AC.L2-3.1.3", 2, "AC", "3.1.3", 5),
    Control("AC.L2-3.1.4", 2, "AC", "3.1.4", 3),
    Control("AC.L2-3.1.5", 2, "AC", "3.1.5", 5),
    Control("AC.L2-3.1.6", 2, "AC", "3.1.6", 1),
    Control("AC.L2-3.1.7", 2, "AC", "3.1.7", 5),
    Control("AC.L2-3.1.8", 2, "AC", "3.1.8", 3),
    Control("AC.L2-3.1.9", 2, "AC", "3.1.9", 1),
    Control("AC.L2-3.1.10", 2, "AC", "3.1.10", 1),
    Control("AC.L2-3.1.11", 2, "AC", "3.1.11", 3),
    Control("AC.L2-3.1.12", 2, "AC", "3.1.12", 5),
    Control("AC.L2-3.1.13", 2, "AC", "3.1.13", 5),
    Control("AC.L2-3.1.14", 2, "AC", "3.1.14", 5),
    Control("AC.L2-3.1.15", 2, "AC", "3.1.15", 3),
    Control("AC.L2-3.1.16", 2, "AC", "3.1.16", 1),
    Control("AC.L2-3.1.17", 2, "AC", "3.1.17", 5),
    Control("AC.L2-3.1.18", 2, "AC", "3.1.18", 3),
    Control("AC.L2-3.1.19", 2, "AC", "3.1.19", 5),
    Control("AC.L1-3.1.20", 1, "AC", "3.1.20", 5),
    Control("AC.L2-3.1.21", 2, "AC", "3.1.21", 1),
    Control("AC.L1-3.1.22", 1, "AC", "3.1.22", 1)
  ]

  // AT - Awareness and Training (3 controls)
  const AT_CONTROLS: seq<Control> := [
    Control("AT.L2-3.2.1", 2, "AT", "3.2.1", 3),
    Control("AT.L2-3.2.2", 2, "AT", "3.2.2", 3),
    Control("AT.L2-3.2.3", 2, "AT", "3.2.3", 3)
  ]

  // AU - Audit and Accountability (9 controls)
  const AU_CONTROLS: seq<Control> := [
    Control("AU.L2-3.3.1", 2, "AU", "3.3.1", 5),
    Control("AU.L2-3.3.2", 2, "AU", "3.3.2", 5),
    Control("AU.L2-3.3.3", 2, "AU", "3.3.3", 1),
    Control("AU.L2-3.3.4", 2, "AU", "3.3.4", 3),
    Control("AU.L2-3.3.5", 2, "AU", "3.3.5", 3),
    Control("AU.L2-3.3.6", 2, "AU", "3.3.6", 1),
    Control("AU.L2-3.3.7", 2, "AU", "3.3.7", 1),
    Control("AU.L2-3.3.8", 2, "AU", "3.3.8", 3),
    Control("AU.L2-3.3.9", 2, "AU", "3.3.9", 1)
  ]

  // CM - Configuration Management (9 controls)
  const CM_CONTROLS: seq<Control> := [
    Control("CM.L2-3.4.1", 2, "CM", "3.4.1", 5),
    Control("CM.L2-3.4.2", 2, "CM", "3.4.2", 5),
    Control("CM.L2-3.4.3", 2, "CM", "3.4.3", 3),
    Control("CM.L2-3.4.4", 2, "CM", "3.4.4", 3),
    Control("CM.L2-3.4.5", 2, "CM", "3.4.5", 3),
    Control("CM.L2-3.4.6", 2, "CM", "3.4.6", 3),
    Control("CM.L2-3.4.7", 2, "CM", "3.4.7", 3),
    Control("CM.L2-3.4.8", 2, "CM", "3.4.8", 3),
    Control("CM.L2-3.4.9", 2, "CM", "3.4.9", 1)
  ]

  // IA - Identification and Authentication (11 controls)
  const IA_CONTROLS: seq<Control> := [
    Control("IA.L1-3.5.1", 1, "IA", "3.5.1", 5),
    Control("IA.L1-3.5.2", 1, "IA", "3.5.2", 5),
    Control("IA.L2-3.5.3", 2, "IA", "3.5.3", 5),
    Control("IA.L2-3.5.4", 2, "IA", "3.5.4", 5),
    Control("IA.L2-3.5.5", 2, "IA", "3.5.5", 1),
    Control("IA.L2-3.5.6", 2, "IA", "3.5.6", 1),
    Control("IA.L2-3.5.7", 2, "IA", "3.5.7", 3),
    Control("IA.L2-3.5.8", 2, "IA", "3.5.8", 1),
    Control("IA.L2-3.5.9", 2, "IA", "3.5.9", 1),
    Control("IA.L2-3.5.10", 2, "IA", "3.5.10", 5),
    Control("IA.L2-3.5.11", 2, "IA", "3.5.11", 1)
  ]

  // IR - Incident Response (3 controls)
  const IR_CONTROLS: seq<Control> := [
    Control("IR.L2-3.6.1", 2, "IR", "3.6.1", 5),
    Control("IR.L2-3.6.2", 2, "IR", "3.6.2", 5),
    Control("IR.L2-3.6.3", 2, "IR", "3.6.3", 3)
  ]

  // MA - Maintenance (6 controls)
  const MA_CONTROLS: seq<Control> := [
    Control("MA.L2-3.7.1", 2, "MA", "3.7.1", 1),
    Control("MA.L2-3.7.2", 2, "MA", "3.7.2", 3),
    Control("MA.L2-3.7.3", 2, "MA", "3.7.3", 3),
    Control("MA.L2-3.7.4", 2, "MA", "3.7.4", 3),
    Control("MA.L2-3.7.5", 2, "MA", "3.7.5", 5),
    Control("MA.L2-3.7.6", 2, "MA", "3.7.6", 3)
  ]

  // MP - Media Protection (9 controls)
  const MP_CONTROLS: seq<Control> := [
    Control("MP.L1-3.8.3", 1, "MP", "3.8.3", 5),
    Control("MP.L2-3.8.1", 2, "MP", "3.8.1", 3),
    Control("MP.L2-3.8.2", 2, "MP", "3.8.2", 3),
    Control("MP.L2-3.8.4", 2, "MP", "3.8.4", 1),
    Control("MP.L2-3.8.5", 2, "MP", "3.8.5", 3),
    Control("MP.L2-3.8.6", 2, "MP", "3.8.6", 5),
    Control("MP.L2-3.8.7", 2, "MP", "3.8.7", 3),
    Control("MP.L2-3.8.8", 2, "MP", "3.8.8", 1),
    Control("MP.L2-3.8.9", 2, "MP", "3.8.9", 3)
  ]

  // PS - Personnel Security (2 controls)
  const PS_CONTROLS: seq<Control> := [
    Control("PS.L2-3.9.1", 2, "PS", "3.9.1", 3),
    Control("PS.L2-3.9.2", 2, "PS", "3.9.2", 3)
  ]

  // PE - Physical Protection (6 controls)
  const PE_CONTROLS: seq<Control> := [
    Control("PE.L1-3.10.1", 1, "PE", "3.10.1", 5),
    Control("PE.L2-3.10.2", 2, "PE", "3.10.2", 3),
    Control("PE.L1-3.10.3", 1, "PE", "3.10.3", 1),
    Control("PE.L1-3.10.4", 1, "PE", "3.10.4", 1),
    Control("PE.L1-3.10.5", 1, "PE", "3.10.5", 1),
    Control("PE.L2-3.10.6", 2, "PE", "3.10.6", 3)
  ]

  // RA - Risk Assessment (3 controls)
  const RA_CONTROLS: seq<Control> := [
    Control("RA.L2-3.11.1", 2, "RA", "3.11.1", 3),
    Control("RA.L2-3.11.2", 2, "RA", "3.11.2", 5),
    Control("RA.L2-3.11.3", 2, "RA", "3.11.3", 5)
  ]

  // CA - Security Assessment (4 controls)
  const CA_CONTROLS: seq<Control> := [
    Control("CA.L2-3.12.1", 2, "CA", "3.12.1", 3),
    Control("CA.L2-3.12.2", 2, "CA", "3.12.2", 5),
    Control("CA.L2-3.12.3", 2, "CA", "3.12.3", 3),
    Control("CA.L2-3.12.4", 2, "CA", "3.12.4", 5)
  ]

  // SC - System and Communications Protection (16 controls)
  const SC_CONTROLS: seq<Control> := [
    Control("SC.L1-3.13.1", 1, "SC", "3.13.1", 5),
    Control("SC.L2-3.13.2", 2, "SC", "3.13.2", 3),
    Control("SC.L2-3.13.3", 2, "SC", "3.13.3", 3),
    Control("SC.L2-3.13.4", 2, "SC", "3.13.4", 3),
    Control("SC.L1-3.13.5", 1, "SC", "3.13.5", 5),
    Control("SC.L2-3.13.6", 2, "SC", "3.13.6", 5),
    Control("SC.L2-3.13.7", 2, "SC", "3.13.7", 3),
    Control("SC.L2-3.13.8", 2, "SC", "3.13.8", 5),
    Control("SC.L2-3.13.9", 2, "SC", "3.13.9", 1),
    Control("SC.L2-3.13.10", 2, "SC", "3.13.10", 3),
    Control("SC.L2-3.13.11", 2, "SC", "3.13.11", 5),
    Control("SC.L2-3.13.12", 2, "SC", "3.13.12", 1),
    Control("SC.L2-3.13.13", 2, "SC", "3.13.13", 1),
    Control("SC.L2-3.13.14", 2, "SC", "3.13.14", 1),
    Control("SC.L2-3.13.15", 2, "SC", "3.13.15", 5),
    Control("SC.L2-3.13.16", 2, "SC", "3.13.16", 5)
  ]

  // SI - System and Information Integrity (7 controls)
  const SI_CONTROLS: seq<Control> := [
    Control("SI.L1-3.14.1", 1, "SI", "3.14.1", 5),
    Control("SI.L1-3.14.2", 1, "SI", "3.14.2", 5),
    Control("SI.L2-3.14.3", 2, "SI", "3.14.3", 3),
    Control("SI.L1-3.14.4", 1, "SI", "3.14.4", 3),
    Control("SI.L1-3.14.5", 1, "SI", "3.14.5", 3),
    Control("SI.L2-3.14.6", 2, "SI", "3.14.6", 5),
    Control("SI.L2-3.14.7", 2, "SI", "3.14.7", 5)
  ]

  const CONTROLS: seq<Control> :=
    AC_CONTROLS + AT_CONTROLS + AU_CONTROLS + CM_CONTROLS
    + IA_CONTROLS + IR_CONTROLS + MA_CONTROLS + MP_CONTROLS
    + PS_CONTROLS + PE_CONTROLS + RA_CONTROLS + CA_CONTROLS
    + SC_CONTROLS + SI_CONTROLS

  /** The families in DOMAINS order; CONTROLS is their concatenation. */
  const FAMILIES: seq<seq<Control>> := [
    AC_CONTROLS, AT_CONTROLS, AU_CONTROLS, CM_CONTROLS,
    IA_CONTROLS, IR_CONTROLS, MA_CONTROLS, MP_CONTROLS,
    PS_CONTROLS, PE_CONTROLS, RA_CONTROLS, CA_CONTROLS,
    SC_CONTROLS, SI_CONTROLS
  ]

  // ---------------------------------------------------------------------
  // Shape of a row and of a family

  function Digit(c: char): int {
    (c as int) - ('0' as int)
  }

  /** The clause number after the last '.' of an id such as "AC.L1-3.1.22" (one or two digits here). */
  function ClauseNumber(id: string): int {
    var n := |id|;
    if n >= 2 && id[n - 2] == '.' then Digit(id[n - 1])
    else if n >= 2 then 10 * Digit(id[n - 2]) + Digit(id[n - 1])
    else 0
  }

  /**
   * A row of the family with abbreviation `abbr` and NIST section `section`:
   * it names that family as its domain, sits at CMMC level 1 or 2, weighs 1,
   * 3 or 5 points, its id begins with the family's abbreviation, and its
   * NIST clause lies under the family's section ("3.1.20" under "3.1").
   */
  predicate WellFormedRow(c: Control, abbr: string, section: string) {
    && c.domain == abbr
    && (c.level == 1 || c.level == 2)
    && (c.weight == 1 || c.weight == 3 || c.weight == 5)
    && |c.id| >= 2 && c.id[..2] == abbr
    && section + "." <= c.nist
  }

  function LevelTag(level: int): string {
    if level == 1 then ".L1-" else ".L2-"
  }

  /** After the two-letter family, the id continues with the level tag and the NIST clause. */
  predicate IdTail(c: Control) {
    && |c.id| == 6 + |c.nist|
    && (forall k | 0 <= k < 4 :: c.id[2 + k] == LevelTag(c.level)[k])
    && (forall k | 0 <= k < |c.nist| :: c.id[6 + k] == c.nist[k])
  }

  /** So the id spells out the row: `domain + ".L" + level + "-" + nist`. */
  lemma IdSpellsRow(c: Control, abbr: string, section: string)
    requires WellFormedRow(c, abbr, section) && IdTail(c)
    ensures c.id == c.domain + LevelTag(c.level) + c.nist
  {
    assert c.id[2..6] == LevelTag(c.level);
    assert c.id[6..] == c.nist;
    assert c.id == c.id[..2] + c.id[2..6] + c.id[6..];
  }

  predicate WellFormedFamily(cs: seq<Control>, abbr: string, section: string) {
    && (forall i | 0 <= i < |cs| :: WellFormedRow(cs[i], abbr, section))
    && (forall i | 0 <= i < |cs| :: IdTail(cs[i]))
  }

  predicate IdsDistinct(cs: seq<Control>) {
    forall i, j | 0 <= i < j < |cs| :: cs[i].id != cs[j].id
  }

  /** The abbreviations of the families `ds`. */
  function Abbrs(ds: seq<Domain>): set<string> {
    set d | d in ds :: d.abbr
  }

  predicate AbbrsDistinct(ds: seq<Domain>) {
    forall i, j | 0 <= i < j < |ds| :: ds[i].abbr != ds[j].abbr
  }

  /** Families `fs` listed against domains `ds`, as the catalog is built. */
  predicate Catalogued(fs: seq<seq<Control>>, ds: seq<Domain>) {
    && |fs| == |ds|
    && AbbrsDistinct(ds)
    && (forall k | 0 <= k < |ds| :: |ds[k].abbr| == 2)
    && (forall k | 0 <= k < |fs| :: WellFormedFamily(fs[k], ds[k].abbr, ds[k].nist) && IdsDistinct(fs[k]))
  }

  /** A family whose rows are numbered 1, 2, 3, ... in order has no repeated id: the id fixes the number. */
  lemma NumberedIdsDistinct(cs: seq<Control>)
    requires forall i | 0 <= i < |cs| :: ClauseNumber(cs[i].id) == i + 1
    ensures IdsDistinct(cs)
  {
  }

  // ---------------------------------------------------------------------
  // Totals over a list of controls

  function TotalWeight(cs: seq<Control>): int {
    if cs == [] then 0 else TotalWeight(cs[..|cs| - 1]) + cs[|cs| - 1].weight
  }

  function LevelOneCount(cs: seq<Control>): nat {
    if cs == [] then 0
    else LevelOneCount(cs[..|cs| - 1]) + (if cs[|cs| - 1].level == 1 then 1 else 0)
  }

  /** Totals read off running sums, checked row by row. */
  lemma {:induction false} RunningTotals(cs: seq<Control>, weights: seq<int>, levelOnes: seq<int>)
    requires |weights| == |cs| + 1 && |levelOnes| == |cs| + 1
    requires weights[0] == 0 && levelOnes[0] == 0
    requires forall i | 0 <= i < |cs| :: weights[i + 1] == weights[i] + cs[i].weight
    requires forall i | 0 <= i < |cs| :: levelOnes[i + 1] == levelOnes[i] + (if cs[i].level == 1 then 1 else 0)
    ensures TotalWeight(cs) == weights[|cs|] && LevelOneCount(cs) == levelOnes[|cs|]
    decreases |cs|
  {
    if cs != [] {
      var n := |cs|;
      RunningTotals(cs[..n - 1], weights[..n], levelOnes[..n]);
    }
  }

  lemma {:induction false} TotalsAppend(a: seq<Control>, b: seq<Control>)
    ensures TotalWeight(a + b) == TotalWeight(a) + TotalWeight(b)
    ensures LevelOneCount(a + b) == LevelOneCount(a) + LevelOneCount(b)
    decreases |b|
  {
    if b == [] {
      assert a + b == a;
    } else {
      var n := |b|;
      TotalsAppend(a, b[..n - 1]);
      assert (a + b)[..|a + b| - 1] == a + b[..n - 1];
    }
  }

  // ---------------------------------------------------------------------
  // Filtering by domain (`CONTROLS.filter(c => c.domain === abbr)`)

  function InDomain(cs: seq<Control>, abbr: string): (r: seq<Control>)
    ensures |r| <= |cs|
    ensures forall i | 0 <= i < |r| :: r[i].domain == abbr
  {
    if cs == [] then []
    else
      var last := cs[|cs| - 1];
      InDomain(cs[..|cs| - 1], abbr) + (if last.domain == abbr then [last] else [])
  }

  /** The filter keeps every control of the family and nothing else. */
  lemma {:induction false} InDomainMembers(cs: seq<Control>, abbr: string, c: Control)
    ensures c in InDomain(cs, abbr) <==> c in cs && c.domain == abbr
    decreases |cs|
  {
    if cs != [] {
      InDomainMembers(cs[..|cs| - 1], abbr, c);
      assert cs == cs[..|cs| - 1] + [cs[|cs| - 1]];
    }
  }

  lemma {:induction false} InDomainAppend(a: seq<Control>, b: seq<Control>, abbr: string)
    ensures InDomain(a + b, abbr) == InDomain(a, abbr) + InDomain(b, abbr)
    decreases |b|
  {
    if b == [] {
      assert a + b == a;
    } else {
      var n := |b|;
      var ab := a + b;
      var last := b[n - 1];
      var tail := if last.domain == abbr then [last] else [];
      assert ab[..|ab| - 1] == a + b[..n - 1];
      assert ab[|ab| - 1] == last;
      assert InDomain(ab, abbr) == InDomain(a + b[..n - 1], abbr) + tail;
      InDomainAppend(a, b[..n - 1], abbr);
      assert InDomain(b, abbr) == InDomain(b[..n - 1], abbr) + tail;
    }
  }

  lemma {:induction false} InDomainAll(cs: seq<Control>, abbr: string)
    requires forall c | c in cs :: c.domain == abbr
    ensures InDomain(cs, abbr) == cs
    decreases |cs|
  {
    if cs != [] {
      var n := |cs|;
      InDomainAll(cs[..n - 1], abbr);
      assert cs[..n - 1] + [cs[n - 1]] == cs;
    }
  }

  lemma {:induction false} InDomainNone(cs: seq<Control>, abbr: string)
    requires forall c | c in cs :: c.domain != abbr
    ensures InDomain(cs, abbr) == []
    decreases |cs|
  {
    if cs != [] {
      InDomainNone(cs[..|cs| - 1], abbr);
    }
  }

  // ---------------------------------------------------------------------
  // The catalog as a concatenation of families

  function Flatten(fs: seq<seq<Control>>): seq<Control> {
    if fs == [] then [] else Flatten(fs[..|fs| - 1]) + fs[|fs| - 1]
  }

  lemma {:induction false} FlattenMembers(fs: seq<seq<Control>>, c: Control)
    requires c in Flatten(fs)
    ensures exists k | 0 <= k < |fs| :: c in fs[k]
    decreases |fs|
  {
    var n := |fs|;
    if c !in fs[n - 1] {
      FlattenMembers(fs[..n - 1], c);
      var k :| 0 <= k < n - 1 && c in fs[..n - 1][k];
      assert c in fs[k];
    }
  }

  lemma {:induction false} FlattenRowsWellFormed(fs: seq<seq<Control>>, ds: seq<Domain>, c: Control)
    requires Catalogued(fs, ds) && c in Flatten(fs)
    ensures exists k | 0 <= k < |ds| :: WellFormedRow(c, ds[k].abbr, ds[k].nist)
    ensures c.id == c.domain + LevelTag(c.level) + c.nist
  {
    FlattenMembers(fs, c);
    var k :| 0 <= k < |fs| && c in fs[k];
    var i :| 0 <= i < |fs[k]| && fs[k][i] == c;
    assert WellFormedRow(fs[k][i], ds[k].abbr, ds[k].nist) && IdTail(fs[k][i]);
    IdSpellsRow(c, ds[k].abbr, ds[k].nist);
  }

  /** Rows of different families have different ids: an id begins with its two-letter family. */
  lemma RowsOfDifferentFamilies(x: Control, dx: Domain, y: Control, dy: Domain)
    requires WellFormedRow(x, dx.abbr, dx.nist) && WellFormedRow(y, dy.abbr, dy.nist)
    requires dx.abbr != dy.abbr
    ensures x.id != y.id
  {
  }

  lemma AppendIdsDistinct(a: seq<Control>, b: seq<Control>)
    requires IdsDistinct(a) && IdsDistinct(b)
    requires forall x, y | x in a && y in b :: x.id != y.id
    ensures IdsDistinct(a + b)
  {
    var ab := a + b;
    forall i, j | 0 <= i < j < |ab| ensures ab[i].id != ab[j].id {
      if j < |a| {
        assert ab[i] == a[i] && ab[j] == a[j];
      } else if i >= |a| {
        assert ab[i] == b[i - |a|] && ab[j] == b[j - |a|];
      } else {
        assert ab[i] in a && ab[j] in b;
      }
    }
  }

  /** A row of an earlier family and a row of the last family have different ids. */
  lemma EarlierFamilyApart(fs: seq<seq<Control>>, ds: seq<Domain>, x: Control, y: Control)
    requires Catalogued(fs, ds) && |fs| > 0
    requires x in Flatten(fs[..|fs| - 1]) && y in fs[|fs| - 1]
    ensures x.id != y.id
  {
    var n := |fs|;
    FlattenMembers(fs[..n - 1], x);
    var k :| 0 <= k < n - 1 && x in fs[..n - 1][k];
    var p :| 0 <= p < |fs[k]| && fs[k][p] == x;
    var q :| 0 <= q < |fs[n - 1]| && fs[n - 1][q] == y;
    assert WellFormedRow(fs[k][p], ds[k].abbr, ds[k].nist);
    assert WellFormedRow(fs[n - 1][q], ds[n - 1].abbr, ds[n - 1].nist);
    RowsOfDifferentFamilies(x, ds[k], y, ds[n - 1]);
  }

  lemma {:induction false} FlattenIdsDistinct(fs: seq<seq<Control>>, ds: seq<Domain>)
    requires Catalogued(fs, ds)
    ensures IdsDistinct(Flatten(fs))
    decreases |fs|
  {
    if fs != [] {
      var n := |fs|;
      assert Catalogued(fs[..n - 1], ds[..n - 1]);
      FlattenIdsDistinct(fs[..n - 1], ds[..n - 1]);
      forall x, y | x in Flatten(fs[..n - 1]) && y in fs[n - 1] ensures x.id != y.id {
        EarlierFamilyApart(fs, ds, x, y);
      }
      AppendIdsDistinct(Flatten(fs[..n - 1]), fs[n - 1]);
    }
  }

  /** Every row of family `j` names the domain of family `j`, so no other family's. */
  lemma FamilyDomain(fs: seq<seq<Control>>, ds: seq<Domain>, j: nat, k: nat)
    requires Catalogued(fs, ds) && j < |fs| && k < |fs|
    ensures j == k ==> forall c | c in fs[j] :: c.domain == ds[k].abbr
    ensures j != k ==> forall c | c in fs[j] :: c.domain != ds[k].abbr
  {
    forall c | c in fs[j] ensures c.domain == ds[j].abbr {
      var p :| 0 <= p < |fs[j]| && fs[j][p] == c;
      assert WellFormedRow(fs[j][p], ds[j].abbr, ds[j].nist);
    }
  }

  /** No row before the last family names the last family's domain. */
  lemma FrontApart(fs: seq<seq<Control>>, ds: seq<Domain>)
    requires Catalogued(fs, ds) && |fs| > 0
    ensures forall c | c in Flatten(fs[..|fs| - 1]) :: c.domain != ds[|fs| - 1].abbr
  {
    var n := |fs|;
    forall c | c in Flatten(fs[..n - 1]) ensures c.domain != ds[n - 1].abbr {
      FlattenMembers(fs[..n - 1], c);
      var j :| 0 <= j < n - 1 && c in fs[..n - 1][j];
      FamilyDomain(fs, ds, j, n - 1);
    }
  }

  /** Dropping the last family keeps the rest catalogued. */
  lemma CataloguedFront(fs: seq<seq<Control>>, ds: seq<Domain>)
    requires Catalogued(fs, ds) && |fs| > 0
    ensures Catalogued(fs[..|fs| - 1], ds[..|ds| - 1])
  {
  }

  /** Filtering the concatenated families by the last family's abbreviation gives back that family. */
  lemma LastInDomain(fs: seq<seq<Control>>, ds: seq<Domain>)
    requires Catalogued(fs, ds) && |fs| > 0
    ensures InDomain(Flatten(fs), ds[|fs| - 1].abbr) == fs[|fs| - 1]
  {
    var n := |fs|;
    var abbr := ds[n - 1].abbr;
    InDomainAppend(Flatten(fs[..n - 1]), fs[n - 1], abbr);
    FrontApart(fs, ds);
    InDomainNone(Flatten(fs[..n - 1]), abbr);
    FamilyDomain(fs, ds, n - 1, n - 1);
    InDomainAll(fs[n - 1], abbr);
  }

  /** The last family contributes nothing to the filter by an earlier family's abbreviation. */
  lemma EarlierInDomain(fs: seq<seq<Control>>, ds: seq<Domain>, k: nat)
    requires Catalogued(fs, ds) && k < |fs| - 1
    ensures InDomain(Flatten(fs), ds[k].abbr) == InDomain(Flatten(fs[..|fs| - 1]), ds[k].abbr)
  {
    var n := |fs|;
    var front := Flatten(fs[..n - 1]);
    assert Flatten(fs) == front + fs[n - 1];
    InDomainAppend(front, fs[n - 1], ds[k].abbr);
    FamilyDomain(fs, ds, n - 1, k);
    InDomainNone(fs[n - 1], ds[k].abbr);
    assert InDomain(front, ds[k].abbr) + [] == InDomain(front, ds[k].abbr);
  }

  /** Filtering the concatenated families by a family's abbreviation gives back exactly that family. */
  lemma {:induction false} FlattenInDomain(fs: seq<seq<Control>>, ds: seq<Domain>, k: nat)
    requires Catalogued(fs, ds) && k < |ds|
    ensures InDomain(Flatten(fs), ds[k].abbr) == fs[k]
    decreases |fs|
  {
    if k == |fs| - 1 {
      LastInDomain(fs, ds);
    } else {
      EarlierInDomain(fs, ds, k);
      CataloguedFront(fs, ds);
      FlattenInDomain(fs[..|fs| - 1], ds[..|ds| - 1], k);
    }
  }


  // AC: rows, ids and totals
  lemma AcRows()
    ensures forall i | 0 <= i < |AC_CONTROLS| :: WellFormedRow(AC_CONTROLS[i], "AC", "3.1")
  {
    AcRowsLow();
    AcRowsHigh();
  }

  lemma AcRowsLow()
    ensures forall i | 0 <= i < 11 :: WellFormedRow(AC_CONTROLS[i], "AC", "3.1")
  {
  }

  lemma AcRowsHigh()
    ensures forall i | 11 <= i < |AC_CONTROLS| :: WellFormedRow(AC_CONTROLS[i], "AC", "3.1")
  {
  }

  lemma AcIdTails()
    ensures forall i | 0 <= i < |AC_CONTROLS| :: IdTail(AC_CONTROLS[i])
  {
    AcIdTails1();
    AcIdTails2();
    AcIdTails3();
    AcIdTails4();
    AcIdTails5();
    AcIdTails6();
  }

  lemma AcIdTails1()
    ensures forall i | 0 <= i < 4 :: IdTail(AC_CONTROLS[i])
  {
  }

  lemma AcIdTails2()
    ensures forall i | 4 <= i < 8 :: IdTail(AC_CONTROLS[i])
  {
  }

  lemma AcIdTails3()
    ensures forall i | 8 <= i < 12 :: IdTail(AC_CONTROLS[i])
  {
  }

  lemma AcIdTails4()
    ensures forall i | 12 <= i < 16 :: IdTail(AC_CONTROLS[i])
  {
  }

  lemma AcIdTails5()
    ensures forall i | 16 <= i < 20 :: IdTail(AC_CONTROLS[i])
  {
  }

  lemma AcIdTails6()
    ensures forall i | 20 <= i < |AC_CONTROLS| :: IdTail(AC_CONTROLS[i])
  {
  }



  lemma AcIds()
    ensures IdsDistinct(AC_CONTROLS)
  {
    AcNumbersLow();
    AcNumbersHigh();
    NumberedIdsDistinct(AC_CONTROLS);
  }

  lemma AcNumbersLow()
    ensures forall i | 0 <= i < 11 :: ClauseNumber(AC_CONTROLS[i].id) == i + 1
  {
  }

  lemma AcNumbersHigh()
    ensures forall i | 11 <= i < |AC_CONTROLS| :: ClauseNumber(AC_CONTROLS[i].id) == i + 1
  {
  }

  lemma AcTotals()
    ensures TotalWeight(AC_CONTROLS) == 76 && LevelOneCount(AC_CONTROLS) == 4
  {
    RunningTotals(AC_CONTROLS,
      [0, 5, 10, 15, 18, 23, 24, 29, 32, 33, 34, 37, 42, 47, 52, 55, 56, 61, 64, 69, 74, 75, 76],
      [0, 1, 2, 2, 2, 2, 2, 2, 2, 2, 2, 2, 2, 2, 2, 2, 2, 2, 2, 2, 3, 3, 4]);
  }

  lemma AcFamily()
    ensures WellFormedFamily(AC_CONTROLS, "AC", "3.1") && IdsDistinct(AC_CONTROLS)
  {
    AcRows();
    AcIdTails();
    AcIds();
  }

  // AT: rows, ids and totals
  lemma AtRows()
    ensures forall i | 0 <= i < |AT_CONTROLS| :: WellFormedRow(AT_CONTROLS[i], "AT", "3.2")
  {
  }

  lemma AtIdTails()
    ensures forall i | 0 <= i < |AT_CONTROLS| :: IdTail(AT_CONTROLS[i])
  {
  }

  lemma AtIds()
    ensures IdsDistinct(AT_CONTROLS)
  {
    AtNumbers();
    NumberedIdsDistinct(AT_CONTROLS);
  }

  lemma AtNumbers()
    ensures forall i | 0 <= i < |AT_CONTROLS| :: ClauseNumber(AT_CONTROLS[i].id) == i + 1
  {
  }

  lemma AtTotals()
    ensures TotalWeight(AT_CONTROLS) == 9 && LevelOneCount(AT_CONTROLS) == 0
  {
    RunningTotals(AT_CONTROLS,
      [0, 3, 6, 9],
      [0, 0, 0, 0]);
  }

  lemma AtFamily()
    ensures WellFormedFamily(AT_CONTROLS, "AT", "3.2") && IdsDistinct(AT_CONTROLS)
  {
    AtRows();
    AtIdTails();
    AtIds();
  }

  // AU: rows, ids and totals
  lemma AuRows()
    ensures forall i | 0 <= i < |AU_CONTROLS| :: WellFormedRow(AU_CONTROLS[i], "AU", "3.3")
  {
  }

  lemma AuIdTails()
    ensures forall i | 0 <= i < |AU_CONTROLS| :: IdTail(AU_CONTROLS[i])
  {
    AuIdTails1();
    AuIdTails2();
    AuIdTails3();
  }

  lemma AuIdTails1()
    ensures forall i | 0 <= i < 3 :: IdTail(AU_CONTROLS[i])
  {
  }

  lemma AuIdTails2()
    ensures forall i | 3 <= i < 6 :: IdTail(AU_CONTROLS[i])
  {
  }

  lemma AuIdTails3()
    ensures forall i | 6 <= i < |AU_CONTROLS| :: IdTail(AU_CONTROLS[i])
  {
  }

  lemma AuIds()
    ensures IdsDistinct(AU_CONTROLS)
  {
    AuNumbers();
    NumberedIdsDistinct(AU_CONTROLS);
  }

  lemma AuNumbers()
    ensures forall i | 0 <= i < |AU_CONTROLS| :: ClauseNumber(AU_CONTROLS[i].id) == i + 1
  {
  }

  lemma AuTotals()
    ensures TotalWeight(AU_CONTROLS) == 23 && LevelOneCount(AU_CONTROLS) == 0
  {
    RunningTotals(AU_CONTROLS,
      [0, 5, 10, 11, 14, 17, 18, 19, 22, 23],
      [0, 0, 0, 0, 0, 0, 0, 0, 0, 0]);
  }

  lemma AuFamily()
    ensures WellFormedFamily(AU_CONTROLS, "AU", "3.3") && IdsDistinct(AU_CONTROLS)
  {
    AuRows();
    AuIdTails();
    AuIds();
  }

  // CM: rows, ids and totals
  lemma CmRows()
    ensures forall i | 0 <= i < |CM_CONTROLS| :: WellFormedRow(CM_CONTROLS[i], "CM", "3.4")
  {
  }

  lemma CmIdTails()
    ensures forall i | 0 <= i < |CM_CONTROLS| :: IdTail(CM_CONTROLS[i])
  {
    CmIdTails1();
    CmIdTails2();
    CmIdTails3();
  }

  lemma CmIdTails1()
    ensures forall i | 0 <= i < 3 :: IdTail(CM_CONTROLS[i])
  {
  }

  lemma CmIdTails2()
    ensures forall i | 3 <= i < 6 :: IdTail(CM_CONTROLS[i])
  {
  }

  lemma CmIdTails3()
    ensures forall i | 6 <= i < |CM_CONTROLS| :: IdTail(CM_CONTROLS[i])
  {
  }

  lemma CmIds()
    ensures IdsDistinct(CM_CONTROLS)
  {
    CmNumbers();
    NumberedIdsDistinct(CM_CONTROLS);
  }

  lemma CmNumbers()
    ensures forall i | 0 <= i < |CM_CONTROLS| :: ClauseNumber(CM_CONTROLS[i].id) == i + 1
  {
  }

  lemma CmTotals()
    ensures TotalWeight(CM_CONTROLS) == 29 && LevelOneCount(CM_CONTROLS) == 0
  {
    RunningTotals(CM_CONTROLS,
      [0, 5, 10, 13, 16, 19, 22, 25, 28, 29],
      [0, 0, 0, 0, 0, 0, 0, 0, 0, 0]);
  }

  lemma CmFamily()
    ensures WellFormedFamily(CM_CONTROLS, "CM", "3.4") && IdsDistinct(CM_CONTROLS)
  {
    CmRows();
    CmIdTails();
    CmIds();
  }

  // IA: rows, ids and totals
  lemma IaRows()
    ensures forall i | 0 <= i < |IA_CONTROLS| :: WellFormedRow(IA_CONTROLS[i], "IA", "3.5")
  {
  }

  lemma IaIdTails()
    ensures forall i | 0 <= i < |IA_CONTROLS| :: IdTail(IA_CONTROLS[i])
  {
    IaIdTails1();
    IaIdTails2();
    IaIdTails3();
  }

  lemma IaIdTails1()
    ensures forall i | 0 <= i < 4 :: IdTail(IA_CONTROLS[i])
  {
  }

  lemma IaIdTails2()
    ensures forall i | 4 <= i < 8 :: IdTail(IA_CONTROLS[i])
  {
  }

  lemma IaIdTails3()
    ensures forall i | 8 <= i < |IA_CONTROLS| :: IdTail(IA_CONTROLS[i])
  {
  }

  lemma IaIds()
    ensures IdsDistinct(IA_CONTROLS)
  {
    IaNumbers();
    NumberedIdsDistinct(IA_CONTROLS);
  }

  lemma IaNumbers()
    ensures forall i | 0 <= i < |IA_CONTROLS| :: ClauseNumber(IA_CONTROLS[i].id) == i + 1
  {
  }

  lemma IaTotals()
    ensures TotalWeight(IA_CONTROLS) == 33 && LevelOneCount(IA_CONTROLS) == 2
  {
    RunningTotals(IA_CONTROLS,
      [0, 5, 10, 15, 20, 21, 22, 25, 26, 27, 32, 33],
      [0, 1, 2, 2, 2, 2, 2, 2, 2, 2, 2, 2]);
  }

  lemma IaFamily()
    ensures WellFormedFamily(IA_CONTROLS, "IA", "3.5") && IdsDistinct(IA_CONTROLS)
  {
    IaRows();
    IaIdTails();
    IaIds();
  }

  // IR: rows, ids and totals
  lemma IrRows()
    ensures forall i | 0 <= i < |IR_CONTROLS| :: WellFormedRow(IR_CONTROLS[i], "IR", "3.6")
  {
  }

  lemma IrIdTails()
    ensures forall i | 0 <= i < |IR_CONTROLS| :: IdTail(IR_CONTROLS[i])
  {
  }

  lemma IrIds()
    ensures IdsDistinct(IR_CONTROLS)
  {
    IrNumbers();
    NumberedIdsDistinct(IR_CONTROLS);
  }

  lemma IrNumbers()
    ensures forall i | 0 <= i < |IR_CONTROLS| :: ClauseNumber(IR_CONTROLS[i].id) == i + 1
  {
  }

  lemma IrTotals()
    ensures TotalWeight(IR_CONTROLS) == 13 && LevelOneCount(IR_CONTROLS) == 0
  {
    RunningTotals(IR_CONTROLS,
      [0, 5, 10, 13],
      [0, 0, 0, 0]);
  }

  lemma IrFamily()
    ensures WellFormedFamily(IR_CONTROLS, "IR", "3.6") && IdsDistinct(IR_CONTROLS)
  {
    IrRows();
    IrIdTails();
    IrIds();
  }

  // MA: rows, ids and totals
  lemma MaRows()
    ensures forall i | 0 <= i < |MA_CONTROLS| :: WellFormedRow(MA_CONTROLS[i], "MA", "3.7")
  {
  }

  lemma MaIdTails()
    ensures forall i | 0 <= i < |MA_CONTROLS| :: IdTail(MA_CONTROLS[i])
  {
    MaIdTails1();
    MaIdTails2();
  }

  lemma MaIdTails1()
    ensures forall i | 0 <= i < 3 :: IdTail(MA_CONTROLS[i])
  {
  }

  lemma MaIdTails2()
    ensures forall i | 3 <= i < |MA_CONTROLS| :: IdTail(MA_CONTROLS[i])
  {
  }

  lemma MaIds()
    ensures IdsDistinct(MA_CONTROLS)
  {
    MaNumbers();
    NumberedIdsDistinct(MA_CONTROLS);
  }

  lemma MaNumbers()
    ensures forall i | 0 <= i < |MA_CONTROLS| :: ClauseNumber(MA_CONTROLS[i].id) == i + 1
  {
  }

  lemma MaTotals()
    ensures TotalWeight(MA_CONTROLS) == 18 && LevelOneCount(MA_CONTROLS) == 0
  {
    RunningTotals(MA_CONTROLS,
      [0, 1, 4, 7, 10, 15, 18],
      [0, 0, 0, 0, 0, 0, 0]);
  }

  lemma MaFamily()
    ensures WellFormedFamily(MA_CONTROLS, "MA", "3.7") && IdsDistinct(MA_CONTROLS)
  {
    MaRows();
    MaIdTails();
    MaIds();
  }

  // MP: rows, ids and totals
  lemma MpRows()
    ensures forall i | 0 <= i < |MP_CONTROLS| :: WellFormedRow(MP_CONTROLS[i], "MP", "3.8")
  {
  }

  lemma MpIdTails()
    ensures forall i | 0 <= i < |MP_CONTROLS| :: IdTail(MP_CONTROLS[i])
  {
    MpIdTails1();
    MpIdTails2();
    MpIdTails3();
  }

  lemma MpIdTails1()
    ensures forall i | 0 <= i < 3 :: IdTail(MP_CONTROLS[i])
  {
  }

  lemma MpIdTails2()
    ensures forall i | 3 <= i < 6 :: IdTail(MP_CONTROLS[i])
  {
  }

  lemma MpIdTails3()
    ensures forall i | 6 <= i < |MP_CONTROLS| :: IdTail(MP_CONTROLS[i])
  {
  }

  /** The one family not listed in clause order (3.8.3 comes first). */
  lemma MpIds()
    ensures IdsDistinct(MP_CONTROLS)
  {
  }

  lemma MpTotals()
    ensures TotalWeight(MP_CONTROLS) == 27 && LevelOneCount(MP_CONTROLS) == 1
  {
    RunningTotals(MP_CONTROLS,
      [0, 5, 8, 11, 12, 15, 20, 23, 24, 27],
      [0, 1, 1, 1, 1, 1, 1, 1, 1, 1]);
  }

  lemma MpFamily()
    ensures WellFormedFamily(MP_CONTROLS, "MP", "3.8") && IdsDistinct(MP_CONTROLS)
  {
    MpRows();
    MpIdTails();
    MpIds();
  }

  // PS: rows, ids and totals
  lemma PsRows()
    ensures forall i | 0 <= i < |PS_CONTROLS| :: WellFormedRow(PS_CONTROLS[i], "PS", "3.9")
  {
  }

  lemma PsIdTails()
    ensures forall i | 0 <= i < |PS_CONTROLS| :: IdTail(PS_CONTROLS[i])
  {
  }

  lemma PsIds()
    ensures IdsDistinct(PS_CONTROLS)
  {
    PsNumbers();
    NumberedIdsDistinct(PS_CONTROLS);
  }

  lemma PsNumbers()
    ensures forall i | 0 <= i < |PS_CONTROLS| :: ClauseNumber(PS_CONTROLS[i].id) == i + 1
  {
  }

  lemma PsTotals()
    ensures TotalWeight(PS_CONTROLS) == 6 && LevelOneCount(PS_CONTROLS) == 0
  {
    RunningTotals(PS_CONTROLS,
      [0, 3, 6],
      [0, 0, 0]);
  }

  lemma PsFamily()
    ensures WellFormedFamily(PS_CONTROLS, "PS", "3.9") && IdsDistinct(PS_CONTROLS)
  {
    PsRows();
    PsIdTails();
    PsIds();
  }

  // PE: rows, ids and totals
  lemma PeRows()
    ensures forall i | 0 <= i < |PE_CONTROLS| :: WellFormedRow(PE_CONTROLS[i], "PE", "3.10")
  {
  }

  lemma PeIdTails()
    ensures forall i | 0 <= i < |PE_CONTROLS| :: IdTail(PE_CONTROLS[i])
  {
    PeIdTails1();
    PeIdTails2();
  }

  lemma PeIdTails1()
    ensures forall i | 0 <= i < 3 :: IdTail(PE_CONTROLS[i])
  {
  }

  lemma PeIdTails2()
    ensures forall i | 3 <= i < |PE_CONTROLS| :: IdTail(PE_CONTROLS[i])
  {
  }

  lemma PeIds()
    ensures IdsDistinct(PE_CONTROLS)
  {
    PeNumbers();
    NumberedIdsDistinct(PE_CONTROLS);
  }

  lemma PeNumbers()
    ensures forall i | 0 <= i < |PE_CONTROLS| :: ClauseNumber(PE_CONTROLS[i].id) == i + 1
  {
  }

  lemma PeTotals()
    ensures TotalWeight(PE_CONTROLS) == 14 && LevelOneCount(PE_CONTROLS) == 4
  {
    RunningTotals(PE_CONTROLS,
      [0, 5, 8, 9, 10, 11, 14],
      [0, 1, 1, 2, 3, 4, 4]);
  }

  lemma PeFamily()
    ensures WellFormedFamily(PE_CONTROLS, "PE", "3.10") && IdsDistinct(PE_CONTROLS)
  {
    PeRows();
    PeIdTails();
    PeIds();
  }

  // RA: rows, ids and totals
  lemma RaRows()
    ensures forall i | 0 <= i < |RA_CONTROLS| :: WellFormedRow(RA_CONTROLS[i], "RA", "3.11")
  {
  }

  lemma RaIdTails()
    ensures forall i | 0 <= i < |RA_CONTROLS| :: IdTail(RA_CONTROLS[i])
  {
  }

  lemma RaIds()
    ensures IdsDistinct(RA_CONTROLS)
  {
    RaNumbers();
    NumberedIdsDistinct(RA_CONTROLS);
  }

  lemma RaNumbers()
    ensures forall i | 0 <= i < |RA_CONTROLS| :: ClauseNumber(RA_CONTROLS[i].id) == i + 1
  {
  }

  lemma RaTotals()
    ensures TotalWeight(RA_CONTROLS) == 13 && LevelOneCount(RA_CONTROLS) == 0
  {
    RunningTotals(RA_CONTROLS,
      [0, 3, 8, 13],
      [0, 0, 0, 0]);
  }

  lemma RaFamily()
    ensures WellFormedFamily(RA_CONTROLS, "RA", "3.11") && IdsDistinct(RA_CONTROLS)
  {
    RaRows();
    RaIdTails();
    RaIds();
  }

  // CA: rows, ids and totals
  lemma CaRows()
    ensures forall i | 0 <= i < |CA_CONTROLS| :: WellFormedRow(CA_CONTROLS[i], "CA", "3.12")
  {
  }

  lemma CaIdTails()
    ensures forall i | 0 <= i < |CA_CONTROLS| :: IdTail(CA_CONTROLS[i])
  {
  }

  lemma CaIds()
    ensures IdsDistinct(CA_CONTROLS)
  {
    CaNumbers();
    NumberedIdsDistinct(CA_CONTROLS);
  }

  lemma CaNumbers()
    ensures forall i | 0 <= i < |CA_CONTROLS| :: ClauseNumber(CA_CONTROLS[i].id) == i + 1
  {
  }

  lemma CaTotals()
    ensures TotalWeight(CA_CONTROLS) == 16 && LevelOneCount(CA_CONTROLS) == 0
  {
    RunningTotals(CA_CONTROLS,
      [0, 3, 8, 11, 16],
      [0, 0, 0, 0, 0]);
  }

  lemma CaFamily()
    ensures WellFormedFamily(CA_CONTROLS, "CA", "3.12") && IdsDistinct(CA_CONTROLS)
  {
    CaRows();
    CaIdTails();
    CaIds();
  }

  // SC: rows, ids and totals
  lemma ScRows()
    ensures forall i | 0 <= i < |SC_CONTROLS| :: WellFormedRow(SC_CONTROLS[i], "SC", "3.13")
  {
    ScRowsLow();
    ScRowsHigh();
  }

  lemma ScRowsLow()
    ensures forall i | 0 <= i < 8 :: WellFormedRow(SC_CONTROLS[i], "SC", "3.13")
  {
  }

  lemma ScRowsHigh()
    ensures forall i | 8 <= i < |SC_CONTROLS| :: WellFormedRow(SC_CONTROLS[i], "SC", "3.13")
  {
  }

  lemma ScIdTails()
    ensures forall i | 0 <= i < |SC_CONTROLS| :: IdTail(SC_CONTROLS[i])
  {
    ScIdTails1();
    ScIdTails2();
    ScIdTails3();
    ScIdTails4();
  }

  lemma ScIdTails1()
    ensures forall i | 0 <= i < 4 :: IdTail(SC_CONTROLS[i])
  {
  }

  lemma ScIdTails2()
    ensures forall i | 4 <= i < 8 :: IdTail(SC_CONTROLS[i])
  {
  }

  lemma ScIdTails3()
    ensures forall i | 8 <= i < 12 :: IdTail(SC_CONTROLS[i])
  {
  }

  lemma ScIdTails4()
    ensures forall i | 12 <= i < |SC_CONTROLS| :: IdTail(SC_CONTROLS[i])
  {
  }



  lemma ScIds()
    ensures IdsDistinct(SC_CONTROLS)
  {
    ScNumbersLow();
    ScNumbersHigh();
    NumberedIdsDistinct(SC_CONTROLS);
  }

  lemma ScNumbersLow()
    ensures forall i | 0 <= i < 8 :: ClauseNumber(SC_CONTROLS[i].id) == i + 1
  {
  }

  lemma ScNumbersHigh()
    ensures forall i | 8 <= i < |SC_CONTROLS| :: ClauseNumber(SC_CONTROLS[i].id) == i + 1
  {
  }

  lemma ScTotals()
    ensures TotalWeight(SC_CONTROLS) == 54 && LevelOneCount(SC_CONTROLS) == 2
  {
    RunningTotals(SC_CONTROLS,
      [0, 5, 8, 11, 14, 19, 24, 27, 32, 33, 36, 41, 42, 43, 44, 49, 54],
      [0, 1, 1, 1, 1, 2, 2, 2, 2, 2, 2, 2, 2, 2, 2, 2, 2]);
  }

  lemma ScFamily()
    ensures WellFormedFamily(SC_CONTROLS, "SC", "3.13") && IdsDistinct(SC_CONTROLS)
  {
    ScRows();
    ScIdTails();
    ScIds();
  }

  // SI: rows, ids and totals
  lemma SiRows()
    ensures forall i | 0 <= i < |SI_CONTROLS| :: WellFormedRow(SI_CONTROLS[i], "SI", "3.14")
  {
  }

  lemma SiIdTails()
    ensures forall i | 0 <= i < |SI_CONTROLS| :: IdTail(SI_CONTROLS[i])
  {
    SiIdTails1();
    SiIdTails2();
  }

  lemma SiIdTails1()
    ensures forall i | 0 <= i < 4 :: IdTail(SI_CONTROLS[i])
  {
  }

  lemma SiIdTails2()
    ensures forall i | 4 <= i < |SI_CONTROLS| :: IdTail(SI_CONTROLS[i])
  {
  }

  lemma SiIds()
    ensures IdsDistinct(SI_CONTROLS)
  {
    SiNumbers();
    NumberedIdsDistinct(SI_CONTROLS);
  }

  lemma SiNumbers()
    ensures forall i | 0 <= i < |SI_CONTROLS| :: ClauseNumber(SI_CONTROLS[i].id) == i + 1
  {
  }

  lemma SiTotals()
    ensures TotalWeight(SI_CONTROLS) == 29 && LevelOneCount(SI_CONTROLS) == 4
  {
    RunningTotals(SI_CONTROLS,
      [0, 5, 10, 13, 16, 19, 24, 29],
      [0, 1, 2, 2, 3, 4, 4, 4]);
  }

  lemma SiFamily()
    ensures WellFormedFamily(SI_CONTROLS, "SI", "3.14") && IdsDistinct(SI_CONTROLS)
  {
    SiRows();
    SiIdTails();
    SiIds();
  }

  // ---------------------------------------------------------------------
  // The catalog's own facts

  /** The 14 families are sections 3.1 to 3.14, each with its own two-letter abbreviation. */
  lemma DomainsWellFormed()
    ensures |DOMAINS| == 14
    ensures forall k | 0 <= k < |DOMAINS| :: |DOMAINS[k].abbr| == 2
    ensures forall k | 0 <= k < |DOMAINS| :: ClauseNumber(DOMAINS[k].nist) == k + 1
    ensures forall k | 0 <= k < |DOMAINS| :: DOMAINS[k].nist == "3." + NatToString(k + 1)
    ensures AbbrsDistinct(DOMAINS)
  {
    DomainSections();
    DomainSectionNames();
    DomainAbbrs();
  }

  /** Family `k`, counting from 0, is section 3.(k + 1) of NIST SP 800-171. */
  lemma DomainSectionNames()
    ensures forall k | 0 <= k < |DOMAINS| :: DOMAINS[k].nist == "3." + NatToString(k + 1)
  {
    forall k | 0 <= k < |DOMAINS|
      ensures DOMAINS[k].nist == "3." + NatToString(k + 1)
    {
      if k + 1 < 10 {
        assert NatToString(k + 1) == [DigitChar(k + 1)];
      } else {
        assert NatToString(k + 1) == ['1', DigitChar(k + 1 - 10)] by {
          assert NatToString((k + 1) / 10) == ['1'];
        }
      }
    }
  }

  lemma DomainSections()
    ensures |DOMAINS| == 14
    ensures forall k | 0 <= k < |DOMAINS| :: ClauseNumber(DOMAINS[k].nist) == k + 1
  {
  }

  lemma DomainAbbrs()
    ensures forall k | 0 <= k < |DOMAINS| :: |DOMAINS[k].abbr| == 2
    ensures AbbrsDistinct(DOMAINS)
  {
    AbbrsApart(0, 5);
    AbbrsApart(5, 10);
    AbbrsApart(10, 14);
  }

  /** The families from `lo` up to `hi` differ in abbreviation from every later one. */
  lemma AbbrsApart(lo: nat, hi: nat)
    requires lo <= hi <= |DOMAINS|
    ensures forall i, j | lo <= i < hi && i < j < |DOMAINS| :: DOMAINS[i].abbr != DOMAINS[j].abbr
  {
  }

  lemma FamiliesCatalogued()
    ensures Catalogued(FAMILIES, DOMAINS)
  {
    DomainsWellFormed();
    FirstFamilies();
    LastFamilies();
  }

  lemma FirstFamilies()
    ensures forall k | 0 <= k < 7 ::
      WellFormedFamily(FAMILIES[k], DOMAINS[k].abbr, DOMAINS[k].nist) && IdsDistinct(FAMILIES[k])
  {
    AcFamily();
    AtFamily();
    AuFamily();
    CmFamily();
    IaFamily();
    IrFamily();
    MaFamily();
  }

  lemma LastFamilies()
    ensures forall k | 7 <= k < 14 ::
      WellFormedFamily(FAMILIES[k], DOMAINS[k].abbr, DOMAINS[k].nist) && IdsDistinct(FAMILIES[k])
  {
    MpFamily();
    PsFamily();
    PeFamily();
    RaFamily();
    CaFamily();
    ScFamily();
    SiFamily();
  }

  lemma {:induction false} ControlsAreFamilies()
    ensures CONTROLS == Flatten(FAMILIES)
  {
    var fs := FAMILIES;
    assert Flatten(fs[..1]) == AC_CONTROLS;
    assert fs[..2][..1] == fs[..1];
    assert Flatten(fs[..2]) == AC_CONTROLS + AT_CONTROLS;
    assert fs[..3][..2] == fs[..2];
    assert Flatten(fs[..3]) == AC_CONTROLS + AT_CONTROLS + AU_CONTROLS;
    assert fs[..4][..3] == fs[..3];
    assert Flatten(fs[..4]) == AC_CONTROLS + AT_CONTROLS + AU_CONTROLS + CM_CONTROLS;
    assert fs[..5][..4] == fs[..4];
    assert Flatten(fs[..5]) == AC_CONTROLS + AT_CONTROLS + AU_CONTROLS + CM_CONTROLS + IA_CONTROLS;
    assert fs[..6][..5] == fs[..5];
    assert Flatten(fs[..6]) == AC_CONTROLS + AT_CONTROLS + AU_CONTROLS + CM_CONTROLS + IA_CONTROLS + IR_CONTROLS;
    assert fs[..7][..6] == fs[..6];
    assert Flatten(fs[..7]) == AC_CONTROLS + AT_CONTROLS + AU_CONTROLS + CM_CONTROLS + IA_CONTROLS + IR_CONTROLS + MA_CONTROLS;
    assert fs[..8][..7] == fs[..7];
    assert Flatten(fs[..8]) == AC_CONTROLS + AT_CONTROLS + AU_CONTROLS + CM_CONTROLS + IA_CONTROLS + IR_CONTROLS + MA_CONTROLS + MP_CONTROLS;
    assert fs[..9][..8] == fs[..8];
    assert Flatten(fs[..9]) == AC_CONTROLS + AT_CONTROLS + AU_CONTROLS + CM_CONTROLS + IA_CONTROLS + IR_CONTROLS + MA_CONTROLS + MP_CONTROLS + PS_CONTROLS;
    assert fs[..10][..9] == fs[..9];
    assert Flatten(fs[..10]) == AC_CONTROLS + AT_CONTROLS + AU_CONTROLS + CM_CONTROLS + IA_CONTROLS + IR_CONTROLS + MA_CONTROLS + MP_CONTROLS + PS_CONTROLS + PE_CONTROLS;
    assert fs[..11][..10] == fs[..10];
    assert Flatten(fs[..11]) == AC_CONTROLS + AT_CONTROLS + AU_CONTROLS + CM_CONTROLS + IA_CONTROLS + IR_CONTROLS + MA_CONTROLS + MP_CONTROLS + PS_CONTROLS + PE_CONTROLS + RA_CONTROLS;
    assert fs[..12][..11] == fs[..11];
    assert Flatten(fs[..12]) == AC_CONTROLS + AT_CONTROLS + AU_CONTROLS + CM_CONTROLS + IA_CONTROLS + IR_CONTROLS + MA_CONTROLS + MP_CONTROLS + PS_CONTROLS + PE_CONTROLS + RA_CONTROLS + CA_CONTROLS;
    assert fs[..13][..12] == fs[..12];
    assert Flatten(fs[..13]) == AC_CONTROLS + AT_CONTROLS + AU_CONTROLS + CM_CONTROLS + IA_CONTROLS + IR_CONTROLS + MA_CONTROLS + MP_CONTROLS + PS_CONTROLS + PE_CONTROLS + RA_CONTROLS + CA_CONTROLS + SC_CONTROLS;
    assert fs[..14][..13] == fs[..13];
    assert Flatten(fs[..14]) == AC_CONTROLS + AT_CONTROLS + AU_CONTROLS + CM_CONTROLS + IA_CONTROLS + IR_CONTROLS + MA_CONTROLS + MP_CONTROLS + PS_CONTROLS + PE_CONTROLS + RA_CONTROLS + CA_CONTROLS + SC_CONTROLS + SI_CONTROLS;
    assert fs[..14] == fs;
  }

  /**
   * Every control belongs to one of the 14 families and has that family's
   * shape, and its id spells out its family, level and NIST clause.
   */
  lemma ControlsWellFormed()
    ensures forall c | c in CONTROLS :: exists k | 0 <= k < |DOMAINS| :: WellFormedRow(c, DOMAINS[k].abbr, DOMAINS[k].nist)
    ensures forall c | c in CONTROLS :: c.id == c.domain + LevelTag(c.level) + c.nist
  {
    FamiliesCatalogued();
    ControlsAreFamilies();
    forall c | c in CONTROLS
      ensures exists k | 0 <= k < |DOMAINS| :: WellFormedRow(c, DOMAINS[k].abbr, DOMAINS[k].nist)
      ensures c.id == c.domain + LevelTag(c.level) + c.nist
    {
      FlattenRowsWellFormed(FAMILIES, DOMAINS, c);
    }
  }

  /** Each control's domain is a listed family; its level is 1 or 2 and its weight 1, 3 or 5. */
  lemma ControlFields()
    ensures forall c | c in CONTROLS ::
      && c.domain in Abbrs(DOMAINS)
      && (c.level == 1 || c.level == 2)
      && (c.weight == 1 || c.weight == 3 || c.weight == 5)
  {
    ControlsWellFormed();
    forall c | c in CONTROLS ensures c.domain in Abbrs(DOMAINS) {
      var k :| 0 <= k < |DOMAINS| && WellFormedRow(c, DOMAINS[k].abbr, DOMAINS[k].nist);
      assert DOMAINS[k] in DOMAINS;
    }
  }

  /** No two controls share an id, so a response keyed by id addresses exactly one control. */
  lemma ControlIdsDistinct()
    ensures IdsDistinct(CONTROLS)
  {
    FamiliesCatalogued();
    ControlsAreFamilies();
    FlattenIdsDistinct(FAMILIES, DOMAINS);
  }

  /**
   * Filtering the catalog by a family's abbreviation (what the scorer and the
   * report do per domain) yields exactly that family, in catalog order.
   */
  lemma ControlsGroupedByDomain()
    ensures |FAMILIES| == |DOMAINS|
    ensures forall k | 0 <= k < |DOMAINS| :: InDomain(CONTROLS, DOMAINS[k].abbr) == FAMILIES[k]
  {
    FamiliesCatalogued();
    ControlsAreFamilies();
    forall k | 0 <= k < |DOMAINS| ensures InDomain(CONTROLS, DOMAINS[k].abbr) == FAMILIES[k] {
      FlattenInDomain(FAMILIES, DOMAINS, k);
    }
  }

  /** 110 controls weighing 360 points in all, 17 of them at Level 1. */
  lemma CatalogTotals()
    ensures |CONTROLS| == 110
    ensures TotalWeight(CONTROLS) == 360
    ensures LevelOneCount(CONTROLS) == 17
  {
    AcTotals();
    AtTotals();
    AuTotals();
    CmTotals();
    IaTotals();
    IrTotals();
    MaTotals();
    MpTotals();
    PsTotals();
    PeTotals();
    RaTotals();
    CaTotals();
    ScTotals();
    SiTotals();
    TotalsAppend(AC_CONTROLS, AT_CONTROLS);
    TotalsAppend(AC_CONTROLS + AT_CONTROLS, AU_CONTROLS);
    TotalsAppend(AC_CONTROLS + AT_CONTROLS + AU_CONTROLS, CM_CONTROLS);
    TotalsAppend(AC_CONTROLS + AT_CONTROLS + AU_CONTROLS + CM_CONTROLS, IA_CONTROLS);
    TotalsAppend(AC_CONTROLS + AT_CONTROLS + AU_CONTROLS + CM_CONTROLS + IA_CONTROLS, IR_CONTROLS);
    TotalsAppend(AC_CONTROLS + AT_CONTROLS + AU_CONTROLS + CM_CONTROLS + IA_CONTROLS + IR_CONTROLS, MA_CONTROLS);
    TotalsAppend(AC_CONTROLS + AT_CONTROLS + AU_CONTROLS + CM_CONTROLS + IA_CONTROLS + IR_CONTROLS + MA_CONTROLS, MP_CONTROLS);
    TotalsAppend(AC_CONTROLS + AT_CONTROLS + AU_CONTROLS + CM_CONTROLS + IA_CONTROLS + IR_CONTROLS + MA_CONTROLS + MP_CONTROLS, PS_CONTROLS);
    TotalsAppend(AC_CONTROLS + AT_CONTROLS + AU_CONTROLS + CM_CONTROLS + IA_CONTROLS + IR_CONTROLS + MA_CONTROLS + MP_CONTROLS + PS_CONTROLS, PE_CONTROLS);
    TotalsAppend(AC_CONTROLS + AT_CONTROLS + AU_CONTROLS + CM_CONTROLS + IA_CONTROLS + IR_CONTROLS + MA_CONTROLS + MP_CONTROLS + PS_CONTROLS + PE_CONTROLS, RA_CONTROLS);
    TotalsAppend(AC_CONTROLS + AT_CONTROLS + AU_CONTROLS + CM_CONTROLS + IA_CONTROLS + IR_CONTROLS + MA_CONTROLS + MP_CONTROLS + PS_CONTROLS + PE_CONTROLS + RA_CONTROLS, CA_CONTROLS);
    TotalsAppend(AC_CONTROLS + AT_CONTROLS + AU_CONTROLS + CM_CONTROLS + IA_CONTROLS + IR_CONTROLS + MA_CONTROLS + MP_CONTROLS + PS_CONTROLS + PE_CONTROLS + RA_CONTROLS + CA_CONTROLS, SC_CONTROLS);
    TotalsAppend(AC_CONTROLS + AT_CONTROLS + AU_CONTROLS + CM_CONTROLS + IA_CONTROLS + IR_CONTROLS + MA_CONTROLS + MP_CONTROLS + PS_CONTROLS + PE_CONTROLS + RA_CONTROLS + CA_CONTROLS + SC_CONTROLS, SI_CONTROLS);
  }

  /** How many controls each family holds: the counts the report prints per family. */
  lemma FamilySizes()
    ensures forall k | 0 <= k < |DOMAINS| ::
      |InDomain(CONTROLS, DOMAINS[k].abbr)| == [22, 3, 9, 9, 11, 3, 6, 9, 2, 6, 3, 4, 16, 7][k]
  {
    ControlsGroupedByDomain();
  }
}
