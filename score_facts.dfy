/**
 * What the SPRS score means: the five buckets partition the catalog, the
 * score lies between 110 minus the catalog's total weight and 110, it is 110
 * exactly when nothing deducts, a level is achieved exactly when each of its
 * controls is met or not applicable, only the statuses the responses select
 * matter, answering more controls never lowers the score, and the families'
 * counters add up to the overall ones.
 */
module ScoreFacts {
  import opened JsValues
  import opened Catalog
  import opened Scoring

  // ---------------------------------------------------------------------
  // Over any list of controls

  /** Every control lands in exactly one bucket. */
  lemma {:induction false} TallyCounts(cs: seq<Control>, resp: JsValue)
    ensures TallyOf(cs, resp).total == |cs|
    ensures Buckets(TallyOf(cs, resp)) == |cs|
    decreases |cs|
  {
    if cs != [] {
      var front := cs[..|cs| - 1];
      TallyCounts(front, resp);
      BumpCounts(TallyOf(front, resp), StatusOf(resp, cs[|cs| - 1]));
    }
  }

  lemma BumpCounts(t: Tally, s: Status)
    ensures Bump(t, s).total == t.total + 1
    ensures Buckets(Bump(t, s)) == Buckets(t) + 1
    ensures Bump(t, s).met + Bump(t, s).na == t.met + t.na + (if CountsAsMet(s) then 1 else 0)
  {
  }

  /** Splitting off the last control: membership. */
  lemma LastSplit(cs: seq<Control>, c: Control)
    requires cs != []
    ensures c in cs <==> c in cs[..|cs| - 1] || c == cs[|cs| - 1]
  {
    assert cs == cs[..|cs| - 1] + [cs[|cs| - 1]];
  }

  /** With positive weights, the deduction lies between 0 and the total weight. */
  lemma {:induction false} DeductionBounds(cs: seq<Control>, resp: JsValue)
    requires forall c | c in cs :: c.weight > 0
    ensures 0 <= Deduction(cs, resp) <= TotalWeight(cs)
    decreases |cs|
  {
    if cs != [] {
      var front := cs[..|cs| - 1];
      forall c | c in front ensures c.weight > 0 {
        LastSplit(cs, c);
      }
      DeductionBounds(front, resp);
    }
  }

  /** With positive weights, nothing is deducted exactly when every control is met or na. */
  lemma {:induction false} NoDeductionIff(cs: seq<Control>, resp: JsValue)
    requires forall c | c in cs :: c.weight > 0
    ensures Deduction(cs, resp) == 0 <==> forall c | c in cs :: !Deducts(StatusOf(resp, c))
    decreases |cs|
  {
    if cs != [] {
      var front := cs[..|cs| - 1];
      var last := cs[|cs| - 1];
      forall c ensures c in cs <==> c in front || c == last {
        LastSplit(cs, c);
      }
      NoDeductionIff(front, resp);
      DeductionBounds(front, resp);
    }
  }

  /** When every control is not assessed, each one is counted as such and costs its full weight. */
  lemma {:induction false} NothingAssessed(cs: seq<Control>, resp: JsValue)
    requires forall c | c in cs :: StatusOf(resp, c) == Unassessed
    ensures Deduction(cs, resp) == TotalWeight(cs)
    ensures TallyOf(cs, resp) == Tally(0, 0, 0, 0, |cs|, |cs|)
    decreases |cs|
  {
    if cs != [] {
      var front := cs[..|cs| - 1];
      forall c | c in front ensures StatusOf(resp, c) == Unassessed {
        LastSplit(cs, c);
      }
      NothingAssessed(front, resp);
    }
  }

  /** Met and na together reach the total exactly when every control is met or na. */
  lemma {:induction false} AllCountAsMetIff(cs: seq<Control>, resp: JsValue)
    ensures TallyOf(cs, resp).met + TallyOf(cs, resp).na == TallyOf(cs, resp).total
      <==> forall c | c in cs :: CountsAsMet(StatusOf(resp, c))
    decreases |cs|
  {
    if cs != [] {
      var front := cs[..|cs| - 1];
      var last := cs[|cs| - 1];
      forall c ensures c in cs <==> c in front || c == last {
        LastSplit(cs, c);
      }
      AllCountAsMetIff(front, resp);
      TallyCounts(front, resp);
      BumpCounts(TallyOf(front, resp), StatusOf(resp, last));
    }
  }

  /** The level filter keeps the controls of that level and nothing else. */
  lemma {:induction false} AtLevelMembers(cs: seq<Control>, one: bool, c: Control)
    ensures c in AtLevel(cs, one) <==> c in cs && (c.level == 1) == one
    decreases |cs|
  {
    if cs != [] {
      AtLevelMembers(cs[..|cs| - 1], one, c);
      LastSplit(cs, c);
    }
  }

  /** Level 1 holds as many controls as the catalog's Level 1 count, the other level the rest. */
  lemma {:induction false} AtLevelSizes(cs: seq<Control>)
    ensures |AtLevel(cs, true)| == LevelOneCount(cs)
    ensures |AtLevel(cs, false)| == |cs| - LevelOneCount(cs)
    decreases |cs|
  {
    if cs != [] {
      AtLevelSizes(cs[..|cs| - 1]);
    }
  }

  /** A level is achieved exactly when every control at that level is met or na. */
  lemma LevelAchievedIff(cs: seq<Control>, resp: JsValue, one: bool)
    ensures LevelOf(cs, resp, one).achieved
      <==> forall c | c in cs && (c.level == 1) == one :: CountsAsMet(StatusOf(resp, c))
  {
    AllCountAsMetIff(AtLevel(cs, one), resp);
    forall c ensures c in AtLevel(cs, one) <==> c in cs && (c.level == 1) == one {
      AtLevelMembers(cs, one, c);
    }
  }

  /** Responses that select the same status for every control give the same counters and deduction. */
  lemma {:induction false} SameStatuses(cs: seq<Control>, r1: JsValue, r2: JsValue)
    requires forall c | c in cs :: StatusOf(r1, c) == StatusOf(r2, c)
    ensures TallyOf(cs, r1) == TallyOf(cs, r2)
    ensures Deduction(cs, r1) == Deduction(cs, r2)
    decreases |cs|
  {
    if cs != [] {
      var front := cs[..|cs| - 1];
      forall c | c in front ensures StatusOf(r1, c) == StatusOf(r2, c) {
        LastSplit(cs, c);
      }
      SameStatuses(front, r1, r2);
    }
  }

  /** ... and so the same result, level and family breakdowns included. */
  lemma SameStatusesSameScore(cs: seq<Control>, keys: set<string>, r1: JsValue, r2: JsValue)
    requires forall c | c in cs :: StatusOf(r1, c) == StatusOf(r2, c)
    ensures ScoreOf(cs, keys, r1) == ScoreOf(cs, keys, r2)
  {
    SameStatuses(cs, r1, r2);
    SameLevel(cs, true, r1, r2);
    SameLevel(cs, false, r1, r2);
    SameFamilies(cs, keys, r1, r2);
  }

  lemma SameLevel(cs: seq<Control>, one: bool, r1: JsValue, r2: JsValue)
    requires forall c | c in cs :: StatusOf(r1, c) == StatusOf(r2, c)
    ensures LevelOf(cs, r1, one) == LevelOf(cs, r2, one)
  {
    forall c | c in AtLevel(cs, one) ensures StatusOf(r1, c) == StatusOf(r2, c) {
      AtLevelMembers(cs, one, c);
    }
    SameStatuses(AtLevel(cs, one), r1, r2);
  }

  lemma SameFamilies(cs: seq<Control>, keys: set<string>, r1: JsValue, r2: JsValue)
    requires forall c | c in cs :: StatusOf(r1, c) == StatusOf(r2, c)
    ensures TalliesFor(keys, cs, r1) == TalliesFor(keys, cs, r2)
  {
    forall a | a in keys ensures TallyOf(InDomain(cs, a), r1) == TallyOf(InDomain(cs, a), r2) {
      forall c | c in InDomain(cs, a) ensures StatusOf(r1, c) == StatusOf(r2, c) {
        InDomainMembers(cs, a, c);
      }
      SameStatuses(InDomain(cs, a), r1, r2);
    }
  }

  /**
   * If every control that deducts under `r2` also deducts under `r1`, then
   * `r2` loses no more points than `r1`: answering more controls met or na
   * never lowers the score.
   */
  lemma {:induction false} DeductionMonotone(cs: seq<Control>, r1: JsValue, r2: JsValue)
    requires forall c | c in cs :: c.weight > 0
    requires forall c | c in cs :: Deducts(StatusOf(r2, c)) ==> Deducts(StatusOf(r1, c))
    ensures Deduction(cs, r2) <= Deduction(cs, r1)
    decreases |cs|
  {
    if cs != [] {
      var front := cs[..|cs| - 1];
      forall c | c in front ensures c.weight > 0 && (Deducts(StatusOf(r2, c)) ==> Deducts(StatusOf(r1, c))) {
        LastSplit(cs, c);
      }
      DeductionMonotone(front, r1, r2);
    }
  }

  /**
   * Among controls with distinct ids, moving the one control `x` from a
   * deducting answer to met or na, and changing nothing else, gives back
   * exactly the weight of `x`.
   */
  lemma {:induction false} FlipOne(cs: seq<Control>, x: Control, r1: JsValue, r2: JsValue)
    requires IdsDistinct(cs) && x in cs
    requires forall c | c in cs && c != x :: StatusOf(r1, c) == StatusOf(r2, c)
    requires Deducts(StatusOf(r1, x)) && !Deducts(StatusOf(r2, x))
    ensures Deduction(cs, r2) == Deduction(cs, r1) - x.weight
    decreases |cs|
  {
    var front, last := cs[..|cs| - 1], cs[|cs| - 1];
    if last == x {
      forall c | c in front ensures StatusOf(r1, c) == StatusOf(r2, c) {
        LastSplit(cs, c);
        var i :| 0 <= i < |front| && front[i] == c;
        assert cs[i].id != cs[|cs| - 1].id;
      }
      SameStatuses(front, r1, r2);
    } else {
      LastSplit(cs, x);
      forall c | c in front && c != x ensures StatusOf(r1, c) == StatusOf(r2, c) {
        LastSplit(cs, c);
      }
      assert IdsDistinct(front) by {
        forall i, j | 0 <= i < j < |front| ensures front[i].id != front[j].id {
          assert front[i] == cs[i] && front[j] == cs[j];
        }
      }
      FlipOne(front, x, r1, r2);
    }
  }

  // ---------------------------------------------------------------------
  // Families add up

  /** Counter-wise sum. */
  function Plus(t: Tally, u: Tally): Tally {
    Tally(t.met + u.met, t.partial + u.partial, t.notMet + u.notMet, t.na + u.na,
      t.unassessed + u.unassessed, t.total + u.total)
  }

  /** The counters of the families `fs`, summed. */
  function SumTallies(fs: seq<seq<Control>>, resp: JsValue): Tally {
    if fs == [] then NO_TALLY
    else Plus(SumTallies(fs[..|fs| - 1], resp), TallyOf(fs[|fs| - 1], resp))
  }

  /** The counters of the map `m` at the abbreviations of `ds`, summed. */
  function SumAt(ds: seq<Domain>, m: map<string, Tally>): Tally
    requires forall k | 0 <= k < |ds| :: ds[k].abbr in m
  {
    if ds == [] then NO_TALLY
    else Plus(SumAt(ds[..|ds| - 1], m), m[ds[|ds| - 1].abbr])
  }

  lemma PlusBump(t: Tally, u: Tally, s: Status)
    ensures Plus(t, Bump(u, s)) == Bump(Plus(t, u), s)
  {
  }

  /** Counting a concatenation counts each part. */
  lemma {:induction false} TallyAppend(a: seq<Control>, b: seq<Control>, resp: JsValue)
    ensures TallyOf(a + b, resp) == Plus(TallyOf(a, resp), TallyOf(b, resp))
    decreases |b|
  {
    if b == [] {
      assert a + b == a;
    } else {
      var front, last := b[..|b| - 1], b[|b| - 1];
      assert a + b == (a + front) + [last];
      assert b == front + [last];
      TallySnoc(a + front, last, resp);
      TallySnoc(front, last, resp);
      TallyAppend(a, front, resp);
      PlusBump(TallyOf(a, resp), TallyOf(front, resp), StatusOf(resp, last));
    }
  }

  lemma {:induction false} TallyFlatten(fs: seq<seq<Control>>, resp: JsValue)
    ensures TallyOf(Flatten(fs), resp) == SumTallies(fs, resp)
    decreases |fs|
  {
    if fs != [] {
      TallyFlatten(fs[..|fs| - 1], resp);
      TallyAppend(Flatten(fs[..|fs| - 1]), fs[|fs| - 1], resp);
    }
  }

  lemma {:induction false} SumAtFamilies(ds: seq<Domain>, fs: seq<seq<Control>>, m: map<string, Tally>, resp: JsValue)
    requires |ds| == |fs|
    requires forall k | 0 <= k < |ds| :: ds[k].abbr in m && m[ds[k].abbr] == TallyOf(fs[k], resp)
    ensures SumAt(ds, m) == SumTallies(fs, resp)
    decreases |ds|
  {
    if ds != [] {
      var n := |ds|;
      SumAtFamilies(ds[..n - 1], fs[..n - 1], m, resp);
    }
  }

  // ---------------------------------------------------------------------
  // The catalog's score

  lemma CatalogWeights()
    ensures forall c | c in CONTROLS :: c.weight > 0
  {
    ControlFields();
  }

  /**
   * The 110 controls fall into the five buckets, one each, and the score lies
   * between 110 minus the catalog's total weight of 360 (-250) and 110.
   */
  lemma ScoreBounds(responses: JsValue)
    ensures Score(responses).totalControls == 110
    ensures var r := Score(responses);
      r.met + r.partial + r.notMet + r.na + r.unassessed == r.totalControls
    ensures MAX_SPRS - 360 <= Score(responses).sprs <= MAX_SPRS
  {
    var resp := ObjectOrEmpty(responses);
    CatalogTotals();
    CatalogWeights();
    DeductionBounds(CONTROLS, resp);
    TallyCounts(CONTROLS, resp);
  }

  /** The score is the full 110 exactly when every control is met or na. */
  lemma PerfectScoreIff(responses: JsValue)
    ensures Score(responses).sprs == MAX_SPRS
      <==> forall c | c in CONTROLS :: !Deducts(StatusOf(ObjectOrEmpty(responses), c))
  {
    CatalogWeights();
    PerfectScoreOf(CONTROLS, DOMAIN_ABBRS, ObjectOrEmpty(responses));
  }

  lemma PerfectScoreOf(cs: seq<Control>, keys: set<string>, resp: JsValue)
    requires forall c | c in cs :: c.weight > 0
    ensures ScoreOf(cs, keys, resp).sprs == MAX_SPRS <==> forall c | c in cs :: !Deducts(StatusOf(resp, c))
  {
    NoDeductionIff(cs, resp);
  }

  /**
   * Level 1 holds the catalog's 17 Level 1 controls and Level 2 the other 93;
   * each is achieved exactly when every one of its controls is met or na.
   */
  lemma LevelsIff(responses: JsValue)
    ensures Score(responses).l1.total == 17 && Score(responses).l2.total == 93
    ensures Score(responses).l1.achieved
      <==> forall c | c in CONTROLS && c.level == 1 :: CountsAsMet(StatusOf(ObjectOrEmpty(responses), c))
    ensures Score(responses).l2.achieved
      <==> forall c | c in CONTROLS && c.level != 1 :: CountsAsMet(StatusOf(ObjectOrEmpty(responses), c))
  {
    CatalogTotals();
    LevelsOf(CONTROLS, DOMAIN_ABBRS, ObjectOrEmpty(responses));
  }

  lemma LevelsOf(cs: seq<Control>, keys: set<string>, resp: JsValue)
    ensures ScoreOf(cs, keys, resp).l1.total == LevelOneCount(cs)
    ensures ScoreOf(cs, keys, resp).l2.total == |cs| - LevelOneCount(cs)
    ensures ScoreOf(cs, keys, resp).l1.achieved
      <==> forall c | c in cs && c.level == 1 :: CountsAsMet(StatusOf(resp, c))
    ensures ScoreOf(cs, keys, resp).l2.achieved
      <==> forall c | c in cs && c.level != 1 :: CountsAsMet(StatusOf(resp, c))
  {
    AtLevelSizes(cs);
    TallyCounts(AtLevel(cs, true), resp);
    TallyCounts(AtLevel(cs, false), resp);
    LevelAchievedIff(cs, resp, true);
    LevelAchievedIff(cs, resp, false);
  }

  /** Only the status each control's response selects matters: an unknown answer scores like a missing one. */
  lemma OnlyStatusesMatter(r1: JsValue, r2: JsValue)
    requires forall c | c in CONTROLS :: StatusOf(ObjectOrEmpty(r1), c) == StatusOf(ObjectOrEmpty(r2), c)
    ensures Score(r1) == Score(r2)
  {
    SameStatusesSameScore(CONTROLS, DOMAIN_ABBRS, ObjectOrEmpty(r1), ObjectOrEmpty(r2));
  }

  /** Moving any control from a deducting answer to met or na never lowers the score. */
  lemma MoreMetNeverLowers(r1: JsValue, r2: JsValue)
    requires forall c | c in CONTROLS ::
      Deducts(StatusOf(ObjectOrEmpty(r2), c)) ==> Deducts(StatusOf(ObjectOrEmpty(r1), c))
    ensures Score(r1).sprs <= Score(r2).sprs
  {
    CatalogWeights();
    DeductionMonotone(CONTROLS, ObjectOrEmpty(r1), ObjectOrEmpty(r2));
  }

  /**
   * Moving one control of the catalog from a deducting answer to met or na,
   * and changing no other control's answer, raises the score by exactly that
   * control's weight.
   */
  lemma OneMoreMet(r1: JsValue, r2: JsValue, x: Control)
    requires x in CONTROLS
    requires forall c | c in CONTROLS && c != x :: StatusOf(ObjectOrEmpty(r1), c) == StatusOf(ObjectOrEmpty(r2), c)
    requires Deducts(StatusOf(ObjectOrEmpty(r1), x)) && !Deducts(StatusOf(ObjectOrEmpty(r2), x))
    ensures Score(r2).sprs == Score(r1).sprs + x.weight
  {
    ControlIdsDistinct();
    FlipOne(CONTROLS, x, ObjectOrEmpty(r1), ObjectOrEmpty(r2));
  }

  /**
   * Responses that answer no control (anything but an object, an array, an
   * object without control ids) leave all 110 controls not assessed: the score
   * is -250 and neither level is achieved.
   */
  lemma NothingAnswered(responses: JsValue)
    requires forall c | c in CONTROLS :: !HasKey(ObjectOrEmpty(responses), c.id)
    ensures var r := Score(responses);
      && r.sprs == MAX_SPRS - 360
      && r.met == 0 && r.partial == 0 && r.notMet == 0 && r.na == 0 && r.unassessed == 110
      && !r.l1.achieved && !r.l2.achieved
  {
    CatalogTotals();
    NothingAnsweredOf(CONTROLS, DOMAIN_ABBRS, ObjectOrEmpty(responses));
  }

  /** A control whose id the responses do not carry is not assessed. */
  lemma Unanswered(resp: JsValue, id: string)
    requires !HasKey(resp, id)
    ensures Classify(Get(resp, id)) == Unassessed
  {
    var r := Get(resp, id);
    assert r == Undefined;
  }

  lemma NothingAnsweredOf(cs: seq<Control>, keys: set<string>, resp: JsValue)
    requires forall c | c in cs :: !HasKey(resp, c.id)
    requires 0 < LevelOneCount(cs) < |cs|
    ensures var r := ScoreOf(cs, keys, resp);
      && r.sprs == MAX_SPRS - TotalWeight(cs)
      && r.met == 0 && r.partial == 0 && r.notMet == 0 && r.na == 0 && r.unassessed == |cs|
      && !r.l1.achieved && !r.l2.achieved
  {
    forall c | c in cs ensures StatusOf(resp, c) == Unassessed {
      Unanswered(resp, c.id);
    }
    AtLevelSizes(cs);
    NothingAssessed(cs, resp);
    forall one: bool ensures TallyOf(AtLevel(cs, one), resp) == Tally(0, 0, 0, 0, |AtLevel(cs, one)|, |AtLevel(cs, one)|) {
      forall c | c in AtLevel(cs, one) ensures StatusOf(resp, c) == Unassessed {
        AtLevelMembers(cs, one, c);
      }
      NothingAssessed(AtLevel(cs, one), resp);
    }
  }

  /** Non-objects and arrays carry no control id, and neither does `{}`. */
  lemma NoKeysOutsideObjects(responses: JsValue, key: string)
    requires !IsObject(responses) || responses.Arr? || responses == Obj([])
    ensures !HasKey(ObjectOrEmpty(responses), key)
  {
  }

  /**
   * The per-family breakdown has exactly the 14 families as keys, each with
   * as many controls as its family and its five counters summing to that
   * total, and the families' counters add up to the overall counters.
   */
  lemma FamiliesAddUp(responses: JsValue)
    ensures forall a :: a in Score(responses).domains <==> a in DOMAIN_ABBRS
    ensures forall k | 0 <= k < |DOMAINS| ::
      Score(responses).domains[DOMAINS[k].abbr].total == [22, 3, 9, 9, 11, 3, 6, 9, 2, 6, 3, 4, 16, 7][k]
    ensures forall a | a in Score(responses).domains ::
      Buckets(Score(responses).domains[a]) == Score(responses).domains[a].total
    ensures var r := Score(responses);
      SumAt(DOMAINS, r.domains) == Tally(r.met, r.partial, r.notMet, r.na, r.unassessed, r.totalControls)
  {
    ControlsGroupedByDomain();
    FamilySizes();
    ControlsAreFamilies();
    forall k | 0 <= k < |DOMAINS| ensures DOMAINS[k].abbr in DOMAIN_ABBRS {
      assert DOMAINS[k] in DOMAINS;
    }
    FamiliesAddUpOf(DOMAINS, FAMILIES, CONTROLS, DOMAIN_ABBRS, ObjectOrEmpty(responses));
  }

  lemma FamiliesAddUpOf(ds: seq<Domain>, fs: seq<seq<Control>>, cs: seq<Control>, keys: set<string>, resp: JsValue)
    requires cs == Flatten(fs) && |ds| == |fs|
    requires forall k | 0 <= k < |ds| :: ds[k].abbr in keys && InDomain(cs, ds[k].abbr) == fs[k]
    ensures forall a :: a in ScoreOf(cs, keys, resp).domains <==> a in keys
    ensures forall k | 0 <= k < |ds| :: ScoreOf(cs, keys, resp).domains[ds[k].abbr].total == |InDomain(cs, ds[k].abbr)|
    ensures forall a | a in ScoreOf(cs, keys, resp).domains ::
      Buckets(ScoreOf(cs, keys, resp).domains[a]) == ScoreOf(cs, keys, resp).domains[a].total
    ensures var r := ScoreOf(cs, keys, resp);
      SumAt(ds, r.domains) == Tally(r.met, r.partial, r.notMet, r.na, r.unassessed, r.totalControls)
  {
    var m := TalliesFor(keys, cs, resp);
    forall a | a in m ensures Buckets(m[a]) == m[a].total {
      TallyCounts(InDomain(cs, a), resp);
    }
    forall k | 0 <= k < |ds|
      ensures ds[k].abbr in m && m[ds[k].abbr] == TallyOf(fs[k], resp)
      ensures m[ds[k].abbr].total == |InDomain(cs, ds[k].abbr)|
    {
      TallyCounts(InDomain(cs, ds[k].abbr), resp);
    }
    SumAtFamilies(ds, fs, m, resp);
    TallyFlatten(fs, resp);
    TallyCounts(cs, resp);
    var t := TallyOf(cs, resp);
    assert SumAt(ds, m) == t;
    assert ScoreOf(cs, keys, resp) == ScoreOf(cs, keys, resp).(domains := m);
  }
}
