# CMMC 2.0 self-assessment core, modelled in Dafny

This project models the server side of a CMMC 2.0 / NIST SP 800-171
self-assessment tool and proves properties of the model. The server side has
four parts:

- **Catalog.** The fixed table of the 14 requirement families (sections 3.1
  to 3.14) and their 110 controls. Each control carries a CMMC level, a
  NIST clause and an SPRS weight. (`catalog.dfy`, with the requirement
  wording in `requirements.dfy`.)
- **Scoring engine.** `calculateScore` makes one pass over the catalog. It
  puts every control in one of five buckets (met, partial, not met, n/a,
  not assessed) and deducts the weight of every control that is not met or
  n/a, starting from 110. It also counts each level and each family.
  (`scoring.dfy`; the properties proved about it are in `score_facts.dfy`.)
- **SSP renderer.** `generateSSP` appends the plain-text System Security Plan
  to a string, one piece at a time. It has its own copy of the deduction
  rule. (`ssp.dfy`.)
- **Request boundary.** `validateResponses`, the weight-free listing of
  `GET /api/controls`, and the checks of `POST /api/score` and
  `POST /api/ssp`. (`server.dfy`.)

JavaScript values are a datatype, `JsValues.JsValue`. On it the model
defines:

- truthiness;
- the `!v || typeof v !== 'object'` coercion;
- property reads;
- conversion to text, as a template literal or a `+` concatenation does it,
  including the TypeError it throws on an object with its own `toString`
  key (`JsValues.Completion` is a value or that throw).

`text.dfy` holds the decimal printing of integers and the ASCII
upper-casing.

The source's imperative code stays imperative here:

- `calculateScore` becomes the method `Scoring.CalculateScore`. Its
  `forEach` loop becomes the `for` loop of `Scoring.ScanControls`, whose
  body is `Scoring.CountControl`.
- `generateSSP` becomes the methods `Ssp.GenerateSSP`, `Ssp.RenderPlan`,
  `Ssp.WriteSections` and `Ssp.WriteControls`. They append to a `doc`
  accumulator.
- The renderer's deduction loop becomes `Ssp.RendererScore`.
- The `Object.entries` loop of `validateResponses` becomes
  `Server.Validate`.

Each method is proved equal to a specification function (`Score`,
`PlanOutcome`, `ValidateOutcome`). The properties of the source are then proved
about those functions.

Most proofs are stated for an arbitrary list of families and controls,
then applied to the catalog. One example is `ScoreOf(cs, keys, resp)`,
with `Score` as the catalog instance.

Three facts about the source shape the model:

- The catalog has 110 controls.
- The renderer keeps its own deduction rule, `r !== 'met' && r !== 'na'`.
  Its agreement with the engine is proved (`Ssp.RendererAgrees`,
  `Ssp.RendererScoreAgrees`).
- The engine's coercion keeps arrays, because `typeof [] === 'object'`. An
  array carries no control id, so it scores like `{}`
  (`ScoreFacts.NoKeysOutsideObjects`).

## Model

| member | source | states |
|---|---|---|
| JsValues.IsObjectIsTruthy | server/scoring.js:16 | every object is truthy; `null` is neither an object nor truthy, so the coercion test catches it |
| JsValues.ObjectOrEmpty | server/scoring.js:16-18 | the coerced value is always an object; an object (arrays included) is kept as it is, anything else becomes `{}` |
| JsValues.Or | server/server.js:128 | `v || fallback` is `v` when `v` is truthy and the fallback otherwise |
| JsValues.Lookup | server/scoring.js:38 | a value found under a key was stored under that key; a key no entry carries reads as undefined |
| JsValues.Get | server/scoring.js:38 | reading a key the value does not carry gives undefined |
| JsValues.ToJsString | server/server.js:92 | converting a value to text throws exactly when the value is, or is an array holding, an object with its own `toString` key; a string converts verbatim, and an integer to decimal text that reads back as the integer |
| JsValues.JoinItems | server/server.js:92 | an array converts exactly when each of its elements does |
| JsValues.FalsyPrintable | server/ssp.js:71-73 | a falsy value always converts to text, so a note the renderer skips can never throw |
| Text.NatToString | server/ssp.js:56 | a count prints as a non-empty string of decimal digits with no leading zero |
| Text.IntToStringRoundTrip | server/ssp.js:49 | the printed score, negative scores included, is well-formed integer text that reads back as the score |
| Text.IntToStringInjective | server/ssp.js:49 | two different scores never print the same |
| Text.ToUpper | server/ssp.js:56 | upper-casing keeps the length and upper-cases every character in place |
| Text.ToUpperIdempotent | server/ssp.js:56 | an upper-cased family name contains no lower-case ASCII letter, and upper-casing it again changes nothing |
| Catalog.DomainsWellFormed | server/controls.js:6-21 | there are 14 families; family k (counting from 0) has NIST section `3.` followed by k + 1, so they run 3.1 to 3.14 in order; each has a two-letter abbreviation, and the abbreviations are pairwise distinct |
| Catalog.DomainSectionNames | server/controls.js:6-19 | family k (counting from 0) is section `3.` followed by the decimal text of k + 1 |
| Catalog.ControlFields | server/controls.js:23-161 | every control's domain is the abbreviation of a listed family, its level is 1 or 2, and its weight is 1, 3 or 5 |
| Catalog.ControlsWellFormed | server/controls.js:25-160 | every control has its family's shape: its id starts with the family abbreviation and its NIST clause lies under the family's section. Its id equals domain + ".L" + level + "-" + nist |
| Catalog.ControlIdsDistinct | server/controls.js:25-160 | no two controls share an id |
| Catalog.ControlsAreFamilies | server/controls.js:23-161 | the table is the 14 families' rows, concatenated in the order of the family list |
| Catalog.ControlsGroupedByDomain | server/controls.js:23-161 | filtering the table by each family's abbreviation gives exactly that family's rows, in table order, so the controls are grouped contiguously in family order |
| Catalog.CatalogTotals | server/controls.js:23-161 | the table holds 110 controls, 17 of them at Level 1, and its weights sum to 360 |
| Catalog.FamilySizes | server/controls.js:24-153 | the families hold 22, 3, 9, 9, 11, 3, 6, 9, 2, 6, 3, 4, 16 and 7 controls, as the section comments say |
| Catalog.FamiliesCatalogued | server/controls.js:6-161 | each family's rows are well formed for that family, their ids are distinct, and the family abbreviations are distinct |
| Catalog.IdSpellsRow | server/controls.js:25-160 | a well-formed row whose id continues with the level tag and the clause spells out domain, level and clause |
| Catalog.FlattenIdsDistinct | server/controls.js:23-161 | concatenating well-formed families that have distinct abbreviations keeps every id distinct |
| Catalog.FlattenInDomain | server/controls.js:23-161 | filtering the concatenated families by the k-th abbreviation gives back the k-th family |
| Catalog.InDomain | server/ssp.js:54 | `CONTROLS.filter(c => c.domain === abbr)` is no longer than its input and keeps only controls of that family |
| Catalog.InDomainMembers | server/ssp.js:54 | a control is in the filtered list exactly when it is in the input and belongs to the family |
| Scoring.Token | server/scoring.js:7 | the answer that names an assessed status is one of the four accepted answers |
| Scoring.ClassifyTokens | server/scoring.js:48-71 | a response is assessed exactly when it is one of the four answers; an assessed response is the answer naming its status, and each answer is read back as its status |
| Scoring.TallySnoc | server/scoring.js:37-71 | counting one more control bumps exactly the bucket of its status and adds its weight when it is not met or n/a |
| Scoring.CountControl | server/scoring.js:38-71 | one pass of the loop body: the weight is deducted unless the response is met or na, exactly one bucket grows, and the control's own level grows (its met count too when met or na). The other level stays as it was, and the control's family counters are bumped |
| Scoring.DomainsStep | server/scoring.js:39-71 | if the breakdown holds each family's counters over the controls seen so far, then bumping only the new control's own family gives each family's counters over one more control |
| Scoring.ScannedStep | server/scoring.js:37-71 | the counters after one more control are the scan of one more control |
| Scoring.CountNext | server/scoring.js:38-71 | one iteration extends the scan of the first i controls to the scan of the first i + 1 |
| Scoring.ScanControls | server/scoring.js:37-72 | after the loop, the counters hold the deduction, the five buckets, the two level counts and the per-family counters of the whole control list |
| Scoring.ScannedScore | server/scoring.js:74-88 | deciding each level as `met === total` after the scan gives exactly the specified score record |
| Scoring.ControlsInFamilies | server/scoring.js:39 | every control's family has an entry in the initialised breakdown, so `domains[c.domain]` is always defined |
| Scoring.ScoreControls | server/scoring.js:20-88 | over any family list and any controls of those families, the counters, loop and level decision compute the specified score record |
| Scoring.CalculateScore | server/scoring.js:15-89 | calculateScore returns the score of the coerced responses: 110 less the weight of every control not met or n/a, the five bucket counts, both levels and the per-family counters |
| ScoreFacts.TallyCounts | server/scoring.js:37-72 | every control lands in exactly one bucket: the five buckets sum to the total, which is the number of controls |
| ScoreFacts.ScoreBounds | server/scoring.js:37-79 | totalControls is 110, the five overall counters sum to it, and the score lies between 110 - 360 = -250 and 110 |
| ScoreFacts.DeductionBounds | server/scoring.js:48-71 | with positive weights, the deduction lies between 0 and the total weight |
| ScoreFacts.NoDeductionIff | server/scoring.js:48-71 | with positive weights, nothing is deducted exactly when every control is met or n/a |
| ScoreFacts.NothingAssessed | server/scoring.js:66-71 | when no control is assessed, every control is counted not assessed and costs its full weight |
| ScoreFacts.AllCountAsMetIff | server/scoring.js:49-65 | met plus n/a reaches the total exactly when every control is met or n/a |
| ScoreFacts.AtLevelMembers | server/scoring.js:45-46 | a level's controls are exactly the controls of that level |
| ScoreFacts.AtLevelSizes | server/scoring.js:45-46 | the Level 1 list has as many controls as there are Level 1 controls, and the other list has all the rest |
| ScoreFacts.LevelAchievedIff | server/scoring.js:74-75 | a level is achieved exactly when every control at that level is met or n/a |
| ScoreFacts.LevelsOf | server/scoring.js:45-75 | over any controls, `l1.total` is the Level 1 count, `l2.total` the rest, and each level is achieved exactly when all its controls are met or n/a |
| ScoreFacts.LevelsIff | server/scoring.js:45-75 | for the catalog, `l1.total` is 17 and `l2.total` is 93, and each level is achieved exactly when all its controls are met or n/a, so n/a counts as met |
| ScoreFacts.PerfectScoreOf | server/scoring.js:48-78 | with positive weights, the score is 110 exactly when every control is met or n/a |
| ScoreFacts.PerfectScoreIff | server/scoring.js:48-78 | the catalog score is 110 exactly when every control's response is met or n/a |
| ScoreFacts.SameStatuses | server/scoring.js:48-71 | responses that give every control the same status give the same counters and deduction |
| ScoreFacts.SameStatusesSameScore | server/scoring.js:37-88 | responses that give every control the same status give the same score record, levels and families included |
| ScoreFacts.OnlyStatusesMatter | server/scoring.js:48-71 | only the status each response selects matters, so an unknown answer such as "bogus" scores exactly like a missing one |
| ScoreFacts.DeductionMonotone | server/scoring.js:48-71 | if every control that deducts under the second responses also deducts under the first, the second deduct no more |
| ScoreFacts.MoreMetNeverLowers | server/scoring.js:48-78 | moving controls from a deducting answer to met or n/a never lowers the score |
| ScoreFacts.FlipOne | server/scoring.js:48-71 | among controls with distinct ids, flipping one control from deducting to met or n/a changes the deduction by exactly its weight |
| ScoreFacts.OneMoreMet | server/scoring.js:48-78 | flipping one catalog control from a deducting answer to met or n/a, with no other control's status changed, raises the score by exactly its weight |
| ScoreFacts.Unanswered | server/scoring.js:66-71 | a control whose id the responses do not carry is not assessed |
| ScoreFacts.NoKeysOutsideObjects | server/scoring.js:16-18 | a non-object, an array and `{}` all carry no control id once coerced |
| ScoreFacts.NothingAnsweredOf | server/scoring.js:37-78 | with no control answered, the score is 110 minus the total weight, every control is not assessed, and neither level is achieved |
| ScoreFacts.NothingAnswered | server/scoring.js:37-78 | for the catalog, empty responses give score -250, 110 not assessed, zero in the other four buckets, and neither level achieved |
| ScoreFacts.FamiliesAddUpOf | server/scoring.js:32-71 | the breakdown has exactly the given families as keys; each family's total is its number of controls, its five counters sum to that total, and the families' counters sum to the overall counters |
| ScoreFacts.FamiliesAddUp | server/scoring.js:32-71 | for the catalog, the breakdown has exactly the 14 families as keys with totals 22, 3, 9, ... Each family's five counters sum to its total, and the families' counters sum to the overall counters |
| Ssp.OrgField | server/ssp.js:28-39 | a missing or falsy organisation field prints `Not Provided`; a truthy field that converts prints as JavaScript converts it, and a non-empty string verbatim; one that does not convert makes the whole plan throw (`Ssp.PlanThrows`) |
| Ssp.TargetLevel | server/ssp.js:21 | a falsy `targetLevel` prints as Level 2; a truthy one that converts prints as JavaScript converts it |
| Ssp.StatusLabel | server/ssp.js:60-66 | the if-chain picks the label of the status the response selects |
| Ssp.Labels | server/ssp.js:62-66 | the five labels are pairwise different; the MET label is 16 characters and the other four 17; a response gets `NOT ASSESSED` exactly when it is not one of the four answers |
| Ssp.WriteHeader | server/ssp.js:23-39 | the title, organisation details and boundary block are appended in the source's order, and the header throws exactly when one of the seven organisation fields it prints does not convert to text |
| Ssp.DetailsGrow | server/ssp.js:28-34 | writing the organisation details only appends after what was already written |
| Ssp.BoundaryGrows | server/ssp.js:36-39 | writing the boundary block only appends after what was already written |
| Ssp.HeadingStarts | server/ssp.js:24 | the document's heading opens with a rule of `=` and a newline |
| Ssp.RendererScore | server/ssp.js:42-47 | the renderer's own loop computes 110 less the weight of every control whose response is neither exactly `met` nor `na` |
| Ssp.RendererAgrees | server/ssp.js:42-46 | the renderer's deduction rule gives the same total as the scoring engine's on every response and every list of controls |
| Ssp.RendererScoreAgrees | server/ssp.js:42-49 | the number on the plan's `SPRS SCORE: N / 110` line equals calculateScore's sprs for the same responses |
| Ssp.WriteControls | server/ssp.js:59-75 | the inner loop appends one block per control, in order, and throws exactly when the note of one of the controls does not convert to text |
| Ssp.ControlsExtend | server/ssp.js:59-75 | writing the blocks of a family only appends each control's block, in order, and nothing else |
| Ssp.ControlOpens | server/ssp.js:62-70 | each control's block opens with its head line, and the head line opens with the label of the control's status |
| Ssp.NotesLine | server/ssp.js:71-73 | a block has an `Implementation Notes:` line exactly when the control's note is truthy, and a string note is printed verbatim |
| Ssp.WriteSections | server/ssp.js:53-76 | the outer loop appends one section per family, in order, and throws exactly when a note of some family's controls does not convert to text |
| Ssp.WriteAfter | server/ssp.js:41-82 | after the heading, the renderer appends the score block, the sections and the closing banner, and throws exactly when the sections do |
| Ssp.SectionsPrintAll | server/ssp.js:53-76 | when every control belongs to a listed family, the sections convert exactly when every control's note does |
| Ssp.PlanThrows | server/ssp.js:21-73 | generateSSP throws exactly when an organisation field it prints, or the note of some catalog control, does not convert to text |
| Ssp.SectionOpens | server/ssp.js:54-75 | a family's section is a rule, its header line, another rule, then the blocks of exactly that family's controls in catalog order |
| Ssp.SectionHeads | server/ssp.js:55-57 | each section opens with a rule and then the header line built from the family and the number of its controls in the list |
| Ssp.SectionsInOrder | server/ssp.js:53-76 | writing the sections appends exactly one section per family, in family order, and nothing else |
| Ssp.PlanLayout | server/ssp.js:48-80 | below the heading the plan is the score block, then the family sections in order, then the closing banner |
| Ssp.PlanStarts | server/ssp.js:23-39 | the plan opens with its heading |
| Ssp.PlanEnds | server/ssp.js:78-80 | the rule is 72 `=` characters, and the plan ends with `END OF SYSTEM SECURITY PLAN` between two such rules |
| Ssp.RenderPlan | server/ssp.js:23-82 | the appends after the coercion build exactly the specified plan, or throw exactly when a printed field or note does not convert |
| Ssp.GeneratePlan | server/ssp.js:16-83 | any argument that is not a non-null object is coerced to `{}`, then the plan is rendered or the TypeError thrown |
| Ssp.GenerateSSP | server/ssp.js:16-83 | generateSSP returns the catalog's plan of the coerced arguments, or throws as `Ssp.PlanThrows` says |
| Server.Message | server/server.js:85-92 | wording a complaint throws only for an invalid status, exactly when that status does not convert to text; a string status is quoted verbatim, and an unknown id is named in its message |
| Server.EntryError | server/server.js:88-93 | an entry passes exactly when its id is known and its status is one of the four answers; an unknown id is reported before its status is looked at |
| Server.ValidationError | server/server.js:84-86 | anything but a plain object (null, a primitive, an array) is refused with `responses must be a non-null object` |
| Server.Validate | server/server.js:83-96 | the loop with its early returns gives exactly the validation outcome: the not-an-object message, the message about the first offending entry, no error, or the TypeError of printing that entry's status |
| Server.ValidateResponses | server/server.js:80-96 | validateResponses checks against the catalog's ids |
| Server.EntriesValidIff | server/server.js:87-95 | a list of entries passes exactly when every entry's id is known and every status is one of the four answers |
| Server.ValidIff | server/server.js:83-96 | a value passes exactly when it is a plain object whose keys are all known ids and whose values are all answers the scorer counts |
| Server.FirstOffender | server/server.js:87-93 | a refusal reports the first offending entry in iteration order: every entry before it passed |
| Server.StatusesAgree | server/server.js:80 | the server accepts exactly the answers the scoring engine counts as assessed |
| Server.AbsentIff | server/server.js:87-95 | under validated answers, a control is not assessed exactly when its id is missing |
| Server.UnassessedAbsent | server/server.js:87-95 | under validated answers, the not-assessed count is the number of controls whose id is missing |
| Server.ValidatedUnassessed | server/server.js:87-95 | after validation passes, no value reaches the unknown-token fallback, so `unassessed` counts exactly the absent ids |
| Server.PublicControls | server/server.js:107 | the listing has one entry per control, in catalog order; each entry gives back its control once the weight is restored, and carries the control's requirement text |
| Server.ListingHidesWeights | server/server.js:107-108 | catalogs that differ only in their weights produce identical listings, so no weight can be read from the listing |
| Server.Refused | server/server.js:115-118 | a refusal is never a 200, and it is a 500 exactly when the complaint is about a status that does not convert to text |
| Server.ScoreRoute | server/server.js:112-122 | `/api/score` accepts exactly the responses that pass validation, and refuses a missing one with the validator's message. It answers 500 exactly when the first offender is a status that does not convert to text. What it accepts it scores unchanged, with `unassessed` equal to the number of absent ids |
| Server.OrEmpty | server/server.js:141 | `v || {}` coerces to the same object as `v` |
| Server.SspChecks | server/server.js:128-139 | `/api/ssp` lets missing responses through as `{}`. It accepts exactly when validation passes and `orgInfo` and `notes` are each absent or a plain object, and it reports the first failed check in that order |
| Server.SspRoute | server/server.js:140-141 | what `/api/ssp` accepts it renders as the plan of the three values as sent, and it answers 500 exactly when rendering throws |
| Server.LoneInvalidStatus | server/server.js:87-93 | a lone entry with a known id and a status outside the four answers is refused for that status |
| Server.ThrowingStatusIsServerError | server/server.js:92 | `POST /api/score` with responses `{"AC.L1-3.1.1": {"toString": 1}}` answers 500, not 400 |
| Server.OrgOnlyPasses | server/server.js:128-139 | a body that carries only a plain-object `orgInfo` passes every check of `/api/ssp` |
| Server.ThrowingOrgBodyPasses | server/server.js:128-139 | the body `{"orgInfo": {"orgName": {"toString": 1}}}` passes the checks of `/api/ssp`, and its organisation name does not convert to text |
| Server.ThrowingOrgNameIsServerError | server/ssp.js:28 | `POST /api/ssp` with that body answers 500 |

## Left out

- The requirement texts are a lookup function (`Requirements.RequirementText`) that the plan prints. No property is proved about their wording. An id outside the catalog prints as `undefined`, as a missing field does.
- Numbers are integers of magnitude at most 2^53, the integers JavaScript holds exactly and prints as their own digits. A fractional JSON number, or a larger one, is not modelled: JavaScript rounds it or prints it in exponent form.
- An object is its list of entries, in the order `Object.entries` gives them, with each key at most once, as a parsed JSON object has. JavaScript's placing of integer-like keys first is not modelled.
- A property read looks at the object's own keys only. Reads through the prototype chain are not modelled: the keys the core reads (control ids, organisation field names) are not properties of `Object.prototype`.
- Converting a parsed object to text consults its own `toString` key, which is modelled (`JsValues.Printable`). A parsed value never holds a function, so an own `toString` always makes the conversion throw. An own `valueOf` key is skipped as not callable, so it changes nothing. Template literals try `toString` first and `+` tries `valueOf` first; for parsed values both give the same text or the same throw.
- The `Generated:` timestamp, `new Date().toLocaleString()`, is a string parameter, because it depends on the clock and the locale.
- `toUpperCase` is modelled on ASCII letters only; the family names are ASCII.
- Outside the core and not modelled:
  - the rate limiter, which depends on the clock and a background sweep;
  - Express, helmet, cors, the JSON body limit, the request logger, the health route, the 404 fallback and `app.listen`;
  - the browser client and the build script.
- The JSON response wrappers (`{ error }`, `{ ssp }`) and the HTTP status codes become the `Reply` datatype: `BadRequest(error)` for 400, `Ok(payload)` for 200, and `ServerError` for the 500 Express sends when a handler throws. The body of that 500 page is not modelled.
- Ssp.OrgField, Ssp.TargetLevel and the notes line: a value that does not convert gives the empty text (`Ssp.Printed`). That text never reaches a reader, because the plan is delivered only when every printed value converts (`Ssp.PlanOutcome`).
- Server.PublicControls: the listing returns the catalog's `Domain` records as they are, and each control without its weight. The model proves that no weight can be read from the listing, but not that the serialised JSON omits a `weight` field name.
- Ssp.SectionHeads: stated for any family and control list. The per-family counts it prints for the catalog come from `Catalog.FamilySizes`.
- The MET status label is transcribed as it is in the source, one character shorter than the other four labels (`Ssp.Labels`).
