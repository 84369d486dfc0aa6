/**
 * The request handling of the HTTP server: the validation of a responses
 * object, the control listing that hides the scoring weights, and the two
 * POST routes that either answer 400 with an error message or hand the
 * request to the scoring engine or the plan generator.
 */
module Server {
  import opened JsValues
  import opened Catalog
  import opened Scoring
  import opened Requirements
  import opened Ssp

  datatype Option<T> = None | Some(value: T)

  /** The four answers the server accepts for a control. */
  const VALID_STATUSES: set<string> := {"met", "partial", "not-met", "na"}

  /** The ids of the catalog, the only keys a responses object may carry. */
  const CONTROL_IDS: set<string> := set c | c in CONTROLS :: c.id

  // ---------------------------------------------------------------------
  // Validation of a responses object

  /** What a request is refused for; `Message` words it. */
  datatype Complaint =
    | NotAnObject
    | UnknownId(id: string)
    | InvalidStatus(id: string, status: JsValue)
    | OrgNotObject
    | NotesNotObject

  const NOT_AN_OBJECT := "responses must be a non-null object"
  const ORG_NOT_OBJECT := "orgInfo must be an object"
  const NOTES_NOT_OBJECT := "notes must be an object"

  /**
   * The error message of a complaint. Only an invalid status is printed
   * into its message, so only a status that does not convert to text makes
   * the wording throw; a string status is quoted as sent.
   */
  function Message(c: Complaint): (r: Completion<string>)
    ensures r.Throws? <==> c.InvalidStatus? && !Printable(c.status)
    ensures c.InvalidStatus? && c.status.Str? ==>
      r == Normal("Invalid status \"" + c.status.s + "\" for control " + c.id + ". Must be met|partial|not-met|na")
    ensures c.UnknownId? ==> r == Normal("Unknown control ID: " + c.id)
  {
    match c
    case NotAnObject => Normal(NOT_AN_OBJECT)
    case UnknownId(id) => Normal("Unknown control ID: " + id)
    case InvalidStatus(id, status) =>
      (match ToJsString(status)
       case Throws => Throws
       case Normal(s) => Normal("Invalid status \"" + s + "\" for control " + id + ". Must be met|partial|not-met|na"))
    case OrgNotObject => Normal(ORG_NOT_OBJECT)
    case NotesNotObject => Normal(NOTES_NOT_OBJECT)
  }

  /** The message of a complaint, if there is one: `Normal(None)` is the validator's `null`. */
  function Worded(e: Option<Complaint>): Completion<Option<string>> {
    match e
    case None => Normal(None)
    case Some(c) =>
      (match Message(c)
       case Throws => Throws
       case Normal(m) => Normal(Some(m)))
  }

  predicate ValidStatus(v: JsValue) {
    v.Str? && v.s in VALID_STATUSES
  }

  /**
   * The complaint about one `[id, status]` entry, if any: an unknown id is
   * reported before the status is looked at.
   */
  function EntryError(entry: (string, JsValue), ids: set<string>): (r: Option<Complaint>)
    ensures r == None <==> entry.0 in ids && ValidStatus(entry.1)
    ensures entry.0 !in ids ==> r == Some(UnknownId(entry.0))
    ensures entry.0 in ids && r.Some? ==> r == Some(InvalidStatus(entry.0, entry.1))
  {
    if entry.0 !in ids then Some(UnknownId(entry.0))
    else if !ValidStatus(entry.1) then Some(InvalidStatus(entry.0, entry.1))
    else None
  }

  /** The complaint about the first offending entry, in iteration order. */
  function EntriesError(entries: seq<(string, JsValue)>, ids: set<string>): Option<Complaint> {
    if entries == [] then None
    else if EntryError(entries[0], ids).Some? then EntryError(entries[0], ids)
    else EntriesError(entries[1..], ids)
  }

  /** What validateResponses finds wrong with `v` against the id set `ids`, if anything. */
  function ValidationError(v: JsValue, ids: set<string>): (r: Option<Complaint>)
    ensures !v.Obj? ==> r == Some(NotAnObject)
  {
    if !Truthy(v) || !IsObject(v) || v.Arr? then Some(NotAnObject)
    else EntriesError(v.props, ids)
  }

  function ResponsesError(responses: JsValue): Option<Complaint> {
    ValidationError(responses, CONTROL_IDS)
  }

  /** validateResponses against `ids`: its message, `null` as `None`, or the TypeError of printing the status. */
  function ValidateOutcome(v: JsValue, ids: set<string>): Completion<Option<string>> {
    Worded(ValidationError(v, ids))
  }

  /** Entries that passed the check leave the verdict to the rest of the list. */
  lemma {:induction false} SkipValid(entries: seq<(string, JsValue)>, i: nat, ids: set<string>)
    requires i <= |entries|
    requires forall j | 0 <= j < i :: EntryError(entries[j], ids) == None
    ensures EntriesError(entries, ids) == EntriesError(entries[i..], ids)
    decreases i
  {
    if i > 0 {
      assert EntryError(entries[0], ids) == None;
      assert forall j | 0 <= j < i - 1 :: entries[1..][j] == entries[j + 1];
      SkipValid(entries[1..], i - 1, ids);
      assert entries[1..][i - 1..] == entries[i..];
    }
  }

  /** The loop of validateResponses over `Object.entries`, with an early return at the first offender. */
  method Validate(responses: JsValue, ids: set<string>) returns (err: Completion<Option<string>>)
    ensures err == ValidateOutcome(responses, ids)
  {
    if !Truthy(responses) || !IsObject(responses) || responses.Arr? {
      return Normal(Some(NOT_AN_OBJECT));
    }
    var entries := responses.props;
    for i := 0 to |entries|
      invariant forall j | 0 <= j < i :: EntryError(entries[j], ids) == None
    {
      var (id, status) := entries[i];
      if id !in ids {
        SkipValid(entries, i, ids);
        return Normal(Some("Unknown control ID: " + id));
      }
      if !(status.Str? && status.s in VALID_STATUSES) {
        SkipValid(entries, i, ids);
        var shown := ToJsString(status);
        if shown.Throws? {
          return Throws;
        }
        return Normal(Some("Invalid status \"" + shown.value + "\" for control " + id + ". Must be met|partial|not-met|na"));
      }
    }
    SkipValid(entries, |entries|, ids);
    return Normal(None);
  }

  /** validateResponses, against the ids of the catalog. */
  method ValidateResponses(responses: JsValue) returns (err: Completion<Option<string>>)
    ensures err == ValidateOutcome(responses, CONTROL_IDS)
  {
    err := Validate(responses, CONTROL_IDS);
  }

  /** The server's answers are exactly the ones the scorer counts. */
  lemma StatusesAgree(v: JsValue)
    ensures ValidStatus(v) <==> Classify(v) != Unassessed
  {
    ClassifyTokens(v, Met);
  }

  lemma {:induction false} EntriesValidIff(entries: seq<(string, JsValue)>, ids: set<string>)
    ensures EntriesError(entries, ids) == None <==>
      forall k | 0 <= k < |entries| :: entries[k].0 in ids && ValidStatus(entries[k].1)
    decreases |entries|
  {
    if entries != [] {
      EntriesValidIff(entries[1..], ids);
      assert forall k | 0 < k < |entries| :: entries[k] == entries[1..][k - 1];
    }
  }

  /**
   * A value passes validation exactly when it is a plain object whose every
   * key is one of `ids` and whose every value is an answer the scorer counts.
   */
  lemma ValidIff(v: JsValue, ids: set<string>)
    ensures ValidationError(v, ids) == None <==>
      v.Obj? && forall k | 0 <= k < |v.props| :: v.props[k].0 in ids && Classify(v.props[k].1) != Unassessed
  {
    if v.Obj? {
      EntriesValidIff(v.props, ids);
      forall k | 0 <= k < |v.props| {
        StatusesAgree(v.props[k].1);
      }
    }
  }

  /**
   * When a list of entries is rejected, the message is the one about its
   * first offending entry: every entry before it passed.
   */
  lemma {:induction false} FirstOffender(entries: seq<(string, JsValue)>, ids: set<string>)
    requires EntriesError(entries, ids).Some?
    ensures exists k | 0 <= k < |entries| ::
      (forall j | 0 <= j < k :: EntryError(entries[j], ids) == None) &&
      EntriesError(entries, ids) == EntryError(entries[k], ids)
    decreases |entries|
  {
    if EntryError(entries[0], ids).None? {
      FirstOffender(entries[1..], ids);
      var k :| 0 <= k < |entries| - 1 &&
        (forall j | 0 <= j < k :: EntryError(entries[1..][j], ids) == None) &&
        EntriesError(entries[1..], ids) == EntryError(entries[1..][k], ids);
      forall j | 0 <= j < k + 1
        ensures EntryError(entries[j], ids) == None
      {
        if j > 0 {
          assert entries[j] == entries[1..][j - 1];
        }
      }
    }
  }

  // ---------------------------------------------------------------------
  // What the scorer makes of a validated responses object

  /** The number of controls of `cs` whose id is not a key of `resp`. */
  function CountAbsent(cs: seq<Control>, resp: JsValue): nat {
    if cs == [] then 0
    else CountAbsent(cs[..|cs| - 1], resp) + Count(!HasKey(resp, cs[|cs| - 1].id))
  }

  /** The stored value of a key that is there is found. */
  lemma {:induction false} LookupFound(props: seq<(string, JsValue)>, key: string)
    requires exists k | 0 <= k < |props| :: props[k].0 == key
    ensures exists k | 0 <= k < |props| :: props[k].0 == key && Lookup(props, key) == props[k].1
    decreases |props|
  {
    if props[0].0 != key {
      var k :| 0 <= k < |props| && props[k].0 == key;
      assert props[1..][k - 1].0 == key;
      LookupFound(props[1..], key);
      var k' :| 0 <= k' < |props| - 1 && props[1..][k'].0 == key && Lookup(props[1..], key) == props[1..][k'].1;
      assert props[k' + 1] == props[1..][k'];
    }
  }

  /** Every value of `resp` is an answer the scorer counts. */
  predicate Answers(resp: JsValue) {
    resp.Obj? && forall k | 0 <= k < |resp.props| :: ValidStatus(resp.props[k].1)
  }

  /** Under valid answers a control goes unassessed exactly when its id is missing. */
  lemma AbsentIff(resp: JsValue, c: Control)
    requires Answers(resp)
    ensures StatusOf(resp, c) == Unassessed <==> !HasKey(resp, c.id)
  {
    if HasKey(resp, c.id) {
      LookupFound(resp.props, c.id);
      var k :| 0 <= k < |resp.props| && resp.props[k].0 == c.id && Lookup(resp.props, c.id) == resp.props[k].1;
      StatusesAgree(resp.props[k].1);
    }
  }

  lemma {:induction false} UnassessedAbsent(cs: seq<Control>, resp: JsValue)
    requires Answers(resp)
    ensures TallyOf(cs, resp).unassessed == CountAbsent(cs, resp)
    decreases |cs|
  {
    if cs != [] {
      UnassessedAbsent(cs[..|cs| - 1], resp);
      AbsentIff(resp, cs[|cs| - 1]);
    }
  }

  /**
   * Once a responses object has passed validation, the "not assessed" count
   * of the result is exactly the number of controls it leaves out.
   */
  lemma ValidatedUnassessed(cs: seq<Control>, keys: set<string>, responses: JsValue, ids: set<string>)
    requires ValidationError(responses, ids) == None
    ensures Answers(responses)
    ensures ScoreOf(cs, keys, responses).unassessed == CountAbsent(cs, responses)
  {
    ValidIff(responses, ids);
    forall k | 0 <= k < |responses.props|
      ensures ValidStatus(responses.props[k].1)
    {
      StatusesAgree(responses.props[k].1);
    }
    UnassessedAbsent(cs, responses);
  }

  // ---------------------------------------------------------------------
  // GET /api/controls

  /** A control as the listing shows it: everything but its weight. */
  datatype PublicControl = PublicControl(id: string, level: int, domain: string, nist: string, text: string)

  function StripWeight(c: Control, texts: string -> string): PublicControl {
    PublicControl(c.id, c.level, c.domain, c.nist, texts(c.id))
  }

  /** The catalog row a listed control came from, given back its weight. */
  function Restore(p: PublicControl, weight: int): Control {
    Control(p.id, p.level, p.domain, p.nist, weight)
  }

  /**
   * The listed controls: one per catalog row, in catalog order, each giving
   * back its row once its weight is restored, and carrying its requirement text.
   */
  function PublicControls(cs: seq<Control>, texts: string -> string): (r: seq<PublicControl>)
    ensures |r| == |cs|
    ensures forall i | 0 <= i < |cs| :: Restore(r[i], cs[i].weight) == cs[i] && r[i].text == texts(cs[i].id)
  {
    seq(|cs|, i requires 0 <= i < |cs| => StripWeight(cs[i], texts))
  }

  /** Catalogs that differ only in their weights are listed identically. */
  lemma {:induction false} ListingHidesWeights(cs: seq<Control>, cs': seq<Control>, texts: string -> string)
    requires |cs| == |cs'|
    requires forall i | 0 <= i < |cs| :: cs'[i] == cs[i].(weight := cs'[i].weight)
    ensures PublicControls(cs, texts) == PublicControls(cs', texts)
  {
    var r, r' := PublicControls(cs, texts), PublicControls(cs', texts);
    forall i | 0 <= i < |cs|
      ensures r[i] == r'[i]
    {
      assert Restore(r[i], cs[i].weight) == cs[i];
      assert Restore(r'[i], cs'[i].weight) == cs'[i];
    }
  }

  datatype Listing = Listing(domains: seq<Domain>, controls: seq<PublicControl>)

  function GetControls(): Listing {
    Listing(DOMAINS, PublicControls(CONTROLS, RequirementText))
  }

  // ---------------------------------------------------------------------
  // POST /api/score and POST /api/ssp

  /**
   * A route's answer: status 400 with `{ error }`, status 200 with its
   * payload, or the status 500 Express sends when the handler throws.
   */
  datatype Reply<T> = BadRequest(error: string) | Ok(payload: T) | ServerError

  /** The 400 answer to a complaint, or a 500 when wording it throws. */
  function Refuse<T>(c: Complaint): Reply<T> {
    match Message(c)
    case Normal(m) => BadRequest(m)
    case Throws => ServerError
  }

  /** A refusal is never a success, and it is a 500 exactly when the complaint's status cannot be printed. */
  lemma Refused<T>(c: Complaint)
    ensures !Refuse<T>(c).Ok?
    ensures Refuse<T>(c).ServerError? <==> exists id, status :: c == InvalidStatus(id, status) && !Printable(status)
  {
    if c.InvalidStatus? && !Printable(c.status) {
      assert c == InvalidStatus(c.id, c.status);
    }
  }

  /** POST /api/score: validate `body.responses`, then score it as given. */
  function PostScore(body: JsValue): Reply<ScoreResult> {
    var responses := Get(body, "responses");
    match ResponsesError(responses)
    case Some(c) => Refuse(c)
    case None => Ok(Score(responses))
  }

  /** `!v || (typeof v === 'object' && !Array.isArray(v))`: absent, or a plain object. */
  predicate ObjectOrAbsent(v: JsValue) {
    !Truthy(v) || v.Obj?
  }

  /**
   * The checks of POST /api/ssp, in order: the validator's verdict on
   * `responses || {}`, then `orgInfo`, then `notes` must be absent or a plain object.
   */
  function SspCheckFor(body: JsValue, ids: set<string>): Option<Complaint> {
    var orgInfo := Get(body, "orgInfo");
    var notes := Get(body, "notes");
    match ValidationError(Or(Get(body, "responses"), Obj([])), ids)
    case Some(err) => Some(err)
    case None =>
      if Truthy(orgInfo) && (!IsObject(orgInfo) || orgInfo.Arr?) then Some(OrgNotObject)
      else if Truthy(notes) && (!IsObject(notes) || notes.Arr?) then Some(NotesNotObject)
      else None
  }

  function SspCheck(body: JsValue): Option<Complaint> {
    SspCheckFor(body, CONTROL_IDS)
  }

  /** POST /api/ssp: refuse what the checks refuse, else render the plan of the `|| {}`-defaulted values. */
  function PostSsp(body: JsValue, timestamp: string): Reply<string> {
    match SspCheck(body)
    case Some(c) => Refuse(c)
    case None =>
      match Plan(Or(Get(body, "responses"), Obj([])), Or(Get(body, "orgInfo"), Obj([])), Or(Get(body, "notes"), Obj([])), timestamp)
      case Throws => ServerError
      case Normal(doc) => Ok(doc)
  }

  /**
   * The score route refuses a missing responses object and every invalid
   * one with the validator's message, unless the first offender is a status
   * that does not convert to text, which fails with status 500; what it
   * accepts it scores, and then the "not assessed" count is the number of
   * controls left out.
   */
  lemma ScoreRoute(body: JsValue)
    ensures PostScore(body).Ok? <==> ResponsesError(Get(body, "responses")) == None
    ensures PostScore(body).ServerError? <==>
      exists id, status :: ResponsesError(Get(body, "responses")) == Some(InvalidStatus(id, status)) && !Printable(status)
    ensures !Truthy(Get(body, "responses")) ==> PostScore(body) == BadRequest(NOT_AN_OBJECT)
    ensures PostScore(body).Ok? ==>
      PostScore(body).payload == Score(Get(body, "responses")) &&
      PostScore(body).payload.unassessed == CountAbsent(CONTROLS, Get(body, "responses"))
  {
    var responses := Get(body, "responses");
    match ResponsesError(responses)
    case None =>
      assert ObjectOrEmpty(responses) == responses;
      ValidatedUnassessed(CONTROLS, DOMAIN_ABBRS, responses, CONTROL_IDS);
    case Some(c) =>
      assert PostScore(body) == Refuse(c);
      Refused<ScoreResult>(c);
  }

  /** `v || {}` coerces to the same object as `v` does. */
  lemma OrEmpty(v: JsValue)
    ensures ObjectOrEmpty(Or(v, Obj([]))) == ObjectOrEmpty(v)
  {
  }

  /**
   * The plan route accepts a missing responses object as `{}`; it accepts
   * exactly when the responses pass validation and both optional objects are
   * absent or plain objects, and it reports the first failed check in that order.
   */
  lemma SspChecks(body: JsValue, ids: set<string>)
    ensures !Truthy(Get(body, "responses")) ==> ValidationError(Or(Get(body, "responses"), Obj([])), ids) == None
    ensures SspCheckFor(body, ids) == None <==>
      ValidationError(Or(Get(body, "responses"), Obj([])), ids) == None &&
      ObjectOrAbsent(Get(body, "orgInfo")) && ObjectOrAbsent(Get(body, "notes"))
    ensures ValidationError(Or(Get(body, "responses"), Obj([])), ids).Some? ==>
      SspCheckFor(body, ids) == ValidationError(Or(Get(body, "responses"), Obj([])), ids)
    ensures ValidationError(Or(Get(body, "responses"), Obj([])), ids) == None && !ObjectOrAbsent(Get(body, "orgInfo")) ==>
      SspCheckFor(body, ids) == Some(OrgNotObject)
    ensures (ValidationError(Or(Get(body, "responses"), Obj([])), ids) == None && ObjectOrAbsent(Get(body, "orgInfo")) &&
      !ObjectOrAbsent(Get(body, "notes"))) ==> SspCheckFor(body, ids) == Some(NotesNotObject)
  {
    if !Truthy(Get(body, "responses")) {
      EntriesValidIff([], ids);
    }
  }

  /**
   * What the plan route accepts it renders as the plan of the three values
   * as sent: defaulting them to `{}` first changes nothing, since the
   * renderer coerces them the same way. It fails with status 500 exactly
   * when rendering throws.
   */
  lemma SspRoute(body: JsValue, timestamp: string)
    requires SspCheck(body) == None
    ensures PostSsp(body, timestamp).ServerError? <==>
      Plan(Get(body, "responses"), Get(body, "orgInfo"), Get(body, "notes"), timestamp).Throws?
    ensures Plan(Get(body, "responses"), Get(body, "orgInfo"), Get(body, "notes"), timestamp).Normal? ==>
      PostSsp(body, timestamp) == Ok(Plan(Get(body, "responses"), Get(body, "orgInfo"), Get(body, "notes"), timestamp).value)
  {
    OrEmpty(Get(body, "responses"));
    OrEmpty(Get(body, "orgInfo"));
    OrEmpty(Get(body, "notes"));
  }

  /** A lone entry with a listed id and a status the server does not accept is refused for that status. */
  lemma LoneInvalidStatus(id: string, status: JsValue, ids: set<string>)
    requires id in ids && !ValidStatus(status)
    ensures ValidationError(Obj([(id, status)]), ids) == Some(InvalidStatus(id, status))
  {
    assert EntriesError([(id, status)], ids) == Some(InvalidStatus(id, status)) by {
      assert EntryError((id, status), ids) == Some(InvalidStatus(id, status));
    }
  }

  /** The catalog's first control, the id of the examples below. */
  lemma FirstIdListed()
    ensures "AC.L1-3.1.1" in CONTROL_IDS
  {
    assert CONTROLS[0] == AC_CONTROLS[0];
  }

  /** `{"toString": 1}`: an object with its own `toString` key, which JavaScript cannot print. */
  const OWN_TO_STRING: JsValue := Obj([("toString", Num(1))])

  lemma OwnToStringUnprintable()
    ensures !Printable(OWN_TO_STRING)
  {
    assert OWN_TO_STRING.props[0].0 == "toString";
  }

  /** `{"responses": {"AC.L1-3.1.1": {"toString": 1}}}` */
  const THROWING_STATUS_BODY: JsValue := Obj([("responses", Obj([("AC.L1-3.1.1", OWN_TO_STRING)]))])

  /** POST /api/score with a listed id whose status cannot be printed answers 500, not 400. */
  lemma ThrowingStatusIsServerError()
    ensures PostScore(THROWING_STATUS_BODY) == ServerError
  {
    var responses := Obj([("AC.L1-3.1.1", OWN_TO_STRING)]);
    assert Get(THROWING_STATUS_BODY, "responses") == responses;
    FirstIdListed();
    OwnToStringUnprintable();
    LoneInvalidStatus("AC.L1-3.1.1", OWN_TO_STRING, CONTROL_IDS);
    ScoreRoute(THROWING_STATUS_BODY);
  }

  /** `{"orgInfo": {"orgName": {"toString": 1}}}` */
  const THROWING_ORG_BODY: JsValue := Obj([("orgInfo", Obj([("orgName", OWN_TO_STRING)]))])

  /** A body carrying only a plain-object `orgInfo` passes the plan route's checks, whatever the id set. */
  lemma OrgOnlyPasses(org: JsValue, ids: set<string>)
    requires org.Obj?
    ensures Get(Obj([("orgInfo", org)]), "responses") == Undefined
    ensures Get(Obj([("orgInfo", org)]), "orgInfo") == org
    ensures Get(Obj([("orgInfo", org)]), "notes") == Undefined
    ensures SspCheckFor(Obj([("orgInfo", org)]), ids) == None
  {
    var body := Obj([("orgInfo", org)]);
    assert Get(body, "responses") == Undefined && Get(body, "notes") == Undefined;
    assert Get(body, "orgInfo") == org;
    SspChecks(body, ids);
  }

  /** The plan route's checks pass that body, whose organisation name cannot be printed. */
  lemma ThrowingOrgBodyPasses()
    ensures SspCheck(THROWING_ORG_BODY) == None
    ensures Get(THROWING_ORG_BODY, "responses") == Undefined && Get(THROWING_ORG_BODY, "notes") == Undefined
    ensures Get(THROWING_ORG_BODY, "orgInfo") == Obj([("orgName", OWN_TO_STRING)])
    ensures !HeaderPrints(ObjectOrEmpty(Obj([("orgName", OWN_TO_STRING)])))
  {
    var org := Obj([("orgName", OWN_TO_STRING)]);
    OrgOnlyPasses(org, CONTROL_IDS);
    OwnToStringUnprintable();
    assert ObjectOrEmpty(org) == org;
    assert !Printable(Get(org, "orgName")) by {
      assert Get(org, "orgName") == OWN_TO_STRING;
    }
  }

  /** POST /api/ssp with that body answers 500: rendering throws on the name. */
  lemma ThrowingOrgNameIsServerError(timestamp: string)
    ensures PostSsp(THROWING_ORG_BODY, timestamp) == ServerError
  {
    ThrowingOrgBodyPasses();
    PlanThrows(Undefined, Obj([("orgName", OWN_TO_STRING)]), Undefined, timestamp);
    SspRoute(THROWING_ORG_BODY, timestamp);
  }
}
