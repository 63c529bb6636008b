/**
 * `create_servicenow_incident`: after a credentials guard, the summary and
 * description are redacted, the idempotency tag is appended to the
 * description, the optional fields are added when given, and the incident is
 * POSTed to the ServiceNow table API with at most three attempts. A transient
 * status (429, section 4 of RFC 6585; 500, 502, 503 and 504, section 15.6 of
 * RFC 9110) waits 1.5·n seconds and leaves the last error as it was; any
 * exception, including the one `raise_for_status` raises for other 4xx and
 * 5xx statuses, records the error and waits 1.0·n seconds.
 *
 * The environment, the HTTP transport and the clock are parameters: the
 * credentials are a value, `post(n)` is what the n-th POST produces, and
 * waits are reported in tenths of a second instead of being slept.
 */
module ServiceNow {
  import opened PyText
  import opened PyDict
  import opened Redactor
  import opened Idempotency

  /** `SN_INSTANCE`, `SN_USER` and `SN_PASS` from the environment. */
  datatype Credentials = Credentials(instance: Option<string>, user: Option<string>, password: Option<string>)

  predicate HasCredentials(c: Credentials) {
    Truthy(c.instance) && Truthy(c.user) && Truthy(c.password)
  }

  const CredentialsMissing: string := "ServiceNow credentials missing (SN_INSTANCE, SN_USER, SN_PASS)."
  const RetriesFailed: string := "ServiceNow API failed after retries. Detail: "

  datatype IncidentArgs = IncidentArgs(
    shortDescription: string,
    description: string,
    urgency: string,
    impact: string,
    caller: Option<string>,
    assignmentGroup: Option<string>,
    category: Option<string>)

  /**
   * The response body: not JSON; JSON on which `.get` raises (a body that is
   * not an object, or a `result` that is not an object, such as `null`), with
   * the exception's type name and message; or the `number` and `sys_id` of its
   * `result` object (each may be absent).
   */
  datatype Body =
    | NotJson(detail: string)
    | Unreadable(typeName: string, message: string)
    | Record(number: Option<string>, sysId: Option<string>)

  /** What one POST produces: a response, or an exception from the transport. */
  datatype PostOutcome = Responded(status: nat, reason: string, body: Body) | Failed(typeName: string, message: string)

  /** The dictionary the tool returns: the created incident, or an error. */
  datatype IncidentResult =
    | Created(number: Option<string>, sysId: Option<string>, url: string, idempotency: string)
    | Error(error: string)

  function IncidentEndpoint(instance: string): string {
    "https://" + instance + ".service-now.com/api/now/table/incident"
  }

  function IncidentLink(instance: string, sysId: Option<string>): string {
    "https://" + instance + ".service-now.com/nav_to.do?uri=incident.do?sys_id=" + OptionText(sysId)
  }

  const TransientStatuses: set<nat> := {429, 500, 502, 503, 504}

  /** The text of the `HTTPError` that `raise_for_status` raises. */
  function HttpErrorMessage(status: nat, reason: string, url: string): string
    requires 400 <= status < 600
  {
    NatToString(status) + (if status < 500 then " Client Error: " else " Server Error: ") + reason + " for url: " + url
  }

  /** What one attempt amounts to for the retry loop. */
  datatype Step = Success(number: Option<string>, sysId: Option<string>) | Transient | Failure(error: string)

  function Classify(o: PostOutcome, url: string): Step {
    match o
    case Failed(typeName, message) => Failure(typeName + ": " + message)
    case Responded(status, reason, body) =>
      if status in TransientStatuses then Transient
      else if 400 <= status < 600 then Failure("HTTPError: " + HttpErrorMessage(status, reason, url))
      else
        match body
        case NotJson(detail) => Failure("JSONDecodeError: " + detail)
        case Unreadable(typeName, message) => Failure(typeName + ": " + message)
        case Record(number, sysId) => Success(number, sysId)
  }

  /** The step each attempt amounts to, attempts numbered from 1. */
  function Steps(post: nat -> PostOutcome, url: string): nat -> Step {
    (n: nat) => Classify(post(n), url)
  }

  /**
   * The rest of the retry loop from `attempts` attempts made and error
   * `lastError` on: the step that succeeded (if any), the POSTs made, the
   * waits in tenths of a second and the last error when the loop ends.
   */
  datatype RetryRun = RetryRun(created: Option<Step>, posts: nat, sleeps: seq<nat>, lastError: Option<string>)

  function Retry(steps: nat -> Step, attempts: nat, lastError: Option<string>): (run: RetryRun)
    requires attempts <= 3
    ensures run.posts <= 3 - attempts
    ensures run.created.None? ==> run.posts == 3 - attempts
    ensures run.created.Some? ==> run.created.value.Success? && run.posts > 0
    ensures |run.sleeps| == if run.created.Some? then run.posts - 1 else run.posts
    decreases 3 - attempts
  {
    if attempts == 3 then RetryRun(None, 0, [], lastError)
    else
      var n := attempts + 1;
      match steps(n)
      case Success(number, sysId) => RetryRun(Some(Success(number, sysId)), 1, [], lastError)
      case Transient =>
        var rest := Retry(steps, n, lastError);
        rest.(posts := rest.posts + 1, sleeps := [15 * n] + rest.sleeps)
      case Failure(e) =>
        var rest := Retry(steps, n, Some(e));
        rest.(posts := rest.posts + 1, sleeps := [10 * n] + rest.sleeps)
  }

  /** `if value: payload[key] = value` */
  function WithOptional(payload: Dict<string>, key: string, value: Option<string>): Dict<string> {
    if Truthy(value) then Set(payload, key, value.value) else payload
  }

  /** The four fields every payload starts with, from the redacted texts and the tag. */
  function BasePayload(safeShort: string, safeDesc: string, idem: string, urgency: string, impact: string): Dict<string> {
    [("short_description", safeShort),
     ("description", safeDesc + "\n\n[idempotency:" + idem + "]"),
     ("urgency", urgency),
     ("impact", impact)]
  }

  /** The payload from the redacted texts and the tag, optional fields added when non-empty. */
  function PayloadOf(args: IncidentArgs, safeShort: string, safeDesc: string, idem: string): Dict<string> {
    var withCaller := WithOptional(BasePayload(safeShort, safeDesc, idem, args.urgency, args.impact), "caller_id", args.caller);
    var withGroup := WithOptional(withCaller, "assignment_group", args.assignmentGroup);
    WithOptional(withGroup, "category", args.category)
  }

  /** The body of every POST. */
  function Payload(args: IncidentArgs, sha256: string -> Digest): Dict<string> {
    var safeShort := Redacted(args.shortDescription);
    PayloadOf(args, safeShort, Redacted(args.description), IdempotencyTag(sha256, args.caller, safeShort))
  }

  /** The tool's result once the loop has ended. */
  function Submitted(instance: string, run: RetryRun, idem: string): IncidentResult {
    match run.created
    case Some(Success(number, sysId)) => Created(number, sysId, IncidentLink(instance, sysId), idem)
    case _ => Error(RetriesFailed + OptionText(run.lastError))
  }

  /** What `create_servicenow_incident` returns, as a function of its inputs and of the transport. */
  function Incident(credentials: Credentials, args: IncidentArgs, sha256: string -> Digest, post: nat -> PostOutcome): IncidentResult {
    if !HasCredentials(credentials) then Error(CredentialsMissing)
    else
      var instance := credentials.instance.value;
      Submitted(instance, Retry(Steps(post, IncidentEndpoint(instance)), 0, None),
        IdempotencyTag(sha256, args.caller, Redacted(args.shortDescription)))
  }

  /**
   * `create_servicenow_incident`. Besides the result it returns the body it
   * posted, the number of POSTs made and the waits it asked for.
   */
  method CreateServicenowIncident(
    credentials: Credentials, args: IncidentArgs, sha256: string -> Digest, post: nat -> PostOutcome)
    returns (result: IncidentResult, payload: Dict<string>, posts: nat, sleeps: seq<nat>)
    ensures !HasCredentials(credentials) ==>
      result == Error(CredentialsMissing) && payload == [] && posts == 0 && sleeps == []
    ensures HasCredentials(credentials) ==>
      var instance := credentials.instance.value;
      var run := Retry(Steps(post, IncidentEndpoint(instance)), 0, None);
      && payload == Payload(args, sha256)
      && posts == run.posts && sleeps == run.sleeps
      && result == Submitted(instance, run, IdempotencyTag(sha256, args.caller, Redacted(args.shortDescription)))
    ensures result == Incident(credentials, args, sha256, post)
  {
    if !(Truthy(credentials.instance) && Truthy(credentials.user) && Truthy(credentials.password)) {
      return Error(CredentialsMissing), [], 0, [];
    }
    var instance := credentials.instance.value;
    var url := IncidentEndpoint(instance);
    var idem;
    payload, idem := BuildPayload(args, sha256);
    var created, lastError;
    created, posts, sleeps, lastError := PostWithRetries(post, url);
    if created.Some? && created.value.Success? {
      var sysId := created.value.sysId;
      return Created(created.value.number, sysId, IncidentLink(instance, sysId), idem), payload, posts, sleeps;
    }
    return Error(RetriesFailed + OptionText(lastError)), payload, posts, sleeps;
  }

  /** Redaction, the tag and the payload, built key by key. */
  method BuildPayload(args: IncidentArgs, sha256: string -> Digest) returns (payload: Dict<string>, idem: string)
    ensures payload == Payload(args, sha256)
    ensures idem == IdempotencyTag(sha256, args.caller, Redacted(args.shortDescription))
  {
    var safeDesc := RedactSecrets(args.description);
    var safeShort := RedactSecrets(args.shortDescription);
    idem := IdempotencyTag(sha256, args.caller, safeShort);
    payload := [
      ("short_description", safeShort),
      ("description", safeDesc + "\n\n[idempotency:" + idem + "]"),
      ("urgency", args.urgency),
      ("impact", args.impact)];
    if Truthy(args.caller) {
      payload := Set(payload, "caller_id", args.caller.value);
    }
    if Truthy(args.assignmentGroup) {
      payload := Set(payload, "assignment_group", args.assignmentGroup.value);
    }
    if Truthy(args.category) {
      payload := Set(payload, "category", args.category.value);
    }
  }

  /** The `while attempts < 3` loop: the successful step, if any, the POSTs made, the waits and the last error. */
  method PostWithRetries(post: nat -> PostOutcome, url: string)
    returns (created: Option<Step>, attempts: nat, sleeps: seq<nat>, lastError: Option<string>)
    ensures Retry(Steps(post, url), 0, None) == RetryRun(created, attempts, sleeps, lastError)
  {
    ghost var steps := Steps(post, url);
    attempts := 0;
    lastError := None;
    sleeps := [];
    ghost var run := Retry(steps, 0, None);
    assert [] + run.sleeps == run.sleeps;
    while attempts < 3
      invariant attempts <= 3 && |sleeps| == attempts
      invariant Done(attempts, sleeps, Retry(steps, attempts, lastError)) == run
      decreases 3 - attempts
    {
      ghost var made := attempts;
      attempts := attempts + 1;
      var step := Attempt(post, url, attempts);
      if step.Transient? {
        TransientAdvance(steps, made, attempts, lastError, sleeps);
        var wait: nat := 15 * attempts;
        sleeps := sleeps + [wait];
        continue;
      } else if step.Failure? {
        FailureAdvance(steps, made, attempts, lastError, sleeps);
        var wait: nat := 10 * attempts;
        lastError := Some(step.error);
        sleeps := sleeps + [wait];
      } else {
        SuccessEnds(steps, made, attempts, lastError, sleeps);
        created := Some(step);
        return;
      }
    }
    created := None;
    assert sleeps + [] == sleeps;
  }

  /** The `try` block of attempt `n`: the POST, the transient-status check, `raise_for_status` and `r.json()`. */
  method Attempt(post: nat -> PostOutcome, url: string, n: nat) returns (step: Step)
    ensures step == Steps(post, url)(n)
    ensures step.Transient? <==> post(n).Responded? && post(n).status in TransientStatuses
    ensures step.Success? <==> (post(n).Responded? && post(n).status !in TransientStatuses
                                && !(400 <= post(n).status < 600) && post(n).body.Record?)
    ensures post(n).Failed? ==> step == Failure(post(n).typeName + ": " + post(n).message)
    ensures post(n).Responded? && post(n).status !in TransientStatuses && 400 <= post(n).status < 600 ==>
      step == Failure("HTTPError: " + HttpErrorMessage(post(n).status, post(n).reason, url))
    ensures post(n).Responded? && post(n).status !in TransientStatuses && !(400 <= post(n).status < 600) ==>
      match post(n).body
      case NotJson(detail) => step == Failure("JSONDecodeError: " + detail)
      case Unreadable(typeName, message) => step == Failure(typeName + ": " + message)
      case Record(number, sysId) => step == Success(number, sysId)
  {
    match post(n)
    case Failed(typeName, message) =>
      step := Failure(typeName + ": " + message);
    case Responded(status, reason, body) =>
      if status in TransientStatuses {
        step := Transient;
      } else if 400 <= status < 600 {
        step := Failure("HTTPError: " + HttpErrorMessage(status, reason, url));
      } else if body.NotJson? {
        step := Failure("JSONDecodeError: " + body.detail);
      } else if body.Unreadable? {
        step := Failure(body.typeName + ": " + body.message);
      } else {
        step := Success(body.number, body.sysId);
      }
  }

  /** A transient status on attempt `n` adds a wait of 1.5 * n seconds and leaves the last error alone. */
  lemma TransientAdvance(steps: nat -> Step, made: nat, n: nat, lastError: Option<string>, sleeps: seq<nat>)
    requires made < 3 && n == made + 1 && steps(n).Transient?
    ensures Done(made, sleeps, Retry(steps, made, lastError)) == Done(n, sleeps + [15 * n], Retry(steps, n, lastError))
  {
    DoneStep(made, sleeps, 15 * n, Retry(steps, n, lastError));
  }

  /** A failure on attempt `n` adds a wait of n seconds and becomes the last error. */
  lemma FailureAdvance(steps: nat -> Step, made: nat, n: nat, lastError: Option<string>, sleeps: seq<nat>)
    requires made < 3 && n == made + 1 && steps(n).Failure?
    ensures Done(made, sleeps, Retry(steps, made, lastError)) == Done(n, sleeps + [10 * n], Retry(steps, n, Some(steps(n).error)))
  {
    DoneStep(made, sleeps, 10 * n, Retry(steps, n, Some(steps(n).error)));
  }

  /** A success on attempt `n` ends the run. */
  lemma SuccessEnds(steps: nat -> Step, made: nat, n: nat, lastError: Option<string>, sleeps: seq<nat>)
    requires made < 3 && n == made + 1 && steps(n).Success?
    ensures Done(made, sleeps, Retry(steps, made, lastError)) == RetryRun(Some(steps(n)), n, sleeps, lastError)
  {
    assert sleeps + [] == sleeps;
  }

  /** The whole run, given the attempts made, the waits so far and the rest of the run. */
  function Done(attempts: nat, sleeps: seq<nat>, rest: RetryRun): RetryRun {
    RetryRun(rest.created, attempts + rest.posts, sleeps + rest.sleeps, rest.lastError)
  }

  lemma DoneStep(attempts: nat, sleeps: seq<nat>, wait: nat, rest: RetryRun)
    ensures Done(attempts, sleeps, rest.(posts := rest.posts + 1, sleeps := [wait] + rest.sleeps))
      == Done(attempts + 1, sleeps + [wait], rest)
  {
    assert sleeps + ([wait] + rest.sleeps) == (sleeps + [wait]) + rest.sleeps;
  }

  // ---------------------------------------------------------------------
  // The payload

  /** An optional field adds its key only when its value is non-empty, keeps the earlier entries and repeats no key. */
  lemma WithOptionalShape(payload: Dict<string>, key: string, value: Option<string>)
    requires UniqueKeys(payload) && key !in Keys(payload)
    ensures var r := WithOptional(payload, key, value);
      && UniqueKeys(r)
      && |payload| <= |r| && r[..|payload|] == payload
      && Keys(r) == Keys(payload) + (if Truthy(value) then {key} else {})
  {
    var v := if value.Some? then value.value else "";
    SetShape(payload, key, v);
    SetUnique(payload, key, v);
    assert (payload + [(key, v)])[..|payload|] == payload;
  }

  /** After an optional field, its key holds the value exactly when the value is non-empty; other keys are unchanged. */
  lemma WithOptionalGet(payload: Dict<string>, key: string, value: Option<string>, k: string)
    ensures Get(WithOptional(payload, key, value), k)
      == if k == key && Truthy(value) then value else if k == key && key !in Keys(payload) then None else Get(payload, k)
  {
    if Truthy(value) {
      SetGet(payload, key, value.value, k);
    }
  }

  lemma BasePayloadKeys(safeShort: string, safeDesc: string, idem: string, urgency: string, impact: string)
    ensures UniqueKeys(BasePayload(safeShort, safeDesc, idem, urgency, impact))
    ensures Keys(BasePayload(safeShort, safeDesc, idem, urgency, impact)) == {"short_description", "description", "urgency", "impact"}
  {
    var base := BasePayload(safeShort, safeDesc, idem, urgency, impact);
    assert base[0].0 == "short_description" && base[1].0 == "description";
    assert base[2].0 == "urgency" && base[3].0 == "impact";
  }

  /** The seven payload keys differ in length, hence from one another. */
  lemma KeyLengths()
    ensures |"short_description"| == 17 && |"description"| == 11 && |"urgency"| == 7 && |"impact"| == 6
    ensures |"caller_id"| == 9 && |"assignment_group"| == 16 && |"category"| == 8
  {
  }

  lemma PayloadOfShape(args: IncidentArgs, safeShort: string, safeDesc: string, idem: string)
    ensures var payload := PayloadOf(args, safeShort, safeDesc, idem);
      && UniqueKeys(payload)
      && |payload| >= 4
      && payload[..4] == BasePayload(safeShort, safeDesc, idem, args.urgency, args.impact)
      && Keys(payload) <= {"short_description", "description", "urgency", "impact", "caller_id", "assignment_group", "category"}
  {
    KeyLengths();
    var base := BasePayload(safeShort, safeDesc, idem, args.urgency, args.impact);
    BasePayloadKeys(safeShort, safeDesc, idem, args.urgency, args.impact);
    var b: set<string> := {"short_description", "description", "urgency", "impact"};
    assert base[..4] == base;
    var p1 := WithOptional(base, "caller_id", args.caller);
    OptionalStage(base, "caller_id", args.caller, base, b);
    var p2 := WithOptional(p1, "assignment_group", args.assignmentGroup);
    OptionalStage(p1, "assignment_group", args.assignmentGroup, base, b + {"caller_id"});
    OptionalStage(p2, "category", args.category, base, b + {"caller_id"} + {"assignment_group"});
  }

  /** One optional field added to a payload that starts with `base` and uses only keys in `used`. */
  lemma OptionalStage(payload: Dict<string>, key: string, value: Option<string>, base: Dict<string>, used: set<string>)
    requires UniqueKeys(payload) && |payload| >= 4 && payload[..4] == base
    requires Keys(payload) <= used && key !in used
    ensures var r := WithOptional(payload, key, value);
      && UniqueKeys(r) && |r| >= 4 && r[..4] == base && Keys(r) <= used + {key}
  {
    WithOptionalShape(payload, key, value);
    var r := WithOptional(payload, key, value);
    assert r[..|payload|][..4] == r[..4];
  }

  lemma PayloadOfGets(args: IncidentArgs, safeShort: string, safeDesc: string, idem: string)
    ensures var payload := PayloadOf(args, safeShort, safeDesc, idem);
      && Get(payload, "caller_id") == (if Truthy(args.caller) then args.caller else None)
      && Get(payload, "assignment_group") == (if Truthy(args.assignmentGroup) then args.assignmentGroup else None)
      && Get(payload, "category") == (if Truthy(args.category) then args.category else None)
  {
    KeyLengths();
    BaseLacks(safeShort, safeDesc, idem, args.urgency, args.impact, "caller_id");
    BaseLacks(safeShort, safeDesc, idem, args.urgency, args.impact, "assignment_group");
    BaseLacks(safeShort, safeDesc, idem, args.urgency, args.impact, "category");
    ThreeOptionalGets(BasePayload(safeShort, safeDesc, idem, args.urgency, args.impact),
      "caller_id", args.caller, "assignment_group", args.assignmentGroup, "category", args.category);
  }

  /** A key of none of the four base lengths is not in the base payload. */
  lemma BaseLacks(safeShort: string, safeDesc: string, idem: string, urgency: string, impact: string, k: string)
    requires |k| != 17 && |k| != 11 && |k| != 7 && |k| != 6
    ensures Get(BasePayload(safeShort, safeDesc, idem, urgency, impact), k) == None
  {
    BaseKeysAt(safeShort, safeDesc, idem, urgency, impact);
    KeyLengths();
    FourAbsent(BasePayload(safeShort, safeDesc, idem, urgency, impact), k);
  }

  lemma BaseKeysAt(safeShort: string, safeDesc: string, idem: string, urgency: string, impact: string)
    ensures var base := BasePayload(safeShort, safeDesc, idem, urgency, impact);
      && |base| == 4
      && base[0].0 == "short_description" && base[1].0 == "description"
      && base[2].0 == "urgency" && base[3].0 == "impact"
  {
  }

  /** A key none of four entries holds, judged by length, is absent. */
  lemma FourAbsent(d: Dict<string>, k: string)
    requires |d| == 4
    requires |d[0].0| != |k| && |d[1].0| != |k| && |d[2].0| != |k| && |d[3].0| != |k|
    ensures Get(d, k) == None
  {
    if k in Keys(d) {
      var i :| 0 <= i < |d| && d[i].0 == k;
      assert false;
    }
  }

  /** Three distinct optional keys absent from `base` each end up holding their own value, or nothing. */
  lemma ThreeOptionalGets(base: Dict<string>, k1: string, v1: Option<string>, k2: string, v2: Option<string>, k3: string, v3: Option<string>)
    requires Get(base, k1) == None && Get(base, k2) == None && Get(base, k3) == None
    requires k1 != k2 && k1 != k3 && k2 != k3
    ensures var r := WithOptional(WithOptional(WithOptional(base, k1, v1), k2, v2), k3, v3);
      && Get(r, k1) == (if Truthy(v1) then v1 else None)
      && Get(r, k2) == (if Truthy(v2) then v2 else None)
      && Get(r, k3) == (if Truthy(v3) then v3 else None)
  {
    var p1 := WithOptional(base, k1, v1);
    var p2 := WithOptional(p1, k2, v2);
    WithOptionalGet(base, k1, v1, k1);
    WithOptionalGet(base, k1, v1, k2);
    WithOptionalGet(base, k1, v1, k3);
    WithOptionalGet(p1, k2, v2, k1);
    WithOptionalGet(p1, k2, v2, k2);
    WithOptionalGet(p1, k2, v2, k3);
    WithOptionalGet(p2, k3, v3, k1);
    WithOptionalGet(p2, k3, v3, k2);
    WithOptionalGet(p2, k3, v3, k3);
  }

  /**
   * The payload starts with the redacted summary, the redacted description
   * with the tag of the redacted summary appended, urgency and impact as
   * given; each optional field is present exactly when its argument is
   * non-empty; no key is repeated.
   */
  lemma PayloadFields(args: IncidentArgs, sha256: string -> Digest)
    ensures var payload := Payload(args, sha256);
      var safeShort := Redacted(args.shortDescription);
      var idem := IdempotencyTag(sha256, args.caller, safeShort);
      && UniqueKeys(payload)
      && |payload| >= 4
      && payload[..4] == [
           ("short_description", safeShort),
           ("description", Redacted(args.description) + "\n\n[idempotency:" + idem + "]"),
           ("urgency", args.urgency),
           ("impact", args.impact)]
      && Get(payload, "caller_id") == (if Truthy(args.caller) then args.caller else None)
      && Get(payload, "assignment_group") == (if Truthy(args.assignmentGroup) then args.assignmentGroup else None)
      && Get(payload, "category") == (if Truthy(args.category) then args.category else None)
  {
    var safeShort := Redacted(args.shortDescription);
    var idem := IdempotencyTag(sha256, args.caller, safeShort);
    PayloadOfShape(args, safeShort, Redacted(args.description), idem);
    PayloadOfGets(args, safeShort, Redacted(args.description), idem);
  }

  // ---------------------------------------------------------------------
  // The retry loop

  /** The first attempt that succeeds ends the loop; its record is the result. */
  lemma {:induction false} FirstSuccessWins(steps: nat -> Step, attempts: nat, lastError: Option<string>, k: nat)
    requires attempts < k <= 3 && steps(k).Success?
    requires forall j :: attempts < j < k ==> !steps(j).Success?
    ensures Retry(steps, attempts, lastError).created == Some(steps(k))
    ensures Retry(steps, attempts, lastError).posts == k - attempts
    decreases 3 - attempts
  {
    if attempts + 1 < k {
      var n := attempts + 1;
      match steps(n)
      case Transient => FirstSuccessWins(steps, n, lastError, k);
      case Failure(e) => FirstSuccessWins(steps, n, Some(e), k);
    }
  }

  /** Without a successful attempt all three POSTs are made and nothing is created. */
  lemma {:induction false} NoSuccessExhausts(steps: nat -> Step, attempts: nat, lastError: Option<string>)
    requires attempts <= 3
    requires forall j :: attempts < j <= 3 ==> !steps(j).Success?
    ensures Retry(steps, attempts, lastError).created.None?
    decreases 3 - attempts
  {
    if attempts < 3 {
      var n := attempts + 1;
      match steps(n)
      case Transient => NoSuccessExhausts(steps, n, lastError);
      case Failure(e) => NoSuccessExhausts(steps, n, Some(e));
    }
  }

  /** Transient statuses leave the last error untouched. */
  lemma {:induction false} TransientKeepsError(steps: nat -> Step, attempts: nat, lastError: Option<string>)
    requires attempts <= 3
    requires forall j :: attempts < j <= 3 ==> steps(j).Transient?
    ensures Retry(steps, attempts, lastError).lastError == lastError
    decreases 3 - attempts
  {
    if attempts < 3 {
      TransientKeepsError(steps, attempts + 1, lastError);
    }
  }

  /** When the loop runs out, the error of the last failing attempt is the one reported. */
  lemma {:induction false} LastFailureReported(steps: nat -> Step, attempts: nat, lastError: Option<string>, k: nat)
    requires attempts < k <= 3 && steps(k).Failure?
    requires forall j :: attempts < j < k ==> !steps(j).Success?
    requires forall j :: k < j <= 3 ==> steps(j).Transient?
    ensures Retry(steps, attempts, lastError).lastError == Some(steps(k).error)
    decreases 3 - attempts
  {
    var n := attempts + 1;
    if n < k {
      match steps(n)
      case Transient => LastFailureReported(steps, n, lastError, k);
      case Failure(e) => LastFailureReported(steps, n, Some(e), k);
    } else {
      TransientKeepsError(steps, n, Some(steps(k).error));
    }
  }

  /** The wait after attempt `k` is 1.5·k seconds after a transient status and 1.0·k seconds after an error. */
  lemma {:induction false} RetrySleeps(steps: nat -> Step, attempts: nat, lastError: Option<string>, k: nat)
    requires attempts < k <= 3 && k - attempts - 1 < |Retry(steps, attempts, lastError).sleeps|
    ensures Retry(steps, attempts, lastError).sleeps[k - attempts - 1] == (if steps(k).Transient? then 15 * k else 10 * k)
    decreases 3 - attempts
  {
    var n := attempts + 1;
    var next := if steps(n).Failure? then Some(steps(n).error) else lastError;
    if k == n {
      RetryFirstWait(steps, attempts, lastError);
    } else {
      RetrySleepShift(steps, attempts, lastError, k - n);
      RetrySleeps(steps, n, next, k);
    }
  }

  /** The first wait follows the first attempt. */
  lemma RetryFirstWait(steps: nat -> Step, attempts: nat, lastError: Option<string>)
    requires attempts <= 3 && 0 < |Retry(steps, attempts, lastError).sleeps|
    ensures var n := attempts + 1;
      && n <= 3
      && Retry(steps, attempts, lastError).sleeps[0] == (if steps(n).Transient? then 15 * n else 10 * n)
  {
    RetryFirstSleep(steps, attempts, lastError);
  }

  /** Past the first wait, the waits are those of the rest of the run. */
  lemma RetrySleepShift(steps: nat -> Step, attempts: nat, lastError: Option<string>, i: nat)
    requires attempts <= 3 && 0 < i < |Retry(steps, attempts, lastError).sleeps|
    ensures var n := attempts + 1;
      var next := if steps(n).Failure? then Some(steps(n).error) else lastError;
      && n <= 3 && i - 1 < |Retry(steps, n, next).sleeps|
      && Retry(steps, attempts, lastError).sleeps[i] == Retry(steps, n, next).sleeps[i - 1]
  {
    RetryFirstSleep(steps, attempts, lastError);
  }

  /** The first wait of a run that does not succeed at once, and the rest of the run after it. */
  lemma RetryFirstSleep(steps: nat -> Step, attempts: nat, lastError: Option<string>)
    requires attempts <= 3 && |Retry(steps, attempts, lastError).sleeps| > 0
    ensures var n := attempts + 1;
      var next := if steps(n).Failure? then Some(steps(n).error) else lastError;
      && n <= 3 && !steps(n).Success?
      && Retry(steps, attempts, lastError).sleeps
         == [if steps(n).Transient? then 15 * n else 10 * n] + Retry(steps, n, next).sleeps
  {
  }

  /** Two transient failures and then a success: three POSTs, 4.5 seconds of waiting. */
  lemma TwoTransientsThenSuccess(steps: nat -> Step)
    requires steps(1).Transient? && steps(2).Transient? && steps(3).Success?
    ensures var run := Retry(steps, 0, None);
      run.created == Some(steps(3)) && run.posts == 3 && run.sleeps == [15, 30]
  {
    FirstSuccessWins(steps, 0, None, 3);
  }

  /** Three transient statuses: three POSTs, 9 seconds of waiting, and the error detail is `None`. */
  lemma AllTransient(steps: nat -> Step)
    requires forall j :: 1 <= j <= 3 ==> steps(j).Transient?
    ensures Retry(steps, 0, None) == RetryRun(None, 3, [15, 30, 45], None)
  {
    NoSuccessExhausts(steps, 0, None);
    TransientKeepsError(steps, 0, None);
  }

  /** What the tool returns, in the terms of the lemmas above. */
  lemma SubmittedSpec(instance: string, steps: nat -> Step, idem: string)
    ensures var run := Retry(steps, 0, None);
      var r := Submitted(instance, run, idem);
      && (r.Created? <==> exists k :: 1 <= k <= 3 && steps(k).Success?)
      && (r.Created? ==> r.idempotency == idem && r.url == IncidentLink(instance, r.sysId))
      && (r.Error? ==> r.error == RetriesFailed + OptionText(run.lastError))
  {
    if exists k :: 1 <= k <= 3 && steps(k).Success? {
      if steps(1).Success? {
        FirstSuccessWins(steps, 0, None, 1);
      } else if steps(2).Success? {
        FirstSuccessWins(steps, 0, None, 2);
      } else {
        FirstSuccessWins(steps, 0, None, 3);
      }
    } else {
      NoSuccessExhausts(steps, 0, None);
    }
  }
}
