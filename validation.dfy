/**
 * The request schemas of the service as validators over parsed JSON bodies.
 * Each schema field is checked on its own and its issues are collected the way
 * a flattened Zod error reports them: issues of a nested object (settings,
 * metadata) are listed under the name of the top-level field, and a body that
 * is not an object at all gets a form-level issue and no field errors.
 */
module Validation {
  import opened Wrappers
  import opened Types

  /** What a field was expected to be, for a type mismatch. */
  datatype Expected = ExpectString | ExpectNumber | ExpectObject | ExpectDuration

  /** One validation issue; the English text Zod renders for each is not modelled. */
  datatype Issue =
    | Required
    | InvalidType(expected: Expected, received: Kind)
    | StringTooShort(minimum: nat)
    | StringTooLong(maximum: nat)
    | StringNotExactLength(exact: nat)
    | NotAnInteger
    | NumberTooSmall(bound: int)
    | InvalidEnumValue(value: string)
    | InvalidUuid

  /** The flattened error: issues about the whole body, and issues per top-level field. */
  datatype FlatErrors = FlatErrors(formErrors: seq<Issue>, fieldErrors: map<string, seq<Issue>>)

  // ---------------------------------------------------------------------------
  // What a valid field is (reference definitions)
  // ---------------------------------------------------------------------------

  predicate StringWithin(v: Option<Json>, minLen: nat, maxLen: Option<nat>) {
    v.Some? && v.value.JString? && minLen <= |v.value.s| &&
    (maxLen.None? || |v.value.s| <= maxLen.value)
  }

  predicate StringOfLength(v: Option<Json>, n: nat) {
    v.Some? && v.value.JString? && |v.value.s| == n
  }

  predicate IsHexDigit(c: char) {
    ('0' <= c <= '9') || ('a' <= c <= 'f') || ('A' <= c <= 'F')
  }

  /** The 8-4-4-4-12 hexadecimal UUID form, case-insensitive. */
  predicate IsUuid(s: string) {
    |s| == 36 &&
    forall i :: 0 <= i < 36 ==>
      if i == 8 || i == 13 || i == 18 || i == 23 then s[i] == '-' else IsHexDigit(s[i])
  }

  predicate UuidString(v: Option<Json>) {
    v.Some? && v.value.JString? && IsUuid(v.value.s)
  }

  predicate OptionalString(v: Option<Json>) {
    v.None? || v.value.JString?
  }

  predicate NumberAtLeast(v: Option<Json>, k: int) {
    v.Some? && v.value.JNumber? && AtLeast(v.value.n, k)
  }

  predicate IntegerAtLeast(v: Option<Json>, k: int) {
    v.Some? && v.value.JNumber? && IsInteger(v.value.n) && AtLeast(v.value.n, k)
  }

  predicate IsDurationToken(s: string) {
    s == "1h" || s == "24h" || s == "3d" || s == "7d"
  }

  /** `expiresIn` is absent or exactly one of the four tokens. */
  predicate OptionalDuration(v: Option<Json>) {
    v.None? || (v.value.JString? && IsDurationToken(v.value.s))
  }

  /** ChallengeSettingsSchema. */
  predicate SettingsValid(v: Option<Json>) {
    v.Some? && v.value.JObject? &&
    NumberAtLeast(Field(v.value, "precision"), 0) &&
    IntegerAtLeast(Field(v.value, "maxLife"), 1) &&
    StringWithin(Field(v.value, "gameType"), 1, None)
  }

  /** AttemptMetadataSchema. */
  predicate MetadataValid(v: Option<Json>) {
    v.Some? && v.value.JObject? &&
    IntegerAtLeast(Field(v.value, "rounds"), 1) &&
    StringWithin(Field(v.value, "mode"), 1, None) &&
    StringWithin(Field(v.value, "gameType"), 1, None) &&
    NumberAtLeast(Field(v.value, "precision"), 0)
  }

  /** CreateChallengePayloadSchema, field by field. */
  predicate CreateValid(body: Json) {
    body.JObject? &&
    StringWithin(Field(body, "name"), 1, Some(100)) &&
    OptionalDuration(Field(body, "expiresIn")) &&
    StringWithin(Field(body, "gameMode"), 1, None) &&
    SettingsValid(Field(body, "settings")) &&
    StringWithin(Field(body, "deviceId"), 1, None) &&
    StringWithin(Field(body, "displayName"), 1, Some(50)) &&
    OptionalString(Field(body, "userId"))
  }

  /** JoinChallengePayloadSchema; the access code's alphabet is not checked. */
  predicate JoinValid(body: Json) {
    body.JObject? &&
    StringOfLength(Field(body, "accessCode"), 6) &&
    StringWithin(Field(body, "deviceId"), 1, None) &&
    StringWithin(Field(body, "displayName"), 1, Some(50)) &&
    OptionalString(Field(body, "userId"))
  }

  /** SubmitAttemptPayloadSchema. */
  predicate AttemptValid(body: Json) {
    body.JObject? &&
    UuidString(Field(body, "participantId")) &&
    IntegerAtLeast(Field(body, "winningStreak"), 0) &&
    OptionalString(Field(body, "sessionId")) &&
    MetadataValid(Field(body, "metadata")) &&
    StringWithin(Field(body, "deviceId"), 1, None)
  }

  // ---------------------------------------------------------------------------
  // The issues each field check reports
  // ---------------------------------------------------------------------------

  /** z.string().min(lo) with an optional .max(hi); the checks run in that order. */
  function StringIssues(v: Option<Json>, minLen: nat, maxLen: Option<nat>): (r: seq<Issue>)
    ensures r == [] <==> StringWithin(v, minLen, maxLen)
    ensures v.None? ==> r == [Required]
  {
    match v
    case None => [Required]
    case Some(JString(s)) =>
      (if |s| < minLen then [StringTooShort(minLen)] else []) +
      (if maxLen.Some? && |s| > maxLen.value then [StringTooLong(maxLen.value)] else [])
    case Some(_) => [InvalidType(ExpectString, KindOf(v))]
  }

  /** z.string().length(n). */
  function ExactLengthIssues(v: Option<Json>, n: nat): (r: seq<Issue>)
    ensures r == [] <==> StringOfLength(v, n)
    ensures v.None? ==> r == [Required]
  {
    match v
    case None => [Required]
    case Some(JString(s)) => if |s| != n then [StringNotExactLength(n)] else []
    case Some(_) => [InvalidType(ExpectString, KindOf(v))]
  }

  /** z.string().uuid(). */
  function UuidIssues(v: Option<Json>): (r: seq<Issue>)
    ensures r == [] <==> UuidString(v)
    ensures v.None? ==> r == [Required]
  {
    match v
    case None => [Required]
    case Some(JString(s)) => if IsUuid(s) then [] else [InvalidUuid]
    case Some(_) => [InvalidType(ExpectString, KindOf(v))]
  }

  /** z.string().optional(). */
  function OptionalStringIssues(v: Option<Json>): (r: seq<Issue>)
    ensures r == [] <==> OptionalString(v)
  {
    match v
    case None => []
    case Some(JString(_)) => []
    case Some(_) => [InvalidType(ExpectString, KindOf(v))]
  }

  /** z.number() with an optional .int() before .min(k). */
  function NumberIssues(v: Option<Json>, integer: bool, minimum: int): (r: seq<Issue>)
    ensures integer ==> (r == [] <==> IntegerAtLeast(v, minimum))
    ensures !integer ==> (r == [] <==> NumberAtLeast(v, minimum))
    ensures v.None? ==> r == [Required]
    ensures v.Some? && v.value.JNumber? && !AtLeast(v.value.n, minimum) ==> NumberTooSmall(minimum) in r
  {
    match v
    case None => [Required]
    case Some(JNumber(n)) =>
      (if integer && !IsInteger(n) then [NotAnInteger] else []) +
      (if !AtLeast(n, minimum) then [NumberTooSmall(minimum)] else [])
    case Some(_) => [InvalidType(ExpectNumber, KindOf(v))]
  }

  /** z.enum(["1h", "24h", "3d", "7d"]).optional(). */
  function DurationIssues(v: Option<Json>): (r: seq<Issue>)
    ensures r == [] <==> OptionalDuration(v)
  {
    match v
    case None => []
    case Some(JString(s)) => if IsDurationToken(s) then [] else [InvalidEnumValue(s)]
    case Some(_) => [InvalidType(ExpectDuration, KindOf(v))]
  }

  /** The issues of the settings object, in the order of its fields. */
  function SettingsIssues(v: Option<Json>): (r: seq<Issue>)
    ensures r == [] <==> SettingsValid(v)
    ensures v.None? ==> r == [Required]
    ensures v.Some? && v.value.JObject? && !NumberAtLeast(Field(v.value, "precision"), 0) ==> r != []
  {
    match v
    case None => [Required]
    case Some(JObject(_)) =>
      NumberIssues(Field(v.value, "precision"), false, 0) +
      NumberIssues(Field(v.value, "maxLife"), true, 1) +
      StringIssues(Field(v.value, "gameType"), 1, None)
    case Some(_) => [InvalidType(ExpectObject, KindOf(v))]
  }

  /** The issues of the attempt metadata object, in the order of its fields. */
  function MetadataIssues(v: Option<Json>): (r: seq<Issue>)
    ensures r == [] <==> MetadataValid(v)
    ensures v.None? ==> r == [Required]
  {
    match v
    case None => [Required]
    case Some(JObject(_)) =>
      NumberIssues(Field(v.value, "rounds"), true, 1) +
      StringIssues(Field(v.value, "mode"), 1, None) +
      StringIssues(Field(v.value, "gameType"), 1, None) +
      NumberIssues(Field(v.value, "precision"), false, 0)
    case Some(_) => [InvalidType(ExpectObject, KindOf(v))]
  }

  /** The flattened field errors: every field that has at least one issue, with its issues. */
  function FieldErrors(issues: map<string, seq<Issue>>): (r: map<string, seq<Issue>>)
    ensures forall k :: k in r <==> k in issues && issues[k] != []
    ensures forall k :: k in r ==> r[k] == issues[k]
  {
    map k | k in issues && issues[k] != [] :: issues[k]
  }

  /** The form-level error of a body that is not a JSON object. */
  function NotAnObject(body: Json): FlatErrors {
    FlatErrors([InvalidType(ExpectObject, KindOf(Some(body)))], map[])
  }

  // ---------------------------------------------------------------------------
  // Converting checked values
  // ---------------------------------------------------------------------------

  function StringValue(v: Option<Json>): string {
    if v.Some? && v.value.JString? then v.value.s else ""
  }

  function OptionalStringValue(v: Option<Json>): (r: Option<string>)
    ensures OptionalString(v) ==> (r.None? <==> v.None?)
    ensures r.Some? ==> v == Some(JString(r.value))
  {
    if v.Some? && v.value.JString? then Some(v.value.s) else None
  }

  function NumberValue(v: Option<Json>): Number {
    if v.Some? && v.value.JNumber? then v.value.n else Number(0, 0)
  }

  function IntegerValue(v: Option<Json>): int {
    if v.Some? && v.value.JNumber? && IsInteger(v.value.n) then IntValue(v.value.n) else 0
  }

  function DurationValue(v: Option<Json>): (r: Option<Duration>)
    ensures r.Some? <==> v.Some? && v.value.JString? && IsDurationToken(v.value.s)
    ensures r == Some(OneHour) <==> v == Some(JString("1h"))
    ensures r == Some(OneDay) <==> v == Some(JString("24h"))
    ensures r == Some(ThreeDays) <==> v == Some(JString("3d"))
    ensures r == Some(SevenDays) <==> v == Some(JString("7d"))
  {
    match v
    case Some(JString(s)) =>
      if s == "1h" then Some(OneHour)
      else if s == "24h" then Some(OneDay)
      else if s == "3d" then Some(ThreeDays)
      else if s == "7d" then Some(SevenDays)
      else None
    case _ => None
  }

  /** The settings object's own values: the precision number, the integer maxLife, the game type. */
  function SettingsValue(v: Option<Json>): (r: Settings)
    requires SettingsValid(v)
    ensures Field(v.value, "precision") == Some(JNumber(r.precision))
    ensures AtLeast(Field(v.value, "maxLife").value.n, r.maxLife)
    ensures !AtLeast(Field(v.value, "maxLife").value.n, r.maxLife + 1)
    ensures Field(v.value, "gameType") == Some(JString(r.gameType))
    ensures AtLeast(r.precision, 0) && r.maxLife >= 1 && r.gameType != []
  {
    Settings(
      NumberValue(Field(v.value, "precision")),
      IntegerValue(Field(v.value, "maxLife")),
      StringValue(Field(v.value, "gameType")))
  }

  /** The metadata object's own values: the integer rounds, the mode, the game type, the precision number. */
  function MetadataValue(v: Option<Json>): (r: Metadata)
    requires MetadataValid(v)
    ensures AtLeast(Field(v.value, "rounds").value.n, r.rounds)
    ensures !AtLeast(Field(v.value, "rounds").value.n, r.rounds + 1)
    ensures Field(v.value, "mode") == Some(JString(r.mode))
    ensures Field(v.value, "gameType") == Some(JString(r.gameType))
    ensures Field(v.value, "precision") == Some(JNumber(r.precision))
    ensures r.rounds >= 1 && r.mode != [] && r.gameType != [] && AtLeast(r.precision, 0)
  {
    Metadata(
      IntegerValue(Field(v.value, "rounds")),
      StringValue(Field(v.value, "mode")),
      StringValue(Field(v.value, "gameType")),
      NumberValue(Field(v.value, "precision")))
  }

  // ---------------------------------------------------------------------------
  // The three request schemas
  // ---------------------------------------------------------------------------

  /** The issues of every field of a create payload, by field name. */
  function CreateIssues(body: Json): map<string, seq<Issue>> {
    map[
      "name" := StringIssues(Field(body, "name"), 1, Some(100)),
      "expiresIn" := DurationIssues(Field(body, "expiresIn")),
      "gameMode" := StringIssues(Field(body, "gameMode"), 1, None),
      "settings" := SettingsIssues(Field(body, "settings")),
      "deviceId" := StringIssues(Field(body, "deviceId"), 1, None),
      "displayName" := StringIssues(Field(body, "displayName"), 1, Some(50)),
      "userId" := OptionalStringIssues(Field(body, "userId"))]
  }

  lemma CreateIssuesAt(body: Json)
    ensures var m := CreateIssues(body);
      && "name" in m && m["name"] == StringIssues(Field(body, "name"), 1, Some(100))
      && "expiresIn" in m && m["expiresIn"] == DurationIssues(Field(body, "expiresIn"))
      && "gameMode" in m && m["gameMode"] == StringIssues(Field(body, "gameMode"), 1, None)
      && "settings" in m && m["settings"] == SettingsIssues(Field(body, "settings"))
      && "deviceId" in m && m["deviceId"] == StringIssues(Field(body, "deviceId"), 1, None)
      && "displayName" in m && m["displayName"] == StringIssues(Field(body, "displayName"), 1, Some(50))
      && "userId" in m && m["userId"] == OptionalStringIssues(Field(body, "userId"))
  {
  }

  /** CreateChallengePayloadSchema: the payload, or the flattened issues of every failing field. */
  function ValidateCreate(body: Json): (r: Result<CreatePayload, FlatErrors>)
    ensures r.Ok? <==> CreateValid(body)
    ensures r.Ok? ==>
      && r.value.name == Field(body, "name").value.s
      && 1 <= |r.value.name| <= 100
      && 1 <= |r.value.displayName| <= 50
      && r.value.deviceId != [] && r.value.gameMode != [] && r.value.settings.gameType != []
      && r.value.expiresIn == DurationValue(Field(body, "expiresIn"))
      && r.value.gameMode == Field(body, "gameMode").value.s
      && r.value.deviceId == Field(body, "deviceId").value.s
      && r.value.displayName == Field(body, "displayName").value.s
      && r.value.userId == OptionalStringValue(Field(body, "userId"))
      && AtLeast(r.value.settings.precision, 0) && r.value.settings.maxLife >= 1
      && r.value.settings == SettingsValue(Field(body, "settings"))
    ensures r.Err? && !body.JObject? ==> r.error == NotAnObject(body)
    ensures r.Err? && body.JObject? ==>
      && r.error.formErrors == []
      && ("name" in r.error.fieldErrors <==> !StringWithin(Field(body, "name"), 1, Some(100)))
      && ("expiresIn" in r.error.fieldErrors <==> !OptionalDuration(Field(body, "expiresIn")))
      && ("gameMode" in r.error.fieldErrors <==> !StringWithin(Field(body, "gameMode"), 1, None))
      && ("settings" in r.error.fieldErrors <==> !SettingsValid(Field(body, "settings")))
      && ("deviceId" in r.error.fieldErrors <==> !StringWithin(Field(body, "deviceId"), 1, None))
      && ("displayName" in r.error.fieldErrors <==> !StringWithin(Field(body, "displayName"), 1, Some(50)))
      && ("userId" in r.error.fieldErrors <==> !OptionalString(Field(body, "userId")))
  {
    if !body.JObject? then Err(NotAnObject(body))
    else
      var errors := FieldErrors(CreateIssues(body));
      CreateIssuesAt(body);
      if errors != map[] then Err(FlatErrors([], errors))
      else
        assert "name" !in errors && "expiresIn" !in errors && "gameMode" !in errors && "settings" !in errors
          && "deviceId" !in errors && "displayName" !in errors && "userId" !in errors;
        Ok(CreatePayload(
          StringValue(Field(body, "name")), DurationValue(Field(body, "expiresIn")),
          StringValue(Field(body, "gameMode")), SettingsValue(Field(body, "settings")),
          StringValue(Field(body, "deviceId")), StringValue(Field(body, "displayName")),
          OptionalStringValue(Field(body, "userId"))))
  }

  /** The issues of every field of a join payload, by field name. */
  function JoinIssues(body: Json): map<string, seq<Issue>> {
    map[
      "accessCode" := ExactLengthIssues(Field(body, "accessCode"), 6),
      "deviceId" := StringIssues(Field(body, "deviceId"), 1, None),
      "displayName" := StringIssues(Field(body, "displayName"), 1, Some(50)),
      "userId" := OptionalStringIssues(Field(body, "userId"))]
  }

  lemma JoinIssuesAt(body: Json)
    ensures var m := JoinIssues(body);
      && "accessCode" in m && m["accessCode"] == ExactLengthIssues(Field(body, "accessCode"), 6)
      && "deviceId" in m && m["deviceId"] == StringIssues(Field(body, "deviceId"), 1, None)
      && "displayName" in m && m["displayName"] == StringIssues(Field(body, "displayName"), 1, Some(50))
      && "userId" in m && m["userId"] == OptionalStringIssues(Field(body, "userId"))
  {
  }

  /** JoinChallengePayloadSchema. */
  function ValidateJoin(body: Json): (r: Result<JoinPayload, FlatErrors>)
    ensures r.Ok? <==> JoinValid(body)
    ensures r.Ok? ==>
      && r.value.accessCode == Field(body, "accessCode").value.s
      && |r.value.accessCode| == 6
      && r.value.deviceId == Field(body, "deviceId").value.s
      && r.value.deviceId != []
      && r.value.displayName == Field(body, "displayName").value.s
      && 1 <= |r.value.displayName| <= 50
      && r.value.userId == OptionalStringValue(Field(body, "userId"))
    ensures r.Err? && !body.JObject? ==> r.error == NotAnObject(body)
    ensures r.Err? && body.JObject? ==>
      && r.error.formErrors == []
      && ("accessCode" in r.error.fieldErrors <==> !StringOfLength(Field(body, "accessCode"), 6))
      && ("deviceId" in r.error.fieldErrors <==> !StringWithin(Field(body, "deviceId"), 1, None))
      && ("displayName" in r.error.fieldErrors <==> !StringWithin(Field(body, "displayName"), 1, Some(50)))
      && ("userId" in r.error.fieldErrors <==> !OptionalString(Field(body, "userId")))
  {
    if !body.JObject? then Err(NotAnObject(body))
    else
      var errors := FieldErrors(JoinIssues(body));
      JoinIssuesAt(body);
      if errors != map[] then Err(FlatErrors([], errors))
      else
        assert "accessCode" !in errors && "deviceId" !in errors && "displayName" !in errors && "userId" !in errors;
        Ok(JoinPayload(
          StringValue(Field(body, "accessCode")), StringValue(Field(body, "deviceId")),
          StringValue(Field(body, "displayName")), OptionalStringValue(Field(body, "userId"))))
  }

  /** The issues of every field of an attempt payload, by field name. */
  function AttemptIssues(body: Json): map<string, seq<Issue>> {
    map[
      "participantId" := UuidIssues(Field(body, "participantId")),
      "winningStreak" := NumberIssues(Field(body, "winningStreak"), true, 0),
      "sessionId" := OptionalStringIssues(Field(body, "sessionId")),
      "metadata" := MetadataIssues(Field(body, "metadata")),
      "deviceId" := StringIssues(Field(body, "deviceId"), 1, None)]
  }

  lemma AttemptIssuesAt(body: Json)
    ensures var m := AttemptIssues(body);
      && "participantId" in m && m["participantId"] == UuidIssues(Field(body, "participantId"))
      && "winningStreak" in m && m["winningStreak"] == NumberIssues(Field(body, "winningStreak"), true, 0)
      && "sessionId" in m && m["sessionId"] == OptionalStringIssues(Field(body, "sessionId"))
      && "metadata" in m && m["metadata"] == MetadataIssues(Field(body, "metadata"))
      && "deviceId" in m && m["deviceId"] == StringIssues(Field(body, "deviceId"), 1, None)
  {
  }

  /** SubmitAttemptPayloadSchema. */
  function ValidateAttempt(body: Json): (r: Result<AttemptPayload, FlatErrors>)
    ensures r.Ok? <==> AttemptValid(body)
    ensures r.Ok? ==>
      && r.value.participantId == Field(body, "participantId").value.s
      && IsUuid(r.value.participantId)
      && r.value.winningStreak >= 0
      && AtLeast(Field(body, "winningStreak").value.n, r.value.winningStreak)
      && !AtLeast(Field(body, "winningStreak").value.n, r.value.winningStreak + 1)
      && r.value.sessionId == OptionalStringValue(Field(body, "sessionId"))
      && r.value.metadata.rounds >= 1
      && r.value.metadata.mode != [] && r.value.metadata.gameType != []
      && AtLeast(r.value.metadata.precision, 0)
      && r.value.metadata == MetadataValue(Field(body, "metadata"))
      && r.value.deviceId == Field(body, "deviceId").value.s
      && r.value.deviceId != []
    ensures r.Err? && !body.JObject? ==> r.error == NotAnObject(body)
    ensures r.Err? && body.JObject? ==>
      && r.error.formErrors == []
      && ("participantId" in r.error.fieldErrors <==> !UuidString(Field(body, "participantId")))
      && ("winningStreak" in r.error.fieldErrors <==> !IntegerAtLeast(Field(body, "winningStreak"), 0))
      && ("sessionId" in r.error.fieldErrors <==> !OptionalString(Field(body, "sessionId")))
      && ("metadata" in r.error.fieldErrors <==> !MetadataValid(Field(body, "metadata")))
      && ("deviceId" in r.error.fieldErrors <==> !StringWithin(Field(body, "deviceId"), 1, None))
  {
    if !body.JObject? then Err(NotAnObject(body))
    else
      var errors := FieldErrors(AttemptIssues(body));
      AttemptIssuesAt(body);
      if errors != map[] then Err(FlatErrors([], errors))
      else
        assert "participantId" !in errors && "winningStreak" !in errors && "sessionId" !in errors
          && "metadata" !in errors && "deviceId" !in errors;
        Ok(AttemptPayload(
          StringValue(Field(body, "participantId")), IntegerValue(Field(body, "winningStreak")),
          OptionalStringValue(Field(body, "sessionId")), MetadataValue(Field(body, "metadata")),
          StringValue(Field(body, "deviceId"))))
  }
}
