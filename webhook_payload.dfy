/**
 * Decoding of the release-event payload into `GitHubReleasePayload`,
 * `Release` and `Repository`, with the rules serde's derived decoder
 * follows on a JSON value:
 *  - an object is read member by member in document order; a member
 *    whose key names a field already read is a duplicate-field error,
 *    checked before its value is decoded; unknown keys are skipped;
 *  - after the last member, the first field missing in declaration order
 *    is a missing-field error, except `Option` fields, which become None;
 *  - an array is read positionally, one element per field in declaration
 *    order; too few elements is an invalid-length error, too many a
 *    trailing-characters error;
 *  - any other JSON value is an invalid-type error, and so is a field
 *    value of the wrong kind (`null` is accepted only for `Option`).
 */
module WebhookPayload {

  import opened Wrappers
  import opened Hex
  import opened Text
  import opened JsonValues

  datatype Release = Release(tagName: string, name: Option<string>, draft: bool, prerelease: bool)

  datatype Repository = Repository(fullName: string, cloneUrl: string)

  datatype ReleasePayload = ReleasePayload(action: string, release: Release, repository: Repository)

  datatype DecodeError =
    | Syntax(message: string)
    | InvalidType(unexpected: string, expected: string)
    | MissingField(field: string)
    | DuplicateField(field: string)
    | InvalidLength(length: nat, expected: string)
    | TrailingCharacters

  /** How serde names the value it did not expect. */
  function Unexpected(j: Json): string {
    match j
    case JNull => "null"
    case JBool(b) => "boolean `" + (if b then "true" else "false") + "`"
    case JNumber(n) => "integer `" + IntToString(n) + "`"
    case JString(s) => "string \"" + s + "\""
    case JArray(_) => "sequence"
    case JObject(_) => "map"
  }

  /** The error text that follows "Invalid payload: " in the response. */
  function Describe(e: DecodeError): string {
    match e
    case Syntax(m) => m
    case InvalidType(u, x) => "invalid type: " + u + ", expected " + x
    case MissingField(f) => "missing field `" + f + "`"
    case DuplicateField(f) => "duplicate field `" + f + "`"
    case InvalidLength(n, x) => "invalid length " + NatToString(n) + ", expected " + x
    case TrailingCharacters => "trailing characters"
  }

  function AsString(j: Json): (r: Result<string, DecodeError>)
    ensures r.Success? <==> j.JString?
    ensures r.Success? ==> j == JString(r.value)
  {
    if j.JString? then Success(j.s) else Failure(InvalidType(Unexpected(j), "a string"))
  }

  function AsBool(j: Json): (r: Result<bool, DecodeError>)
    ensures r.Success? <==> j.JBool?
    ensures r.Success? ==> j == JBool(r.value)
  {
    if j.JBool? then Success(j.b) else Failure(InvalidType(Unexpected(j), "a boolean"))
  }

  function AsOptionalString(j: Json): (r: Result<Option<string>, DecodeError>)
    ensures r.Success? <==> j.JNull? || j.JString?
    ensures r == Success(None) <==> j.JNull?
  {
    if j.JNull? then Success(None) else if j.JString? then Success(Some(j.s))
    else Failure(InvalidType(Unexpected(j), "a string"))
  }

  // ---- Repository { full_name, clone_url } ----

  const RepositoryExpecting: string := "struct Repository"

  datatype RepositoryFields = RepositoryFields(fullName: Option<string>, cloneUrl: Option<string>)

  /** One iteration of the derived decoder's loop over the members of an object. */
  function RepositoryStep(acc: RepositoryFields, member: (string, Json)): Result<RepositoryFields, DecodeError> {
    var (key, value) := member;
    if key == "full_name" then
      if acc.fullName.Some? then Failure(DuplicateField(key))
      else (match AsString(value)
        case Failure(e) => Failure(e)
        case Success(v) => Success(acc.(fullName := Some(v))))
    else if key == "clone_url" then
      if acc.cloneUrl.Some? then Failure(DuplicateField(key))
      else (match AsString(value)
        case Failure(e) => Failure(e)
        case Success(v) => Success(acc.(cloneUrl := Some(v))))
    else Success(acc)
  }

  function RepositoryMembers(members: seq<(string, Json)>, acc: RepositoryFields): (r: Result<RepositoryFields, DecodeError>)
    ensures r.Failure? ==> !r.error.Syntax?
    decreases |members|
  {
    if members == [] then Success(acc)
    else
      match RepositoryStep(acc, members[0])
      case Failure(e) => Failure(e)
      case Success(next) => RepositoryMembers(members[1..], next)
  }


  function FinishRepository(f: RepositoryFields): Result<Repository, DecodeError> {
    if f.fullName.None? then Failure(MissingField("full_name"))
    else if f.cloneUrl.None? then Failure(MissingField("clone_url"))
    else Success(Repository(f.fullName.value, f.cloneUrl.value))
  }

  /** The positional (array) form of the struct. */
  function RepositoryFromArray(items: seq<Json>): Result<Repository, DecodeError> {
    var expecting := RepositoryExpecting + " with 2 elements";
    if |items| < 1 then Failure(InvalidLength(0, expecting))
    else match AsString(items[0])
      case Failure(e) => Failure(e)
      case Success(fullName) =>
        if |items| < 2 then Failure(InvalidLength(1, expecting))
        else match AsString(items[1])
          case Failure(e) => Failure(e)
          case Success(cloneUrl) =>
            if |items| > 2 then Failure(TrailingCharacters)
            else Success(Repository(fullName, cloneUrl))
  }

  function DecodeRepository(j: Json): (r: Result<Repository, DecodeError>)
    ensures !j.JObject? && !j.JArray? ==> r == Failure(InvalidType(Unexpected(j), RepositoryExpecting))
    ensures r.Failure? ==> !r.error.Syntax?
    ensures j.JArray? ==> (r.Success? <==> |j.items| == 2 && j.items[0].JString? && j.items[1].JString?)
    ensures j.JArray? && r.Success? ==> r.value == Repository(j.items[0].s, j.items[1].s)
  {
    match j
    case JObject(members) =>
      (match RepositoryMembers(members, RepositoryFields(None, None))
      case Failure(e) => Failure(e)
      case Success(f) => FinishRepository(f))
    case JArray(items) => RepositoryFromArray(items)
    case _ => Failure(InvalidType(Unexpected(j), RepositoryExpecting))
  }

  // ---- Release { tag_name, name: Option, draft, prerelease } ----

  const ReleaseExpecting: string := "struct Release"

  datatype ReleaseFields = ReleaseFields(
    tagName: Option<string>, name: Option<Option<string>>, draft: Option<bool>, prerelease: Option<bool>)

  /** One iteration of the derived decoder's loop over the members of an object. */
  function ReleaseStep(acc: ReleaseFields, member: (string, Json)): Result<ReleaseFields, DecodeError> {
    var (key, value) := member;
    if key == "tag_name" then
      if acc.tagName.Some? then Failure(DuplicateField(key))
      else (match AsString(value)
        case Failure(e) => Failure(e)
        case Success(v) => Success(acc.(tagName := Some(v))))
    else if key == "name" then
      if acc.name.Some? then Failure(DuplicateField(key))
      else (match AsOptionalString(value)
        case Failure(e) => Failure(e)
        case Success(v) => Success(acc.(name := Some(v))))
    else if key == "draft" then
      if acc.draft.Some? then Failure(DuplicateField(key))
      else (match AsBool(value)
        case Failure(e) => Failure(e)
        case Success(v) => Success(acc.(draft := Some(v))))
    else if key == "prerelease" then
      if acc.prerelease.Some? then Failure(DuplicateField(key))
      else (match AsBool(value)
        case Failure(e) => Failure(e)
        case Success(v) => Success(acc.(prerelease := Some(v))))
    else Success(acc)
  }

  function ReleaseMembers(members: seq<(string, Json)>, acc: ReleaseFields): (r: Result<ReleaseFields, DecodeError>)
    ensures r.Failure? ==> !r.error.Syntax?
    decreases |members|
  {
    if members == [] then Success(acc)
    else
      match ReleaseStep(acc, members[0])
      case Failure(e) => Failure(e)
      case Success(next) => ReleaseMembers(members[1..], next)
  }


  /** Missing `name` is None; the other three fields are required. */
  function FinishRelease(f: ReleaseFields): Result<Release, DecodeError> {
    if f.tagName.None? then Failure(MissingField("tag_name"))
    else if f.draft.None? then Failure(MissingField("draft"))
    else if f.prerelease.None? then Failure(MissingField("prerelease"))
    else Success(Release(f.tagName.value, f.name.GetOr(None), f.draft.value, f.prerelease.value))
  }

  /** The positional (array) form of the struct. */
  function ReleaseFromArray(items: seq<Json>): Result<Release, DecodeError> {
    var expecting := ReleaseExpecting + " with 4 elements";
    if |items| < 1 then Failure(InvalidLength(0, expecting))
    else match AsString(items[0])
      case Failure(e) => Failure(e)
      case Success(tagName) =>
        if |items| < 2 then Failure(InvalidLength(1, expecting))
        else match AsOptionalString(items[1])
          case Failure(e) => Failure(e)
          case Success(name) =>
            if |items| < 3 then Failure(InvalidLength(2, expecting))
            else match AsBool(items[2])
              case Failure(e) => Failure(e)
              case Success(draft) =>
                if |items| < 4 then Failure(InvalidLength(3, expecting))
                else match AsBool(items[3])
                  case Failure(e) => Failure(e)
                  case Success(prerelease) =>
                    if |items| > 4 then Failure(TrailingCharacters)
                    else Success(Release(tagName, name, draft, prerelease))
  }

  function DecodeRelease(j: Json): (r: Result<Release, DecodeError>)
    ensures !j.JObject? && !j.JArray? ==> r == Failure(InvalidType(Unexpected(j), ReleaseExpecting))
    ensures r.Failure? ==> !r.error.Syntax?
    ensures j.JArray? ==>
      (r.Success? <==> (|j.items| == 4 && j.items[0].JString? && (j.items[1].JNull? || j.items[1].JString?)
                        && j.items[2].JBool? && j.items[3].JBool?))
    ensures j.JArray? && r.Success? ==>
      r.value == Release(j.items[0].s, if j.items[1].JString? then Some(j.items[1].s) else None, j.items[2].b, j.items[3].b)
  {
    match j
    case JObject(members) =>
      (match ReleaseMembers(members, ReleaseFields(None, None, None, None))
      case Failure(e) => Failure(e)
      case Success(f) => FinishRelease(f))
    case JArray(items) => ReleaseFromArray(items)
    case _ => Failure(InvalidType(Unexpected(j), ReleaseExpecting))
  }

  // ---- GitHubReleasePayload { action, release, repository } ----

  const PayloadExpecting: string := "struct GitHubReleasePayload"

  datatype PayloadFields = PayloadFields(action: Option<string>, release: Option<Release>, repository: Option<Repository>)

  const NoPayloadFields := PayloadFields(None, None, None)

  /** One iteration of the derived decoder's loop over the members of an object. */
  function PayloadStep(acc: PayloadFields, member: (string, Json)): Result<PayloadFields, DecodeError> {
    var (key, value) := member;
    if key == "action" then
      if acc.action.Some? then Failure(DuplicateField(key))
      else (match AsString(value)
        case Failure(e) => Failure(e)
        case Success(v) => Success(acc.(action := Some(v))))
    else if key == "release" then
      if acc.release.Some? then Failure(DuplicateField(key))
      else (match DecodeRelease(value)
        case Failure(e) => Failure(e)
        case Success(v) => Success(acc.(release := Some(v))))
    else if key == "repository" then
      if acc.repository.Some? then Failure(DuplicateField(key))
      else (match DecodeRepository(value)
        case Failure(e) => Failure(e)
        case Success(v) => Success(acc.(repository := Some(v))))
    else Success(acc)
  }

  function PayloadMembers(members: seq<(string, Json)>, acc: PayloadFields): (r: Result<PayloadFields, DecodeError>)
    ensures r.Failure? ==> !r.error.Syntax?
    decreases |members|
  {
    if members == [] then Success(acc)
    else
      match PayloadStep(acc, members[0])
      case Failure(e) => Failure(e)
      case Success(next) => PayloadMembers(members[1..], next)
  }


  function FinishPayload(f: PayloadFields): Result<ReleasePayload, DecodeError> {
    if f.action.None? then Failure(MissingField("action"))
    else if f.release.None? then Failure(MissingField("release"))
    else if f.repository.None? then Failure(MissingField("repository"))
    else Success(ReleasePayload(f.action.value, f.release.value, f.repository.value))
  }

  /** The positional (array) form of the struct. */
  function PayloadFromArray(items: seq<Json>): Result<ReleasePayload, DecodeError> {
    var expecting := PayloadExpecting + " with 3 elements";
    if |items| < 1 then Failure(InvalidLength(0, expecting))
    else match AsString(items[0])
      case Failure(e) => Failure(e)
      case Success(action) =>
        if |items| < 2 then Failure(InvalidLength(1, expecting))
        else match DecodeRelease(items[1])
          case Failure(e) => Failure(e)
          case Success(release) =>
            if |items| < 3 then Failure(InvalidLength(2, expecting))
            else match DecodeRepository(items[2])
              case Failure(e) => Failure(e)
              case Success(repository) =>
                if |items| > 3 then Failure(TrailingCharacters)
                else Success(ReleasePayload(action, release, repository))
  }

  function DecodePayload(j: Json): (r: Result<ReleasePayload, DecodeError>)
    ensures !j.JObject? && !j.JArray? ==> r == Failure(InvalidType(Unexpected(j), PayloadExpecting))
    ensures r.Failure? ==> !r.error.Syntax?
    ensures j.JArray? ==>
      (r.Success? <==> (|j.items| == 3 && j.items[0].JString?
                        && DecodeRelease(j.items[1]).Success? && DecodeRepository(j.items[2]).Success?))
    ensures j.JArray? && r.Success? ==>
      r.value == ReleasePayload(j.items[0].s, DecodeRelease(j.items[1]).value, DecodeRepository(j.items[2]).value)
  {
    match j
    case JObject(members) =>
      (match PayloadMembers(members, NoPayloadFields)
      case Failure(e) => Failure(e)
      case Success(f) => FinishPayload(f))
    case JArray(items) => PayloadFromArray(items)
    case _ => Failure(InvalidType(Unexpected(j), PayloadExpecting))
  }

  /**
   * `serde_json::from_slice`: the JSON text parser is a parameter; its error
   * text is kept. A syntax error is reported exactly when the text is not
   * JSON; every other error comes from decoding a well-formed document.
   */
  function DecodeBody(parseJson: seq<Byte> -> Result<Json, string>, body: seq<Byte>): (r: Result<ReleasePayload, DecodeError>)
    ensures r.Failure? && r.error.Syntax? <==> parseJson(body).Failure?
    ensures parseJson(body).Failure? ==> r.error.message == parseJson(body).error
    ensures r.Success? ==> parseJson(body).Success? && DecodePayload(parseJson(body).value) == r
  {
    match parseJson(body)
    case Failure(m) => Failure(Syntax(m))
    case Success(j) => DecodePayload(j)
  }

  // ---- The payload GitHub sends, and what decoding promises about it ----

  function ReleaseToJson(r: Release): Json {
    JObject([("tag_name", JString(r.tagName))]
            + (if r.name.Some? then [("name", JString(r.name.value))] else [])
            + [("draft", JBool(r.draft)), ("prerelease", JBool(r.prerelease))])
  }

  function RepositoryToJson(r: Repository): Json {
    JObject([("full_name", JString(r.fullName)), ("clone_url", JString(r.cloneUrl))])
  }

  function PayloadToJson(p: ReleasePayload): Json {
    JObject([("action", JString(p.action)), ("release", ReleaseToJson(p.release)),
             ("repository", RepositoryToJson(p.repository))])
  }

  lemma DecodeRepositoryToJson(r: Repository)
    ensures DecodeRepository(RepositoryToJson(r)) == Success(r)
  {
    var ms := RepositoryToJson(r).members;
    var acc1 := RepositoryFields(Some(r.fullName), None);
    var acc2 := RepositoryFields(Some(r.fullName), Some(r.cloneUrl));
    assert RepositoryMembers(ms, RepositoryFields(None, None)) == RepositoryMembers(ms[1..], acc1);
    assert RepositoryMembers(ms[1..], acc1) == RepositoryMembers(ms[2..], acc2);
    assert ms[2..] == [];
  }

  lemma DecodeReleaseToJson(r: Release)
    ensures DecodeRelease(ReleaseToJson(r)) == Success(r)
  {
    var ms := ReleaseToJson(r).members;
    var acc1 := ReleaseFields(Some(r.tagName), None, None, None);
    var acc2 := ReleaseFields(Some(r.tagName), Some(r.name), None, None);
    var acc3 := ReleaseFields(Some(r.tagName), Some(r.name), Some(r.draft), None);
    var acc4 := ReleaseFields(Some(r.tagName), Some(r.name), Some(r.draft), Some(r.prerelease));
    assert ReleaseMembers(ms, ReleaseFields(None, None, None, None)) == ReleaseMembers(ms[1..], acc1);
    if r.name.Some? {
      assert ReleaseMembers(ms[1..], acc1) == ReleaseMembers(ms[2..], acc2);
      assert ReleaseMembers(ms[2..], acc2) == ReleaseMembers(ms[3..], acc3);
      assert ReleaseMembers(ms[3..], acc3) == ReleaseMembers(ms[4..], acc4);
      assert ms[4..] == [];
    } else {
      var acc2' := ReleaseFields(Some(r.tagName), None, Some(r.draft), None);
      var acc3' := ReleaseFields(Some(r.tagName), None, Some(r.draft), Some(r.prerelease));
      assert ReleaseMembers(ms[1..], acc1) == ReleaseMembers(ms[2..], acc2');
      assert ReleaseMembers(ms[2..], acc2') == ReleaseMembers(ms[3..], acc3');
      assert ms[3..] == [];
    }
  }

  /** Every release event is read back from the JSON GitHub writes for it; `name` may be absent. */
  lemma DecodePayloadToJson(p: ReleasePayload)
    ensures DecodePayload(PayloadToJson(p)) == Success(p)
  {
    var ms := PayloadToJson(p).members;
    DecodeReleaseToJson(p.release);
    DecodeRepositoryToJson(p.repository);
    var acc1 := PayloadFields(Some(p.action), None, None);
    var acc2 := PayloadFields(Some(p.action), Some(p.release), None);
    var acc3 := PayloadFields(Some(p.action), Some(p.release), Some(p.repository));
    assert PayloadMembers(ms, NoPayloadFields) == PayloadMembers(ms[1..], acc1);
    assert PayloadMembers(ms[1..], acc1) == PayloadMembers(ms[2..], acc2);
    assert PayloadMembers(ms[2..], acc2) == PayloadMembers(ms[3..], acc3);
    assert ms[3..] == [];
  }

  predicate IsPayloadField(key: string) {
    key == "action" || key == "release" || key == "repository"
  }

  /** Whether the field that `key` names has already been read into `acc`. */
  predicate PayloadFieldRead(acc: PayloadFields, key: string) {
    (key == "action" && acc.action.Some?)
    || (key == "release" && acc.release.Some?)
    || (key == "repository" && acc.repository.Some?)
  }

  /** A field is only ever filled in from a member with its key. */
  lemma {:induction false} PayloadMembersNeedKeys(members: seq<(string, Json)>, acc: PayloadFields, key: string)
    requires IsPayloadField(key)
    requires PayloadMembers(members, acc).Success?
    ensures PayloadFieldRead(PayloadMembers(members, acc).value, key) ==> PayloadFieldRead(acc, key) || HasKey(members, key)
    decreases |members|
  {
    if members != [] {
      var next := PayloadStep(acc, members[0]).value;
      assert PayloadMembers(members, acc) == PayloadMembers(members[1..], next);
      PayloadMembersNeedKeys(members[1..], next, key);
      if HasKey(members[1..], key) {
        var i :| 0 <= i < |members[1..]| && members[1..][i].0 == key;
        assert members[i + 1].0 == key;
      }
    }
  }

  /** Once a field is read, a later member with its key fails the decode. */
  lemma {:induction false} PayloadMembersRejectRepeat(members: seq<(string, Json)>, acc: PayloadFields, key: string)
    requires IsPayloadField(key) && PayloadFieldRead(acc, key) && HasKey(members, key)
    ensures PayloadMembers(members, acc).Failure?
    decreases |members|
  {
    if members[0].0 != key {
      var i :| 0 <= i < |members| && members[i].0 == key;
      assert members[1..][i - 1].0 == key;
      if PayloadMembers(members, acc).Success? {
        var next := PayloadStep(acc, members[0]).value;
        assert PayloadMembers(members, acc) == PayloadMembers(members[1..], next);
        PayloadMembersRejectRepeat(members[1..], next, key);
      }
    }
  }

  /** A payload object lacking `action`, `release` or `repository` is rejected. */
  lemma MissingPayloadFieldRejected(members: seq<(string, Json)>, key: string)
    requires IsPayloadField(key) && !HasKey(members, key)
    ensures DecodePayload(JObject(members)).Failure?
  {
    if PayloadMembers(members, NoPayloadFields).Success? {
      PayloadMembersNeedKeys(members, NoPayloadFields, key);
    }
  }

  /** A payload object naming one of its fields twice is rejected. */
  lemma DuplicatePayloadFieldRejected(members: seq<(string, Json)>, key: string, i: nat, j: nat)
    requires IsPayloadField(key) && i < j < |members| && members[i].0 == key && members[j].0 == key
    ensures DecodePayload(JObject(members)).Failure?
  {
    DuplicateFromAcc(members, NoPayloadFields, key, i, j);
  }

  lemma {:induction false} DuplicateFromAcc(members: seq<(string, Json)>, acc: PayloadFields, key: string, i: nat, j: nat)
    requires IsPayloadField(key) && i < j < |members| && members[i].0 == key && members[j].0 == key
    ensures PayloadMembers(members, acc).Failure?
    decreases |members|
  {
    if PayloadMembers(members, acc).Success? {
      var next := PayloadStep(acc, members[0]).value;
      assert PayloadMembers(members, acc) == PayloadMembers(members[1..], next);
      assert members[1..][j - 1].0 == key;
      if i == 0 {
        assert PayloadFieldRead(next, key);
        PayloadMembersRejectRepeat(members[1..], next, key);
      } else {
        assert members[1..][i - 1].0 == key;
        DuplicateFromAcc(members[1..], next, key, i - 1, j - 1);
      }
    }
  }

  /** Members with keys the payload does not declare are skipped wherever they stand. */
  lemma {:induction false} UnknownMemberIgnored(before: seq<(string, Json)>, key: string, value: Json,
                                                after: seq<(string, Json)>, acc: PayloadFields)
    requires !IsPayloadField(key)
    ensures PayloadMembers(before + [(key, value)] + after, acc) == PayloadMembers(before + after, acc)
    decreases |before|
  {
    var whole := before + [(key, value)] + after;
    if before == [] {
      assert PayloadStep(acc, whole[0]) == Success(acc);
      assert whole[1..] == after == before + after;
    } else {
      assert whole[0] == (before + after)[0] == before[0];
      assert whole[1..] == before[1..] + [(key, value)] + after;
      assert (before + after)[1..] == before[1..] + after;
      match PayloadStep(acc, before[0])
      case Failure(_) =>
      case Success(next) => UnknownMemberIgnored(before[1..], key, value, after, next);
    }
  }

  predicate IsRequiredReleaseField(key: string) {
    key == "tag_name" || key == "draft" || key == "prerelease"
  }

  predicate ReleaseFieldRead(acc: ReleaseFields, key: string) {
    (key == "tag_name" && acc.tagName.Some?)
    || (key == "draft" && acc.draft.Some?)
    || (key == "prerelease" && acc.prerelease.Some?)
  }

  lemma {:induction false} ReleaseMembersNeedKeys(members: seq<(string, Json)>, acc: ReleaseFields, key: string)
    requires IsRequiredReleaseField(key)
    requires ReleaseMembers(members, acc).Success?
    ensures ReleaseFieldRead(ReleaseMembers(members, acc).value, key) ==> ReleaseFieldRead(acc, key) || HasKey(members, key)
    decreases |members|
  {
    if members != [] {
      var next := ReleaseStep(acc, members[0]).value;
      ReleaseMembersNeedKeys(members[1..], next, key);
      if HasKey(members[1..], key) {
        var i :| 0 <= i < |members[1..]| && members[1..][i].0 == key;
        assert members[i + 1].0 == key;
      }
    }
  }

  /** A release object lacking `tag_name`, `draft` or `prerelease` is rejected; `name` may be missing. */
  lemma MissingReleaseFieldRejected(members: seq<(string, Json)>, key: string)
    requires IsRequiredReleaseField(key) && !HasKey(members, key)
    ensures DecodeRelease(JObject(members)).Failure?
  {
    var empty := ReleaseFields(None, None, None, None);
    if ReleaseMembers(members, empty).Success? {
      ReleaseMembersNeedKeys(members, empty, key);
    }
  }

  predicate RepositoryFieldRead(acc: RepositoryFields, key: string) {
    (key == "full_name" && acc.fullName.Some?) || (key == "clone_url" && acc.cloneUrl.Some?)
  }

  lemma {:induction false} RepositoryMembersNeedKeys(members: seq<(string, Json)>, acc: RepositoryFields, key: string)
    requires key == "full_name" || key == "clone_url"
    requires RepositoryMembers(members, acc).Success?
    ensures RepositoryFieldRead(RepositoryMembers(members, acc).value, key) ==> RepositoryFieldRead(acc, key) || HasKey(members, key)
    decreases |members|
  {
    if members != [] {
      var next := RepositoryStep(acc, members[0]).value;
      RepositoryMembersNeedKeys(members[1..], next, key);
      if HasKey(members[1..], key) {
        var i :| 0 <= i < |members[1..]| && members[1..][i].0 == key;
        assert members[i + 1].0 == key;
      }
    }
  }

  /** A repository object lacking `full_name` or `clone_url` is rejected. */
  lemma MissingRepositoryFieldRejected(members: seq<(string, Json)>, key: string)
    requires key == "full_name" || key == "clone_url"
    requires !HasKey(members, key)
    ensures DecodeRepository(JObject(members)).Failure?
  {
    var empty := RepositoryFields(None, None);
    if RepositoryMembers(members, empty).Success? {
      RepositoryMembersNeedKeys(members, empty, key);
    }
  }

  /** The decoded release and repository are decodings of members with those keys. */
  lemma {:induction false} PayloadMembersProvenance(members: seq<(string, Json)>, acc: PayloadFields)
    requires PayloadMembers(members, acc).Success?
    ensures var f := PayloadMembers(members, acc).value;
      && (f.release.Some? && f.release != acc.release ==>
            exists i :: 0 <= i < |members| && members[i].0 == "release" && DecodeRelease(members[i].1) == Success(f.release.value))
      && (f.repository.Some? && f.repository != acc.repository ==>
            exists i :: 0 <= i < |members| && members[i].0 == "repository" && DecodeRepository(members[i].1) == Success(f.repository.value))
    decreases |members|
  {
    if members != [] {
      var next := PayloadStep(acc, members[0]).value;
      PayloadMembersProvenance(members[1..], next);
      var f := PayloadMembers(members, acc).value;
      assert f == PayloadMembers(members[1..], next).value;
      if f.release.Some? && f.release != acc.release && f.release != next.release {
        var i :| 0 <= i < |members[1..]| && members[1..][i].0 == "release" && DecodeRelease(members[1..][i].1) == Success(f.release.value);
        assert members[i + 1] == members[1..][i];
      }
      if f.repository.Some? && f.repository != acc.repository && f.repository != next.repository {
        var i :| 0 <= i < |members[1..]| && members[1..][i].0 == "repository" && DecodeRepository(members[1..][i].1) == Success(f.repository.value);
        assert members[i + 1] == members[1..][i];
      }
    }
  }

  /** A payload whose every `release` member lacks a required release field is rejected. */
  lemma NestedMissingFieldRejected(members: seq<(string, Json)>, key: string)
    requires IsRequiredReleaseField(key)
    requires forall i :: 0 <= i < |members| && members[i].0 == "release" ==>
               members[i].1.JObject? && !HasKey(members[i].1.members, key)
    ensures DecodePayload(JObject(members)).Failure?
  {
    if PayloadMembers(members, NoPayloadFields).Success? {
      var f := PayloadMembers(members, NoPayloadFields).value;
      PayloadMembersProvenance(members, NoPayloadFields);
      if f.release.Some? {
        var i :| 0 <= i < |members| && members[i].0 == "release" && DecodeRelease(members[i].1) == Success(f.release.value);
        MissingReleaseFieldRejected(members[i].1.members, key);
      }
    }
  }

  /** A payload whose every `repository` object lacks `full_name` or `clone_url` is rejected. */
  lemma NestedMissingRepositoryFieldRejected(members: seq<(string, Json)>, key: string)
    requires key == "full_name" || key == "clone_url"
    requires forall i :: 0 <= i < |members| && members[i].0 == "repository" ==>
               members[i].1.JObject? && !HasKey(members[i].1.members, key)
    ensures DecodePayload(JObject(members)).Failure?
  {
    if PayloadMembers(members, NoPayloadFields).Success? {
      var f := PayloadMembers(members, NoPayloadFields).value;
      PayloadMembersProvenance(members, NoPayloadFields);
      if f.repository.Some? {
        var i :| 0 <= i < |members| && members[i].0 == "repository" && DecodeRepository(members[i].1) == Success(f.repository.value);
        MissingRepositoryFieldRejected(members[i].1.members, key);
      }
    }
  }
}
