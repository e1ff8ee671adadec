/**
 * The record access layer: record-id and URL string handling, the REST
 * requests for the four record operations, how a response is interpreted, and
 * how the list response is flattened into a sequence of records.
 */
module LivingAppsService {
  import opened Wrappers
  import opened Types

  // ---------------------------------------------------------------------------
  // JavaScript values
  // ---------------------------------------------------------------------------

  /**
   * The JavaScript values a response body or a built object can hold. An
   * object is the list of its own properties in enumeration order. Numbers
   * are integers (see README).
   */
  datatype Value =
    | Undefined
    | Null
    | Bool(b: bool)
    | Num(n: int)
    | Str(s: string)
    | Arr(items: seq<Value>)
    | Obj(props: seq<(string, Value)>)

  type Props = seq<(string, Value)>

  /** The property names of an object. */
  function KeysOf(p: Props): set<string>
  {
    if p == [] then {} else {p[0].0} + KeysOf(p[1..])
  }

  /** No property name occurs twice, as in every JavaScript object. */
  predicate DistinctKeys(p: Props)
  {
    p == [] || (p[0].0 !in KeysOf(p[1..]) && DistinctKeys(p[1..]))
  }

  /**
   * The value of property `k`: the last one when the name is repeated, which
   * is what a sequence of assignments (and `JSON.parse`) leaves behind.
   */
  function Get(p: Props, k: string): (r: Option<Value>)
    ensures r.Some? <==> k in KeysOf(p)
  {
    if p == [] then None
    else
      var rest := Get(p[1..], k);
      if rest.Some? then rest
      else if p[0].0 == k then Some(p[0].1)
      else None
  }

  /**
   * The object `p` after the assignment `o[k] = v`: an existing property keeps
   * its position and takes the new value, a new one is added at the end.
   */
  function Assign(p: Props, k: string, v: Value): (r: Props)
    requires DistinctKeys(p)
    ensures DistinctKeys(r)
    ensures KeysOf(r) == KeysOf(p) + {k}
    ensures Get(r, k) == Some(v)
    ensures forall k' :: k' != k ==> Get(r, k') == Get(p, k')
    ensures |p| <= |r| && forall i :: 0 <= i < |p| ==> r[i].0 == p[i].0
  {
    if p == [] then
      var r := [(k, v)];
      assert r[1..] == [];
      r
    else if p[0].0 == k then
      var r := [(k, v)] + p[1..];
      assert r[1..] == p[1..];
      r
    else
      var tail := Assign(p[1..], k, v);
      var r := [p[0]] + tail;
      assert r[1..] == tail;
      r
  }

  /**
   * The object literal `{ ...target, ...src }` where `target` already holds
   * the earlier properties: `src`'s properties are assigned one by one, so
   * the target's properties keep their positions.
   */
  function Spread(target: Props, src: Props): (r: Props)
    requires DistinctKeys(target)
    ensures DistinctKeys(r)
    ensures |target| <= |r| && forall i :: 0 <= i < |target| ==> r[i].0 == target[i].0
    decreases src
  {
    if src == [] then target
    else Spread(Assign(target, src[0].0, src[0].1), src[1..])
  }

  /**
   * A spread holds the keys of both objects; a key takes `src`'s value when
   * `src` has it, and the target's otherwise.
   */
  lemma {:induction false} SpreadLookup(target: Props, src: Props)
    requires DistinctKeys(target)
    ensures KeysOf(Spread(target, src)) == KeysOf(target) + KeysOf(src)
    ensures forall k :: Get(Spread(target, src), k) == if k in KeysOf(src) then Get(src, k) else Get(target, k)
    decreases src
  {
    if src != [] {
      var next := Assign(target, src[0].0, src[0].1);
      var tail := src[1..];
      SpreadLookup(next, tail);
      forall k ensures Get(Spread(next, tail), k) == if k in KeysOf(src) then Get(src, k) else Get(target, k) {
        if k in KeysOf(tail) {
          assert Get(src, k) == Get(tail, k);
        } else if k == src[0].0 {
          assert Get(src, k) == Some(src[0].1);
        } else {
          assert k !in KeysOf(src);
        }
      }
    }
  }

  const DecimalDigits: string := "0123456789"

  /** The decimal spelling of an array index, as a property name. */
  function IndexName(n: nat): string
    decreases n
  {
    if n < 10 then [DecimalDigits[n]] else IndexName(n / 10) + [DecimalDigits[n % 10]]
  }

  /**
   * The own enumerable string-keyed properties of a value, in order, which is
   * what both `Object.entries` and the spread `...v` enumerate: nothing for
   * `undefined`, `null`, booleans and numbers, one property per element of an
   * array and per character of a string.
   */
  function OwnEntries(v: Value): (r: Props)
    ensures v.Obj? ==> r == v.props
    ensures v.Arr? ==> |r| == |v.items| && forall i :: 0 <= i < |r| ==> r[i] == (IndexName(i), v.items[i])
    ensures v.Str? ==> |r| == |v.s| && forall i :: 0 <= i < |r| ==> r[i] == (IndexName(i), Str([v.s[i]]))
    ensures !(v.Obj? || v.Arr? || v.Str?) ==> r == []
  {
    match v
    case Obj(p) => p
    case Arr(items) => seq(|items|, i requires 0 <= i < |items| => (IndexName(i), items[i]))
    case Str(s) => seq(|s|, i requires 0 <= i < |s| => (IndexName(i), Str([s[i]])))
    case _ => []
  }

  // ---------------------------------------------------------------------------
  // Record ids and record URLs
  // ---------------------------------------------------------------------------

  const RecordIdLength: nat := 24

  /** A character matched by `[a-f0-9]` under the case-insensitive flag. */
  predicate IsHexChar(c: char)
  {
    ('0' <= c <= '9') || ('a' <= c <= 'f') || ('A' <= c <= 'F')
  }

  predicate AllHex(s: string)
  {
    forall j :: 0 <= j < |s| ==> IsHexChar(s[j])
  }

  /** The pattern `([a-f0-9]{24})$` matches `s` starting at position `i`. */
  predicate MatchesAt(s: string, i: nat)
  {
    i + RecordIdLength == |s| && AllHex(s[i..])
  }

  /**
   * The regular-expression search: the leftmost position at or after `i`
   * where the pattern matches.
   */
  function SearchFrom(s: string, i: nat): (r: Option<nat>)
    requires i <= |s| + 1
    ensures r.Some? ==> i <= r.value && MatchesAt(s, r.value)
                        && forall j :: i <= j < r.value ==> !MatchesAt(s, j)
    ensures r.None? ==> forall j :: i <= j <= |s| ==> !MatchesAt(s, j)
    decreases |s| + 1 - i
  {
    if i > |s| then None
    else if MatchesAt(s, i) then Some(i)
    else SearchFrom(s, i + 1)
  }

  /** The suffix of `s` that a record id would occupy, when `s` is long enough. */
  function LastChars(s: string): string
    requires |s| >= RecordIdLength
  {
    s[|s| - RecordIdLength..]
  }

  /**
   * `extractRecordId`: `None` stands for both `null` and `undefined`. Null,
   * undefined and the empty string give null; otherwise the first capture of
   * the leftmost match, or null when the pattern does not match.
   */
  function ExtractRecordId(url: Option<string>): (r: Option<string>)
    ensures r.Some? <==> url.Some? && |url.value| >= RecordIdLength && AllHex(LastChars(url.value))
    ensures r.Some? ==> |r.value| == RecordIdLength && r.value == LastChars(url.value)
  {
    if url.None? || url.value == "" then None
    else
      var s := url.value;
      match SearchFrom(s, 0)
      case Some(i) => Some(s[i..i + RecordIdLength])
      case None =>
        assert |s| >= RecordIdLength ==> !MatchesAt(s, |s| - RecordIdLength);
        None
  }

  const ApiBaseUrl: string := "https://my.living-apps.de/rest"

  /** `createRecordUrl`: the full URL of one record of one app. */
  function CreateRecordUrl(appId: string, recordId: string): (r: string)
    ensures r == "https://my.living-apps.de/rest/apps/" + appId + "/records/" + recordId
  {
    ApiBaseUrl + RecordEndpoint(appId, recordId)
  }

  // ---------------------------------------------------------------------------
  // Requests
  // ---------------------------------------------------------------------------

  datatype HttpMethod = GET | POST | PATCH | DELETE

  /** What `callApi` hands to `fetch`: a method, a URL and an optional JSON body. */
  datatype Request = Request(verb: HttpMethod, url: string, body: Option<Value>)

  /** The endpoint of the whole record collection of an app. */
  function CollectionEndpoint(appId: string): string
  {
    "/apps/" + appId + "/records"
  }

  /** The endpoint of one record of an app. */
  function RecordEndpoint(appId: string, id: string): string
  {
    CollectionEndpoint(appId) + "/" + id
  }

  function CallRequest(verb: HttpMethod, endpoint: string, data: Option<Value>): Request
  {
    Request(verb, ApiBaseUrl + endpoint, data)
  }

  /** The JSON object a record's fields are sent as: one property per present field. */
  function FieldsValue(f: Fields): Value
  {
    Obj((if f.feldEins.Some? then [("feld_eins", Str(f.feldEins.value))] else [])
      + (if f.feldZwei.Some? then [("feld_zwei", Str(f.feldZwei.value))] else []))
  }

  /** The payload `{ fields }` of a create or an update. */
  function FieldsPayload(f: Fields): Value
  {
    Obj([("fields", FieldsValue(f))])
  }

  function ListRequest(): Request
  {
    CallRequest(GET, CollectionEndpoint(DatenerfassungAppId), None)
  }

  function GetRequest(id: string): Request
  {
    CallRequest(GET, RecordEndpoint(DatenerfassungAppId, id), None)
  }

  function CreateRequest(f: Fields): Request
  {
    CallRequest(POST, CollectionEndpoint(DatenerfassungAppId), Some(FieldsPayload(f)))
  }

  function UpdateRequest(id: string, f: Fields): Request
  {
    CallRequest(PATCH, RecordEndpoint(DatenerfassungAppId, id), Some(FieldsPayload(f)))
  }

  function DeleteRequest(id: string): Request
  {
    CallRequest(DELETE, RecordEndpoint(DatenerfassungAppId, id), None)
  }

  // ---------------------------------------------------------------------------
  // Responses
  // ---------------------------------------------------------------------------

  /**
   * What `fetch` settles with: either it rejects (`Unreachable`), or a
   * response arrives with its success flag, its body text and the result of
   * parsing that text as JSON (`None` when it is not JSON).
   */
  datatype Response =
    | Unreachable
    | Received(ok: bool, text: string, json: Option<Value>)

  /**
   * The errors an operation can reject with: the remote store's refusal
   * carrying the body text, a body that is not JSON, a `TypeError` from
   * reading properties of `null`, and a failed `fetch`.
   */
  datatype ApiError =
    | HttpError(text: string)
    | InvalidJson
    | TypeError
    | NetworkError

  /** How `callApi` turns a response into a value or an error. */
  function CallApi(verb: HttpMethod, resp: Response): (r: Result<Value, ApiError>)
    ensures resp.Unreachable? ==> r == Failure(NetworkError)
    ensures resp.Received? && !resp.ok ==> r == Failure(HttpError(resp.text))
    ensures resp.Received? && resp.ok && verb == DELETE ==> r == Success(Bool(true))
    ensures resp.Received? && resp.ok && verb != DELETE ==>
              r == if resp.json.Some? then Success(resp.json.value) else Failure(InvalidJson)
  {
    match resp
    case Unreachable => Failure(NetworkError)
    case Received(ok, text, json) =>
      if !ok then Failure(HttpError(text))
      else if verb == DELETE then Success(Bool(true))
      else if json.None? then Failure(InvalidJson)
      else Success(json.value)
  }

  // ---------------------------------------------------------------------------
  // Normalisation and the record operations
  // ---------------------------------------------------------------------------

  /**
   * The object `{ record_id: id, ...body }`: `record_id` comes first and is
   * `id` unless the body carries its own `record_id`, which the later spread
   * overrides; every property of the body is copied unchanged.
   */
  function WithRecordId(id: Value, body: Value): (r: Props)
    ensures |r| >= 1 && r[0].0 == "record_id"
    ensures DistinctKeys(r)
    ensures KeysOf(r) == {"record_id"} + KeysOf(OwnEntries(body))
    ensures Get(r, "record_id") == if "record_id" in KeysOf(OwnEntries(body))
                                   then Get(OwnEntries(body), "record_id") else Some(id)
    ensures forall k :: k != "record_id" ==> Get(r, k) == Get(OwnEntries(body), k)
  {
    var seed := [("record_id", id)];
    assert seed[1..] == [];
    SpreadLookup(seed, OwnEntries(body));
    Spread(seed, OwnEntries(body))
  }

  /**
   * The list response flattened: one record per entry of the response
   * object, in its order, each the entry's body with the entry's key as
   * `record_id`.
   */
  function Normalise(entries: Props): (r: seq<Value>)
    ensures |r| == |entries|
    ensures forall i :: 0 <= i < |r| ==> r[i] == Obj(WithRecordId(Str(entries[i].0), entries[i].1))
  {
    seq(|entries|, i requires 0 <= i < |entries| => Obj(WithRecordId(Str(entries[i].0), entries[i].1)))
  }

  /**
   * `getDatenerfassung`: the records of a successful list response, one per
   * entry of the response object and in its order, each with its key as
   * `record_id`. `Object.entries` of `null` throws a `TypeError`.
   */
  function ListResult(resp: Response): (r: Result<seq<Value>, ApiError>)
    ensures CallApi(GET, resp).Failure? ==> r == Failure(CallApi(GET, resp).error)
    ensures CallApi(GET, resp) == Success(Null) ==> r == Failure(TypeError)
    ensures resp.Received? && resp.ok && resp.json.Some? && resp.json.value.Obj? ==>
              var entries := resp.json.value.props;
              r.Success? && |r.value| == |entries|
              && forall i :: 0 <= i < |entries| ==>
                   r.value[i] == Obj(WithRecordId(Str(entries[i].0), entries[i].1))
  {
    match CallApi(GET, resp)
    case Failure(e) => Failure(e)
    case Success(data) =>
      if data.Null? || data.Undefined? then Failure(TypeError)
      else Success(Normalise(OwnEntries(data)))
  }

  /**
   * The value of `data.id`: reading a property of `null` throws; a missing
   * property, and any property of a non-object other than an own one, reads
   * as `undefined`.
   */
  function IdProperty(data: Value): Result<Value, ApiError>
  {
    if data.Null? || data.Undefined? then Failure(TypeError)
    else if data.Obj? && Get(data.props, "id").Some? then Success(Get(data.props, "id").value)
    else Success(Undefined)
  }

  /**
   * `getDatenerfassungEntry`: `{ record_id: data.id, ...data }`, so the
   * record's `record_id` is the body's own `record_id` if it has one, else its
   * `id` (undefined when absent).
   */
  function EntryResult(resp: Response): (r: Result<Value, ApiError>)
    ensures CallApi(GET, resp).Failure? ==> r == Failure(CallApi(GET, resp).error)
    ensures CallApi(GET, resp) == Success(Null) ==> r == Failure(TypeError)
    ensures resp.Received? && resp.ok && resp.json.Some? && resp.json.value.Obj? ==>
              var p := resp.json.value.props;
              r.Success? && r.value.Obj?
              && Get(r.value.props, "record_id") ==
                   (if "record_id" in KeysOf(p) then Get(p, "record_id")
                    else if "id" in KeysOf(p) then Get(p, "id") else Some(Undefined))
              && forall k :: k != "record_id" ==> Get(r.value.props, k) == Get(p, k)
  {
    match CallApi(GET, resp)
    case Failure(e) => Failure(e)
    case Success(data) =>
      match IdProperty(data)
      case Failure(e) => Failure(e)
      case Success(id) => Success(Obj(WithRecordId(id, data)))
  }

  /** `createDatenerfassungEntry`: the parsed body is returned unshaped. */
  function CreateResult(resp: Response): Result<Value, ApiError>
  {
    CallApi(POST, resp)
  }

  /** `updateDatenerfassungEntry`: the parsed body is returned unshaped. */
  function UpdateResult(resp: Response): Result<Value, ApiError>
  {
    CallApi(PATCH, resp)
  }

  /** `deleteDatenerfassungEntry`. */
  function DeleteResult(resp: Response): Result<Value, ApiError>
  {
    CallApi(DELETE, resp)
  }

  // ---------------------------------------------------------------------------
  // Properties
  // ---------------------------------------------------------------------------

  /** The fields a payload `{ fields }` carries, read back as the remote store would. */
  function PayloadFields(payload: Value): Option<Fields>
  {
    if !payload.Obj? then None
    else match Get(payload.props, "fields")
      case Some(Obj(fp)) =>
        Some(Fields(
          match Get(fp, "feld_eins") case Some(Str(a)) => Some(a) case _ => None,
          match Get(fp, "feld_zwei") case Some(Str(b)) => Some(b) case _ => None))
      case _ => None
  }

  /** The payload of a create or an update carries exactly the fields given. */
  lemma PayloadRoundTrip(f: Fields)
    ensures PayloadFields(FieldsPayload(f)) == Some(f)
    ensures PayloadFields(CreateRequest(f).body.value) == Some(f)
  {
    var top := [("fields", FieldsValue(f))];
    assert top[1..] == [];
    var fp := FieldsValue(f).props;
    var eins: Props := if f.feldEins.Some? then [("feld_eins", Str(f.feldEins.value))] else [];
    var zwei: Props := if f.feldZwei.Some? then [("feld_zwei", Str(f.feldZwei.value))] else [];
    assert fp == eins + zwei;
    if eins == [] {
      assert fp == zwei;
    } else {
      assert fp[1..] == zwei;
    }
    if zwei != [] {
      assert zwei[1..] == [];
    }
  }

  /**
   * A record URL yields exactly the id its record id alone would yield: the
   * record id when it is 24 hex digits, its last 24 characters when it is
   * longer and those are hex, and nothing otherwise.
   */
  lemma {:induction false} RecordUrlId(appId: string, recordId: string)
    ensures ExtractRecordId(Some(CreateRecordUrl(appId, recordId))) == ExtractRecordId(Some(recordId))
  {
    var url := CreateRecordUrl(appId, recordId);
    var prefix := ApiBaseUrl + CollectionEndpoint(appId) + "/";
    assert url == prefix + recordId;
    if |recordId| >= RecordIdLength {
      assert LastChars(url) == LastChars(recordId);
    } else {
      assert |url| >= RecordIdLength;
      assert LastChars(url)[RecordIdLength - 1 - |recordId|] == '/';
    }
  }

  /** The record id is read back from the URL it was put into. */
  lemma {:induction false} RecordIdRoundTrip(appId: string, recordId: string)
    requires |recordId| == RecordIdLength && AllHex(recordId)
    ensures ExtractRecordId(Some(CreateRecordUrl(appId, recordId))) == Some(recordId)
  {
    var url := CreateRecordUrl(appId, recordId);
    var prefix := ApiBaseUrl + CollectionEndpoint(appId) + "/";
    assert url == prefix + recordId;
    assert LastChars(url) == recordId;
  }

  /**
   * Collection operations (list, create) address the collection endpoint,
   * single-record operations (get, update, delete) the record's URL; create
   * and update send `{ fields }`, the others no body.
   */
  lemma {:induction false} OperationTargets(id: string, f: Fields)
    ensures ListRequest().verb == GET && CreateRequest(f).verb == POST
    ensures GetRequest(id).verb == GET && UpdateRequest(id, f).verb == PATCH
    ensures DeleteRequest(id).verb == DELETE
    ensures ListRequest().url == CreateRequest(f).url == ApiBaseUrl + CollectionEndpoint(DatenerfassungAppId)
    ensures GetRequest(id).url == UpdateRequest(id, f).url == DeleteRequest(id).url
              == CreateRecordUrl(DatenerfassungAppId, id)
    ensures ListRequest().body == GetRequest(id).body == DeleteRequest(id).body == None
    ensures CreateRequest(f).body == UpdateRequest(id, f).body == Some(Obj([("fields", FieldsValue(f))]))
  {
  }

  /**
   * No record id is read from the collection URL, while a record URL yields
   * the id it addresses.
   */
  lemma {:induction false} RecordIdOfRequestUrls(id: string)
    ensures ExtractRecordId(Some(ListRequest().url)) == None
    ensures |id| == RecordIdLength && AllHex(id) ==> ExtractRecordId(Some(DeleteRequest(id).url)) == Some(id)
  {
    var listUrl := ListRequest().url;
    assert listUrl[|listUrl| - 1] == 's';
    assert LastChars(listUrl)[RecordIdLength - 1] == 's';
    if |id| == RecordIdLength && AllHex(id) {
      RecordIdRoundTrip(DatenerfassungAppId, id);
    }
  }

  /** A refusal from the remote store surfaces with its body text as the message. */
  lemma RemoteErrorCarriesText(j: Option<Value>)
    ensures CreateResult(Received(false, "quota exceeded", j)) == Failure(HttpError("quota exceeded"))
  {
  }

  /**
   * A successful delete is `true` whatever the body holds, and a delete
   * succeeds exactly when the response is ok.
   */
  lemma {:induction false} DeleteIgnoresBody(resp: Response)
    ensures DeleteResult(resp).Success? <==> resp.Received? && resp.ok
    ensures DeleteResult(resp).Success? ==> DeleteResult(resp).value == Bool(true)
  {
  }
}
