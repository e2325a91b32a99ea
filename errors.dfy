/** `CustomGlobalExceptionHandler`: the HTTP status each exception kind is
    answered with, the response body the handlers fill in, and the rendering
    of binding errors. */
module ErrorHandling {
  import opened Common
  import opened Records

  datatype HttpStatus = BadRequest | Forbidden | NotFound | Conflict

  function Code(s: HttpStatus): (code: int)
    ensures 400 <= code < 500
  {
    match s
    case BadRequest => 400
    case Forbidden => 403
    case NotFound => 404
    case Conflict => 409
  }

  /** The values a response body holds. */
  datatype BodyValue =
    | Time(t: Timestamp)
    | Status(status: HttpStatus)
    | Text(text: string)
    | TextList(texts: seq<string>)

  type Entries = seq<(string, BodyValue)>

  /** What a handler returns: the response's status code and its body. */
  datatype ResponseEntity = ResponseEntity(statusCode: int, body: Entries)

  function Keys(entries: Entries): (keys: seq<string>)
    ensures |keys| == |entries|
    ensures forall i :: 0 <= i < |entries| ==> keys[i] == entries[i].0
  {
    if entries == [] then [] else [entries[0].0] + Keys(entries[1..])
  }

  predicate KeysDistinct(entries: Entries)
  {
    forall i, j :: 0 <= i < j < |entries| ==> entries[i].0 != entries[j].0
  }

  /** `LinkedHashMap.put`: a key already present keeps its place and takes
      the new value; a new key goes last. */
  function PutEntry(entries: Entries, key: string, value: BodyValue): Entries
  {
    if entries == [] then [(key, value)]
    else if entries[0].0 == key then [(key, value)] + entries[1..]
    else [entries[0]] + PutEntry(entries[1..], key, value)
  }

  /** `LinkedHashMap.get`. */
  function Get(entries: Entries, key: string): Option<BodyValue>
  {
    if entries == [] then None
    else if entries[0].0 == key then Some(entries[0].1)
    else Get(entries[1..], key)
  }

  /** After a put the key maps to the new value and every other key to what
      it mapped to. */
  lemma {:induction false} PutThenGet(entries: Entries, key: string, value: BodyValue, other: string)
    requires other != key
    ensures Get(PutEntry(entries, key, value), key) == Some(value)
    ensures Get(PutEntry(entries, key, value), other) == Get(entries, other)
  {
    if entries != [] && entries[0].0 != key {
      PutThenGet(entries[1..], key, value, other);
      assert ([entries[0]] + PutEntry(entries[1..], key, value))[1..] == PutEntry(entries[1..], key, value);
    } else if entries != [] {
      assert ([(key, value)] + entries[1..])[1..] == entries[1..];
    }
  }

  /** A new key goes last in the key order. */
  lemma {:induction false} PutNewKey(entries: Entries, key: string, value: BodyValue)
    requires key !in Keys(entries)
    ensures PutEntry(entries, key, value) == entries + [(key, value)]
  {
    if entries != [] {
      assert key != Keys(entries)[0];
      assert Keys(entries[1..]) == Keys(entries)[1..];
      PutNewKey(entries[1..], key, value);
      assert entries == [entries[0]] + entries[1..];
    }
  }

  /** A key already present keeps its place: the key order is unchanged. */
  lemma {:induction false} PutOldKey(entries: Entries, key: string, value: BodyValue)
    requires key in Keys(entries)
    ensures Keys(PutEntry(entries, key, value)) == Keys(entries)
  {
    if entries[0].0 != key {
      assert Keys(entries[1..]) == Keys(entries)[1..];
      assert key in Keys(entries[1..]);
      PutOldKey(entries[1..], key, value);
      var rest := PutEntry(entries[1..], key, value);
      assert Keys([entries[0]] + rest) == [entries[0].0] + Keys(rest);
      assert Keys(entries) == [entries[0].0] + Keys(entries[1..]);
    } else {
      assert Keys([(key, value)] + entries[1..]) == [key] + Keys(entries[1..]);
      assert Keys(entries) == [entries[0].0] + Keys(entries[1..]);
    }
  }

  /** Puts keep the keys distinct. */
  lemma PutKeepsKeysDistinct(entries: Entries, key: string, value: BodyValue)
    requires KeysDistinct(entries)
    ensures KeysDistinct(PutEntry(entries, key, value))
  {
    var r := PutEntry(entries, key, value);
    if key in Keys(entries) {
      PutOldKey(entries, key, value);
      assert forall i :: 0 <= i < |r| ==> r[i].0 == Keys(r)[i] == Keys(entries)[i] == entries[i].0;
    } else {
      PutNewKey(entries, key, value);
      assert forall i :: 0 <= i < |entries| ==> entries[i].0 == Keys(entries)[i] != key;
    }
  }

  /** The body a handler fills in, in insertion order (`LinkedHashMap`). */
  class ResponseBody {
    var entries: Entries

    constructor ()
      ensures entries == []
    {
      entries := [];
    }

    method Put(key: string, value: BodyValue)
      modifies this
      ensures entries == PutEntry(old(entries), key, value)
    {
      entries := PutEntry(entries, key, value);
    }
  }

  /** The status each handler answers with; kinds without a handler of their
      own (`IllegalArgumentException`, a duplicate key) are left to the
      framework's default handling. */
  function HandlerStatus(kind: ErrorKind): (s: Option<HttpStatus>)
    ensures kind == EntityNotFound <==> s == Some(NotFound)
    ensures kind == Registration <==> s == Some(Conflict)
    ensures kind == AccessDenied <==> s == Some(Forbidden)
    ensures kind == ConstraintViolation || kind == DataProcessing <==> s == Some(BadRequest)
    ensures kind == IllegalArgument || kind == DuplicateKey <==> s.None?
  {
    match kind
    case EntityNotFound => Some(NotFound)
    case Registration => Some(Conflict)
    case ConstraintViolation => Some(BadRequest)
    case AccessDenied => Some(Forbidden)
    case DataProcessing => Some(BadRequest)
    case IllegalArgument => None
    case DuplicateKey => None
  }

  /** `getObjectResponseEntity`: the body holds the clock reading, the status
      and the exception's message, under these keys and in this order. */
  method GetObjectResponseEntity(message: string, status: HttpStatus, now: Timestamp) returns (response: ResponseEntity)
    ensures response.statusCode == Code(status)
    ensures Keys(response.body) == ["timestamp", "status", "message"]
    ensures Get(response.body, "timestamp") == Some(Time(now))
    ensures Get(response.body, "status") == Some(Status(status))
    ensures Get(response.body, "message") == Some(Text(message))
  {
    var body := new ResponseBody();
    body.Put("timestamp", Time(now));
    body.Put("status", Status(status));
    body.Put("message", Text(message));
    response := ResponseEntity(Code(status), body.entries);
    ThreeFreshPuts("timestamp", Time(now), "status", Status(status), "message", Text(message));
  }

  /** Three puts under distinct keys into an empty map keep their order and
      their values. */
  lemma ThreeFreshPuts(k1: string, v1: BodyValue, k2: string, v2: BodyValue, k3: string, v3: BodyValue)
    requires k1 != k2 && k1 != k3 && k2 != k3
    ensures var e := PutEntry(PutEntry(PutEntry([], k1, v1), k2, v2), k3, v3);
      && Keys(e) == [k1, k2, k3]
      && Get(e, k1) == Some(v1) && Get(e, k2) == Some(v2) && Get(e, k3) == Some(v3)
  {
    var e1 := PutEntry([], k1, v1);
    assert e1 == [(k1, v1)];
    assert Keys(e1) == [k1];
    PutNewKey(e1, k2, v2);
    var e2 := e1 + [(k2, v2)];
    assert Keys(e2) == [k1, k2] by {
      assert e2[1..] == [(k2, v2)];
    }
    PutNewKey(e2, k3, v3);
    ThreeEntries(k1, v1, k2, v2, k3, v3);
  }

  lemma ThreeEntries(k1: string, v1: BodyValue, k2: string, v2: BodyValue, k3: string, v3: BodyValue)
    requires k1 != k2 && k1 != k3 && k2 != k3
    ensures var e: Entries := [(k1, v1), (k2, v2), (k3, v3)];
      && Keys(e) == [k1, k2, k3]
      && Get(e, k1) == Some(v1) && Get(e, k2) == Some(v2) && Get(e, k3) == Some(v3)
  {
    var e: Entries := [(k1, v1), (k2, v2), (k3, v3)];
    assert e[1..] == [(k2, v2), (k3, v3)];
    assert e[1..][1..] == [(k3, v3)];
    assert Get(e[1..][1..], k3) == Some(v3);
    assert Get(e[1..], k3) == Some(v3);
  }

  /** The handler for a thrown exception, where there is one. */
  method HandleException(failure: Failure, now: Timestamp) returns (response: Option<ResponseEntity>)
    ensures response.Some? <==> HandlerStatus(failure.kind).Some?
    ensures response.Some? ==>
      && response.value.statusCode == Code(HandlerStatus(failure.kind).value)
      && Keys(response.value.body) == ["timestamp", "status", "message"]
      && Get(response.value.body, "message") == Some(Text(failure.message))
  {
    match HandlerStatus(failure.kind)
    case None =>
      response := None;
    case Some(status) =>
      var entity := GetObjectResponseEntity(failure.message, status, now);
      response := Some(entity);
  }

  /** A binding error: one on a field, or one on the object as a whole. */
  datatype ObjectError =
    | FieldError(field: string, defaultMessage: string)
    | GlobalError(defaultMessage: string)

  /** `getErrorMessage`: a field error renders as its field, a space and its
      message; any other error as its message. */
  function GetErrorMessage(e: ObjectError): (s: string)
    ensures e.FieldError? ==> |s| == |e.field| + 1 + |e.defaultMessage|
    ensures e.FieldError? ==> s[..|e.field|] == e.field && s[|e.field|] == ' ' && s[|e.field| + 1..] == e.defaultMessage
    ensures e.GlobalError? ==> s == e.defaultMessage
  {
    match e
    case FieldError(field, message) => field + " " + message
    case GlobalError(message) => message
  }

  /** The position of the first space, if there is one. */
  function FirstSpace(s: string): (r: Option<nat>)
    ensures r.Some? ==> r.value < |s| && s[r.value] == ' ' && forall i :: 0 <= i < r.value ==> s[i] != ' '
    ensures r.None? ==> forall i :: 0 <= i < |s| ==> s[i] != ' '
  {
    if s == [] then None
    else if s[0] == ' ' then Some(0)
    else match FirstSpace(s[1..])
      case None => None
      case Some(k) => Some(k + 1)
  }

  /** For a field name without spaces the rendering can be split back into the
      field and the message at the first space. */
  lemma FieldErrorRoundTrip(field: string, message: string)
    requires forall i :: 0 <= i < |field| ==> field[i] != ' '
    ensures var s := GetErrorMessage(FieldError(field, message));
      && FirstSpace(s) == Some(|field|)
      && s[..|field|] == field && s[|field| + 1..] == message
  {
    var s := GetErrorMessage(FieldError(field, message));
    assert forall i :: 0 <= i < |field| ==> s[i] == field[i];
  }

  /** One message per binding error, in order. */
  function ErrorMessages(errors: seq<ObjectError>): (messages: seq<string>)
    ensures |messages| == |errors|
    ensures forall i :: 0 <= i < |errors| ==> messages[i] == GetErrorMessage(errors[i])
  {
    if errors == [] then [] else [GetErrorMessage(errors[0])] + ErrorMessages(errors[1..])
  }

  /** `handleMethodArgumentNotValid`: the body holds the clock reading,
      BAD_REQUEST and the list of error messages; the response itself carries
      the status the framework passed in. */
  method HandleMethodArgumentNotValid(errors: seq<ObjectError>, statusCode: int, now: Timestamp)
    returns (response: ResponseEntity)
    ensures response.statusCode == statusCode
    ensures Keys(response.body) == ["timestamp", "status", "errors"]
    ensures Get(response.body, "timestamp") == Some(Time(now))
    ensures Get(response.body, "status") == Some(Status(BadRequest))
    ensures Get(response.body, "errors") == Some(TextList(ErrorMessages(errors)))
  {
    var body := new ResponseBody();
    body.Put("timestamp", Time(now));
    body.Put("status", Status(BadRequest));
    var errorsList := ErrorMessages(errors);
    body.Put("errors", TextList(errorsList));
    response := ResponseEntity(statusCode, body.entries);
    ThreeFreshPuts("timestamp", Time(now), "status", Status(BadRequest), "errors", TextList(errorsList));
  }
}
