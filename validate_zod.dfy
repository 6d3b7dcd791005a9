/**
 * The `validateBody(schema)` middleware: run the schema on the request body;
 * on failure answer 400 with one detail per issue and stop, on success
 * replace the body by the parsed data and pass the request on.
 */
module ValidateZod {
  import opened Wrappers
  import opened JsValues
  import opened SensorSchemas

  /** One entry of the `details` list a failed validation answers with. */
  datatype Detail = Detail(path: string, message: string)

  /** The index of the first `c` in `s`, or `|s|`. */
  function IndexOf(s: string, c: char): (k: nat)
    ensures k <= |s|
    ensures forall i :: 0 <= i < k ==> s[i] != c
    ensures k < |s| ==> s[k] == c
  {
    if s == [] then 0
    else if s[0] == c then 0
    else 1 + IndexOf(s[1..], c)
  }

  /** `s.split(c)` for a one-character separator: the pieces between the separators. */
  function Split(s: string, c: char): (parts: seq<string>)
    ensures parts != []
    decreases |s|
  {
    var k := IndexOf(s, c);
    if k == |s| then [s] else [s[..k]] + Split(s[k + 1..], c)
  }

  /** No piece contains the separator. */
  predicate NoSeparator(parts: seq<string>, c: char) {
    forall i, j :: 0 <= i < |parts| && 0 <= j < |parts[i]| ==> parts[i][j] != c
  }

  /**
   * Joining with `.` loses nothing when no key contains a dot: splitting
   * the joined path at the dots gives the keys back.
   */
  lemma {:induction false} JoinSplit(parts: seq<string>)
    requires parts != [] && NoSeparator(parts, '.')
    ensures Split(Join(parts, "."), '.') == parts
    decreases |parts|
  {
    var p := parts[0];
    if |parts| == 1 {
      assert forall j :: 0 <= j < |p| ==> p[j] != '.' by {
        forall j | 0 <= j < |p| ensures p[j] != '.' { assert parts[0][j] != '.'; }
      }
      assert IndexOf(p, '.') == |p|;
    } else {
      var rest := parts[1..];
      var s := Join(parts, ".");
      assert s == p + "." + Join(rest, ".");
      assert NoSeparator(rest, '.') by {
        forall i, j | 0 <= i < |rest| && 0 <= j < |rest[i]| ensures rest[i][j] != '.' {
          assert rest[i] == parts[i + 1];
        }
      }
      assert IndexOf(s, '.') == |p| by {
        forall j | 0 <= j < |p| ensures s[j] != '.' { assert s[j] == parts[0][j]; }
        assert s[|p|] == '.';
      }
      assert s[..|p|] == p;
      assert s[|p| + 1..] == Join(rest, ".");
      JoinSplit(rest);
    }
  }

  /** `issue.path.join('.') || 'body'`: an empty joined path names the whole body. */
  function DetailPath(path: seq<string>): (r: string)
    ensures r != ""
    ensures path == [] ==> r == "body"
    ensures |path| == 1 && path[0] != "" ==> r == path[0]
    ensures r != "body" ==> r == Join(path, ".")
  {
    var joined := Join(path, ".");
    if joined == "" then "body" else joined
  }

  /** The issue-to-detail `map`. */
  function Details(issues: seq<Issue>): (ds: seq<Detail>)
    ensures |ds| == |issues|
    ensures forall i :: 0 <= i < |issues| ==>
      ds[i].path == DetailPath(issues[i].path) && ds[i].message == issues[i].message
  {
    if issues == [] then []
    else [Detail(DetailPath(issues[0].path), issues[0].message)] + Details(issues[1..])
  }

  /** A detail as the JSON object it is sent as. */
  function DetailJson(d: Detail): Value {
    Obj([("path", Str(d.path)), ("message", Str(d.message))])
  }

  /** The JSON body of the 400 answer. */
  function FailureBody(issues: seq<Issue>): (v: Value)
    ensures v.Obj?
    ensures Get(v.entries, "success") == Bool(false)
    ensures Get(v.entries, "error") == Str("Validation error")
    ensures Get(v.entries, "details").Arr? && |Get(v.entries, "details").items| == |issues|
  {
    var ds := Details(issues);
    var entries := [("success", Bool(false)), ("error", Str("Validation error")),
                    ("details", Arr(seq(|ds|, i requires 0 <= i < |ds| => DetailJson(ds[i]))))];
    assert entries[0].0 == "success" && entries[1].0 == "error" && entries[2].0 == "details";
    Obj(entries)
  }

  /** The request and response one middleware call sees. */
  class Exchange {
    var body: Value
    var status: Option<nat>
    var response: Option<Value>
    var nextCalls: nat

    /** A request with body `body`, no answer yet and `next` not called. */
    constructor(body: Value)
      ensures this.body == body && status == None && response == None && nextCalls == 0
    {
      this.body := body;
      status := None;
      response := None;
      nextCalls := 0;
    }

    /**
     * The middleware built by `validateBody(schema)`. On failure the answer
     * is 400 with the details and `next` is not called; on success the body
     * is the parsed data, nothing is answered and `next` runs once.
     */
    method ValidateBody(schema: Value -> Result<Value, seq<Issue>>)
      modifies this
      ensures var parsed := schema(old(body));
        && (parsed.Err? ==>
              && status == Some(400) && response == Some(FailureBody(parsed.error))
              && body == old(body) && nextCalls == old(nextCalls))
        && (parsed.Ok? ==>
              && body == parsed.value && nextCalls == old(nextCalls) + 1
              && status == old(status) && response == old(response))
    {
      var parsed := schema(body);
      if parsed.Err? {
        status := Some(400);
        response := Some(FailureBody(parsed.error));
        return;
      }
      body := parsed.value;
      nextCalls := nextCalls + 1;
    }
  }

  /**
   * With the sensor-creation schema, a body that is not an object is
   * answered with a single detail at `body`.
   */
  lemma NonObjectDetail(body: Value)
    requires !body.Obj?
    ensures ParseCreateBody(body).Err?
    ensures Details(ParseCreateBody(body).error) == [Detail("body", Expected("object", body))]
  {
  }

  /**
   * With the sensor-creation schema, an undeclared key is reported at
   * `body`, since `.strict()` puts its issue on the empty path.
   */
  lemma StrictIssueAtBody(unknown: seq<string>)
    requires unknown != []
    ensures |Details(StrictIssues(unknown))| == 1
    ensures Details(StrictIssues(unknown))[0].path == "body"
  {
  }
}
