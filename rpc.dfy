/**
 * `Robot`: the request envelope sent to the device's `/umi` endpoint, the
 * ordered classification of what comes back, the request counter, and the
 * retry loop that waits for the device to hand out its password.
 *
 * The HTTPS exchange is a parameter: each request is given the `Transport`
 * outcome it meets. JSON text is represented by the value `json_decode`
 * would produce.
 */
module Rpc {
  import opened Failures
  import Schedule
  import Prefs

  /** What `file_get_contents` produced: false with the response header lines seen, or a body as `json_decode` reads it (None where it cannot). */
  datatype Transport = Failed(headers: seq<string>) | Reply(decoded: Option<Json>)

  /** The JSON body of a request: `{"do": verb, "args": args, "id": id}`. */
  datatype Envelope = Envelope(verb: string, args: seq<Json>, id: int)

  /** One POST: the host, the password sent for the basic-auth user `user` if one is held, and the body. */
  datatype Posted = Posted(host: string, authPassword: Option<string>, body: Envelope)

  /** `s` contains `p` at position `i`. */
  predicate OccursAt(s: string, p: string, i: int) {
    0 <= i && i + |p| <= |s| && s[i..i + |p|] == p
  }

  /** Whether `p` occurs in `s`: `preg_match` of a pattern with no special characters. */
  function Contains(s: string, p: string): (r: bool)
    ensures r <==> exists i :: OccursAt(s, p, i)
  {
    if |s| < |p| then false
    else if s[..|p|] == p then
      assert OccursAt(s, p, 0);
      true
    else
      var r := Contains(s[1..], p);
      assert r ==> exists i :: OccursAt(s, p, i) by {
        if r {
          var i :| OccursAt(s[1..], p, i);
          assert s[i + 1..i + 1 + |p|] == s[1..][i..i + |p|];
          assert OccursAt(s, p, i + 1);
        }
      }
      assert (exists i :: OccursAt(s, p, i)) ==> r by {
        if exists i :: OccursAt(s, p, i) {
          var i :| OccursAt(s, p, i);
          assert i != 0;
          assert s[1..][i - 1..i - 1 + |p|] == s[i..i + |p|];
          assert OccursAt(s[1..], p, i - 1);
        }
      }
      r
  }

  /** `$reqArgs`: the command, followed by the arguments when they are given. */
  function RequestArgs(command: string, args: Option<Json>): (r: seq<Json>)
    ensures |r| == if args.Some? then 2 else 1
    ensures r[0] == JString(command)
    ensures args.Some? ==> r[1] == args.value
  {
    [JString(command)] + (match args case Some(a) => [a] case None => [])
  }

  /**
   * What `request` makes of an outcome, in the order it checks:
   * no answer, an answer with " 401 " in its status line, any other
   * failed answer; a body that does not decode or decodes to a falsy
   * value; an object with `ok` (whatever its value); otherwise an error
   * carrying `err` when that is set. `property_exists` only accepts an
   * object or a string, and the exception's code must be an integer:
   * anything else is PHP's type error.
   */
  function Classify(t: Transport): (r: Result<Json>)
    ensures r == Err(NoResponse) <==> t.Failed? && t.headers == []
    ensures r == Err(AuthRequired) <==> t.Failed? && t.headers != [] && Contains(t.headers[0], " 401 ")
    ensures t.Failed? ==> r.Err? && r.error in {NoResponse, AuthRequired, InvalidResponse}
    ensures t.Reply? && (t.decoded.None? || !Truthy(t.decoded.value)) ==> r == Err(InvalidResponse)
    ensures r.Ok? <==> t.Reply? && t.decoded.Some? && t.decoded.value.JObject? && "ok" in t.decoded.value.fields
    ensures r.Ok? ==> r.value == t.decoded.value.fields["ok"]
    ensures r.Err? && r.error.RequestNotOk? ==> t.Reply? && t.decoded.Some? && Truthy(t.decoded.value)
    ensures r.Err? ==> !r.error.PasswordTimeout? && !r.error.InvalidParameter?
  {
    match t
    case Failed(headers) =>
      if headers == [] then Err(NoResponse)
      else if Contains(headers[0], " 401 ") then Err(AuthRequired)
      else Err(InvalidResponse)
    case Reply(decoded) =>
      if decoded.None? || !Truthy(decoded.value) then Err(InvalidResponse)
      else
        match decoded.value
        case JObject(fields) =>
          if "ok" in fields then Ok(fields["ok"])
          else if "err" in fields && fields["err"] != JNull then
            (match fields["err"]
             case JInt(code) => Err(RequestNotOk(Some(code)))
             case _ => Err(TypeError))
          else Err(RequestNotOk(None))
        case JString(_) => Err(RequestNotOk(None))
        case _ => Err(TypeError)
  }

  /** An error response either carries the device's integer code or none, exactly as `err` is set. */
  lemma ErrCodeCarried(fields: map<string, Json>)
    requires "ok" !in fields
    ensures "err" in fields && fields["err"].JInt? ==> Classify(Reply(Some(JObject(fields)))) == Err(RequestNotOk(Some(fields["err"].i)))
    ensures "err" !in fields || fields["err"] == JNull ==> Classify(Reply(Some(JObject(fields)))) == Err(RequestNotOk(None))
  {
  }

  /** A failed answer whose status line reads 401 means a wrong or missing password; another status does not. */
  lemma StatusLineExamples()
    ensures Classify(Failed(["HTTP/1.1 401 Unauthorized", "Connection: close"])) == Err(AuthRequired)
    ensures Classify(Failed(["HTTP/1.1 500 Internal Server Error"])) == Err(InvalidResponse)
  {
    assert OccursAt("HTTP/1.1 401 Unauthorized", " 401 ", 8);
    var s := "HTTP/1.1 500 Internal Server Error";
    assert forall k :: 0 <= k < |s| ==> s[k] != '4';
    forall i ensures !OccursAt(s, " 401 ", i) {
      if 0 <= i && i + 5 <= |s| {
        assert s[i..i + 5][1] == s[i + 1];
      }
    }
  }

  /** Typical answers: no answer, `{"err": 17}`, `{"ok": null}`, a body that does not decode. */
  lemma ClassifyExamples()
    ensures Classify(Failed([])) == Err(NoResponse)
    ensures Classify(Reply(Some(JObject(map["err" := JInt(17)])))) == Err(RequestNotOk(Some(17)))
    ensures Classify(Reply(Some(JObject(map["ok" := JNull])))) == Ok(JNull)
    ensures Classify(Reply(None)) == Err(InvalidResponse)
  {
  }

  /** What `->passwd` of the `get passwd` answer yields, if it is a string. */
  function PasswdValue(ok: Json): (p: Option<string>)
    ensures p.Some? <==> ok.JObject? && "passwd" in ok.fields && ok.fields["passwd"].JString?
    ensures p.Some? ==> ok.fields["passwd"] == JString(p.value)
  {
    match ok
    case JObject(fields) =>
      if "passwd" in fields && fields["passwd"].JString? then Some(fields["passwd"].s) else None
    case _ => None
  }

  /** What one `get passwd` attempt ends in, given the answer after the auth-required retries. */
  function PasswordOutcome(last: Result<Json>): (r: Result<string>)
    ensures last == Err(AuthRequired) ==> r == Err(PasswordTimeout)
    ensures last.Err? && last != Err(AuthRequired) ==> r == Err(last.error)
    ensures last.Ok? ==> (r.Ok? <==> PasswdValue(last.value).Some?)
    ensures last.Ok? && r.Ok? ==> Some(r.value) == PasswdValue(last.value)
    ensures last.Ok? && r.Err? ==> r.error == TypeError
  {
    match last
    case Err(AuthRequired) => Err(PasswordTimeout)
    case Err(e) => Err(e)
    case Ok(ok) =>
      match PasswdValue(ok)
      case Some(p) => Ok(p)
      case None => Err(TypeError)
  }

  /**
   * The number of attempts `getPassword` makes from attempt `k` on:
   * attempt `k` is made; it is followed by another one only when it was
   * refused for authentication and the clock read after it is still
   * before the deadline. The trace ends with a reading at or past the
   * deadline, so the count stays within it.
   */
  function Attempts(outcomes: seq<Transport>, clock: seq<int>, deadline: int, k: nat): (n: nat)
    requires k < |outcomes| && |clock| == |outcomes| + 1 && clock[|outcomes|] >= deadline
    ensures k < n <= |outcomes|
    ensures forall i :: k <= i < n - 1 ==> Classify(outcomes[i]) == Err(AuthRequired) && clock[i + 1] < deadline
    ensures Classify(outcomes[n - 1]) != Err(AuthRequired) || clock[n] >= deadline
    decreases |outcomes| - k
  {
    if Classify(outcomes[k]) == Err(AuthRequired) && clock[k + 1] < deadline then
      Attempts(outcomes, clock, deadline, k + 1)
    else
      k + 1
  }

  /**
   * The result of the whole retry loop, decided by its last attempt: it
   * times out exactly when every attempt made was refused for
   * authentication, and otherwise ends as that last attempt did.
   */
  function PasswordResult(outcomes: seq<Transport>, clock: seq<int>, deadline: int): (r: Result<string>)
    requires |outcomes| > 0 && |clock| == |outcomes| + 1 && clock[|outcomes|] >= deadline
    ensures r == Err(PasswordTimeout) <==>
      forall i :: 0 <= i < Attempts(outcomes, clock, deadline, 0) ==> Classify(outcomes[i]) == Err(AuthRequired)
    ensures r.Ok? ==> (exists i :: 0 <= i < |outcomes| && Classify(outcomes[i]).Ok? &&
                                   Some(r.value) == PasswdValue(Classify(outcomes[i]).value))
  {
    PasswordOutcome(Classify(outcomes[Attempts(outcomes, clock, deadline, 0) - 1]))
  }

  /** An answer other than "auth required" on the first try ends the loop at once, even with the deadline still ahead. */
  lemma {:induction false} OnlyAuthRetried(outcomes: seq<Transport>, clock: seq<int>, deadline: int)
    requires |outcomes| > 0 && |clock| == |outcomes| + 1 && clock[|outcomes|] >= deadline
    requires Classify(outcomes[0]) != Err(AuthRequired)
    ensures Attempts(outcomes, clock, deadline, 0) == 1
    ensures PasswordResult(outcomes, clock, deadline) == PasswordOutcome(Classify(outcomes[0]))
  {
  }

  /** A device that refuses every attempt makes the loop time out, after the first reading at or past the deadline. */
  lemma {:induction false} RefusedTimesOut(outcomes: seq<Transport>, clock: seq<int>, deadline: int)
    requires |outcomes| > 0 && |clock| == |outcomes| + 1 && clock[|outcomes|] >= deadline
    requires forall i :: 0 <= i < |outcomes| ==> Classify(outcomes[i]) == Err(AuthRequired)
    ensures PasswordResult(outcomes, clock, deadline) == Err(PasswordTimeout)
    ensures var n := Attempts(outcomes, clock, deadline, 0);
      clock[n] >= deadline && forall i :: 1 <= i < n ==> clock[i] < deadline
  {
    var n := Attempts(outcomes, clock, deadline, 0);
    assert Classify(outcomes[n - 1]) == Err(AuthRequired);
    forall i | 1 <= i < n ensures clock[i] < deadline {
      var j := i - 1;
      assert Classify(outcomes[j]) == Err(AuthRequired) && clock[j + 1] < deadline;
    }
  }

  /** The public facade methods that only send a request and return its result. */
  datatype Command =
    | GetTime | GetBbrun | GetLangs | GetSys | GetWirelessLastStatus
    | GetWeek | SetWeek(week: Json) | GetPreferences | SetPreferences(prefs: Json)
    | GetMission | GetWirelessConfig | GetWirelessStatus | GetCloudConfig | GetSKU
    | Start | Pause | Stop | Resume | Dock
    | SetTime(time: Json) | SetPtime(ptime: Json)

  /** The fixed (verb, command, args) triple each facade method passes to `request`. */
  datatype Call = Call(verb: string, command: string, args: Option<Json>)

  /** The `cmd` argument `{"op": op}`. */
  function Op(op: string): (j: Json)
    ensures j.JObject? && j.fields.Keys == {"op"} && j.fields["op"] == JString(op)
  {
    JObject(map["op" := JString(op)])
  }

  function CallOf(c: Command): (r: Call)
    ensures r.verb == "get" <==> r.args.None?
    ensures r.verb == "set" <==> r.args.Some?
    ensures r.command == "cmd" <==> c in {Start, Pause, Stop, Resume, Dock}
  {
    match c
    case GetTime => Call("get", "time", None)
    case GetBbrun => Call("get", "bbrun", None)
    case GetLangs => Call("get", "langs", None)
    case GetSys => Call("get", "sys", None)
    case GetWirelessLastStatus => Call("get", "wllaststat", None)
    case GetWeek => Call("get", "week", None)
    case SetWeek(w) => Call("set", "week", Some(w))
    case GetPreferences => Call("get", "prefs", None)
    case SetPreferences(p) => Call("set", "prefs", Some(p))
    case GetMission => Call("get", "mssn", None)
    case GetWirelessConfig => Call("get", "wlcfg", None)
    case GetWirelessStatus => Call("get", "wlstat", None)
    case GetCloudConfig => Call("get", "cloudcfg", None)
    case GetSKU => Call("get", "sku", None)
    case Start => Call("set", "cmd", Some(Op("start")))
    case Pause => Call("set", "cmd", Some(Op("pause")))
    case Stop => Call("set", "cmd", Some(Op("stop")))
    case Resume => Call("set", "cmd", Some(Op("resume")))
    case Dock => Call("set", "cmd", Some(Op("dock")))
    case SetTime(a) => Call("set", "time", Some(a))
    case SetPtime(a) => Call("set", "ptime", Some(a))
  }

  /** No two facade calls send the same request. */
  lemma CallOfInjective(a: Command, b: Command)
    requires CallOf(a) == CallOf(b)
    ensures a == b
  {
    if CallOf(a).command == "cmd" {
      assert Op("start").fields["op"] == JString("start");
      assert CallOf(a).args.value.fields["op"] == CallOf(b).args.value.fields["op"];
    }
  }

  class Robot {
    const ipAddress: string
    var password: Option<string>
    var requestId: int

    constructor (ipAddress: string, password: Option<string> := None)
      ensures this.ipAddress == ipAddress && this.password == password && requestId == 1
    {
      this.ipAddress := ipAddress;
      this.password := password;
      requestId := 1;
    }

    /**
     * `request`: posts the envelope with the next id (whatever the
     * outcome, the counter moves on by one) and classifies the outcome.
     */
    method Request(outcome: Transport, verb: string, command: string, args: Option<Json> := None)
      returns (sent: Posted, r: Result<Json>)
      modifies this`requestId
      ensures sent == Posted(ipAddress, password, Envelope(verb, RequestArgs(command, args), old(requestId)))
      ensures requestId == old(requestId) + 1
      ensures r == Classify(outcome)
    {
      sent := Posted(ipAddress, password, Envelope(verb, RequestArgs(command, args), requestId));
      requestId := requestId + 1;
      r := Classify(outcome);
    }

    /**
     * `getPassword`: `deadline` is the clock's first reading plus
     * `timeout`; attempt `k` meets `outcomes[k]`, and `clock[k + 1]` is
     * read after it. Only an auth-required answer is retried, after one
     * call of the progress callback (counted here when one is given); a
     * string password is stored and returned.
     */
    method GetPassword(outcomes: seq<Transport>, clock: seq<int>, timeout: int := 60, progress: bool := false)
      returns (r: Result<string>, sent: seq<Posted>, progressCalls: nat)
      requires |outcomes| > 0 && |clock| == |outcomes| + 1 && clock[|outcomes|] >= clock[0] + timeout
      modifies this`requestId, this`password
      ensures var n := Attempts(outcomes, clock, clock[0] + timeout, 0);
        && r == PasswordResult(outcomes, clock, clock[0] + timeout)
        && requestId == old(requestId) + n
        && |sent| == n
        && (forall i :: 0 <= i < n ==>
              sent[i] == Posted(ipAddress, old(password), Envelope("get", [JString("passwd")], old(requestId) + i)))
        && password == (if Classify(outcomes[n - 1]).Ok? then PasswdValue(Classify(outcomes[n - 1]).value) else old(password))
        && progressCalls == (if !progress then 0 else if Classify(outcomes[n - 1]) == Err(AuthRequired) then n else n - 1)
    {
      var deadline := clock[0] + timeout;
      ghost var n := Attempts(outcomes, clock, deadline, 0);
      var k := 0;
      sent := [];
      progressCalls := 0;
      while true
        invariant 0 <= k < |outcomes| && Attempts(outcomes, clock, deadline, k) == n
        invariant requestId == old(requestId) + k && password == old(password)
        invariant |sent| == k
        invariant forall i :: 0 <= i < k ==>
          sent[i] == Posted(ipAddress, old(password), Envelope("get", [JString("passwd")], old(requestId) + i))
        invariant progressCalls == if progress then k else 0
        decreases |outcomes| - k
      {
        var s, c := Request(outcomes[k], "get", "passwd");
        sent := sent + [s];
        if c.Ok? {
          password := PasswdValue(c.value);
          r := PasswordOutcome(c);
          return;
        }
        if c.error != AuthRequired {
          r := Err(c.error);
          return;
        }
        if progress {
          progressCalls := progressCalls + 1;
        }
        if clock[k + 1] >= deadline {
          r := Err(PasswordTimeout);
          return;
        }
        k := k + 1;
      }
    }

    /** A facade method: its fixed request. */
    method Perform(outcome: Transport, c: Command) returns (sent: Posted, r: Result<Json>)
      modifies this`requestId
      ensures sent == Posted(ipAddress, password, Envelope(CallOf(c).verb, RequestArgs(CallOf(c).command, CallOf(c).args), old(requestId)))
      ensures requestId == old(requestId) + 1
      ensures r == Classify(outcome)
    {
      var call := CallOf(c);
      sent, r := Request(outcome, call.verb, call.command, call.args);
    }

    /** `setWeek`: sends the schedule's encoding. */
    method SendWeek(outcome: Transport, week: Schedule.WeekSchedule) returns (sent: Posted, r: Result<Json>)
      requires week.Valid()
      modifies this`requestId
      ensures sent == Posted(ipAddress, password, Envelope("set", [JString("week"), Schedule.WireToJson(Schedule.EncodeEntries(week.sched[..]))], old(requestId)))
      ensures sent.body.verb == "set" && sent.body.id == old(requestId) && requestId == old(requestId) + 1
      ensures r == Classify(outcome)
    {
      var w := week.Encode();
      sent, r := Perform(outcome, SetWeek(Schedule.WireToJson(w)));
    }

    /** `setPreferences`: sends the record's encoding. */
    method SendPreferences(outcome: Transport, prefs: Prefs.Preferences) returns (sent: Posted, r: Result<Json>)
      requires prefs.flags.Valid()
      modifies this`requestId
      ensures sent == Posted(ipAddress, password, Envelope("set", [JString("prefs"), Prefs.ArgsToJson(Prefs.Encode(prefs))], old(requestId)))
      ensures sent.body.verb == "set" && sent.body.id == old(requestId) && requestId == old(requestId) + 1
      ensures r == Classify(outcome)
    {
      sent, r := Perform(outcome, SetPreferences(Prefs.ArgsToJson(Prefs.Encode(prefs))));
    }
  }
}
