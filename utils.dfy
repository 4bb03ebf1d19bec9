/** Status classification, role codes, response assembly and error formatting (src/common/utils.ts). */
module Utils {
  import opened Js
  import opened Strings

  // HTTP status codes used by the pipeline
  const OK := 200
  const BAD_REQUEST := 400
  const TOO_MANY_REQUESTS := 429
  const INTERNAL_SERVER_ERROR := 500

  /** The numeric value of a role name in the user-role enumeration. */
  function RoleValue(name: string): Option<int> {
    if name == "Anonym" then Some(1)
    else if name == "Registered" then Some(2)
    else if name == "Admin" then Some(4)
    else None
  }

  /** `role[0].toUpperCase() + role.slice(1)` for a non-empty role. */
  function Capitalize(role: string): (r: string)
    requires role != ""
    ensures |r| == |role| && r[1..] == role[1..]
  {
    [UpperChar(role[0])] + role[1..]
  }

  /**
   * `getRoleCode(role)`: upper-cases the first character only and looks the result up in the
   * enumeration; undefined (None) for an unknown name. An empty role makes `role[0]` undefined and
   * the call throws a TypeError.
   */
  function GetRoleCode(role: string): (r: Completion<Option<int>>)
    ensures r.Throw? <==> role == ""
    ensures r.Throw? ==> r.thrown.Error? && r.thrown.name == "TypeError"
    ensures r.Normal? && r.value.Some? ==> r.value.value in {1, 2, 4}
    ensures r.Normal? ==> (r.value.Some? <==> Capitalize(role) in {"Anonym", "Registered", "Admin"})
  {
    if role == "" then Throw(Error("TypeError", "Cannot read properties of undefined (reading 'toUpperCase')", 0))
    else Normal(RoleValue(Capitalize(role)))
  }

  /** The role codes are 1, 2 and 4: distinct single bits. */
  lemma RoleCodesAreDistinctBits(a: string, b: string)
    requires RoleValue(a).Some? && RoleValue(b).Some?
    ensures RoleValue(a).value in {1, 2, 4}
    ensures a != b ==> RoleValue(a).value != RoleValue(b).value
  {
  }

  /** `name` with its first letter in lower case. */
  function Uncapitalized(name: string): string
    requires name != ""
  {
    [LowerChar(name[0])] + name[1..]
  }

  /** A role is found exactly when it is a declared name, or that name with a lower-case first letter. */
  lemma {:induction false} GetRoleCodeFinds(role: string, name: string)
    requires name in {"Anonym", "Registered", "Admin"}
    ensures GetRoleCode(role) == Normal(RoleValue(name)) <==> role == name || role == Uncapitalized(name)
  {
    var lower := Uncapitalized(name);
    assert lower[0] == LowerChar(name[0]);
    if GetRoleCode(role) == Normal(RoleValue(name)) {
      assert role != "";
      var c := Capitalize(role);
      assert RoleValue(c) == RoleValue(name);
      assert c == name;
      assert role[1..] == name[1..];
      if 'a' <= role[0] <= 'z' {
        assert role == [role[0]] + role[1..];
        assert role == lower;
      } else {
        assert role == [role[0]] + role[1..];
        assert role == name;
      }
    }
    if role == name || role == lower {
      assert Capitalize(role) == name;
    }
  }

  /** A role whose name is only right after the first character is not found: "aDMIN" is unknown. */
  lemma OnlyFirstCharacterIsUpperCased()
    ensures GetRoleCode("aDMIN") == Normal(None)
  {
    assert Capitalize("aDMIN") == "ADMIN";
  }

  /** `isErrorCode(code)`: the decimal form of `code` does not start with '2'. */
  function IsErrorCode(code: int): (r: bool)
    ensures !r <==> code >= 0 && LeadingDigit(code) == 2
  {
    var s := IntToString(code);
    !(|s| > 0 && s[0] == '2')
  }

  /** A code is a success code exactly when it is non-negative and lies in [2 * 10^k, 3 * 10^k). */
  lemma IsErrorCodeMeaning(code: int)
    ensures !IsErrorCode(code) <==> code >= 0 && exists k: nat :: InDecade(code, 2, k)
  {
    if code >= 0 {
      LeadingDigitRange(code, 2);
      assert IntToString(code)[0] == DigitChar(LeadingDigit(code));
    }
  }

  /** Every 2xx code is a success, 404 and 500 are errors, and so is every negative code. */
  lemma IsErrorCodeExamples(code: int)
    ensures 200 <= code <= 299 ==> !IsErrorCode(code)
    ensures code < 0 ==> IsErrorCode(code)
    ensures IsErrorCode(404) && IsErrorCode(500)
  {
    IsErrorCodeMeaning(code);
    if 200 <= code <= 299 {
      assert Pow10(2) == 100;
      assert InDecade(code, 2, 2);
    }
    IsErrorCodeMeaning(404);
    IsErrorCodeMeaning(500);
    forall k: nat ensures !InDecade(404, 2, k) && !InDecade(500, 2, k) {
      DecadeBounds(k);
    }
  }

  lemma DecadeBounds(k: nat)
    ensures k <= 2 ==> Pow10(k) <= 100
    ensures k >= 3 ==> Pow10(k) >= 1000
  {
    if k >= 3 {
      assert Pow10(3) == 1000;
      if k > 3 {
        DecadeBounds(k - 1);
      }
    } else if k > 0 {
      DecadeBounds(k - 1);
    }
  }

  const ValidationErrorMarker := "validationerror"

  /** `getStatusForError(error)`: 400 when the lower-cased string form mentions a validation error, else 500. */
  function GetStatusForError(error: Thrown): (r: int)
    ensures r == BAD_REQUEST || r == INTERNAL_SERVER_ERROR
    ensures r == BAD_REQUEST <==> exists i :: OccursAt(Lower(ToStringOf(error)), ValidationErrorMarker, i)
  {
    IndexOfFound(Lower(ToStringOf(error)), ValidationErrorMarker);
    if IndexOf(Lower(ToStringOf(error)), ValidationErrorMarker) > -1 then BAD_REQUEST else INTERNAL_SERVER_ERROR
  }

  /** The classification ignores letter case: errors whose string forms differ only in case get the same status. */
  lemma GetStatusForErrorIgnoresCase(a: Thrown, b: Thrown)
    requires Lower(ToStringOf(a)) == Lower(ToStringOf(b))
    ensures GetStatusForError(a) == GetStatusForError(b)
  {
  }

  /** An error whose string form contains "ValidationError" is a bad request. */
  lemma {:induction false} ValidationErrorIsBadRequest(error: Thrown, i: nat)
    requires OccursAt(ToStringOf(error), "ValidationError", i)
    ensures GetStatusForError(error) == BAD_REQUEST
  {
    var s := ToStringOf(error);
    var l := Lower(s);
    assert l[i..i + 15] == Lower(s[i..i + 15]);
    assert Lower("ValidationError") == ValidationErrorMarker;
    assert OccursAt(l, ValidationErrorMarker, i);
  }

  /** A response header. */
  datatype Header = Header(name: string, value: string)

  /** What a controller hands to the response handler: `{ result, code, headers?, message? }`. */
  datatype Reply = Reply(result: Value, code: int, headers: seq<Header>, message: Option<string>)

  /** The JSON body `{ result }`. */
  function ResultBody(result: Value): Value {
    Obj(map["result" := result])
  }

  /** The Express response as far as the handler changes it. */
  class Response {
    var headers: map<string, string>
    var status: int
    var body: Option<Value>

    constructor ()
      ensures headers == map[] && status == OK && body == None
    {
      headers, status, body := map[], OK, None;
    }

    /** `res.set(name, value)` */
    method Set(name: string, value: string)
      modifies this
      ensures headers == old(headers)[name := value]
      ensures status == old(status) && body == old(body)
    {
      headers := headers[name := value];
    }

    /** `res.status(code).json(body)` */
    method Send(code: int, json: Value)
      modifies this
      ensures status == code && body == Some(json) && headers == old(headers)
    {
      status, body := code, Some(json);
    }
  }

  /** The header map after setting each header of `hs` in order. */
  function SetHeaders(m: map<string, string>, hs: seq<Header>): map<string, string>
    decreases |hs|
  {
    if hs == [] then m else SetHeaders(m[hs[0].name := hs[0].value], hs[1..])
  }

  /** The value of the last header named `name` in `hs`. */
  function LastValue(hs: seq<Header>, name: string): Option<string>
    decreases |hs|
  {
    if hs == [] then None
    else if hs[|hs| - 1].name == name then Some(hs[|hs| - 1].value)
    else LastValue(hs[..|hs| - 1], name)
  }

  lemma {:induction false} SetHeadersSnoc(m: map<string, string>, hs: seq<Header>, h: Header)
    ensures SetHeaders(m, hs + [h]) == SetHeaders(m, hs)[h.name := h.value]
    decreases |hs|
  {
    if hs != [] {
      assert (hs + [h])[1..] == hs[1..] + [h];
      SetHeadersSnoc(m[hs[0].name := hs[0].value], hs[1..], h);
    }
  }

  /** After the headers are set, each listed name carries the last value given for it; every other header is unchanged. */
  lemma {:induction false} SetHeadersLastWins(m: map<string, string>, hs: seq<Header>, name: string)
    ensures LastValue(hs, name).Some? ==> name in SetHeaders(m, hs) && SetHeaders(m, hs)[name] == LastValue(hs, name).value
    ensures LastValue(hs, name).None? ==> (name in SetHeaders(m, hs) <==> name in m)
    ensures LastValue(hs, name).None? && name in m ==> SetHeaders(m, hs)[name] == m[name]
    decreases |hs|
  {
    if hs != [] {
      var init, last := hs[..|hs| - 1], hs[|hs| - 1];
      assert hs == init + [last];
      SetHeadersSnoc(m, init, last);
      SetHeadersLastWins(m, init, name);
    }
  }

  /**
   * `defaultResponseHandler(res, { result, code, headers = [] })`: sets every listed header in
   * order, then the status and the body `{ result }`.
   */
  method DefaultResponseHandler(res: Response, reply: Reply)
    modifies res
    ensures res.headers == SetHeaders(old(res.headers), reply.headers)
    ensures res.status == reply.code && res.body == Some(ResultBody(reply.result))
  {
    var i := 0;
    while i < |reply.headers|
      invariant 0 <= i <= |reply.headers|
      invariant SetHeaders(res.headers, reply.headers[i..]) == SetHeaders(old(res.headers), reply.headers)
    {
      var h := reply.headers[i];
      assert reply.headers[i..][1..] == reply.headers[i + 1..];
      res.Set(h.name, h.value);
      i := i + 1;
    }
    res.Send(reply.code, ResultBody(reply.result));
  }

  /** A template-literal rendering of a possibly undefined string. */
  function Render(s: Option<string>): string {
    if s.Some? then s.value else "undefined"
  }

  function FormatNameMessage(name: string, message: string): string {
    "name=" + name + ":message=" + message
  }

  /** `stringifyError(error)`: `name=<name>:message=<message>`, "undefined" for a missing part. */
  function StringifyError(error: Thrown): (r: string)
    ensures "name=" <= r
    ensures var n := Render(NameOf(error)); ':' !in n ==>
      |r| >= 5 + |n| + 9 && r[5..5 + |n|] == n && r[5 + |n|..5 + |n| + 9] == ":message="
      && r[5 + |n| + 9..] == Render(MessageOf(error))
  {
    FormatNameMessage(Render(NameOf(error)), Render(MessageOf(error)))
  }

  /** When names contain no ':', the formatted text determines both the name and the message. */
  lemma FormatNameMessageInjective(n1: string, m1: string, n2: string, m2: string)
    requires ':' !in n1 && ':' !in n2
    requires FormatNameMessage(n1, m1) == FormatNameMessage(n2, m2)
    ensures n1 == n2 && m1 == m2
  {
    var a := FormatNameMessage(n1, m1);
    assert a[5..] == n1 + ":message=" + m1;
    assert a[5..] == n2 + ":message=" + m2;
    if |n1| < |n2| {
      ShorterNameDiffers(n1, m1, n2, m2);
    }
    if |n2| < |n1| {
      ShorterNameDiffers(n2, m2, n1, m1);
    }
    assert n1 == a[5..5 + |n1|] == n2;
    assert m1 == a[5 + |n1| + 9..] == m2;
  }

  /** A thrown string has neither name nor message: both render as "undefined". */
  lemma StringifyThrownString(text: string)
    ensures StringifyError(Text(text)) == "name=undefined:message=undefined"
  {
    assert Render(NameOf(Text(text))) == "undefined" && Render(MessageOf(Text(text))) == "undefined";
    assert FormatNameMessage("undefined", "undefined") == "name=undefined:message=undefined";
  }

  /** When error names contain no ':', the formatted text determines the name and the rendered message. */
  lemma StringifyErrorDetermines(a: Thrown, b: Thrown)
    requires NameOf(a).Some? && NameOf(b).Some? && ':' !in NameOf(a).value && ':' !in NameOf(b).value
    requires StringifyError(a) == StringifyError(b)
    ensures NameOf(a) == NameOf(b) && Render(MessageOf(a)) == Render(MessageOf(b))
  {
    FormatNameMessageInjective(Render(NameOf(a)), Render(MessageOf(a)), Render(NameOf(b)), Render(MessageOf(b)));
  }

  lemma ShorterNameDiffers(n1: string, m1: string, n2: string, m2: string)
    requires |n1| < |n2| && ':' !in n2
    ensures n1 + ":message=" + m1 != n2 + ":message=" + m2
  {
    var x, y := n1 + ":message=" + m1, n2 + ":message=" + m2;
    assert x[|n1|] == ':';
    assert y[|n1|] == n2[|n1|];
  }
}
