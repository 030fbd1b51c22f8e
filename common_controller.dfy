/**
 * The request helpers every admission path depends on (controllers/common/common_controller.go):
 * the bearer-header parser GetMyToken and the two response-envelope builders.
 */
module CommonController {
  import opened Wrappers

  // ---------------------------------------------------------------------------
  // Whitespace and field splitting (Go's unicode.IsSpace and strings.Fields)
  // ---------------------------------------------------------------------------

  /** Go's unicode.IsSpace: the Latin-1 spaces plus the Unicode White_Space runes above U+00FF. */
  predicate IsSpace(c: char) {
    || c == '\t' || c == '\n' || c == '\U{B}' || c == '\U{C}' || c == '\r' || c == ' '
    || c == '\U{85}' || c == '\U{A0}'
    || c == '\U{1680}' || ('\U{2000}' <= c <= '\U{200A}')
    || c == '\U{2028}' || c == '\U{2029}' || c == '\U{202F}' || c == '\U{205F}' || c == '\U{3000}'
  }

  /** A field of strings.Fields: non-empty and free of whitespace. */
  predicate IsField(s: string) {
    |s| > 0 && forall i :: 0 <= i < |s| ==> !IsSpace(s[i])
  }

  /** The longest prefix of `s` that contains no whitespace. */
  function Word(s: string): (w: string)
    ensures |w| <= |s| && w == s[..|w|]
    ensures forall i :: 0 <= i < |w| ==> !IsSpace(w[i])
    ensures |w| == |s| || IsSpace(s[|w|])
  {
    if s == [] || IsSpace(s[0]) then [] else [s[0]] + Word(s[1..])
  }

  /** strings.Fields: the maximal runs of non-whitespace characters of `s`, in order. */
  function Fields(s: string): (fs: seq<string>)
    ensures forall i :: 0 <= i < |fs| ==> IsField(fs[i])
    decreases |s|
  {
    if s == [] then []
    else if IsSpace(s[0]) then Fields(s[1..])
    else
      var w := Word(s);
      [w] + Fields(s[|w|..])
  }

  /** Leading whitespace does not change the fields. */
  lemma {:induction false} FieldsSkipsSpaces(sp: string, s: string)
    requires forall i :: 0 <= i < |sp| ==> IsSpace(sp[i])
    ensures Fields(sp + s) == Fields(s)
    decreases |sp|
  {
    if sp != [] {
      assert (sp + s)[0] == sp[0] && (sp + s)[1..] == sp[1..] + s;
      FieldsSkipsSpaces(sp[1..], s);
    } else {
      assert sp + s == s;
    }
  }

  /** The word at the front of `w + s` is exactly `w` when `s` is empty or starts with a space. */
  lemma {:induction false} WordOfField(w: string, s: string)
    requires forall i :: 0 <= i < |w| ==> !IsSpace(w[i])
    requires s == [] || IsSpace(s[0])
    ensures Word(w + s) == w
    decreases |w|
  {
    if w == [] {
      assert w + s == s;
    } else {
      assert (w + s)[1..] == w[1..] + s;
      WordOfField(w[1..], s);
    }
  }

  /** A field followed by a separator (or nothing) is the first field, and the rest is split on its own. */
  lemma FieldsCons(w: string, s: string)
    requires IsField(w)
    requires s == [] || IsSpace(s[0])
    ensures Fields(w + s) == [w] + Fields(s)
  {
    WordOfField(w, s);
    assert (w + s)[|w|..] == s;
  }

  /** Joining fields with single spaces and splitting again gives the fields back. */
  lemma {:induction false} FieldsOfJoin(fs: seq<string>)
    requires forall i :: 0 <= i < |fs| ==> IsField(fs[i])
    ensures Fields(Join(fs)) == fs
  {
    if |fs| == 1 {
      FieldsCons(fs[0], []);
      assert fs[0] + [] == fs[0];
    } else if |fs| > 1 {
      FieldsOfJoin(fs[1..]);
      FieldsSkipsSpaces(" ", Join(fs[1..]));
      FieldsCons(fs[0], " " + Join(fs[1..]));
      assert fs[0] + " " + Join(fs[1..]) == fs[0] + (" " + Join(fs[1..]));
      assert fs == [fs[0]] + fs[1..];
    }
  }

  /** The fields separated by one space each: the inverse of Fields on well-formed input. */
  function Join(fs: seq<string>): string {
    if fs == [] then ""
    else if |fs| == 1 then fs[0]
    else fs[0] + " " + Join(fs[1..])
  }

  // ---------------------------------------------------------------------------
  // Case-insensitive comparison (strings.EqualFold)
  // ---------------------------------------------------------------------------

  function ToLowerAscii(c: char): char {
    if 'A' <= c <= 'Z' then (c as int + 32) as char else c
  }

  /**
   * strings.EqualFold restricted to ASCII case folding. The parser only compares against
   * "bearer"; no rune outside ASCII folds to 'b', 'e', 'a' or 'r', so for that argument
   * this agrees with Unicode simple folding.
   */
  predicate EqualFold(a: string, b: string) {
    |a| == |b| && forall i :: 0 <= i < |a| ==> ToLowerAscii(a[i]) == ToLowerAscii(b[i])
  }

  // ---------------------------------------------------------------------------
  // GetMyToken
  // ---------------------------------------------------------------------------

  const HeaderMissing: string := "authorization header missing"
  const InvalidFormat: string := "invalid authorization format, expected 'Bearer <token>'"

  /**
   * GetMyToken: the token of an `Authorization: Bearer <token>` header. The header is split
   * on whitespace; the scheme is compared case-insensitively; fields after the token are ignored.
   */
  function GetMyToken(authHeader: string): (r: Result<string, string>)
    ensures r == Failure(HeaderMissing) <==> authHeader == ""
    ensures r.Success? <==>
              authHeader != "" && |Fields(authHeader)| >= 2 && EqualFold(Fields(authHeader)[0], "bearer")
    ensures r.Failure? ==> r.error in {HeaderMissing, InvalidFormat}
    ensures r.Success? ==> IsField(r.value) && r.value == Fields(authHeader)[1]
  {
    if authHeader == "" then Failure(HeaderMissing)
    else
      var fields := Fields(authHeader);
      if |fields| < 2 || !EqualFold(fields[0], "bearer") then Failure(InvalidFormat)
      else Success(fields[1])
  }

  /**
   * The inverse direction: a header made of any spelling of the scheme, whitespace, a
   * token and optionally more whitespace-led text yields exactly that token.
   */
  lemma BearerTokenRoundTrip(scheme: string, sep: string, token: string, rest: string)
    requires IsField(scheme) && EqualFold(scheme, "bearer")
    requires |sep| > 0 && forall i :: 0 <= i < |sep| ==> IsSpace(sep[i])
    requires IsField(token)
    requires rest == [] || IsSpace(rest[0])
    ensures GetMyToken(scheme + sep + token + rest) == Success(token)
  {
    var h := scheme + sep + token + rest;
    assert h == scheme + (sep + (token + rest));
    FieldsCons(token, rest);
    FieldsSkipsSpaces(sep, token + rest);
    FieldsCons(scheme, sep + (token + rest));
    assert Fields(h) == [scheme, token] + Fields(rest);
  }

  // ---------------------------------------------------------------------------
  // Response envelopes (models/common APIResponse)
  // ---------------------------------------------------------------------------

  /** APIResponse: `data` and `error` are Go `interface{}` values; None stands for JSON null. */
  datatype APIResponse<D, E> = APIResponse(success: bool, message: string, data: Option<D>, error: Option<E>)

  /** A JSON reply: the HTTP status and the envelope written as its body. */
  datatype Reply<D, E> = Reply(status: int, body: APIResponse<D, E>)

  /** SuccessResponse: status 200, success, the message and data as given, error null. */
  function SuccessResponse<D, E>(message: string, data: Option<D>): (r: Reply<D, E>)
    ensures r.status == 200 && r.body.success
    ensures r.body.message == message && r.body.data == data && r.body.error.None?
  {
    Reply(200, APIResponse(true, message, data, None))
  }

  /** ErrorResponse: the given status, failure, data null, the message and error details as given. */
  function ErrorResponse<D, E>(statusCode: int, message: string, errorDetails: Option<E>): (r: Reply<D, E>)
    ensures r.status == statusCode && !r.body.success
    ensures r.body.message == message && r.body.data.None? && r.body.error == errorDetails
  {
    Reply(statusCode, APIResponse(false, message, None, errorDetails))
  }
}
