/**
 * The last step of signal parsing: the language model's reply text is
 * stripped of a Markdown code fence, decoded as JSON, and accepted as the
 * parsed message unless it is an "info" message with no symbol.
 *
 * The JSON decoder is a parameter (`decode`, None for a decoding error); the
 * fence stripping follows the two regular expressions exactly, including `$`
 * matching just before a final newline.
 */
module SignalParser {
  import opened Wrappers
  import opened Search

  datatype Json =
    | JNull
    | JBool(b: bool)
    | JNumber(x: real)
    | JString(s: string)
    | JArray(elements: seq<Json>)
    | JObject(members: seq<Member>)

  datatype Member = Member(key: string, value: Json)

  /** Python truthiness of a decoded value: null, false, zero and empty containers are falsy. */
  predicate Truthy(j: Json) {
    match j
    case JNull => false
    case JBool(b) => b
    case JNumber(x) => x != 0.0
    case JString(s) => |s| > 0
    case JArray(a) => |a| > 0
    case JObject(m) => |m| > 0
  }

  /** `dict.get(key)` on a decoded object: a repeated key keeps its last value. */
  function Lookup(members: seq<Member>, key: string): (r: Option<Json>)
    ensures r.None? <==> forall i :: 0 <= i < |members| ==> members[i].key != key
    ensures r.Some? ==> exists i :: 0 <= i < |members| && members[i] == Member(key, r.value)
                                    && forall j :: i < j < |members| ==> members[j].key != key
  {
    match LatestWhere(members, (m: Member) => m.key == key)
    case None => None
    case Some(i) => Some(members[i].value)
  }

  /** The characters `\s` matches in a str pattern: those Python's `str.isspace` accepts. */
  predicate IsSpace(c: char) {
    ('\U{9}' <= c <= '\U{D}') || ('\U{1C}' <= c <= '\U{20}') || c == '\U{85}' || c == '\U{A0}'
    || c == '\U{1680}' || ('\U{2000}' <= c <= '\U{200A}') || c == '\U{2028}' || c == '\U{2029}'
    || c == '\U{202F}' || c == '\U{205F}' || c == '\U{3000}'
  }

  predicate AllSpace(s: string) {
    forall i :: 0 <= i < |s| ==> IsSpace(s[i])
  }

  const Fence := "```"
  const OpeningFence := "```json"

  /** `s` without its leading whitespace (`\s*` at the start, greedy). */
  function DropSpaces(s: string): string
    decreases |s|
  {
    if |s| > 0 && IsSpace(s[0]) then DropSpaces(s[1..]) else s
  }

  /** What is dropped is all whitespace, and what is kept does not start with whitespace. */
  lemma {:induction false} DropSpacesSpec(s: string)
    ensures var r := DropSpaces(s);
      |r| <= |s| && r == s[|s| - |r|..] && AllSpace(s[..|s| - |r|]) && (|r| > 0 ==> !IsSpace(r[0]))
    decreases |s|
  {
    if |s| > 0 && IsSpace(s[0]) {
      var t := s[1..];
      var r := DropSpaces(t);
      DropSpacesSpec(t);
      var n := |t| - |r|;
      assert t[n..] == s[n + 1..];
      assert s[..n + 1] == [s[0]] + t[..n];
      var dropped := s[..n + 1];
      forall i | 0 <= i < n + 1 ensures IsSpace(dropped[i]) {
        if i > 0 {
          assert dropped[i] == t[..n][i - 1];
        }
      }
    }
  }

  /** `s` without its trailing whitespace: the longest run of whitespace that ends it. */
  function TrimSpaces(s: string): string
    decreases |s|
  {
    if |s| > 0 && IsSpace(s[|s| - 1]) then TrimSpaces(s[..|s| - 1]) else s
  }

  /** What is trimmed is all whitespace, and what is kept does not end with whitespace. */
  lemma {:induction false} TrimSpacesSpec(s: string)
    ensures var r := TrimSpaces(s);
      |r| <= |s| && r == s[..|r|] && AllSpace(s[|r|..]) && (|r| > 0 ==> !IsSpace(r[|r| - 1]))
    decreases |s|
  {
    if |s| > 0 && IsSpace(s[|s| - 1]) {
      var r := TrimSpaces(s[..|s| - 1]);
      TrimSpacesSpec(s[..|s| - 1]);
      assert s[|r|..] == s[..|s| - 1][|r|..] + [s[|s| - 1]];
    }
  }

  /**
   * `re.sub(r"^```json\s*", "", s)`: an opening fence at the very start is
   * removed together with the whitespace that follows it; anything else is
   * left as it is.
   */
  function StripOpeningFence(s: string): string {
    if OpeningFence <= s then DropSpaces(s[7..]) else s
  }

  lemma StripOpeningFenceSpec(s: string)
    ensures !(OpeningFence <= s) ==> StripOpeningFence(s) == s
    ensures OpeningFence <= s ==> var r := StripOpeningFence(s);
      |r| <= |s| - 7 && r == s[|s| - |r|..] && AllSpace(s[7..|s| - |r|]) && (|r| > 0 ==> !IsSpace(r[0]))
  {
    if OpeningFence <= s {
      var r := DropSpaces(s[7..]);
      DropSpacesSpec(s[7..]);
      assert s[7..][|s| - 7 - |r|..] == s[|s| - |r|..];
      assert s[7..][..|s| - 7 - |r|] == s[7..|s| - |r|];
    }
  }

  /**
   * `re.sub(r"\s*```$", "", s)`: a closing fence that ends the text, or is
   * followed only by a final newline, is removed together with all the
   * whitespace before it; the final newline, if any, stays.
   */
  function StripClosingFence(s: string): string {
    if EndsWithFence(s) then TrimSpaces(s[..|s| - 3])
    else if EndsWithFenceLine(s) then TrimSpaces(s[..|s| - 4]) + "\n"
    else s
  }

  lemma StripClosingFenceSpec(s: string)
    ensures EndsWithFence(s) ==> var r := StripClosingFence(s);
      |r| <= |s| - 3 && r == s[..|r|] && AllSpace(s[|r|..|s| - 3]) && (|r| > 0 ==> !IsSpace(r[|r| - 1]))
    ensures EndsWithFenceLine(s) ==> var r := StripClosingFence(s);
      |r| >= 1 && r[|r| - 1] == '\n'
      && var c := r[..|r| - 1];
         |c| <= |s| - 4 && c == s[..|c|] && AllSpace(s[|c|..|s| - 4]) && (|c| > 0 ==> !IsSpace(c[|c| - 1]))
    ensures !EndsWithFence(s) && !EndsWithFenceLine(s) ==> StripClosingFence(s) == s
  {
    if EndsWithFence(s) {
      FenceEndsNotWithNewline(s);
      var r := TrimSpaces(s[..|s| - 3]);
      TrimSpacesSpec(s[..|s| - 3]);
      assert s[..|s| - 3][|r|..] == s[|r|..|s| - 3];
    } else if EndsWithFenceLine(s) {
      var c := TrimSpaces(s[..|s| - 4]);
      TrimSpacesSpec(s[..|s| - 4]);
      assert s[..|s| - 4][|c|..] == s[|c|..|s| - 4];
      assert (c + "\n")[..|c|] == c;
    }
  }

  /** A text that ends with a fence does not also end with a fence and a newline. */
  lemma FenceEndsNotWithNewline(s: string)
    requires EndsWithFence(s)
    ensures !EndsWithFenceLine(s)
  {
    assert s[|s| - 3..][2] == s[|s| - 1];
    assert |s| >= 4 ==> s[|s| - 4..][3] == s[|s| - 1];
  }

  /** The text ends with a closing fence. */
  predicate EndsWithFence(s: string) {
    |s| >= 3 && s[|s| - 3..] == Fence
  }

  /** The text ends with a closing fence and a newline (`$` also matches before a final newline). */
  predicate EndsWithFenceLine(s: string) {
    |s| >= 4 && s[|s| - 4..] == Fence + "\n"
  }

  /** The reply text with both fences stripped, opening fence first. */
  function Clean(s: string): string {
    StripClosingFence(StripOpeningFence(s))
  }

  datatype ParseResult =
    | Accepted(data: seq<Member>)  // the decoded object, returned as the parsed message
    | Rejected                     // None: not JSON, or an "info" message without a symbol
    | Raised                       // the decoded value is not an object, so `.get` raises

  /** An "info" message whose symbol is missing or falsy. */
  predicate SymbolLessInfo(members: seq<Member>) {
    Lookup(members, "message_type") == Some(JString("info"))
    && (Lookup(members, "symbol").None? || !Truthy(Lookup(members, "symbol").value))
  }

  /** `SignalParser._parse_response`. */
  function ParseResponse(decode: string -> Option<Json>, text: string): (r: ParseResult)
    ensures r.Rejected? <==>
      decode(Clean(text)).None?
      || (decode(Clean(text)).value.JObject? && SymbolLessInfo(decode(Clean(text)).value.members))
    ensures r.Raised? <==> decode(Clean(text)).Some? && !decode(Clean(text)).value.JObject?
    ensures r.Accepted? ==> decode(Clean(text)) == Some(JObject(r.data)) && !SymbolLessInfo(r.data)
  {
    match decode(Clean(text))
    case None => Rejected
    case Some(data) =>
      if !data.JObject? then Raised
      else if SymbolLessInfo(data.members) then Rejected
      else Accepted(data.members)
  }

  /** Text with no fence at either end reaches the decoder unchanged. */
  lemma UnfencedTextUnchanged(s: string)
    requires !(OpeningFence <= s)
    requires !EndsWithFence(s) && !EndsWithFenceLine(s)
    ensures Clean(s) == s
  {
  }

  /**
   * A body wrapped in a ```json fence, with any whitespace around it, is
   * recovered exactly, provided it neither starts nor ends with whitespace.
   */
  lemma FencedBodyRecovered(body: string, before: string, after: string)
    requires AllSpace(before) && AllSpace(after)
    requires |body| > 0 ==> !IsSpace(body[0]) && !IsSpace(body[|body| - 1])
    ensures Clean(OpeningFence + before + body + after + Fence) == body
  {
    if |body| > 0 {
      FencedTextRecovered(body, before, after);
    } else {
      assert OpeningFence + before + body + after + Fence == OpeningFence + (before + after) + Fence;
      EmptyFenceRecovered(before + after);
    }
  }

  lemma FencedTextRecovered(body: string, before: string, after: string)
    requires AllSpace(before) && AllSpace(after)
    requires |body| > 0 && !IsSpace(body[0]) && !IsSpace(body[|body| - 1])
    ensures Clean(OpeningFence + before + body + after + Fence) == body
  {
    var inner := body + after;
    var mid := inner + Fence;
    assert OpeningFence + before + body + after + Fence == OpeningFence + (before + mid);
    OpeningFenceStripped(before + mid);
    assert mid[0] == body[0];
    DropSpacesPrefix(before, mid);
    ClosingFenceStripped(inner);
    TrimSpacesSuffix(body, after);
  }

  lemma EmptyFenceRecovered(spaces: string)
    requires AllSpace(spaces)
    ensures Clean(OpeningFence + spaces + Fence) == ""
  {
    assert OpeningFence + spaces + Fence == OpeningFence + (spaces + Fence);
    OpeningFenceStripped(spaces + Fence);
    assert Fence[0] == '`';
    DropSpacesPrefix(spaces, Fence);
    assert Fence == [] + Fence;
    ClosingFenceStripped([]);
  }

  /** With a newline after the closing fence, that newline survives the stripping. */
  lemma FenceBeforeFinalNewline(body: string)
    requires |body| > 0 && !IsSpace(body[0]) && !IsSpace(body[|body| - 1])
    ensures Clean(OpeningFence + "\n" + body + "\n" + Fence + "\n") == body + "\n"
  {
    var inner := body + "\n";
    var mid := inner + (Fence + "\n");
    assert OpeningFence + "\n" + body + "\n" + Fence + "\n" == OpeningFence + ("\n" + mid);
    OpeningFenceStripped("\n" + mid);
    assert mid[0] == body[0];
    assert IsSpace("\n"[0]);
    DropSpacesPrefix("\n", mid);
    ClosingFenceLineStripped(inner);
    TrimSpacesSuffix(body, "\n");
  }

  lemma OpeningFenceStripped(rest: string)
    ensures StripOpeningFence(OpeningFence + rest) == DropSpaces(rest)
  {
    assert (OpeningFence + rest)[..7] == OpeningFence;
    assert (OpeningFence + rest)[7..] == rest;
  }

  lemma ClosingFenceStripped(rest: string)
    ensures StripClosingFence(rest + Fence) == TrimSpaces(rest)
  {
    var s := rest + Fence;
    assert s[|s| - 3..] == Fence;
    assert s[..|s| - 3] == rest;
  }

  lemma ClosingFenceLineStripped(rest: string)
    ensures StripClosingFence(rest + (Fence + "\n")) == TrimSpaces(rest) + "\n"
  {
    var s := rest + (Fence + "\n");
    assert s[|s| - 1] == '\n';
    assert s[|s| - 3..][2] == s[|s| - 1];
    assert !EndsWithFence(s);
    assert s[|s| - 4..] == Fence + "\n";
    assert s[..|s| - 4] == rest;
  }

  lemma {:induction false} DropSpacesPrefix(spaces: string, rest: string)
    requires AllSpace(spaces) && (|rest| > 0 ==> !IsSpace(rest[0]))
    ensures DropSpaces(spaces + rest) == rest
    decreases |spaces|
  {
    if |spaces| > 0 {
      assert (spaces + rest)[1..] == spaces[1..] + rest;
      DropSpacesPrefix(spaces[1..], rest);
    } else {
      assert spaces + rest == rest;
    }
  }

  lemma {:induction false} TrimSpacesSuffix(rest: string, spaces: string)
    requires AllSpace(spaces) && (|rest| > 0 ==> !IsSpace(rest[|rest| - 1]))
    ensures TrimSpaces(rest + spaces) == rest
    decreases |spaces|
  {
    if |spaces| > 0 {
      assert (rest + spaces)[..|rest + spaces| - 1] == rest + spaces[..|spaces| - 1];
      TrimSpacesSuffix(rest, spaces[..|spaces| - 1]);
    } else {
      assert rest + spaces == rest;
    }
  }

  /**
   * The info filter, both ways: a decoded object is returned as it is unless
   * it is an "info" message without a symbol, and such a message is always
   * dropped.
   */
  lemma InfoFilter(decode: string -> Option<Json>, text: string, members: seq<Member>)
    requires decode(Clean(text)) == Some(JObject(members))
    ensures ParseResponse(decode, text) == (if SymbolLessInfo(members) then Rejected else Accepted(members))
    ensures ParseResponse(decode, text).Accepted? ==>
      Lookup(members, "message_type") != Some(JString("info"))
      || (Lookup(members, "symbol").Some? && Truthy(Lookup(members, "symbol").value))
  {
  }
}
