/** JSON Pointer (RFC 6901) and the add, remove and test operations of JSON Patch (RFC 6902) on objects. */
module JsonPatch {
  import opened Wrappers

  /** A JSON value; arrays, numbers and literals are opaque here. */
  datatype Json = Text(text: string) | Object(members: map<string, Json>) | Opaque(value: string)

  // ---- Escaping ----

  /** Replace every occurrence of one character, like `str.replace`. */
  function ReplaceChar(s: string, c: char, with: string): string {
    if s == "" then ""
    else (if s[0] == c then with else [s[0]]) + ReplaceChar(s[1..], c, with)
  }

  /** Replace every occurrence of `~` followed by `c`, from left to right. */
  function ReplacePair(s: string, c: char, with: char): string {
    if s == "" then ""
    else if |s| > 1 && s[0] == '~' && s[1] == c then [with] + ReplacePair(s[2..], c, with)
    else [s[0]] + ReplacePair(s[1..], c, with)
  }

  /** The escaping that `managed_label_patch` applies to a label key. */
  function Escape(key: string): string {
    ReplaceChar(ReplaceChar(key, '~', "~0"), '/', "~1")
  }

  /** Evaluation of a reference token, section 4 of RFC 6901: first `~1`, then `~0`. */
  function Unescape(token: string): string {
    ReplacePair(ReplacePair(token, '1', '/'), '0', '~')
  }

  lemma EscapeStep(key: string)
    requires key != ""
    ensures Escape(key) == (if key[0] == '~' then "~0" else if key[0] == '/' then "~1" else [key[0]]) + Escape(key[1..])
  {
    var tilde := ReplaceChar(key[1..], '~', "~0");
    if key[0] == '~' {
      var s := "~0" + tilde;
      assert s[0] == '~' && s[1..] == "0" + tilde && ("0" + tilde)[1..] == tilde;
      assert ReplaceChar(s, '/', "~1") == "~" + ReplaceChar("0" + tilde, '/', "~1");
      assert ReplaceChar("0" + tilde, '/', "~1") == "0" + ReplaceChar(tilde, '/', "~1");
      assert "~" + ("0" + ReplaceChar(tilde, '/', "~1")) == "~0" + ReplaceChar(tilde, '/', "~1");
    } else {
      var s := [key[0]] + tilde;
      assert s[1..] == tilde;
    }
  }

  lemma {:induction false} UnescapeSlashes(key: string)
    ensures ReplacePair(Escape(key), '1', '/') == ReplaceChar(key, '~', "~0")
  {
    if key != "" {
      EscapeStep(key);
      UnescapeSlashes(key[1..]);
      var rest := Escape(key[1..]);
      if key[0] == '~' {
        var s := "~0" + rest;
        assert s[1..] == "0" + rest && ("0" + rest)[1..] == rest;
        assert ReplacePair(s, '1', '/') == "~" + ReplacePair("0" + rest, '1', '/');
        assert ReplacePair("0" + rest, '1', '/') == "0" + ReplacePair(rest, '1', '/');
        assert "~" + ("0" + ReplacePair(rest, '1', '/')) == "~0" + ReplacePair(rest, '1', '/');
      } else if key[0] == '/' {
        assert ("~1" + rest)[2..] == rest;
      } else {
        assert ([key[0]] + rest)[1..] == rest;
      }
    }
  }

  lemma {:induction false} UnescapeTildes(key: string)
    ensures ReplacePair(ReplaceChar(key, '~', "~0"), '0', '~') == key
  {
    if key != "" {
      UnescapeTildes(key[1..]);
      var rest := ReplaceChar(key[1..], '~', "~0");
      if key[0] == '~' {
        assert ("~0" + rest)[2..] == rest;
      } else {
        assert ([key[0]] + rest)[1..] == rest;
      }
    }
  }

  lemma {:induction false} EscapeHidesSlashes(key: string)
    ensures '/' !in Escape(key)
  {
    if key != "" {
      EscapeStep(key);
      EscapeHidesSlashes(key[1..]);
    }
  }

  /** Every string survives escaping and evaluation, and an escaped string is a single reference token. */
  lemma EscapeRoundTrip(key: string)
    ensures Unescape(Escape(key)) == key && '/' !in Escape(key)
  {
    UnescapeSlashes(key);
    UnescapeTildes(key);
    EscapeHidesSlashes(key);
  }

  // ---- Pointers ----

  /** Everything before the next slash, and everything from it on. */
  function NextToken(path: string): (r: (string, string))
    ensures path == r.0 + r.1 && '/' !in r.0 && (r.1 == "" || r.1[0] == '/')
  {
    if path == "" || path[0] == '/' then ("", path)
    else var rest := NextToken(path[1..]); ([path[0]] + rest.0, rest.1)
  }

  /** The reference tokens of a pointer; None when it does not start with a slash. */
  function Parse(path: string): Option<seq<string>>
    decreases |path|
  {
    if path == "" then Some([])
    else if path[0] != '/' then None
    else
      var next := NextToken(path[1..]);
      match Parse(next.1)
      case None => None
      case Some(tokens) => Some([Unescape(next.0)] + tokens)
  }

  function Pointer(tokens: seq<string>): string {
    if tokens == [] then "" else "/" + Escape(tokens[0]) + Pointer(tokens[1..])
  }

  lemma {:induction false} NextTokenOf(token: string, rest: string)
    requires '/' !in token && (rest == "" || rest[0] == '/')
    ensures NextToken(token + rest) == (token, rest)
  {
    if token != "" {
      NextTokenOf(token[1..], rest);
      assert (token + rest)[1..] == token[1..] + rest;
      assert token[0] in token;
      assert [token[0]] + token[1..] == token;
    } else {
      assert token + rest == rest;
    }
  }

  lemma ParseSplit(path: string, token: string, rest: string)
    requires path != "" && path[0] == '/' && NextToken(path[1..]) == (token, rest)
    ensures Parse(path) == match Parse(rest) case None => None case Some(tokens) => Some([Unescape(token)] + tokens)
  {
    hide Unescape, NextToken;
  }

  lemma DropSlash(token: string, rest: string)
    ensures "/" + token + rest != "" && ("/" + token + rest)[0] == '/' && ("/" + token + rest)[1..] == token + rest
  {
  }

  lemma ParseStep(token: string, rest: string)
    requires rest == "" || rest[0] == '/'
    ensures Parse("/" + Escape(token) + rest)
            == match Parse(rest) case None => None case Some(tokens) => Some([token] + tokens)
  {
    EscapeRoundTrip(token);
    NextTokenOf(Escape(token), rest);
    hide Escape, Unescape, NextToken, Parse;
    DropSlash(Escape(token), rest);
    ParseSplit("/" + Escape(token) + rest, Escape(token), rest);
  }

  lemma PointerShape(tokens: seq<string>)
    ensures Pointer(tokens) == "" || Pointer(tokens)[0] == '/'
  {
  }

  /** Evaluating a pointer gives back exactly the tokens it was built from. */
  lemma {:induction false} PointerRoundTrip(tokens: seq<string>)
    ensures Parse(Pointer(tokens)) == Some(tokens)
  {
    if tokens != [] {
      PointerRoundTrip(tokens[1..]);
      PointerShape(tokens[1..]);
      ParseStep(tokens[0], Pointer(tokens[1..]));
      assert tokens == [tokens[0]] + tokens[1..];
    }
  }

  /** Distinct token sequences, such as those of distinct label keys, have distinct pointers. */
  lemma PointersDistinct(a: seq<string>, b: seq<string>)
    requires a != b
    ensures Pointer(a) != Pointer(b)
  {
    PointerRoundTrip(a);
    PointerRoundTrip(b);
  }

  // ---- Operations ----

  datatype Operation = Test(path: string, value: Json) | Add(path: string, value: Json) | Remove(path: string)

  function Get(doc: Json, tokens: seq<string>): Option<Json> {
    if tokens == [] then Some(doc)
    else if doc.Object? && tokens[0] in doc.members then Get(doc.members[tokens[0]], tokens[1..])
    else None
  }

  /** Section 4.1 of RFC 6902: the parent must exist; an existing member is replaced. */
  function Put(doc: Json, tokens: seq<string>, value: Json): Option<Json> {
    if tokens == [] then Some(value)
    else if !doc.Object? then None
    else if |tokens| == 1 then Some(Object(doc.members[tokens[0] := value]))
    else if tokens[0] !in doc.members then None
    else
      match Put(doc.members[tokens[0]], tokens[1..], value)
      case None => None
      case Some(inner) => Some(Object(doc.members[tokens[0] := inner]))
  }

  /** Section 4.2: the target must exist. */
  function Delete(doc: Json, tokens: seq<string>): Option<Json> {
    if tokens == [] || !doc.Object? || tokens[0] !in doc.members then None
    else if |tokens| == 1 then Some(Object(doc.members - {tokens[0]}))
    else
      match Delete(doc.members[tokens[0]], tokens[1..])
      case None => None
      case Some(inner) => Some(Object(doc.members[tokens[0] := inner]))
  }

  function Apply(doc: Json, operation: Operation): Option<Json> {
    match Parse(operation.path)
    case None => None
    case Some(tokens) =>
      match operation
      case Test(_, value) => if Get(doc, tokens) == Some(value) then Some(doc) else None
      case Add(_, value) => Put(doc, tokens, value)
      case Remove(_) => Delete(doc, tokens)
  }

  /** A patch is all or nothing: None leaves the stored document as it was. */
  function ApplyAll(doc: Json, patch: seq<Operation>): Option<Json>
    decreases |patch|
  {
    if patch == [] then Some(doc)
    else
      match Apply(doc, patch[0])
      case None => None
      case Some(next) => ApplyAll(next, patch[1..])
  }

  lemma {:induction false} ApplyConcat(doc: Json, a: seq<Operation>, b: seq<Operation>)
    ensures ApplyAll(doc, a + b) == match ApplyAll(doc, a) case None => None case Some(next) => ApplyAll(next, b)
    decreases |a|
  {
    if a == [] {
      assert a + b == b;
    } else {
      assert (a + b)[1..] == a[1..] + b;
      if Apply(doc, a[0]).Some? {
        ApplyConcat(Apply(doc, a[0]).value, a[1..], b);
      }
    }
  }

  lemma ApplyTwo(doc: Json, a: Operation, b: Operation)
    ensures ApplyAll(doc, [a, b]) == match Apply(doc, a) case None => None case Some(next) => Apply(next, b)
  {
    hide Apply;
    assert [a, b][1..] == [b] && [b][1..] == [];
    if Apply(doc, a).Some? {
      var next := Apply(doc, a).value;
      assert ApplyAll(next, [b]) == Apply(next, b);
    }
  }

  lemma ApplyThree(doc: Json, a: Operation, b: Operation, c: Operation)
    ensures ApplyAll(doc, [a, b, c]) == match Apply(doc, a) case None => None case Some(next) => ApplyAll(next, [b, c])
  {
    hide Apply;
    assert [a, b, c][1..] == [b, c];
  }

  /** A string without the two special characters is its own token. */
  lemma {:induction false} PlainEscape(s: string)
    requires '~' !in s && '/' !in s
    ensures Escape(s) == s
  {
    if s != "" {
      EscapeStep(s);
      PlainEscape(s[1..]);
      assert s == [s[0]] + s[1..] && s[0] in s;
    }
  }

  lemma ParsePlain(token: string, rest: string)
    requires '~' !in token && '/' !in token && (rest == "" || rest[0] == '/')
    ensures Parse("/" + token + rest) == match Parse(rest) case None => None case Some(tokens) => Some([token] + tokens)
  {
    PlainEscape(token);
    ParseStep(token, rest);
  }
}
