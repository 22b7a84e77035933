// Documents, JSON pointers (RFC 6901) and reference strings, as the OpenAPI
// bundler reads them (scripts/openapi_contract.py).
module JsonPointer {
  import opened Wrappers

  // A loaded YAML value. Atom stands for every scalar that is not a string.
  datatype Json =
    | Atom(tag: string)
    | Text(text: string)
    | List(items: seq<Json>)
    | Object(fields: map<string, Json>)

  // A file is the list of its path segments.
  type File = seq<string>

  // Where a reference points: a file and the decoded pointer tokens inside it.
  datatype Target = Target(file: File, tokens: seq<string>)

  datatype Fault =
    | UnsupportedFragment(fragment: string)
    | UnresolvedToken(token: string)
    | Escapes(ref: string)
    | MissingFile(file: File)
    | Circular(loop: seq<Target>)
    | ScalarSiblings(ref: string)
    | UnexportedDiscriminator(target: Target)
    | MalformedDiscriminator
    | MalformedComponents
    | ExportedTwice(target: Target)
    | NotInternal(ref: string)

  // ------------------------------------------------------------------
  // Token escaping, section 4 of RFC 6901
  // ------------------------------------------------------------------

  // Python's s.replace(a + b, c): left to right, without overlap.
  function ReplacePair(s: string, a: char, b: char, c: char): string {
    if |s| == 0 then ""
    else if |s| >= 2 && s[0] == a && s[1] == b then [c] + ReplacePair(s[2..], a, b, c)
    else [s[0]] + ReplacePair(s[1..], a, b, c)
  }

  function DecodeToken(token: string): string {
    ReplacePair(ReplacePair(token, '~', '1', '/'), '~', '0', '~')
  }

  // The escaping a pointer's writer applies.
  function EncodeToken(token: string): string {
    if token == "" then ""
    else (if token[0] == '~' then "~0" else if token[0] == '/' then "~1" else [token[0]]) + EncodeToken(token[1..])
  }

  // What is left of EncodeToken(token) once "~1" has become "/".
  function EscapeTildes(token: string): string {
    if token == "" then ""
    else (if token[0] == '~' then "~0" else [token[0]]) + EscapeTildes(token[1..])
  }

  lemma {:induction false} PairReplaced(s: string, a: char, b: char, c: char)
    ensures ReplacePair([a] + ([b] + s), a, b, c) == [c] + ReplacePair(s, a, b, c)
  {
    var t := [a] + ([b] + s);
    assert t[0] == a && t[1] == b && t[2..] == s;
  }

  lemma {:induction false} CharKept(x: char, s: string, a: char, b: char, c: char)
    requires x != a || s == "" || s[0] != b
    ensures ReplacePair([x] + s, a, b, c) == [x] + ReplacePair(s, a, b, c)
  {
    assert ([x] + s)[1..] == s;
  }

  lemma {:induction false} Escaped(token: string)
    requires token != ""
    ensures var rest := EncodeToken(token[1..]);
            EncodeToken(token) == if token[0] == '~' then ['~'] + (['0'] + rest)
                                  else if token[0] == '/' then ['~'] + (['1'] + rest) else [token[0]] + rest
    ensures var rest := EscapeTildes(token[1..]);
            EscapeTildes(token) == if token[0] == '~' then ['~'] + (['0'] + rest) else [token[0]] + rest
  {
  }

  lemma {:induction false} SlashesComeBack(token: string)
    ensures ReplacePair(EncodeToken(token), '~', '1', '/') == EscapeTildes(token)
  {
    if token != "" {
      hide ReplacePair, EncodeToken, EscapeTildes;
      SlashesComeBack(token[1..]);
      Escaped(token);
      var rest := EncodeToken(token[1..]);
      if token[0] == '~' {
        CharKept('~', ['0'] + rest, '~', '1', '/');
        CharKept('0', rest, '~', '1', '/');
      } else if token[0] == '/' {
        PairReplaced(rest, '~', '1', '/');
      } else {
        CharKept(token[0], rest, '~', '1', '/');
      }
    }
  }

  lemma {:induction false} TildesComeBack(token: string)
    ensures ReplacePair(EscapeTildes(token), '~', '0', '~') == token
  {
    if token != "" {
      hide ReplacePair, EncodeToken, EscapeTildes;
      TildesComeBack(token[1..]);
      Escaped(token);
      var rest := EscapeTildes(token[1..]);
      if token[0] == '~' {
        PairReplaced(rest, '~', '0', '~');
      } else {
        CharKept(token[0], rest, '~', '0', '~');
      }
      assert [token[0]] + token[1..] == token;
    }
  }

  // Decoding inverts the escaping, for every token: in particular "~01" reads "~1", never "/".
  lemma {:induction false} TokenRoundTrip(token: string)
    ensures DecodeToken(EncodeToken(token)) == token
  {
    SlashesComeBack(token);
    TildesComeBack(token);
  }

  lemma {:induction false} EncodedHasNoSlash(token: string)
    ensures '/' !in EncodeToken(token)
  {
    if token != "" {
      EncodedHasNoSlash(token[1..]);
    }
  }

  // ------------------------------------------------------------------
  // Fragments
  // ------------------------------------------------------------------

  // Python's s.split(c): never empty.
  function Split(s: string, c: char): (parts: seq<string>)
    ensures |parts| >= 1
  {
    if s == "" then [""]
    else if s[0] == c then [""] + Split(s[1..], c)
    else
      var rest := Split(s[1..], c);
      [[s[0]] + rest[0]] + rest[1..]
  }

  function HexValue(c: char): Option<nat> {
    if '0' <= c <= '9' then Some(c as int - '0' as int)
    else if 'a' <= c <= 'f' then Some(c as int - 'a' as int + 10)
    else if 'A' <= c <= 'F' then Some(c as int - 'A' as int + 10)
    else None
  }

  // urllib's unquote for ASCII escapes such as %7B.
  function Unquote(s: string): string {
    if s == "" then ""
    else if |s| >= 3 && s[0] == '%' && HexValue(s[1]).Some? && HexValue(s[2]).Some? && HexValue(s[1]).value < 8
    then [(HexValue(s[1]).value * 16 + HexValue(s[2]).value) as char] + Unquote(s[3..])
    else [s[0]] + Unquote(s[1..])
  }

  function PointerTokens(fragment: string): Result<seq<string>, Fault> {
    var f := Unquote(fragment);
    if f == "" then Ok([])
    else if f[0] != '/' then Err(UnsupportedFragment(fragment))
    else
      var parts := Split(f[1..], '/');
      Ok(seq(|parts|, i requires 0 <= i < |parts| => DecodeToken(parts[i])))
  }

  // The pointer a writer produces for a list of tokens.
  function Pointer(tokens: seq<string>): string {
    if tokens == [] then "" else "/" + EncodeToken(tokens[0]) + Pointer(tokens[1..])
  }

  lemma {:induction false} SplitHead(head: string, tail: string, c: char)
    requires c !in head
    ensures Split(head + [c] + tail, c) == [head] + Split(tail, c)
  {
    var s := head + [c] + tail;
    if head == "" {
      assert s[0] == c && s[1..] == tail;
    } else {
      assert s[0] == head[0] && head[0] in head;
      assert s[1..] == head[1..] + [c] + tail;
      SplitHead(head[1..], tail, c);
      assert [head[0]] + head[1..] == head;
    }
  }

  lemma {:induction false} SplitWhole(s: string, c: char)
    requires c !in s
    ensures Split(s, c) == [s]
  {
    if s != "" {
      assert s[0] in s;
      SplitWhole(s[1..], c);
      assert [s[0]] + s[1..] == s;
    }
  }

  lemma {:induction false} SplitPointer(tokens: seq<string>)
    requires tokens != []
    ensures Pointer(tokens) != "" && Pointer(tokens)[0] == '/'
    ensures Split(Pointer(tokens)[1..], '/') == seq(|tokens|, i requires 0 <= i < |tokens| => EncodeToken(tokens[i]))
  {
    hide EncodeToken, Split;
    EncodedHasNoSlash(tokens[0]);
    var head := EncodeToken(tokens[0]);
    if |tokens| == 1 {
      assert Pointer(tokens[1..]) == "";
      assert Pointer(tokens)[1..] == head;
      SplitWhole(head, '/');
    } else {
      SplitPointer(tokens[1..]);
      var tail := Pointer(tokens[1..]);
      assert Pointer(tokens)[1..] == head + ['/'] + tail[1..];
      SplitHead(head, tail[1..], '/');
    }
  }

  lemma {:induction false} UnquotePlain(s: string)
    requires '%' !in s
    ensures Unquote(s) == s
  {
    if s != "" {
      UnquotePlain(s[1..]);
    }
  }

  // Reading back a written pointer gives its tokens, whatever characters they hold,
  // as long as the writer left no percent sign to be unquoted.
  lemma {:induction false} PointerRoundTrip(tokens: seq<string>)
    requires '%' !in Pointer(tokens)
    ensures PointerTokens(Pointer(tokens)) == Ok(tokens)
  {
    UnquotePlain(Pointer(tokens));
    if tokens != [] {
      SplitPointer(tokens);
      forall i | 0 <= i < |tokens| ensures DecodeToken(EncodeToken(tokens[i])) == tokens[i] {
        TokenRoundTrip(tokens[i]);
      }
      assert PointerTokens(Pointer(tokens)).value == tokens;
    }
  }

  const UPPER := "0123456789ABCDEF"
  const LOWER := "0123456789abcdef"

  // A hex digit in either case has its value, and nothing else has one.
  lemma {:induction false} HexDigits(c: char, n: nat)
    ensures HexValue(c) == Some(n) <==> n < 16 && (c == UPPER[n] || c == LOWER[n])
  {
    assert n < 10 ==> UPPER[n] == LOWER[n] == ('0' as int + n) as char;
    assert 10 <= n < 16 ==> UPPER[n] == ('A' as int + n - 10) as char && LOWER[n] == ('a' as int + n - 10) as char;
  }

  // A writer quotes any ASCII characters it likes, in either case, and the percent sign always.
  ghost predicate QuotedAs(s: string, quoted: string)
    decreases |s|
  {
    if s == "" then quoted == ""
    else
      (s[0] != '%' && quoted != "" && quoted[0] == s[0] && QuotedAs(s[1..], quoted[1..]))
      || (|quoted| >= 3 && s[0] < 128 as char && IsQuoted(s[0], quoted[..3]) && QuotedAs(s[1..], quoted[3..]))
  }

  predicate IsQuoted(c: char, code: string)
    requires c < 128 as char
  {
    var high, low := c as int / 16, c as int % 16;
    |code| == 3 && code[0] == '%' && code[1] in [UPPER[high], LOWER[high]] && code[2] in [UPPER[low], LOWER[low]]
  }

  lemma {:induction false} QuotedComesBack(s: string, quoted: string)
    requires QuotedAs(s, quoted)
    ensures Unquote(quoted) == s
  {
    if s != "" {
      assert s == [s[0]] + s[1..];
      if s[0] != '%' && quoted != "" && quoted[0] == s[0] && QuotedAs(s[1..], quoted[1..]) {
        QuotedComesBack(s[1..], quoted[1..]);
      } else {
        QuotedComesBack(s[1..], quoted[3..]);
        var high, low := s[0] as int / 16, s[0] as int % 16;
        HexDigits(quoted[1], high);
        HexDigits(quoted[2], low);
        assert quoted[..3][0] == quoted[0] && quoted[..3][1] == quoted[1] && quoted[..3][2] == quoted[2];
      }
    }
  }

  // However the writer quoted it, the pointer reads back as its tokens, whatever characters they hold.
  lemma {:induction false} QuotedRoundTrip(tokens: seq<string>, quoted: string)
    requires QuotedAs(Pointer(tokens), quoted)
    ensures PointerTokens(quoted) == Ok(tokens)
  {
    hide Unquote, QuotedAs, EncodeToken, DecodeToken, Split;
    QuotedComesBack(Pointer(tokens), quoted);
    if tokens != [] {
      SplitPointer(tokens);
      forall i | 0 <= i < |tokens| ensures DecodeToken(EncodeToken(tokens[i])) == tokens[i] {
        TokenRoundTrip(tokens[i]);
      }
      assert PointerTokens(quoted).value == tokens;
    }
  }

  // Every text can be quoted so.
  lemma {:induction false} CanBeQuoted(s: string) returns (quoted: string)
    ensures QuotedAs(s, quoted)
  {
    quoted := "";
    if s != "" {
      var rest := CanBeQuoted(s[1..]);
      if s[0] == '%' {
        quoted := "%25" + rest;
        assert quoted[..3] == "%25" && quoted[3..] == rest;
      } else {
        quoted := [s[0]] + rest;
        assert quoted[1..] == rest;
      }
    }
  }

  // ------------------------------------------------------------------
  // Resolving a pointer
  // ------------------------------------------------------------------

  function Digits(token: string): Option<nat> {
    if token == "" then None
    else if !('0' <= token[|token| - 1] <= '9') then None
    else
      var last := token[|token| - 1] as int - '0' as int;
      if |token| == 1 then Some(last)
      else match Digits(token[..|token| - 1])
        case None => None
        case Some(n) => Some(10 * n + last)
  }

  // One step of the loop: into a mapping by key, into a list by index.
  function Child(value: Json, token: string): Result<Json, Fault> {
    match value
    case Object(fields) => if token in fields then Ok(fields[token]) else Err(UnresolvedToken(token))
    case List(items) =>
      var n := Digits(token);
      if n.Some? && n.value < |items| then Ok(items[n.value]) else Err(UnresolvedToken(token))
    case _ => Err(UnresolvedToken(token))
  }

  // How a number is written.
  function Decimal(n: nat): (token: string)
    ensures token != ""
  {
    (if n < 10 then "" else Decimal(n / 10)) + [UPPER[n % 10]]
  }

  lemma {:induction false} DecimalRoundTrip(n: nat)
    ensures Digits(Decimal(n)) == Some(n)
  {
    var token := Decimal(n);
    assert UPPER[n % 10] == ('0' as int + n % 10) as char;
    if n >= 10 {
      DecimalRoundTrip(n / 10);
      assert token[..|token| - 1] == Decimal(n / 10);
    } else {
      assert token == [UPPER[n % 10]];
    }
  }

  // A list is indexed from 0, and only inside it; a mapping by its keys.
  lemma {:induction false} ChildNamed(items: seq<Json>, fields: map<string, Json>, n: nat, key: string)
    ensures Child(List(items), Decimal(n)) == if n < |items| then Ok(items[n]) else Err(UnresolvedToken(Decimal(n)))
    ensures Child(Object(fields), key) == if key in fields then Ok(fields[key]) else Err(UnresolvedToken(key))
  {
    DecimalRoundTrip(n);
  }

  function Resolve(document: Json, tokens: seq<string>): Result<Json, Fault> {
    if tokens == [] then Ok(document)
    else match Child(document, tokens[0])
      case Err(e) => Err(e)
      case Ok(v) => Resolve(v, tokens[1..])
  }

  lemma {:induction false} ResolveAppend(document: Json, front: seq<string>, back: seq<string>)
    requires Resolve(document, front).Ok?
    ensures Resolve(document, front + back) == Resolve(Resolve(document, front).value, back)
  {
    if front == [] {
      assert front + back == back;
    } else {
      assert (front + back)[1..] == front[1..] + back;
      ResolveAppend(Child(document, front[0]).value, front[1..], back);
    }
  }

  lemma {:induction false} ResolveStep(document: Json, tokens: seq<string>, i: nat)
    requires i < |tokens| && Resolve(document, tokens[..i]).Ok?
    ensures Resolve(document, tokens[..i + 1]) == Child(Resolve(document, tokens[..i]).value, tokens[i])
    ensures Resolve(document, tokens[..i + 1]).Err? ==> Resolve(document, tokens) == Resolve(document, tokens[..i + 1])
  {
    hide Child;
    var value := Resolve(document, tokens[..i]).value;
    ResolveAppend(document, tokens[..i], [tokens[i]]);
    assert tokens[..i + 1] == tokens[..i] + [tokens[i]];
    assert [tokens[i]][1..] == [];
    ResolveAppend(document, tokens[..i], tokens[i..]);
    assert tokens == tokens[..i] + tokens[i..];
    assert tokens[i..][0] == tokens[i];
  }

  // The loop as written: it walks down one token at a time and stops at the first miss.
  method ResolvePointer(document: Json, tokens: seq<string>) returns (r: Result<Json, Fault>)
    ensures r == Resolve(document, tokens)
    ensures r.Ok? <==> forall k | 0 <= k < |tokens| ::
                         Resolve(document, tokens[..k]).Ok? && Child(Resolve(document, tokens[..k]).value, tokens[k]).Ok?
  {
    hide Child;
    var value := document;
    assert tokens[..|tokens|] == tokens;
    for i := 0 to |tokens|
      invariant Resolve(document, tokens[..i]) == Ok(value)
      invariant forall k | 0 <= k < i ::
          Resolve(document, tokens[..k]).Ok? && Child(Resolve(document, tokens[..k]).value, tokens[k]).Ok?
    {
      ResolveStep(document, tokens, i);
      var next := Child(value, tokens[i]);
      if next.Err? {
        return Err(next.error);
      }
      value := next.value;
    }
    return Ok(value);
  }

  // ------------------------------------------------------------------
  // References
  // ------------------------------------------------------------------

  predicate IsRef(value: Json) {
    value.Object? && "$ref" in value.fields && value.fields["$ref"].Text?
  }

  // Every reference string iter_refs yields.
  function RefStrings(value: Json): set<string> {
    match value
    case List(items) => set i, r | 0 <= i < |items| && r in RefStrings(items[i]) :: r
    case Object(fields) =>
      (if IsRef(value) then {fields["$ref"].text} else {}) + (set k, r | k in fields && r in RefStrings(fields[k]) :: r)
    case _ => {}
  }

  // Position of the first c, or the length.
  function Find(s: string, c: char): (n: nat)
    ensures n <= |s|
    ensures c !in s[..n]
    ensures n < |s| ==> s[n] == c
  {
    if s == "" || s[0] == c then 0 else 1 + Find(s[1..], c)
  }

  // pathlib: join the segments of a relative or absolute name and normalise "." and "..".
  function JoinPath(base: File, parts: seq<string>): File
    decreases |parts|
  {
    if parts == [] then base
    else if parts[0] == "" || parts[0] == "." then JoinPath(base, parts[1..])
    else if parts[0] == ".." then JoinPath(if base == [] then [] else base[..|base| - 1], parts[1..])
    else JoinPath(base + [parts[0]], parts[1..])
  }

  function Parent(file: File): File {
    if file == [] then [] else file[..|file| - 1]
  }

  // Where a reference string written in `file` points; the contract directory must contain it.
  function Canonical(ref: string, file: File, dir: File): Result<Target, Fault> {
    var hash := Find(ref, '#');
    var name := Unquote(ref[..hash]);
    var fragment := if hash < |ref| then ref[hash + 1..] else "";
    var target := if hash == 0 then file
                  else if name != "" && name[0] == '/' then JoinPath([], Split(name, '/'))
                  else JoinPath(Parent(file), Split(name, '/'));
    if !(dir <= target) then Err(Escapes(ref))
    else match PointerTokens(fragment)
      case Err(e) => Err(e)
      case Ok(tokens) => Ok(Target(target, tokens))
  }

  // ------------------------------------------------------------------
  // Component pointers
  // ------------------------------------------------------------------

  // The alphabet of component names, section 4.8.7 of the OpenAPI Specification 3.1.0.
  predicate NameSafe(name: string) {
    name != "" && forall c | c in name :: 'a' <= c <= 'z' || 'A' <= c <= 'Z' || '0' <= c <= '9' || c == '.' || c == '-' || c == '_'
  }

  function ComponentTokens(section: string, name: string): seq<string> {
    ["components", section, name]
  }

  function ComponentPointer(section: string, name: string): string {
    "#" + ("/" + "components" + ("/" + section + ("/" + name)))
  }

  lemma {:induction false} EncodePlain(token: string)
    requires '~' !in token && '/' !in token
    ensures EncodeToken(token) == token
  {
    if token != "" {
      EncodePlain(token[1..]);
    }
  }

  lemma {:induction false} PlainPointerStep(token: string, rest: seq<string>)
    requires '~' !in token && '/' !in token
    ensures Pointer([token] + rest) == "/" + token + Pointer(rest)
  {
    EncodePlain(token);
    assert ([token] + rest)[1..] == rest;
  }

  lemma {:induction false} PlainPointer(a: string, b: string, c: string)
    requires '~' !in a && '/' !in a && '~' !in b && '/' !in b && '~' !in c && '/' !in c
    ensures Pointer([a, b, c]) == "/" + a + ("/" + b + ("/" + c))
  {
    PlainPointerStep(c, []);
    PlainPointerStep(b, [c]);
    PlainPointerStep(a, [b, c]);
    assert [b] + [c] == [b, c] && [a] + [b, c] == [a, b, c];
  }

  lemma {:induction false} LocalReference(tokens: seq<string>, root: File, dir: File)
    requires tokens != [] && '%' !in Pointer(tokens) && dir <= root
    ensures var ref := "#" + Pointer(tokens);
            && ref[..2] == "#/"
            && PointerTokens(ref[1..]) == Ok(tokens)
            && Canonical(ref, root, dir) == Ok(Target(root, tokens))
  {
    var ref := "#" + Pointer(tokens);
    assert ref[1..] == Pointer(tokens);
    PointerRoundTrip(tokens);
    SplitPointer(tokens);
    assert Find(ref, '#') == 0;
  }

  lemma {:induction false} NoPercent(section: string, name: string)
    requires NameSafe(section) && NameSafe(name)
    ensures '%' !in "/" + "components" + ("/" + section + ("/" + name))
  {
  }

  lemma {:induction false} NoEscapes(name: string)
    requires NameSafe(name)
    ensures '~' !in name && '/' !in name
  {
  }

  // An exported pointer read inside the root file leads to that component entry and nowhere else.
  lemma {:induction false} ComponentPointerResolves(section: string, name: string, root: File, dir: File)
    requires NameSafe(section) && NameSafe(name) && dir <= root
    ensures |ComponentPointer(section, name)| >= 2 && ComponentPointer(section, name)[..2] == "#/"
    ensures PointerTokens(ComponentPointer(section, name)[1..]) == Ok(ComponentTokens(section, name))
    ensures Canonical(ComponentPointer(section, name), root, dir) == Ok(Target(root, ComponentTokens(section, name)))
  {
    NoEscapes("components");
    NoEscapes(section);
    NoEscapes(name);
    PlainPointer("components", section, name);
    NoPercent(section, name);
    LocalReference(ComponentTokens(section, name), root, dir);
  }
}
