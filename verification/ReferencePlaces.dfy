// Where a reference string leads: a relative path is read from the directory of the file it is written
// in, one directory up for every "..", and may not leave the contract's directory.
module ReferencePlaces {
  import opened Wrappers
  import opened JsonPointer

  // A segment that names something.
  predicate Ordinary(x: string) {
    x != "" && x != "." && x != ".."
  }

  // One that a reference can hold as it is.
  predicate Plain(x: string) {
    Ordinary(x) && PlainText(x)
  }

  predicate PlainText(x: string) {
    '/' !in x && '#' !in x && '%' !in x
  }

  lemma {:induction false} JoinAppend(base: File, a: seq<string>, b: seq<string>)
    ensures JoinPath(base, a + b) == JoinPath(JoinPath(base, a), b)
    decreases |a|
  {
    if a == [] {
      assert a + b == b;
    } else {
      assert (a + b)[1..] == a[1..] + b;
      var next := if a[0] == "" || a[0] == "." then base
                  else if a[0] == ".." then (if base == [] then [] else base[..|base| - 1]) else base + [a[0]];
      JoinAppend(next, a[1..], b);
    }
  }

  // Names go down as they are written.
  lemma {:induction false} NamesGoDown(base: File, names: seq<string>)
    requires forall x | x in names :: Ordinary(x)
    ensures JoinPath(base, names) == base + names
    decreases |names|
  {
    if names == [] {
      assert base + names == base;
    } else {
      assert names[0] in names && forall x | x in names[1..] :: x in names;
      NamesGoDown(base + [names[0]], names[1..]);
      assert base + [names[0]] + names[1..] == base + names;
    }
  }

  // A name and ".." behind it cancel, "." and empty segments are nothing, and ".." stays at the top.
  lemma {:induction false} UpCancels(base: File, a: seq<string>, x: string, b: seq<string>)
    requires Ordinary(x)
    ensures JoinPath(base, a + [x, ".."] + b) == JoinPath(base, a + b)
    ensures JoinPath(base, a + ["."] + b) == JoinPath(base, a + [""] + b) == JoinPath(base, a + b)
    ensures JoinPath([], [".."] + b) == JoinPath([], b)
  {
    hide JoinPath;
    JoinAppend(base, a, b);
    assert a + [x, ".."] + b == a + ([x, ".."] + b) && a + ["."] + b == a + (["."] + b) && a + [""] + b == a + ([""] + b);
    JoinAppend(base, a, [x, ".."] + b);
    JoinAppend(base, a, ["."] + b);
    JoinAppend(base, a, [""] + b);
    DownAndUp(JoinPath(base, a), x, b);
    Nothing(JoinPath(base, a), b);
    TopStays(b);
  }

  lemma {:induction false} DownAndUp(base: File, x: string, b: seq<string>)
    requires Ordinary(x)
    ensures JoinPath(base, [x, ".."] + b) == JoinPath(base, b)
  {
    assert ([x, ".."] + b)[1..] == [".."] + b && ([".."] + b)[1..] == b;
    assert (base + [x])[..|base|] == base;
  }

  lemma {:induction false} Nothing(base: File, b: seq<string>)
    ensures JoinPath(base, ["."] + b) == JoinPath(base, b) == JoinPath(base, [""] + b)
  {
    assert (["."] + b)[1..] == b && ([""] + b)[1..] == b;
  }

  lemma {:induction false} TopStays(b: seq<string>)
    ensures JoinPath([], [".."] + b) == JoinPath([], b)
  {
    assert ([".."] + b)[1..] == b;
  }

  // So many directories up.
  function Ups(n: nat): (parts: seq<string>)
    ensures |parts| == n && forall x | x in parts :: x == ".."
  {
    seq(n, i => "..")
  }

  lemma {:induction false} UpsLead(base: File, up: File)
    ensures JoinPath(base + up, Ups(|up|)) == base
    decreases |up|
  {
    if up == [] {
      assert base + up == base;
    } else {
      assert Ups(|up|)[1..] == Ups(|up| - 1);
      assert (base + up)[..|base + up| - 1] == base + up[..|up| - 1];
      UpsLead(base, up[..|up| - 1]);
    }
  }

  // ------------------------------------------------------------------
  // Reference strings
  // ------------------------------------------------------------------

  // The segments of a path, with slashes between them.
  function PathText(parts: seq<string>): string
    requires parts != []
  {
    if |parts| == 1 then parts[0] else parts[0] + "/" + PathText(parts[1..])
  }

  lemma {:induction false} PathSplits(parts: seq<string>)
    requires parts != [] && forall x | x in parts :: '/' !in x
    ensures Split(PathText(parts), '/') == parts
    decreases |parts|
  {
    hide Split;
    assert parts[0] in parts;
    if |parts| == 1 {
      SplitWhole(parts[0], '/');
    } else {
      assert forall x | x in parts[1..] :: x in parts;
      PathSplits(parts[1..]);
      SplitHead(parts[0], PathText(parts[1..]), '/');
      assert parts[0] + ['/'] + PathText(parts[1..]) == PathText(parts);
    }
  }

  lemma {:induction false} PathPlain(parts: seq<string>, c: char)
    requires parts != [] && c != '/' && forall x | x in parts :: c !in x
    ensures c !in PathText(parts)
    decreases |parts|
  {
    assert parts[0] in parts;
    if |parts| > 1 {
      assert forall x | x in parts[1..] :: x in parts;
      PathPlain(parts[1..], c);
    }
  }

  lemma {:induction false} FindFirst(head: string, tail: string, c: char)
    requires c !in head
    ensures Find(head + [c] + tail, c) == |head|
  {
    var s := head + [c] + tail;
    assert s[|head|] == c && s[..|head|] == head;
  }

  lemma {:induction false} FindNone(s: string, c: char)
    requires c !in s
    ensures Find(s, c) == |s|
  {
  }

  // A reference by a relative path: the path is joined to the directory of the file it is written in, and
  // the fragment gives the tokens, however it is quoted.
  lemma {:induction false} RelativeReference(parts: seq<string>, quoted: string, tokens: seq<string>, file: File, dir: File)
    requires parts != [] && parts[0] != "" && (forall x | x in parts :: PlainText(x)) && QuotedAs(Pointer(tokens), quoted)
    ensures var ref := PathText(parts) + "#" + quoted; var to := JoinPath(Parent(file), parts);
            Canonical(ref, file, dir) == if dir <= to then Ok(Target(to, tokens)) else Err(Escapes(ref))
  {
    hide JoinPath, Find, Split, PathText, QuotedAs, PointerTokens, Unquote;
    var name := PathText(parts);
    PathPlain(parts, '#');
    PathPlain(parts, '%');
    PathSplits(parts);
    UnquotePlain(name);
    QuotedRoundTrip(tokens, quoted);
    FindFirst(name, quoted, '#');
    Relative(parts);
    var ref := name + "#" + quoted;
    assert ref == name + ['#'] + quoted;
    assert ref[..|name|] == name && ref[|name| + 1..] == quoted;
  }

  lemma {:induction false} Relative(parts: seq<string>)
    requires parts != [] && parts[0] != "" && '/' !in parts[0]
    ensures PathText(parts) != "" && PathText(parts)[0] == parts[0][0] != '/'
  {
  }

  // From any file of the contract to any other, up to their common directory and down again: the
  // reference leads there and nowhere else.
  lemma {:induction false} PlacesRelatively(dir: File, common: File, up: File, g: string, down: seq<string>,
                                            quoted: string, tokens: seq<string>)
    requires dir <= common && down != [] && (forall x | x in down :: Plain(x)) && QuotedAs(Pointer(tokens), quoted)
    ensures Canonical(PathText(Ups(|up|) + down) + "#" + quoted, common + up + [g], dir) == Ok(Target(common + down, tokens))
  {
    hide Canonical, QuotedAs, PathText, JoinPath, Ups;
    var parts := Ups(|up|) + down;
    assert forall x | x in parts :: x in Ups(|up|) || x in down;
    assert parts[0] in parts;
    assert Parent(common + up + [g]) == common + up;
    RelativeReference(parts, quoted, tokens, common + up + [g], dir);
    JoinAppend(common + up, Ups(|up|), down);
    UpsLead(common, up);
    NamesGoDown(common, down);
  }

  // As the contract's files do it: from one directory over to another.
  lemma {:induction false} PlacesAcross(dir: File, s: string, g: string, d: string, f: string, tokens: seq<string>)
    requires Plain(d) && Plain(f) && '%' !in Pointer(tokens)
    ensures Canonical("../" + d + "/" + f + "#" + Pointer(tokens), dir + [s, g], dir) == Ok(Target(dir + [d, f], tokens))
  {
    hide Canonical, QuotedAs;
    PlainQuoted(Pointer(tokens));
    PlacesRelatively(dir, dir, [s], g, [d, f], Pointer(tokens), tokens);
    assert Ups(|[s]|) + [d, f] == ["..", d, f];
    assert ["..", d, f][1..] == [d, f] && [d, f][1..] == [f];
    assert PathText([d, f]) == d + "/" + f && PathText(["..", d, f]) == ".." + "/" + (d + "/" + f);
    assert "../" + d + "/" + f + "#" + Pointer(tokens) == PathText(["..", d, f]) + "#" + Pointer(tokens);
    assert dir + [s] + [g] == dir + [s, g];
  }

  lemma {:induction false} PlainQuoted(s: string)
    requires '%' !in s
    ensures QuotedAs(s, s)
  {
    if s != "" {
      PlainQuoted(s[1..]);
    }
  }

  // Going up past the contract's directory to another name is refused.
  lemma {:induction false} LeavingIsRefused(dir: File, x: string, g: string, down: seq<string>, quoted: string, tokens: seq<string>)
    requires down != [] && (forall y | y in down :: Plain(y)) && down[0] != x && QuotedAs(Pointer(tokens), quoted)
    ensures var ref := PathText([".."] + down) + "#" + quoted;
            Canonical(ref, dir + [x] + [g], dir + [x]) == Err(Escapes(ref))
  {
    hide Canonical, QuotedAs, PathText, JoinPath;
    var parts := [".."] + down;
    assert forall y | y in parts :: y == ".." || y in down;
    assert Parent(dir + [x] + [g]) == dir + [x];
    RelativeReference(parts, quoted, tokens, dir + [x] + [g], dir + [x]);
    assert Ups(1) == [".."];
    JoinAppend(dir + [x], [".."], down);
    UpsLead(dir, [x]);
    NamesGoDown(dir, down);
    assert (dir + down)[|dir|] == down[0] && (dir + [x])[|dir|] == x;
  }

  // From the top: an absolute path does not depend on the file. Without "#" the whole file is meant.
  lemma {:induction false} AbsoluteAndWhole(names: seq<string>, file: File, dir: File)
    requires names != [] && forall x | x in names :: Plain(x)
    ensures dir <= names ==> Canonical("/" + PathText(names), file, dir) == Ok(Target(names, []))
    ensures dir <= Parent(file) ==> Canonical(PathText(names), file, dir) == Ok(Target(Parent(file) + names, []))
  {
    hide JoinPath, Find, Split, PathText, Unquote;
    var name := PathText(names);
    PathPlain(names, '#');
    PathPlain(names, '%');
    assert names[0] in names;
    Relative(names);
    FindNone(name, '#');
    FindNone("/" + name, '#');
    UnquotePlain(name);
    UnquotePlain("/" + name);
    UnquotePlain("");
    PathSplits(names);
    SplitHead("", name, '/');
    assert "" + ['/'] + name == "/" + name;
    NamesGoDown([], names);
    NamesGoDown(Parent(file), names);
    Nothing([], names);
    assert [] + names == names;
    assert ("/" + name)[..|name| + 1] == "/" + name && name[..|name|] == name;
  }
}
