/** Reading a selection set back: a parser for the text that the graph
    client renders from a field-selection tree, and the proof that the
    rendering loses nothing but the spelling of the tree. Two trees render
    alike exactly when they have the same canonical form, in which lists of
    names are mappings to "just the name" and empty sub-trees are None. */
module SelectionSyntax {
  import opened Wrappers
  import opened GraphQueryText

  predicate IsNameChar(c: char)
  {
    'a' <= c <= 'z' || 'A' <= c <= 'Z' || '0' <= c <= '9' || c == '_'
  }

  /** A non-empty GraphQL name. */
  predicate IsName(s: string)
  {
    |s| > 0 && forall i :: 0 <= i < |s| ==> IsNameChar(s[i])
  }

  /** Every field name in the tree is a GraphQL name. */
  predicate WellNamed(f: Fields)
    decreases f
  {
    match f
    case Null => true
    case Names(ns) => forall i :: 0 <= i < |ns| ==> IsName(ns[i])
    case Tree(es) => forall i :: 0 <= i < |es| ==> IsName(es[i].name) && WellNamed(es[i].sub)
  }

  /** The canonical form of a tree: a mapping whose every entry is "just
      the name" (None) or a non-empty canonical sub-tree. */
  function Canon(f: Fields): (c: Fields)
    ensures Truthy(c) == Truthy(f)
    ensures f.Null? <==> c.Null?
    decreases f, 1
  {
    match f
    case Null => Null
    case Names(ns) => Tree(seq(|ns|, i requires 0 <= i < |ns| => Entry(ns[i], Null)))
    case Tree(es) => Tree(seq(|es|, i requires 0 <= i < |es| => CanonEntry(es[i])))
  }

  function CanonEntry(e: Entry): Entry
    decreases e, 0
  {
    Entry(e.name, if Truthy(e.sub) then Canon(e.sub) else Null)
  }

  /** A tree in canonical form whose names are GraphQL names. */
  predicate Canonical(f: Fields)
    decreases f
  {
    f.Tree? && forall i :: 0 <= i < |f.entries| ==> CanonicalEntry(f.entries[i])
  }

  predicate CanonicalEntry(e: Entry)
    decreases e
  {
    IsName(e.name) && (e.sub.Null? || (Truthy(e.sub) && Canonical(e.sub)))
  }

  /** Canonicalising a tree keeps its rendering. */
  lemma {:induction false} CanonRenders(f: Fields)
    requires !f.Null?
    ensures Stringify(Canon(f)) == Stringify(f)
    decreases f, 1
  {
    var c := Canon(f);
    match f
    case Names(ns) =>
      assert Rendered(c) == ns;
    case Tree(es) =>
      forall i | 0 <= i < |es|
        ensures Rendered(c)[i] == Rendered(f)[i]
      {
        CanonEntryRenders(es[i]);
      }
      assert Rendered(c) == Rendered(f);
  }

  lemma {:induction false} CanonEntryRenders(e: Entry)
    ensures RenderEntry(CanonEntry(e)) == RenderEntry(e)
    decreases e, 0
  {
    if Truthy(e.sub) {
      CanonRenders(e.sub);
    }
  }

  /** The canonical form of a well-named tree is canonical. */
  lemma {:induction false} CanonIsCanonical(f: Fields)
    requires WellNamed(f) && !f.Null?
    ensures Canonical(Canon(f))
    decreases f, 1
  {
    match f
    case Names(ns) =>
    case Tree(es) =>
      forall i | 0 <= i < |es|
        ensures CanonicalEntry(CanonEntry(es[i]))
      {
        CanonEntryIsCanonical(es[i]);
      }
  }

  lemma {:induction false} CanonEntryIsCanonical(e: Entry)
    requires IsName(e.name) && WellNamed(e.sub)
    ensures CanonicalEntry(CanonEntry(e))
    decreases e, 0
  {
    if Truthy(e.sub) {
      CanonIsCanonical(e.sub);
    }
  }

  /** The number of name characters `s` starts with. */
  function NameLength(s: string): (n: nat)
    ensures n <= |s|
    ensures forall i :: 0 <= i < n ==> IsNameChar(s[i])
    ensures n < |s| ==> !IsNameChar(s[n])
  {
    if s == [] || !IsNameChar(s[0]) then 0 else 1 + NameLength(s[1..])
  }

  /** Parses a selection set `{...}` at the start of `s`, returning the
      tree and the text after it. */
  function ParseSelection(s: string): (r: Option<(Fields, string)>)
    ensures r.Some? ==> |r.value.1| < |s|
    decreases |s|, 2
  {
    if |s| >= 2 && s[0] == '{' && s[1] == '}' then Some((Tree([]), s[2..]))
    else if |s| >= 1 && s[0] == '{' then
      match ParseEntries(s[1..])
      case Some((es, rest)) => Some((Tree(es), rest))
      case None => None
    else None
  }

  /** Parses `entry, entry, ..., entry}`. */
  function ParseEntries(s: string): (r: Option<(seq<Entry>, string)>)
    ensures r.Some? ==> |r.value.1| < |s|
    decreases |s|, 1
  {
    match ParseEntry(s)
    case None => None
    case Some((e, rest)) =>
      if |rest| >= 1 && rest[0] == '}' then Some(([e], rest[1..]))
      else if |rest| >= 2 && rest[0] == ',' && rest[1] == ' ' then
        match ParseEntries(rest[2..])
        case Some((es, rest')) => Some(([e] + es, rest'))
        case None => None
      else None
  }

  /** Parses `name` or `name {...}`. */
  function ParseEntry(s: string): (r: Option<(Entry, string)>)
    ensures r.Some? ==> |r.value.1| < |s|
    decreases |s|, 0
  {
    var n := NameLength(s);
    if n == 0 then None
    else if n + 1 < |s| && s[n] == ' ' && s[n + 1] == '{' then
      match ParseSelection(s[n + 1..])
      case Some((sub, rest)) => Some((Entry(s[..n], sub), rest))
      case None => None
    else Some((Entry(s[..n], Null), s[n..]))
  }

  /** Parses a whole selection set. */
  function Parse(s: string): Option<Fields>
  {
    match ParseSelection(s)
    case Some((f, rest)) => if rest == "" then Some(f) else None
    case None => None
  }

  lemma {:induction false} ParsesSelection(f: Fields, rest: string)
    requires Canonical(f)
    ensures ParseSelection(Stringify(f) + rest) == Some((f, rest))
    decreases f, |f.entries| + 1
  {
    var es := f.entries;
    if es == [] {
      assert Stringify(f) == "{}";
      assert (Stringify(f) + rest)[2..] == rest;
    } else {
      var body := Join(Rendered(f), ", ") + "}" + rest;
      assert Stringify(f) + rest == "{" + body;
      ParsesEntries(es, 0, rest);
      assert Rendered(f)[0..] == Rendered(f);
      assert body[0] == es[0].name[0] by {
        assert Rendered(f)[0] == RenderEntry(es[0]);
        if |es| > 1 {
          assert Join(Rendered(f), ", ") == Rendered(f)[0] + ", " + Join(Rendered(f)[1..], ", ");
        }
      }
      assert (Stringify(f) + rest)[1..] == body;
    }
  }

  /** The entries es[from..], rendered and closed by `}`, parse back. */
  lemma {:induction false} ParsesEntries(es: seq<Entry>, from: nat, rest: string)
    requires from < |es|
    requires forall i :: 0 <= i < |es| ==> CanonicalEntry(es[i])
    ensures ParseEntries(Join(Rendered(Tree(es))[from..], ", ") + "}" + rest) == Some((es[from..], rest))
    decreases Tree(es), |es| - from
  {
    var texts := Rendered(Tree(es))[from..];
    assert texts[0] == RenderEntry(es[from]);
    JoinClosed(texts, rest);
    if from + 1 == |es| {
      ParsesEntry(es[from], "}" + rest);
      assert es[from..] == [es[from]];
    } else {
      assert es[from..] == [es[from]] + es[from + 1..];
      assert texts[1..] == Rendered(Tree(es))[from + 1..];
      var tail := Join(texts[1..], ", ") + "}" + rest;
      ParsesEntry(es[from], ", " + tail);
      ParsesEntries(es, from + 1, rest);
      assert (", " + tail)[2..] == tail;
    }
  }

  /** A closed list of one or more texts splits after its first text. */
  lemma JoinClosed(texts: seq<string>, rest: string)
    requires |texts| > 0
    ensures |texts| == 1 ==> Join(texts, ", ") + "}" + rest == texts[0] + ("}" + rest)
    ensures |texts| > 1 ==>
      Join(texts, ", ") + "}" + rest == texts[0] + (", " + (Join(texts[1..], ", ") + "}" + rest))
  {
    var a := texts[0];
    if |texts| == 1 {
      Associative(a, "}", rest);
    } else {
      var j := Join(texts[1..], ", ");
      assert Join(texts, ", ") == a + ", " + j;
      Associative(a + ", " + j, "}", rest);
      Associative(a + ", ", j, "}" + rest);
      Associative(j, "}", rest);
      Associative(a, ", ", j + "}" + rest);
    }
  }

  lemma Associative(a: string, b: string, c: string)
    ensures a + b + c == a + (b + c)
  {
  }

  /** One rendered entry, followed by `,` or `}`, parses back. */
  lemma {:induction false} ParsesEntry(e: Entry, rest: string)
    requires CanonicalEntry(e)
    requires |rest| > 0 && (rest[0] == ',' || rest[0] == '}')
    ensures ParseEntry(RenderEntry(e) + rest) == Some((e, rest))
    decreases e, 0
  {
    var n := |e.name|;
    if e.sub.Null? {
      var s := e.name + rest;
      NameLengthOf(e.name, rest);
      assert s[..n] == e.name && s[n..] == rest;
    } else {
      var inner := Stringify(e.sub) + rest;
      var s := e.name + (" " + inner);
      assert RenderEntry(e) + rest == s;
      NameLengthOf(e.name, " " + inner);
      ParsesSelection(e.sub, rest);
      assert s[..n] == e.name && s[n + 1..] == inner;
    }
  }

  lemma NameLengthOf(name: string, rest: string)
    requires IsName(name)
    requires rest == [] || !IsNameChar(rest[0])
    ensures NameLength(name + rest) == |name|
    decreases |name|
  {
    if |name| > 1 {
      assert (name + rest)[1..] == name[1..] + rest;
      NameLengthOf(name[1..], rest);
    } else {
      assert (name + rest)[1..] == rest;
    }
  }

  /** The selection set of a well-named tree parses back to the tree's
      canonical form. */
  lemma RoundTrip(f: Fields)
    requires WellNamed(f) && !f.Null?
    ensures Parse(Stringify(f)) == Some(Canon(f))
  {
    CanonIsCanonical(f);
    CanonRenders(f);
    ParsesSelection(Canon(f), "");
    assert Stringify(Canon(f)) + "" == Stringify(f);
  }

  /** So the rendering tells well-named trees apart up to canonical form:
      two of them render alike exactly when their canonical forms agree. */
  lemma RendersAlike(f: Fields, g: Fields)
    requires WellNamed(f) && !f.Null? && WellNamed(g) && !g.Null?
    ensures Stringify(f) == Stringify(g) <==> Canon(f) == Canon(g)
  {
    RoundTrip(f);
    RoundTrip(g);
    if Canon(f) == Canon(g) {
      CanonRenders(f);
      CanonRenders(g);
    }
  }
}
