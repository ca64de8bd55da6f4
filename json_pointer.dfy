/** JSON Pointer (RFC 6901): the path syntax of JSON Patch. A pointer is the
    empty string (the whole document) or a sequence of "/"-prefixed reference
    tokens in which "~" is written "~0" and "/" is written "~1" (section 3 and
    section 4 of RFC 6901). */
module JsonPointer {
  import opened Wrappers

  /** Escapes one reference token: "~" becomes "~0", "/" becomes "~1". */
  function Escape(t: string): (r: string)
    ensures '/' !in r
  {
    if t == [] then []
    else (if t[0] == '~' then "~0" else if t[0] == '/' then "~1" else [t[0]]) + Escape(t[1..])
  }

  /** Decodes one reference token left to right; a "~" that is not followed by
      "0" or "1" makes the pointer invalid. */
  function Unescape(t: string): Option<string>
    decreases |t|
  {
    if t == [] then Some([])
    else if t[0] == '~' then
      if |t| >= 2 && (t[1] == '0' || t[1] == '1') then
        match Unescape(t[2..])
        case None => None
        case Some(rest) => Some([if t[1] == '0' then '~' else '/'] + rest)
      else None
    else
      match Unescape(t[1..])
      case None => None
      case Some(rest) => Some([t[0]] + rest)
  }

  /** `s.split("/")`: always at least one part. */
  function Split(s: string): (r: seq<string>)
    ensures |r| >= 1
    ensures forall i :: 0 <= i < |r| ==> '/' !in r[i]
  {
    if s == [] then [""]
    else
      var rest := Split(s[1..]);
      if s[0] == '/' then [""] + rest else [[s[0]] + rest[0]] + rest[1..]
  }

  function UnescapeAll(parts: seq<string>): Option<seq<string>> {
    if parts == [] then Some([])
    else
      match Unescape(parts[0])
      case None => None
      case Some(t) =>
        match UnescapeAll(parts[1..])
        case None => None
        case Some(ts) => Some([t] + ts)
  }

  /** Parses a pointer into its reference tokens; None when it is malformed. */
  function Parse(p: string): Option<seq<string>> {
    if p == "" then Some([])
    else if p[0] != '/' then None
    else UnescapeAll(Split(p[1..]))
  }

  /** Writes reference tokens back as a pointer. */
  function Render(tokens: seq<string>): (r: string)
    ensures tokens != [] ==> |r| >= 1 && r[0] == '/'
  {
    if tokens == [] then "" else "/" + Escape(tokens[0]) + Render(tokens[1..])
  }

  function EscapeAll(tokens: seq<string>): (r: seq<string>)
    ensures |r| == |tokens|
  {
    if tokens == [] then [] else [Escape(tokens[0])] + EscapeAll(tokens[1..])
  }

  /** Parsing a rendered pointer gives back the tokens. */
  lemma {:induction false} ParseRender(tokens: seq<string>)
    ensures Parse(Render(tokens)) == Some(tokens)
  {
    if tokens != [] {
      SplitRendered(tokens);
      UnescapeEscapeAll(tokens);
    }
  }

  /** Every pointer that parses is the rendering of what it parses to. */
  lemma {:induction false} RenderParse(p: string)
    requires Parse(p).Some?
    ensures Render(Parse(p).value) == p
  {
    if p != "" {
      var parts := Split(p[1..]);
      RenderSplit(p[1..]);
      EscapeUnescapeAll(parts);
      assert "/" + p[1..] == p;
    }
  }

  lemma {:induction false} UnescapeEscape(t: string)
    ensures Unescape(Escape(t)) == Some(t)
  {
    if t != [] {
      UnescapeEscape(t[1..]);
      var e := Escape(t);
      if t[0] == '~' {
        assert e == "~0" + Escape(t[1..]);
        assert e[2..] == Escape(t[1..]);
      } else if t[0] == '/' {
        assert e == "~1" + Escape(t[1..]);
        assert e[2..] == Escape(t[1..]);
      } else {
        assert e == [t[0]] + Escape(t[1..]);
        assert e[1..] == Escape(t[1..]);
      }
      assert [t[0]] + t[1..] == t;
    }
  }

  lemma {:induction false} EscapeUnescape(t: string)
    requires '/' !in t
    requires Unescape(t).Some?
    ensures Escape(Unescape(t).value) == t
    decreases |t|
  {
    if t != [] {
      if t[0] == '~' {
        EscapeUnescape(t[2..]);
        var u := Unescape(t).value;
        assert u[1..] == Unescape(t[2..]).value;
        assert Escape(u) == t[..2] + Escape(u[1..]);
        assert t[..2] + t[2..] == t;
      } else {
        EscapeUnescape(t[1..]);
        var u := Unescape(t).value;
        assert u[1..] == Unescape(t[1..]).value;
        assert t[..1] + t[1..] == t;
      }
    }
  }

  lemma {:induction false} UnescapeEscapeAll(tokens: seq<string>)
    ensures UnescapeAll(EscapeAll(tokens)) == Some(tokens)
  {
    if tokens != [] {
      UnescapeEscape(tokens[0]);
      UnescapeEscapeAll(tokens[1..]);
      assert EscapeAll(tokens)[1..] == EscapeAll(tokens[1..]);
      assert [tokens[0]] + tokens[1..] == tokens;
    }
  }

  lemma {:induction false} EscapeUnescapeAll(parts: seq<string>)
    requires forall i :: 0 <= i < |parts| ==> '/' !in parts[i]
    requires UnescapeAll(parts).Some?
    ensures EscapeAll(UnescapeAll(parts).value) == parts
  {
    if parts != [] {
      EscapeUnescape(parts[0]);
      EscapeUnescapeAll(parts[1..]);
      var ts := UnescapeAll(parts).value;
      assert ts[1..] == UnescapeAll(parts[1..]).value;
      assert [parts[0]] + parts[1..] == parts;
    }
  }

  lemma {:induction false} SplitNoSlash(a: string)
    requires '/' !in a
    ensures Split(a) == [a]
  {
    if a != [] {
      SplitNoSlash(a[1..]);
      assert [a[0]] + a[1..] == a;
    }
  }

  lemma {:induction false} SplitJoin(a: string, b: string)
    requires '/' !in a
    ensures Split(a + "/" + b) == [a] + Split(b)
  {
    if a == [] {
      assert a + "/" + b == "/" + b;
      assert ("/" + b)[1..] == b;
    } else {
      SplitJoin(a[1..], b);
      assert (a + "/" + b)[1..] == a[1..] + "/" + b;
      assert [a[0]] + a[1..] == a;
    }
  }

  lemma {:induction false} SplitRendered(tokens: seq<string>)
    requires tokens != []
    ensures Split(Render(tokens)[1..]) == EscapeAll(tokens)
  {
    var rest := Render(tokens[1..]);
    assert Render(tokens)[1..] == Escape(tokens[0]) + rest;
    if tokens[1..] == [] {
      assert rest == "";
      assert Render(tokens)[1..] == Escape(tokens[0]);
      SplitNoSlash(Escape(tokens[0]));
      assert EscapeAll(tokens) == [Escape(tokens[0])] + EscapeAll(tokens[1..]);
    } else {
      SplitRendered(tokens[1..]);
      assert rest == "/" + rest[1..];
      assert Escape(tokens[0]) + rest == Escape(tokens[0]) + "/" + rest[1..];
      SplitJoin(Escape(tokens[0]), rest[1..]);
    }
  }

  /** Joining the parts of a split with "/" gives the string back. */
  lemma {:induction false} RenderSplit(s: string)
    requires UnescapeAll(Split(s)).Some?
    ensures "/" + Join(Split(s)) == "/" + s
    ensures Render(UnescapeAll(Split(s)).value) == "/" + s
  {
    JoinSplit(s);
    var parts := Split(s);
    EscapeUnescapeAll(parts);
    RenderIsJoin(UnescapeAll(parts).value);
  }

  function Join(parts: seq<string>): string
    requires parts != []
  {
    if |parts| == 1 then parts[0] else parts[0] + "/" + Join(parts[1..])
  }

  lemma {:induction false} JoinSplit(s: string)
    ensures Join(Split(s)) == s
  {
    if s != [] {
      JoinSplit(s[1..]);
      var rest := Split(s[1..]);
      if s[0] == '/' {
        assert Split(s)[1..] == rest;
        assert [s[0]] + s[1..] == s;
      } else {
        var r := Split(s);
        assert r[1..] == rest[1..];
        if |rest| == 1 {
          assert [s[0]] + s[1..] == s;
        } else {
          assert Join(rest) == rest[0] + "/" + Join(rest[1..]);
          assert [rest[0]] + rest[1..] == rest;
          assert [s[0]] + s[1..] == s;
        }
      }
    }
  }

  lemma {:induction false} RenderIsJoin(tokens: seq<string>)
    requires tokens != []
    ensures Render(tokens) == "/" + Join(EscapeAll(tokens))
  {
    var e := EscapeAll(tokens);
    assert e == [Escape(tokens[0])] + EscapeAll(tokens[1..]);
    if |tokens| > 1 {
      RenderIsJoin(tokens[1..]);
      assert e[1..] == EscapeAll(tokens[1..]);
      assert Join(e) == Escape(tokens[0]) + "/" + Join(e[1..]);
      assert Render(tokens) == "/" + Escape(tokens[0]) + ("/" + Join(e[1..]));
    } else {
      assert tokens[1..] == [];
      assert Render(tokens) == "/" + Escape(tokens[0]) + "";
    }
  }
}
