/** MessageBuilder.escape: the markup escaping applied to every free-text
    fragment the builder appends. */
module Escaping {

  /** String.replace with a one-character target: every occurrence of c, left to
      right, becomes rep. */
  function ReplaceChar(s: string, c: char, rep: string): string
  {
    if s == [] then [] else (if s[0] == c then rep else [s[0]]) + ReplaceChar(s[1..], c, rep)
  }

  /** escape: `&` first, then `<`, then `>`. */
  function Escape(s: string): string
  {
    ReplaceChar(ReplaceChar(ReplaceChar(s, '&', "&amp;"), '<', "&lt;"), '>', "&gt;")
  }

  predicate IsSpecial(c: char)
  {
    c == '&' || c == '<' || c == '>'
  }

  function EscapeChar(c: char): string
  {
    if c == '&' then "&amp;" else if c == '<' then "&lt;" else if c == '>' then "&gt;" else [c]
  }

  /** The same escaping stated one character at a time. */
  function EscapeEach(s: string): string
  {
    if s == [] then [] else EscapeChar(s[0]) + EscapeEach(s[1..])
  }

  /** r[i..] begins with one of the three entities escape produces. */
  predicate EntityAt(r: string, i: nat)
    requires i < |r|
  {
    "&amp;" <= r[i..] || "&lt;" <= r[i..] || "&gt;" <= r[i..]
  }

  /** Reads the three entities back. */
  function Unescape(s: string): string
    decreases |s|
  {
    if s == [] then []
    else if "&amp;" <= s then "&" + Unescape(s[5..])
    else if "&lt;" <= s then "<" + Unescape(s[4..])
    else if "&gt;" <= s then ">" + Unescape(s[4..])
    else [s[0]] + Unescape(s[1..])
  }

  lemma {:induction false} ReplaceCharAppend(a: string, b: string, c: char, rep: string)
    ensures ReplaceChar(a + b, c, rep) == ReplaceChar(a, c, rep) + ReplaceChar(b, c, rep)
    decreases |a|
  {
    if a != [] {
      assert (a + b)[0] == a[0];
      assert (a + b)[1..] == a[1..] + b;
      ReplaceCharAppend(a[1..], b, c, rep);
    } else {
      assert a + b == b;
    }
  }

  lemma {:induction false} ReplaceAbsent(s: string, c: char, rep: string)
    requires c !in s
    ensures ReplaceChar(s, c, rep) == s
    decreases |s|
  {
    if s != [] {
      ReplaceAbsent(s[1..], c, rep);
      assert s == [s[0]] + s[1..];
    }
  }

  lemma ReplaceSingle(c: char, d: char, rep: string)
    ensures ReplaceChar([c], d, rep) == if c == d then rep else [c]
  {
    var x := if c == d then rep else [c];
    assert [c][1..] == [];
    assert ReplaceChar([c], d, rep) == x + ReplaceChar([], d, rep);
    assert x + [] == x;
  }

  lemma EscapeOneChar(c: char)
    ensures Escape([c]) == EscapeChar(c)
  {
    ReplaceSingle(c, '&', "&amp;");
    var a1 := ReplaceChar([c], '&', "&amp;");
    var a2 := ReplaceChar(a1, '<', "&lt;");
    if c == '<' {
      ReplaceSingle(c, '<', "&lt;");
    } else {
      ReplaceAbsent(a1, '<', "&lt;");
    }
    if c == '>' {
      ReplaceSingle(c, '>', "&gt;");
    } else {
      ReplaceAbsent(a2, '>', "&gt;");
    }
  }

  /** The three successive replacements agree with escaping each character on its
      own: no replacement rewrites what an earlier one produced. */
  lemma {:induction false} EscapeIsPerChar(s: string)
    ensures Escape(s) == EscapeEach(s)
    decreases |s|
  {
    if s != [] {
      var head, tail := [s[0]], s[1..];
      assert s == head + tail;
      var a1 := ReplaceChar(head, '&', "&amp;");
      var b1 := ReplaceChar(tail, '&', "&amp;");
      ReplaceCharAppend(head, tail, '&', "&amp;");
      ReplaceCharAppend(a1, b1, '<', "&lt;");
      var a2 := ReplaceChar(a1, '<', "&lt;");
      var b2 := ReplaceChar(b1, '<', "&lt;");
      ReplaceCharAppend(a2, b2, '>', "&gt;");
      assert Escape(s) == Escape(head) + Escape(tail);
      EscapeOneChar(s[0]);
      EscapeIsPerChar(tail);
    }
  }

  lemma {:induction false} EscapeEachAppend(a: string, b: string)
    ensures EscapeEach(a + b) == EscapeEach(a) + EscapeEach(b)
    decreases |a|
  {
    if a != [] {
      assert (a + b)[0] == a[0];
      assert (a + b)[1..] == a[1..] + b;
      EscapeEachAppend(a[1..], b);
      calc {
        EscapeEach(a + b);
        EscapeChar(a[0]) + EscapeEach(a[1..] + b);
        EscapeChar(a[0]) + (EscapeEach(a[1..]) + EscapeEach(b));
      }
    } else {
      assert a + b == b;
    }
  }

  /** Escaping a concatenation escapes each part. */
  lemma EscapeAppend(a: string, b: string)
    ensures Escape(a + b) == Escape(a) + Escape(b)
  {
    EscapeIsPerChar(a + b);
    EscapeIsPerChar(a);
    EscapeIsPerChar(b);
    EscapeEachAppend(a, b);
  }

  lemma {:induction false} EscapeEachProperties(s: string)
    ensures '<' !in EscapeEach(s) && '>' !in EscapeEach(s)
    ensures forall i :: 0 <= i < |EscapeEach(s)| && EscapeEach(s)[i] == '&' ==> EntityAt(EscapeEach(s), i)
    decreases |s|
  {
    if s != [] {
      EscapeEachProperties(s[1..]);
      var e, rest := EscapeChar(s[0]), EscapeEach(s[1..]);
      var r := e + rest;
      assert EscapeEach(s) == r;
      forall i | 0 <= i < |r| && r[i] == '&'
        ensures EntityAt(r, i)
      {
        if i < |e| {
          assert i == 0;
          assert r[i..] == e + rest;
        } else {
          assert r[i..] == rest[i - |e|..];
          assert rest[i - |e|] == '&';
        }
      }
    }
  }

  /** Escaped text holds no `<` and no `>`, and every `&` in it begins `&amp;`,
      `&lt;` or `&gt;`. */
  lemma EscapeNeutralizes(s: string)
    ensures '<' !in Escape(s) && '>' !in Escape(s)
    ensures forall i :: 0 <= i < |Escape(s)| && Escape(s)[i] == '&' ==> EntityAt(Escape(s), i)
  {
    EscapeIsPerChar(s);
    EscapeEachProperties(s);
  }

  lemma {:induction false} EscapeEachUnchanged(s: string)
    ensures EscapeEach(s) == s <==> forall k :: 0 <= k < |s| ==> !IsSpecial(s[k])
    ensures |EscapeEach(s)| >= |s|
    decreases |s|
  {
    if s != [] {
      EscapeEachUnchanged(s[1..]);
      if IsSpecial(s[0]) {
        assert |EscapeEach(s)| > |s|;
      } else {
        assert EscapeEach(s) == [s[0]] + EscapeEach(s[1..]);
        assert s == [s[0]] + s[1..];
        assert (forall k :: 0 <= k < |s| ==> !IsSpecial(s[k])) <==>
               (forall k :: 0 <= k < |s[1..]| ==> !IsSpecial(s[1..][k]));
      }
    }
  }

  /** Text without `&`, `<` and `>` is returned unchanged, and only such text. */
  lemma EscapeUnchangedIff(s: string)
    ensures Escape(s) == s <==> forall k :: 0 <= k < |s| ==> !IsSpecial(s[k])
  {
    EscapeIsPerChar(s);
    EscapeEachUnchanged(s);
  }

  lemma {:induction false} UnescapeEscapeEach(s: string)
    ensures Unescape(EscapeEach(s)) == s
    decreases |s|
  {
    if s != [] {
      var e, rest := EscapeChar(s[0]), EscapeEach(s[1..]);
      assert EscapeEach(s) == e + rest;
      UnescapeEscapeEach(s[1..]);
      var r := e + rest;
      if s[0] == '&' {
        assert "&amp;" <= r;
        assert r[5..] == rest;
      } else if s[0] == '<' {
        assert r[1] == 'l';
        assert "&lt;" <= r;
        assert r[4..] == rest;
      } else if s[0] == '>' {
        assert r[1] == 'g';
        assert "&gt;" <= r;
        assert r[4..] == rest;
      } else {
        assert r[0] == s[0] != '&';
        assert r[1..] == rest;
      }
      assert s == [s[0]] + s[1..];
    }
  }

  /** Escaping loses nothing: Unescape reads every escaped text back. */
  lemma UnescapeEscape(s: string)
    ensures Unescape(Escape(s)) == s
  {
    EscapeIsPerChar(s);
    UnescapeEscapeEach(s);
  }
}
