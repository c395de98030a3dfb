/**
 * The placeholder substitution of the prompt engine: every `{{name}}` token, where
 * `name` is one or more characters of `[A-Za-z0-9_]`, is replaced in one left-to-right
 * pass by the value of `name` in a data mapping; a token whose name has no value is kept
 * literally, and replacement text is never scanned again.
 */
module Interpolation {
  import opened Wrappers
  import opened Text

  /** A character of the regular-expression class `\w`: `[A-Za-z0-9_]`. */
  predicate IsWordChar(c: char)
  {
    ('A' <= c <= 'Z') || ('a' <= c <= 'z') || ('0' <= c <= '9') || c == '_'
  }

  /** A name a placeholder token can carry: `\w+`. */
  predicate IsName(k: string)
  {
    |k| > 0 && forall i :: 0 <= i < |k| ==> IsWordChar(k[i])
  }

  /** The length of the longest prefix of `s` made of word characters. */
  function WordRun(s: string): (n: nat)
    ensures n <= |s|
    ensures forall i :: 0 <= i < n ==> IsWordChar(s[i])
    ensures n < |s| ==> !IsWordChar(s[n])
    decreases |s|
  {
    if |s| > 0 && IsWordChar(s[0]) then 1 + WordRun(s[1..]) else 0
  }

  /** A run of word characters followed by a non-word character is exactly that run. */
  lemma WordRunOfName(k: string, rest: string)
    requires forall i :: 0 <= i < |k| ==> IsWordChar(k[i])
    requires |rest| > 0 && !IsWordChar(rest[0])
    ensures WordRun(k + rest) == |k|
  {
    var s := k + rest;
    assert forall i :: 0 <= i < |k| ==> s[i] == k[i];
    assert s[|k|] == rest[0];
  }

  /**
   * The name of the placeholder token that starts `s`, if one does. The regular
   * expression matches `{{`, then a greedy `\w+`, then `}}`; since `}` is not a word
   * character, giving back word characters never helps, so the maximal run decides.
   */
  function TokenAt(s: string): (r: Option<string>)
    ensures r.Some? ==> IsName(r.value) && |r.value| + 4 <= |s|
    ensures r.Some? ==> s[..|r.value| + 4] == "{{" + r.value + "}}"
  {
    if |s| >= 2 && s[0] == '{' && s[1] == '{' then
      var n := WordRun(s[2..]);
      if n > 0 && n + 4 <= |s| && s[n + 2] == '}' && s[n + 3] == '}' then
        Some(s[2..n + 2])
      else
        None
    else
      None
  }

  /** Every token spelled `{{k}}` with a well-formed name `k` is recognised, with name `k`. */
  lemma TokenAtComplete(k: string, q: string)
    requires IsName(k)
    ensures TokenAt("{{" + k + "}}" + q) == Some(k)
  {
    var s := "{{" + k + "}}" + q;
    assert s[2..] == k + ("}}" + q);
    WordRunOfName(k, "}}" + q);
    assert s[2..|k| + 2] == k;
  }

  /** The text a token `{{k}}` is replaced by: `data[k] ?? "{{k}}"`. */
  function Lookup(k: string, data: map<string, string>): string
  {
    if k in data then data[k] else "{{" + k + "}}"
  }

  /** One left-to-right replace pass over a string (the regular-expression replace). */
  function Substitute(text: string, data: map<string, string>): string
    decreases |text|
  {
    if |text| == 0 then ""
    else
      match TokenAt(text)
      case Some(k) => Lookup(k, data) + Substitute(text[|k| + 4..], data)
      case None => [text[0]] + Substitute(text[1..], data)
  }

  /**
   * `interpolate(text, data)`: `None` stands for a missing text. A missing or empty
   * text gives "" whatever the data; any other text is substituted.
   */
  function Interpolate(text: Option<string>, data: map<string, string>): (r: string)
    ensures text == None || text == Some("") ==> r == ""
    ensures text.Some? ==> r == Substitute(text.value, data)
  {
    match text
    case None => ""
    case Some(t) => if t == "" then "" else Substitute(t, data)
  }

  /** A first character other than `{` cannot start a token, so it is copied. */
  lemma PlainStep(s: string, data: map<string, string>)
    requires |s| > 0 && s[0] != '{'
    ensures Substitute(s, data) == [s[0]] + Substitute(s[1..], data)
  {
    assert TokenAt(s) == None;
  }

  /** A prefix containing no `{` cannot start a token, so it is copied unchanged. */
  lemma {:induction false} LiteralPrefix(p: string, q: string, data: map<string, string>)
    requires '{' !in p
    ensures Substitute(p + q, data) == p + Substitute(q, data)
    decreases |p|
  {
    if |p| == 0 {
      assert p + q == q;
    } else {
      var s := p + q;
      assert s[0] == p[0] && s[1..] == p[1..] + q;
      assert '{' !in p[1..] by {
        assert forall i :: 0 <= i < |p[1..]| ==> p[1..][i] == p[i + 1];
      }
      calc {
        Substitute(s, data);
      == { PlainStep(s, data); }
        [p[0]] + Substitute(p[1..] + q, data);
      == { LiteralPrefix(p[1..], q, data); }
        [p[0]] + (p[1..] + Substitute(q, data));
      == { ConcatAssoc([p[0]], p[1..], Substitute(q, data)); assert [p[0]] + p[1..] == p; }
        p + Substitute(q, data);
      }
    }
  }

  /**
   * A token at the front is replaced by the value of its name, or kept literally when
   * the name has none; the value is inserted as it is and scanning resumes after the token.
   */
  lemma TokenPrefix(k: string, q: string, data: map<string, string>)
    requires IsName(k)
    ensures k in data ==> Substitute("{{" + k + "}}" + q, data) == data[k] + Substitute(q, data)
    ensures k !in data ==> Substitute("{{" + k + "}}" + q, data) == "{{" + k + "}}" + Substitute(q, data)
  {
    var s := "{{" + k + "}}" + q;
    TokenAtComplete(k, q);
    assert s[|k| + 4..] == q;
  }

  /** A token at the front of `s` ends before any later position where `{{` stands. */
  lemma TokenEndsBeforeBraces(s: string, i: nat)
    requires 1 <= i && i + 2 <= |s| && s[i] == '{' && s[i + 1] == '{' && TokenAt(s).Some?
    ensures |TokenAt(s).value| + 4 <= i
  {
    var j := TokenAt(s).value;
    assert s[..|j| + 4] == "{{" + j + "}}";
    assert forall m :: 2 <= m < |j| + 2 ==> s[m] == j[m - 2];
    assert s[|j| + 2] == '}' && s[|j| + 3] == '}';
  }

  /**
   * No token runs from a non-empty text into a following `{{`: the `{` that begins it is
   * neither a word character nor `}`. So the token (or its absence) at the front is the same.
   */
  lemma TokenAtBeforeBraces(p: string, r: string)
    requires |p| > 0 && |r| >= 2 && r[0] == '{' && r[1] == '{'
    ensures TokenAt(p + r) == TokenAt(p)
  {
    var s := p + r;
    if TokenAt(p).Some? {
      var j := TokenAt(p).value;
      var rest := p[|j| + 4..];
      assert p == "{{" + j + "}}" + rest;
      assert s == "{{" + j + "}}" + (rest + r);
      TokenAtComplete(j, rest + r);
    } else if TokenAt(s).Some? {
      var j := TokenAt(s).value;
      var n, t := |j| + 4, "{{" + j + "}}";
      TokenEndsBeforeBraces(s, |p|);
      assert p[..n] == s[..n];
      assert p == t + p[n..];
      TokenAtComplete(j, p[n..]);
      assert false;
    }
  }

  /**
   * The pass can be cut just before any `{{`: no token straddles that point, so the text
   * before it and the text from it on are substituted on their own.
   */
  lemma {:induction false} SplitBeforeBraces(p: string, r: string, data: map<string, string>)
    requires |r| >= 2 && r[0] == '{' && r[1] == '{'
    ensures Substitute(p + r, data) == Substitute(p, data) + Substitute(r, data)
    decreases |p|
  {
    var s := p + r;
    var after := Substitute(r, data);
    if |p| == 0 {
      assert s == r;
    } else {
      TokenAtBeforeBraces(p, r);
      if TokenAt(p).Some? {
        var n := |TokenAt(p).value| + 4;
        var head := Lookup(TokenAt(p).value, data);
        calc {
          Substitute(s, data);
          head + Substitute(s[n..], data);
        == { assert s[n..] == p[n..] + r; }
          head + Substitute(p[n..] + r, data);
        == { SplitBeforeBraces(p[n..], r, data); }
          head + (Substitute(p[n..], data) + after);
        == { ConcatAssoc(head, Substitute(p[n..], data), after); }
          (head + Substitute(p[n..], data)) + after;
          Substitute(p, data) + after;
        }
      } else {
        calc {
          Substitute(s, data);
          [s[0]] + Substitute(s[1..], data);
        == { assert s[0] == p[0] && s[1..] == p[1..] + r; }
          [p[0]] + Substitute(p[1..] + r, data);
        == { SplitBeforeBraces(p[1..], r, data); }
          [p[0]] + (Substitute(p[1..], data) + after);
        == { ConcatAssoc([p[0]], Substitute(p[1..], data), after); }
          ([p[0]] + Substitute(p[1..], data)) + after;
          Substitute(p, data) + after;
        }
      }
    }
  }

  /**
   * A token anywhere in the text is replaced by `data[k]`, or kept as `{{k}}` when `k`
   * has no value, whatever text precedes it: the text before it and the text after it
   * are substituted on their own.
   */
  lemma TokenAnywhere(p: string, k: string, q: string, data: map<string, string>)
    requires IsName(k)
    ensures Substitute(p + ("{{" + k + "}}" + q), data)
         == Substitute(p, data) + (Lookup(k, data) + Substitute(q, data))
  {
    var r := "{{" + k + "}}" + q;
    assert r[0] == '{' && r[1] == '{';
    SplitBeforeBraces(p, r, data);
    TokenPrefix(k, q, data);
  }

  /** Text in which no position starts a token is returned unchanged. */
  lemma {:induction false} TokenFreeUnchanged(text: string, data: map<string, string>)
    requires forall i :: 0 <= i < |text| ==> TokenAt(text[i..]) == None
    ensures Substitute(text, data) == text
    decreases |text|
  {
    if |text| > 0 {
      assert text[0..] == text;
      forall i | 0 <= i < |text[1..]| ensures TokenAt(text[1..][i..]) == None {
        assert text[1..][i..] == text[i + 1..];
      }
      TokenFreeUnchanged(text[1..], data);
      assert [text[0]] + text[1..] == text;
    }
  }

  /** With an empty mapping every token is unresolved, so the text comes back as it was. */
  lemma {:induction false} EmptyDataIdentity(text: string)
    ensures Substitute(text, map[]) == text
    decreases |text|
  {
    if |text| > 0 {
      match TokenAt(text)
      case Some(k) =>
        EmptyDataIdentity(text[|k| + 4..]);
        assert text[..|k| + 4] + text[|k| + 4..] == text;
      case None =>
        EmptyDataIdentity(text[1..]);
        assert [text[0]] + text[1..] == text;
    }
  }

  /** Where no token starts, the first character is copied and scanning moves on by one. */
  lemma SkipStep(s: string, data: map<string, string>)
    requires |s| > 0 && TokenAt(s) == None
    ensures Substitute(s, data) == [s[0]] + Substitute(s[1..], data)
  {
  }

  /** Neither brace of `{{k}}` starts a token when `k` is brace-free and not a name. */
  lemma MalformedHasNoToken(k: string)
    requires '{' !in k && '}' !in k && !IsName(k)
    ensures TokenAt("{{" + k + "}}") == None
    ensures TokenAt("{" + k + "}}") == None
  {
    var s := "{{" + k + "}}";
    assert s[2..] == k + "}}";
    var n := WordRun(s[2..]);
    assert forall i :: 0 <= i < |k| ==> s[2..][i] == k[i];
    if n < |k| {
      assert s[n + 2] == k[n];
    } else {
      assert |k| == 0;
    }
    var t := "{" + k + "}}";
    if |k| > 0 {
      assert t[1] == k[0];
    }
  }

  /**
   * Only word-character names are recognised: `{{k}}` where `k` holds no brace and is
   * not a `\w+` name (for instance `{{}}` or `{{a-b}}`) is left as it is, whatever the data.
   */
  lemma MalformedTokenUnchanged(k: string, data: map<string, string>)
    requires '{' !in k && '}' !in k && !IsName(k)
    ensures Substitute("{{" + k + "}}", data) == "{{" + k + "}}"
  {
    var s, t, u := "{{" + k + "}}", "{" + k + "}}", k + "}}";
    MalformedHasNoToken(k);
    assert s[0] == '{' && s[1..] == t;
    assert t[0] == '{' && t[1..] == u;
    assert '{' !in u;
    calc {
      Substitute(s, data);
    == { SkipStep(s, data); }
      "{" + Substitute(t, data);
    == { SkipStep(t, data); }
      "{" + ("{" + Substitute(u, data));
    == { LiteralPrefix(u, "", data); assert u + "" == u; }
      "{" + ("{" + (u + ""));
    == { assert "{" + ("{" + (u + "")) == s; }
      s;
    }
  }

  /** `lit + {{key}} + rest` with no `{` in `lit`: the literal, then the key's text, then the rest. */
  lemma Segment(lit: string, key: string, rest: string, data: map<string, string>)
    requires '{' !in lit && IsName(key) && key in data
    ensures Substitute(lit + ("{{" + key + "}}" + rest), data) == lit + (data[key] + Substitute(rest, data))
  {
    assert Substitute("{{" + key + "}}" + rest, data) == data[key] + Substitute(rest, data) by {
      TokenPrefix(key, rest, data);
    }
    LiteralPrefix(lit, "{{" + key + "}}" + rest, data);
  }

  /** Two labelled tokens in a row, each preceded by text with no `{`, both with values. */
  lemma TwoSegments(a: string, k1: string, b: string, k2: string, rest: string, data: map<string, string>)
    requires '{' !in a && '{' !in b && IsName(k1) && IsName(k2) && k1 in data && k2 in data
    ensures Substitute(a + ("{{" + k1 + "}}" + (b + ("{{" + k2 + "}}" + rest))), data)
         == a + (data[k1] + (b + (data[k2] + Substitute(rest, data))))
  {
    var r2 := b + ("{{" + k2 + "}}" + rest);
    assert Substitute(r2, data) == b + (data[k2] + Substitute(rest, data)) by {
      Segment(b, k2, rest, data);
    }
    Segment(a, k1, r2, data);
  }

  /** Replacement text is not scanned again: a value that itself looks like a token stays. */
  lemma ValueNotRescanned()
    ensures Substitute("{{a}}", map["a" := "{{b}}", "b" := "x"]) == "{{b}}"
  {
    TokenPrefix("a", "", map["a" := "{{b}}", "b" := "x"]);
    assert "{{" + "a" + "}}" + "" == "{{a}}";
  }

  /**
   * A known key followed by a missing one: the first token becomes the value, the
   * second survives literally, and the literal text around them is kept.
   */
  lemma KnownThenMissing(pre: string, k: string, sep: string, m: string, v: string)
    requires '{' !in pre && '{' !in sep && IsName(k) && IsName(m) && k != m
    ensures var tok, tail := "{{" + k + "}}", "{{" + m + "}}";
      Substitute(pre + (tok + (sep + tail)), map[k := v]) == pre + (v + (sep + tail))
  {
    var data := map[k := v];
    var tok, tail := "{{" + k + "}}", "{{" + m + "}}";
    assert Substitute(tail, data) == tail by {
      TokenPrefix(m, "", data);
      assert tail + "" == tail;
    }
    assert Substitute(sep + tail, data) == sep + tail by {
      LiteralPrefix(sep, tail, data);
    }
    assert Substitute(tok + (sep + tail), data) == v + (sep + tail) by {
      TokenPrefix(k, sep + tail, data);
    }
    assert Substitute(pre + (tok + (sep + tail)), data) == pre + (v + (sep + tail)) by {
      LiteralPrefix(pre, tok + (sep + tail), data);
    }
  }

  /** The two keys of the example below are well-formed names. */
  lemma KnownAndMissingNames()
    ensures IsName("application_type") && IsName("missing_key")
  {
  }

  /** A concrete text with one known and one missing key: the first is filled in, the second kept. */
  lemma KnownAndMissingExample()
    ensures Interpolate(Some("Building a " + ("{{application_type}}" + (" for " + "{{missing_key}}"))),
                        map["application_type" := "website"])
         == "Building a " + ("website" + (" for " + "{{missing_key}}"))
  {
    var app, missing := "application_type", "missing_key";
    assert "{{" + app + "}}" == "{{application_type}}";
    assert "{{" + missing + "}}" == "{{missing_key}}";
    KnownAndMissingNames();
    KnownThenMissing("Building a ", app, " for ", missing, "website");
  }
}
