/** Substitution of `{key}` placeholders into a bilingual template
    (src/utils/localizedTemplate.ts). For each `(key, value)` pair, in order,
    every occurrence of the literal token `{key}` in the text so far is
    replaced by the value; an absent or empty language text is left as it is. */
module LocalizedTemplate {
  import opened Common

  /** The placeholder token for `key`. */
  function Token(key: string): (t: string)
    ensures |t| == |key| + 2 && t[0] == '{' && t[|t| - 1] == '}'
  {
    "{" + key + "}"
  }

  /** `pat` occurs somewhere in `text`. */
  predicate Occurs(text: string, pat: string) {
    exists i :: 0 <= i <= |text| && pat <= text[i..]
  }

  /** A global replace of a literal pattern: scanning left to right, each
      occurrence is replaced and scanning resumes after it (non-overlapping). */
  function ReplaceAll(text: string, pat: string, repl: string): string
    requires pat != []
    decreases |text|
  {
    if text == [] then []
    else if pat <= text then repl + ReplaceAll(text[|pat|..], pat, repl)
    else [text[0]] + ReplaceAll(text[1..], pat, repl)
  }

  /** Text in which the pattern does not occur comes back unchanged. */
  lemma {:induction false} ReplaceAllWithoutOccurrence(text: string, pat: string, repl: string)
    requires pat != []
    requires !Occurs(text, pat)
    ensures ReplaceAll(text, pat, repl) == text
    decreases |text|
  {
    if text != [] {
      assert text[0..] == text;
      assert !(pat <= text);
      assert !Occurs(text[1..], pat) by {
        forall i | 0 <= i <= |text[1..]| ensures !(pat <= text[1..][i..]) {
          assert text[1..][i..] == text[i + 1..];
        }
      }
      ReplaceAllWithoutOccurrence(text[1..], pat, repl);
    }
  }

  /** No match can start inside a prefix that lacks the pattern's first
      character, so such a prefix is copied through unchanged. */
  lemma {:induction false} ReplaceAllPlainPrefix(x: string, y: string, pat: string, repl: string)
    requires pat != []
    requires pat[0] !in x
    ensures ReplaceAll(x + y, pat, repl) == x + ReplaceAll(y, pat, repl)
    decreases |x|
  {
    if x == [] {
      assert x + y == y;
    } else {
      assert (x + y)[0] == x[0];
      assert !(pat <= x + y);
      assert (x + y)[1..] == x[1..] + y;
      assert pat[0] !in x[1..];
      ReplaceAllPlainPrefix(x[1..], y, pat, repl);
      calc {
        ReplaceAll(x + y, pat, repl);
        [x[0]] + ReplaceAll(x[1..] + y, pat, repl);
        [x[0]] + (x[1..] + ReplaceAll(y, pat, repl));
        { assert x == [x[0]] + x[1..]; }
        x + ReplaceAll(y, pat, repl);
      }
    }
  }

  /** Every occurrence is replaced: text made of pattern-separated segments,
      none containing the pattern's first character, becomes the same
      segments separated by the replacement. */
  lemma {:induction false} ReplaceAllEveryOccurrence(segments: seq<string>, pat: string, repl: string)
    requires pat != []
    requires forall i :: 0 <= i < |segments| ==> pat[0] !in segments[i]
    ensures ReplaceAll(Join(segments, pat), pat, repl) == Join(segments, repl)
    decreases |segments|
  {
    if |segments| == 0 {
    } else if |segments| == 1 {
      ReplaceAllPlainPrefix(segments[0], [], pat, repl);
      assert segments[0] + [] == segments[0];
    } else {
      var rest := Join(segments[1..], pat);
      assert Join(segments, pat) == segments[0] + (pat + rest);
      ReplaceAllPlainPrefix(segments[0], pat + rest, pat, repl);
      assert pat <= pat + rest;
      assert (pat + rest)[|pat|..] == rest;
      ReplaceAllEveryOccurrence(segments[1..], pat, repl);
    }
  }

  /** The specification of the substitution loop: each pair works on the
      output of the pairs before it. */
  function Substitute(text: string, vars: seq<(string, string)>): string
    decreases |vars|
  {
    if vars == [] then text
    else Substitute(ReplaceAll(text, Token(vars[0].0), vars[0].1), vars[1..])
  }

  /** Text that holds no placeholder token of any variable is returned unchanged;
      placeholders naming no variable stay in the output literally. */
  lemma {:induction false} SubstituteWithoutTokens(text: string, vars: seq<(string, string)>)
    requires forall i :: 0 <= i < |vars| ==> !Occurs(text, Token(vars[i].0))
    ensures Substitute(text, vars) == text
    decreases |vars|
  {
    if vars != [] {
      ReplaceAllWithoutOccurrence(text, Token(vars[0].0), vars[0].1);
      SubstituteWithoutTokens(text, vars[1..]);
    }
  }

  /** One variable: every occurrence of its token is replaced by its value. */
  lemma SubstituteSingleVariable(segments: seq<string>, key: string, value: string)
    requires forall i :: 0 <= i < |segments| ==> '{' !in segments[i]
    ensures Substitute(Join(segments, Token(key)), [(key, value)]) == Join(segments, value)
  {
    ReplaceAllEveryOccurrence(segments, Token(key), value);
  }

  /** The inner `render`: an absent or empty text yields nothing, otherwise the
      text with every pair substituted in turn. */
  method Render(text: Option<string>, vars: seq<(string, string)>) returns (out: Option<string>)
    ensures !Truthy(text) ==> out.None?
    ensures Truthy(text) ==> out == Some(Substitute(text.value, vars))
  {
    if !Truthy(text) {
      return None;
    }
    var s := text.value;
    for i := 0 to |vars|
      invariant Substitute(s, vars[i..]) == Substitute(text.value, vars)
    {
      assert vars[i..][1..] == vars[i + 1..];
      s := ReplaceAll(s, Token(vars[i].0), vars[i].1);
    }
    assert vars[|vars|..] == [];
    out := Some(s);
  }

  /** One language of the rendered template: `render(text) ?? text`. */
  function RenderedField(text: Option<string>, vars: seq<(string, string)>): Option<string> {
    if Truthy(text) then Some(Substitute(text.value, vars)) else text
  }

  /** The specification of `renderLocalizedTemplate`. */
  function RenderedTemplate(template: Option<LocalizedString>, vars: seq<(string, string)>): (r: Option<LocalizedString>)
    ensures r.None? <==> template.None?
  {
    match template
    case None => None
    case Some(t) => Some(LocalizedString(RenderedField(t.bn, vars), RenderedField(t.en, vars)))
  }

  /** `renderLocalizedTemplate(template, vars)`: an absent template yields
      nothing; each language is rendered from its own text. */
  method RenderLocalizedTemplate(template: Option<LocalizedString>, vars: seq<(string, string)>)
    returns (r: Option<LocalizedString>)
    ensures r == RenderedTemplate(template, vars)
  {
    if template.None? {
      return None;
    }
    var t := template.value;
    var bn := Render(t.bn, vars);
    var en := Render(t.en, vars);
    r := Some(LocalizedString(if bn.Some? then bn else t.bn, if en.Some? then en else t.en));
  }

  /** A language whose text is absent or empty comes back as it was. */
  lemma EmptyLanguageUnchanged(text: Option<string>, vars: seq<(string, string)>)
    requires !Truthy(text)
    ensures RenderedField(text, vars) == text
  {
  }

  /** The two languages are rendered independently: each output depends only
      on its own template text. */
  lemma LanguagesIndependent(t1: LocalizedString, t2: LocalizedString, vars: seq<(string, string)>)
    ensures t1.bn == t2.bn ==> RenderedTemplate(Some(t1), vars).value.bn == RenderedTemplate(Some(t2), vars).value.bn
    ensures t1.en == t2.en ==> RenderedTemplate(Some(t1), vars).value.en == RenderedTemplate(Some(t2), vars).value.en
  {
  }

  /** Substitution depends on the order of the pairs: with `a` mapped to ""
      and `b` to "X", the text "{{a}b}" renders to "X" in one order and to
      "{b}" in the other. */
  lemma {:induction false} SubstitutionOrderMatters()
    ensures Substitute("{{a}b}", [("a", ""), ("b", "X")]) == "X"
    ensures Substitute("{{a}b}", [("b", "X"), ("a", "")]) == "{b}"
  {
    var t := "{{a}b}";
    assert Token("a") == "{a}";
    assert Token("b") == "{b}";
    // "a" first: "{" + ("{a}" -> "") + "b}" == "{b}", then "{b}" -> "X".
    assert ReplaceAll(t, "{a}", "") == "{b}" by {
      assert !("{a}" <= t);
      assert t[1..] == "{a}b}";
      assert "{a}" <= t[1..];
      assert t[1..][3..] == "b}";
      assert ReplaceAll("b}", "{a}", "") == "b}" by {
        ReplaceAllPlainPrefix("b}", [], "{a}", "");
        assert "b}" + [] == "b}";
      }
    }
    assert ReplaceAll("{b}", "{b}", "X") == "X" by {
      assert "{b}" <= "{b}";
      assert "{b}"[3..] == [];
    }
    assert Substitute("{b}", [("b", "X")]) == "X" by {
      assert [("b", "X")][1..] == [];
    }
    assert [("a", ""), ("b", "X")][1..] == [("b", "X")];
    // "b" first: "{b}" does not occur in "{{a}b}", then "{a}" -> "".
    assert ReplaceAll(t, "{b}", "X") == t by {
      assert !("{b}" <= t);
      assert t[1..] == "{a}b}";
      assert !("{b}" <= t[1..]);
      assert t[1..][1..] == "a}b}";
      ReplaceAllPlainPrefix("a}b}", [], "{b}", "X");
      assert "a}b}" + [] == "a}b}";
    }
    assert Substitute("{b}", [("a", "")]) == "{b}" by {
      assert !("{a}" <= "{b}");
      assert "{b}"[1..] == "b}";
      ReplaceAllPlainPrefix("b}", [], "{a}", "");
      assert "b}" + [] == "b}";
      assert [("a", "")][1..] == [];
    }
    assert [("b", "X"), ("a", "")][1..] == [("a", "")];
  }
}
