/**
 * Text-level pieces of the generated script that frame.py touches directly:
 * the `{file_name}` placeholder that a local Frame's statement carries until
 * its variable name is known, and the single-quoted string literals that
 * `replace` builds.
 */
module ScriptText {
  import opened Wrappers

  /** The format field that `code_line` fills with the node's variable name. */
  const Placeholder: string := "{file_name}"

  /** The placeholder starts at position `k` of the template. */
  predicate MentionsAt(template: string, k: nat)
  {
    k + |Placeholder| <= |template| && template[k..k + |Placeholder|] == Placeholder
  }

  /** The template contains the placeholder somewhere. */
  predicate Mentions(template: string)
  {
    exists k: nat | k <= |template| :: MentionsAt(template, k)
  }

  /**
   * `template.format(file_name=name)`: each occurrence of the placeholder,
   * found left to right, is replaced by `name`; all other text is copied.
   */
  function Fill(template: string, name: string): string
    decreases |template|
  {
    if |template| < |Placeholder| then template
    else if template[..|Placeholder|] == Placeholder then name + Fill(template[|Placeholder|..], name)
    else [template[0]] + Fill(template[1..], name)
  }

  /** A template without the placeholder is left as it is. */
  lemma {:induction false} FillWithoutPlaceholder(template: string, name: string)
    requires !Mentions(template)
    ensures Fill(template, name) == template
  {
    if |template| >= |Placeholder| {
      assert !MentionsAt(template, 0);
      assert template[..|Placeholder|] != Placeholder;
      var tail := template[1..];
      forall k: nat ensures !MentionsAt(tail, k) {
        assert !MentionsAt(template, k + 1);
        if k + |Placeholder| <= |tail| {
          assert tail[k..k + |Placeholder|] == template[k + 1..k + 1 + |Placeholder|];
        }
      }
      FillWithoutPlaceholder(tail, name);
    }
  }

  /** Filling the placeholder with itself changes nothing. */
  lemma {:induction false} FillWithPlaceholder(template: string)
    ensures Fill(template, Placeholder) == template
  {
    if |template| >= |Placeholder| {
      if template[..|Placeholder|] == Placeholder {
        FillWithPlaceholder(template[|Placeholder|..]);
        assert template == template[..|Placeholder|] + template[|Placeholder|..];
      } else {
        FillWithPlaceholder(template[1..]);
        assert template == [template[0]] + template[1..];
      }
    }
  }

  /** Text before the first `{` is copied unchanged. */
  lemma {:induction false} FillCopiesPlainPrefix(prefix: string, rest: string, name: string)
    requires '{' !in prefix
    ensures Fill(prefix + rest, name) == prefix + Fill(rest, name)
  {
    if prefix != [] {
      var s := prefix + rest;
      assert s[0] == prefix[0] != '{';
      assert s[1..] == prefix[1..] + rest;
      if |s| >= |Placeholder| {
        assert s[..|Placeholder|][0] == s[0];
      }
      FillCopiesPlainPrefix(prefix[1..], rest, name);
    } else {
      assert prefix + rest == rest;
    }
  }

  /** The placeholder after plain text is replaced by the name, and filling goes on after it. */
  lemma FillReplacesPlaceholder(prefix: string, rest: string, name: string)
    requires '{' !in prefix
    ensures Fill(prefix + Placeholder + rest, name) == prefix + name + Fill(rest, name)
  {
    FillCopiesPlainPrefix(prefix, Placeholder + rest, name);
    assert (prefix + Placeholder + rest) == prefix + (Placeholder + rest);
    var s := Placeholder + rest;
    assert s[..|Placeholder|] == Placeholder;
    assert s[|Placeholder|..] == rest;
  }

  /** `f"'{s}'"`: the text wrapped in single quotes, with nothing escaped. */
  function Quote(s: string): (lit: string)
    ensures |lit| == |s| + 2 && lit[0] == '\'' && lit[|lit| - 1] == '\''
    ensures lit[1..|lit| - 1] == s
  {
    "'" + s + "'"
  }

  /** The position of the first single quote in `s` at or after `from`, or `|s|` if there is none. */
  function NextQuote(s: string, from: nat): (k: nat)
    requires from <= |s|
    ensures from <= k <= |s|
    ensures k < |s| ==> s[k] == '\''
    ensures forall j :: from <= j < k ==> s[j] != '\''
    decreases |s| - from
  {
    if from == |s| || s[from] == '\'' then from else NextQuote(s, from + 1)
  }

  /**
   * How the script reads a single-quoted literal when no escape sequence is
   * involved: the literal closes at the first quote after the opening one; the
   * text is a single literal only if that quote is its last character.
   */
  function Unquote(lit: string): Option<string>
  {
    if |lit| == 0 || lit[0] != '\'' then None
    else
      var close := NextQuote(lit, 1);
      if close == |lit| - 1 then Some(lit[1..close]) else None
  }

  /** A quoted text reads back as itself exactly when it holds no single quote. */
  lemma QuoteRoundTrip(s: string)
    ensures Unquote(Quote(s)) == Some(s) <==> '\'' !in s
  {
  }

  /** A quote inside the text closes the literal there: what follows it is read as script. */
  lemma QuoteClosesEarly(s: string, j: nat)
    requires j < |s| && s[j] == '\'' && '\'' !in s[..j]
    ensures NextQuote(Quote(s), 1) == j + 1 < |Quote(s)| - 1
  {
  }
}
