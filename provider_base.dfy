/** `LLMProvider`: the frozen provider base record (src/providers/base.py). */
module ProviderBase {
  import opened Wrappers
  import opened Errors
  import opened Text

  /**
   * The frozen dataclass fields, plus `className`, the name of the concrete
   * subclass that `__repr__` prints.
   */
  datatype Provider = Provider(className: string, name: string, model: string)

  const EmptyNameMessage: string := "Provider name cannot be empty"
  const EmptyModelMessage: string := "Model identifier cannot be empty"

  /**
   * Construction with `__post_init__`: a blank name raises before the model
   * is looked at; the fields are stored unstripped.
   */
  function NewProvider(className: string, name: string, model: string): (r: Result<Provider, Error>)
    ensures r.Success? <==> !IsBlank(name) && !IsBlank(model)
    ensures IsBlank(name) ==> r == Failure(ValueError(EmptyNameMessage))
    ensures !IsBlank(name) && IsBlank(model) ==> r == Failure(ValueError(EmptyModelMessage))
    ensures r.Success? ==> r.value.className == className && r.value.name == name && r.value.model == model
  {
    if IsBlank(name) then Failure(ValueError(EmptyNameMessage))
    else if IsBlank(model) then Failure(ValueError(EmptyModelMessage))
    else Success(Provider(className, name, model))
  }

  /** Python's `repr(s)` picks double quotes only when `s` has a `'` and no `"`. */
  function QuoteFor(s: string): char
  {
    if '\'' in s && '"' !in s then '"' else '\''
  }

  /** The escape `repr` writes for one character inside the chosen quotes. */
  function EscapeChar(c: char, quote: char): (e: string)
    requires quote == '\'' || quote == '"'
    ensures |e| == 1 || |e| == 2
    ensures |e| == 1 ==> e[0] == c && c != '\\'
    ensures |e| == 2 ==> e[0] == '\\' && Unescape(e[1]) == c
  {
    if c == '\\' || c == quote then ['\\', c]
    else if c == '\n' then "\\n"
    else if c == '\r' then "\\r"
    else if c == '\t' then "\\t"
    else [c]
  }

  function EscapeAll(s: string, quote: char): string
    requires quote == '\'' || quote == '"'
  {
    if s == [] then "" else EscapeChar(s[0], quote) + EscapeAll(s[1..], quote)
  }

  /** `repr(s)` for a `str` (non-printable characters other than tab, CR and LF are written as is). */
  function StrRepr(s: string): (r: string)
    ensures |r| >= 2 && r[0] == r[|r| - 1] == QuoteFor(s)
  {
    var q := QuoteFor(s);
    [q] + EscapeAll(s, q) + [q]
  }

  /** The character a backslash escape stands for. */
  function Unescape(c: char): char
  {
    if c == 'n' then '\n' else if c == 'r' then '\r' else if c == 't' then '\t' else c
  }

  /** Reading the body of a string literal back: the inverse of `EscapeAll`. */
  function UnescapeAll(e: string): string
  {
    if e == [] then ""
    else if e[0] == '\\' && |e| >= 2 then [Unescape(e[1])] + UnescapeAll(e[2..])
    else [e[0]] + UnescapeAll(e[1..])
  }

  /** Evaluating a quoted string literal. */
  function LiteralValue(lit: string): Option<string>
  {
    if |lit| >= 2 && lit[0] == lit[|lit| - 1] && (lit[0] == '\'' || lit[0] == '"')
    then Some(UnescapeAll(lit[1..|lit| - 1]))
    else None
  }

  lemma {:induction false} EscapeRoundTrip(s: string, quote: char)
    requires quote == '\'' || quote == '"'
    ensures UnescapeAll(EscapeAll(s, quote)) == s
  {
    if s != [] {
      var e := EscapeChar(s[0], quote);
      var rest := EscapeAll(s[1..], quote);
      EscapeRoundTrip(s[1..], quote);
      if |e| == 1 {
        assert (e + rest)[1..] == rest;
      } else {
        assert (e + rest)[2..] == rest;
      }
      assert s == [s[0]] + s[1..];
    }
  }

  /** `repr` of a string reads back as that string. */
  lemma {:induction false} StrReprRoundTrip(s: string)
    ensures LiteralValue(StrRepr(s)) == Some(s)
  {
    var q := QuoteFor(s);
    var r := StrRepr(s);
    assert r[1..|r| - 1] == EscapeAll(s, q);
    EscapeRoundTrip(s, q);
  }

  /** A string that `repr` writes between single quotes without escapes. */
  predicate Plain(s: string)
  {
    forall i :: 0 <= i < |s| ==> s[i] !in "'\"\\\n\r\t"
  }

  lemma {:induction false} PlainEscapesToItself(s: string, quote: char)
    requires Plain(s) && quote == '\''
    ensures EscapeAll(s, quote) == s
  {
    if s != [] {
      assert Plain(s[1..]) by {
        forall i | 0 <= i < |s[1..]| ensures s[1..][i] !in "'\"\\\n\r\t" {
          assert s[1..][i] == s[i + 1];
        }
      }
      PlainEscapesToItself(s[1..], quote);
      assert s[0] !in "'\"\\\n\r\t";
    }
  }

  lemma {:induction false} PlainQuote(s: string)
    requires Plain(s)
    ensures QuoteFor(s) == '\''
  {
  }

  /** `__repr__`: `ClassName(name='...', model='...')`. */
  function Repr(p: Provider): (r: string)
    ensures var nameEnd := |p.className| + 6 + |StrRepr(p.name)|;
      && |r| == nameEnd + 8 + |StrRepr(p.model)| + 1
      && r[..|p.className| + 6] == p.className + "(name="
      && r[|p.className| + 6..nameEnd] == StrRepr(p.name)
      && r[nameEnd..] == ", model=" + StrRepr(p.model) + ")"
      && r[nameEnd + 8..|r| - 1] == StrRepr(p.model)
  {
    var head, nameLit, modelLit := p.className + "(name=", StrRepr(p.name), StrRepr(p.model);
    ReprLayout(head, nameLit, modelLit);
    head + nameLit + (", model=" + modelLit + ")")
  }

  /** Both fields can be read back from the `repr`: each literal evaluates to its field. */
  lemma ReprReadsBack(p: Provider)
    ensures var r, nameEnd := Repr(p), |p.className| + 6 + |StrRepr(p.name)|;
      && LiteralValue(r[|p.className| + 6..nameEnd]) == Some(p.name)
      && LiteralValue(r[nameEnd + 8..|r| - 1]) == Some(p.model)
  {
    StrReprRoundTrip(p.name);
    StrReprRoundTrip(p.model);
  }

  /** Where the two literals sit in `head + nameLit + ", model=" + modelLit + ")"`. */
  lemma ReprLayout(head: string, nameLit: string, modelLit: string)
    ensures var r, nameEnd := head + nameLit + (", model=" + modelLit + ")"), |head| + |nameLit|;
      && r[..|head|] == head && r[|head|..nameEnd] == nameLit
      && r[nameEnd..] == ", model=" + modelLit + ")"
      && r[nameEnd + 8..|r| - 1] == modelLit && r[|r| - 1] == ')'
  {
    var r, nameEnd := head + nameLit + (", model=" + modelLit + ")"), |head| + |nameLit|;
    assert r[nameEnd..] == ", model=" + modelLit + ")";
    assert r[nameEnd + 8..|r| - 1] == r[nameEnd..][8..|r| - nameEnd - 1];
  }

  /** A plain string is written between single quotes, unchanged. */
  lemma PlainRepr(s: string)
    requires Plain(s)
    ensures StrRepr(s) == "'" + s + "'"
  {
    PlainQuote(s);
    PlainEscapesToItself(s, '\'');
  }

  /** A single-quoted literal at offset `i` of `r` holds `body` one character further on. */
  lemma QuotedAt(r: string, i: nat, body: string)
    requires i + |body| + 2 <= |r| && r[i..i + |body| + 2] == "'" + body + "'"
    ensures r[i + 1..i + 1 + |body|] == body
  {
    forall k | 0 <= k < |body| ensures r[i + 1 + k] == body[k] {
      assert r[i + 1 + k] == r[i..i + |body| + 2][k + 1];
    }
  }

  /** A plainly written name appears verbatim in the `repr`, right after `(name='`. */
  lemma ReprShowsName(p: Provider)
    requires Plain(p.name)
    ensures var start := |p.className| + 7;
      start + |p.name| <= |Repr(p)| && Repr(p)[start..start + |p.name|] == p.name
  {
    PlainRepr(p.name);
    QuotedAt(Repr(p), |p.className| + 6, p.name);
  }
}
