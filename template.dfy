/** Python's `template.format(**kwargs)` for the keyword placeholders the configuration uses:
    `{name}` is replaced by str() of the keyword argument, `{{` and `}}` stand for single
    braces. A placeholder whose keyword is missing is the KeyError the callers catch; any
    other malformed template is an error they do not catch. */
module Template {
  import opened Py

  datatype Formatted = Formatted(s: string) | MissingKey(name: string) | Malformed

  predicate NoBraces(s: string) {
    '{' !in s && '}' !in s
  }

  /** A field name that str.format looks up among the keyword arguments: not empty, not a
      positional index, and without attribute, index, conversion or format-spec syntax. */
  predicate KeywordField(name: string) {
    name != [] && !AllDigits(name) && NoBraces(name)
    && '.' !in name && '[' !in name && ']' !in name && '!' !in name && ':' !in name
  }

  function Prepend(p: string, r: Formatted): (q: Formatted)
    ensures r.Formatted? ==> q == Formatted(p + r.s)
    ensures !r.Formatted? ==> q == r
  {
    if r.Formatted? then Formatted(p + r.s) else r
  }

  function Format(t: string, kwargs: seq<(string, Json)>): Formatted
    decreases |t|
  {
    if t == [] then Formatted("")
    else if t[0] == '{' then
      if |t| > 1 && t[1] == '{' then Prepend("{", Format(t[2..], kwargs))
      else
        match IndexOfChar(t[1..], '}')
        case None => Malformed
        case Some(k) =>
          var name := t[1..k + 1];
          if !KeywordField(name) then Malformed
          else
            match Find(kwargs, name)
            case None => MissingKey(name)
            case Some(v) => Prepend(Str(v), Format(t[k + 2..], kwargs))
    else if t[0] == '}' then
      if |t| > 1 && t[1] == '}' then Prepend("}", Format(t[2..], kwargs)) else Malformed
    else Prepend([t[0]], Format(t[1..], kwargs))
  }

  /** A character other than a brace is copied and formatting goes on after it. */
  lemma FormatPlain(t: string, kwargs: seq<(string, Json)>)
    requires t != [] && t[0] != '{' && t[0] != '}'
    ensures Format(t, kwargs) == Prepend([t[0]], Format(t[1..], kwargs))
  {
  }

  /** Text without braces is copied through unchanged, whatever the keyword arguments. */
  lemma {:induction false} FormatLiteral(p: string, rest: string, kwargs: seq<(string, Json)>)
    requires NoBraces(p)
    ensures Format(p + rest, kwargs) == Prepend(p, Format(rest, kwargs))
    decreases |p|
  {
    if p != [] {
      var t := p + rest;
      assert t[0] == p[0] && p[0] in p;
      FormatPlain(t, kwargs);
      assert t[1..] == p[1..] + rest;
      assert NoBraces(p[1..]) by {
        assert forall c :: c in p[1..] ==> c in p;
      }
      FormatLiteral(p[1..], rest, kwargs);
      var r := Format(rest, kwargs);
      if r.Formatted? {
        assert [p[0]] + (p[1..] + r.s) == p + r.s;
      }
    } else {
      assert p + rest == rest;
    }
  }

  /** A template without braces formats to itself. */
  lemma Verbatim(t: string, kwargs: seq<(string, Json)>)
    requires NoBraces(t)
    ensures Format(t, kwargs) == Formatted(t)
  {
    FormatLiteral(t, "", kwargs);
    assert t + "" == t;
  }

  /** The first closing brace after a name without one is the one right after it. */
  lemma ClosingBrace(name: string, rest: string)
    requires '}' !in name
    ensures IndexOfChar(name + "}" + rest, '}') == Some(|name|)
  {
    var s := name + "}" + rest;
    assert s[..|name|] == name;
    assert forall j :: |name| < j <= |s| ==> s[..j][|name|] == '}';
  }

  /** A placeholder at the start of the template is looked up, and formatting goes on
      after its closing brace. */
  lemma FormatField(t: string, k: nat, kwargs: seq<(string, Json)>)
    requires |t| > 1 && t[0] == '{' && t[1] != '{'
    requires IndexOfChar(t[1..], '}') == Some(k) && KeywordField(t[1..k + 1])
    ensures Format(t, kwargs)
            == match Find(kwargs, t[1..k + 1])
               case None => MissingKey(t[1..k + 1])
               case Some(v) => Prepend(Str(v), Format(t[k + 2..], kwargs))
  {
  }

  /** `{name}suffix` with a brace-free suffix. */
  lemma FormatHole(name: string, suffix: string, kwargs: seq<(string, Json)>)
    requires KeywordField(name) && NoBraces(suffix)
    ensures Format("{" + name + "}" + suffix, kwargs)
            == match Find(kwargs, name)
               case None => MissingKey(name)
               case Some(v) => Formatted(Str(v) + suffix)
  {
    var t := "{" + name + "}" + suffix;
    assert t[1] == name[0] && name[0] in name;
    assert t[1..] == name + "}" + suffix;
    ClosingBrace(name, suffix);
    assert t[1..|name| + 1] == name;
    assert t[|name| + 2..] == suffix;
    FormatField(t, |name|, kwargs);
    Verbatim(suffix, kwargs);
  }

  /** `prefix{name}suffix` with brace-free prefix and suffix: the keyword's str() goes in
      the hole, or the keyword is reported missing. */
  lemma OnePlaceholder(prefix: string, name: string, suffix: string, kwargs: seq<(string, Json)>)
    requires NoBraces(prefix) && NoBraces(suffix) && KeywordField(name)
    ensures Format(prefix + "{" + name + "}" + suffix, kwargs)
            == match Find(kwargs, name)
               case None => MissingKey(name)
               case Some(v) => Formatted(prefix + Str(v) + suffix)
  {
    var hole := "{" + name + "}" + suffix;
    assert prefix + "{" + name + "}" + suffix == prefix + hole;
    FormatLiteral(prefix, hole, kwargs);
    FormatHole(name, suffix, kwargs);
    match Find(kwargs, name)
    case None =>
    case Some(v) =>
      assert prefix + (Str(v) + suffix) == prefix + Str(v) + suffix;
  }
}
