/**
 * URI templates (`processTemplate`, app.js). Every `{` of the template is
 * rewritten to `${` and the result is handed to lodash's template engine, which
 * interpolates `${name}` with the variable `name`: null and undefined render as
 * empty text, an unknown name makes the template throw, and a `{` with no `}`
 * after it is left in the output as the literal text `${`.
 */
module Template {
  import opened Js

  /** Index of the first `}` in `s`. */
  function CloseIndex(s: string): (r: Option<nat>)
    ensures r.Some? ==> r.value < |s| && s[r.value] == '}' && '}' !in s[..r.value]
    ensures r.None? ==> '}' !in s
    decreases |s|
  {
    if s == [] then None
    else if s[0] == '}' then Some(0)
    else
      match CloseIndex(s[1..])
      case None => None
      case Some(j) => assert s[..j + 1] == [s[0]] + s[1..][..j]; Some(j + 1)
  }

  /** The text with every `{` rewritten to `${` and nothing interpolated. */
  function Dollared(s: string): string
    decreases |s|
  {
    if s == [] then ""
    else (if s[0] == '{' then "${" else [s[0]]) + Dollared(s[1..])
  }

  /** How lodash's `${…}` interpolation renders a value. */
  function Render(v: Value): string {
    if IsNil(v) then "" else ToText(v)
  }

  function Prepend(prefix: string, r: Result<string>): Result<string> {
    match r
    case Ok(s) => Ok(prefix + s)
    case Thrown(m) => Thrown(m)
  }

  /** `processTemplate(template, vars)`. */
  function Process(t: string, vars: Fields): (r: Result<string>)
    ensures '{' !in t ==> r == Ok(t)
    decreases |t|
  {
    if t == [] then Ok("")
    else if t[0] != '{' then
      assert [t[0]] + t[1..] == t;
      Prepend([t[0]], Process(t[1..], vars))
    else
      match CloseIndex(t[1..])
      case None => Ok(Dollared(t))
      case Some(j) =>
        var name := t[1..j + 1];
        if '{' in name then Thrown("SyntaxError: invalid placeholder")
        else if name == "" then Process(t[j + 2..], vars)
        else if name !in vars then Thrown("ReferenceError: " + name + " is not defined")
        else Prepend(Render(vars[name]), Process(t[j + 2..], vars))
  }

  /* ---- a template as a sequence of literal text and named placeholders ---- */

  datatype Segment = Lit(text: string) | Hole(name: string)

  /** Literal text holds no `{`; a placeholder name is not empty and holds neither brace. */
  predicate WellFormed(segs: seq<Segment>) {
    forall i :: 0 <= i < |segs| ==>
      match segs[i]
      case Lit(text) => '{' !in text
      case Hole(name) => name != "" && '{' !in name && '}' !in name
  }

  predicate AllBound(segs: seq<Segment>, vars: Fields) {
    forall i :: 0 <= i < |segs| && segs[i].Hole? ==> segs[i].name in vars
  }

  /** The template text that the segments spell. */
  function Assemble(segs: seq<Segment>): string
    decreases |segs|
  {
    if segs == [] then ""
    else
      (match segs[0]
       case Lit(text) => text
       case Hole(name) => "{" + name + "}") + Assemble(segs[1..])
  }

  /** The intended substitution: every placeholder replaced by its variable. */
  function Fill(segs: seq<Segment>, vars: Fields): string
    requires AllBound(segs, vars)
    decreases |segs|
  {
    if segs == [] then ""
    else
      (match segs[0]
       case Lit(text) => text
       case Hole(name) => Render(vars[name])) + Fill(segs[1..], vars)
  }

  lemma PrependPrepend(a: string, b: string, r: Result<string>)
    ensures Prepend(a, Prepend(b, r)) == Prepend(a + b, r)
  {
    if r.Ok? {
      assert a + (b + r.value) == (a + b) + r.value;
    }
  }

  /** Literal text without `{` is copied through unchanged. */
  lemma {:induction false} ProcessLiteralPrefix(lit: string, rest: string, vars: Fields)
    requires '{' !in lit
    ensures Process(lit + rest, vars) == Prepend(lit, Process(rest, vars))
    decreases |lit|
  {
    if lit != [] {
      assert (lit + rest)[0] == lit[0];
      assert (lit + rest)[1..] == lit[1..] + rest;
      ProcessLiteralPrefix(lit[1..], rest, vars);
      PrependPrepend([lit[0]], lit[1..], Process(rest, vars));
      assert [lit[0]] + lit[1..] == lit;
    } else {
      assert lit + rest == rest;
      match Process(rest, vars)
      case Ok(x) => assert lit + x == x;
      case Thrown(_) =>
    }
  }

  lemma CloseIndexOfHole(name: string, rest: string)
    requires '}' !in name
    ensures CloseIndex(name + "}" + rest) == Some(|name|)
  {
    var s := name + "}" + rest;
    assert s[|name|] == '}';
    assert s[..|name|] == name;
  }

  /** A placeholder followed by more template text. */
  lemma ProcessHole(name: string, rest: string, vars: Fields)
    requires name != "" && '{' !in name && '}' !in name
    ensures name in vars ==>
      Process("{" + name + "}" + rest, vars) == Prepend(Render(vars[name]), Process(rest, vars))
    ensures name !in vars ==> Process("{" + name + "}" + rest, vars).Thrown?
  {
    var t := "{" + name + "}" + rest;
    assert t[0] == '{';
    assert t[1..] == name + "}" + rest;
    CloseIndexOfHole(name, rest);
    assert t[1..|name| + 1] == name;
    assert t[|name| + 2..] == rest;
  }

  /** An empty placeholder `{}` is an empty interpolation: it renders nothing and looks nothing up. */
  lemma EmptyPlaceholder(head: string, tail: string, vars: Fields)
    requires '{' !in head
    ensures Process(head + "{}" + tail, vars) == Prepend(head, Process(tail, vars))
  {
    var t := "{}" + tail;
    assert t[0] == '{' && t[1..] == "}" + tail;
    CloseIndexOfHole("", tail);
    assert "" + "}" + tail == "}" + tail;
    assert t[2..] == tail;
    ProcessLiteralPrefix(head, t, vars);
    assert head + t == head + "{}" + tail;
  }

  /**
   * Substitution: a well-formed template with every placeholder bound becomes
   * the text with each `{name}` replaced by the rendering of `vars[name]`.
   */
  lemma {:induction false} ProcessFills(segs: seq<Segment>, vars: Fields)
    requires WellFormed(segs) && AllBound(segs, vars)
    ensures Process(Assemble(segs), vars) == Ok(Fill(segs, vars))
    decreases |segs|
  {
    if segs == [] {
    } else {
      assert WellFormed(segs[1..]) by {
        forall i | 0 <= i < |segs[1..]| ensures match segs[1..][i]
          case Lit(text) => '{' !in text
          case Hole(name) => name != "" && '{' !in name && '}' !in name
        {
          assert segs[1..][i] == segs[i + 1];
        }
      }
      assert AllBound(segs[1..], vars) by {
        forall i | 0 <= i < |segs[1..]| && segs[1..][i].Hole? ensures segs[1..][i].name in vars {
          assert segs[1..][i] == segs[i + 1];
        }
      }
      ProcessFills(segs[1..], vars);
      assert WellFormed([segs[0]]) by { assert segs[0] == segs[0 + 0]; }
      match segs[0]
      case Lit(text) =>
        assert '{' !in text by { assert segs[0] == segs[0]; }
        ProcessLiteralPrefix(text, Assemble(segs[1..]), vars);
      case Hole(name) =>
        assert name != "" && '{' !in name && '}' !in name;
        ProcessHole(name, Assemble(segs[1..]), vars);
        assert "{" + name + "}" + Assemble(segs[1..]) == Assemble(segs);
    }
  }

  /** An unbound placeholder makes the template throw. */
  lemma {:induction false} ProcessUnbound(segs: seq<Segment>, vars: Fields)
    requires WellFormed(segs) && !AllBound(segs, vars)
    ensures Process(Assemble(segs), vars).Thrown?
    decreases |segs|
  {
    assert segs != [];
    assert WellFormed(segs[1..]) by {
      forall i | 0 <= i < |segs[1..]| ensures match segs[1..][i]
        case Lit(text) => '{' !in text
        case Hole(name) => name != "" && '{' !in name && '}' !in name
      {
        assert segs[1..][i] == segs[i + 1];
      }
    }
    match segs[0]
    case Lit(text) =>
      assert !AllBound(segs[1..], vars) by {
        var i :| 0 <= i < |segs| && segs[i].Hole? && segs[i].name !in vars;
        assert i > 0 && segs[1..][i - 1] == segs[i];
      }
      ProcessUnbound(segs[1..], vars);
      ProcessLiteralPrefix(text, Assemble(segs[1..]), vars);
    case Hole(name) =>
      ProcessHole(name, Assemble(segs[1..]), vars);
      assert "{" + name + "}" + Assemble(segs[1..]) == Assemble(segs);
      if name in vars {
        assert !AllBound(segs[1..], vars) by {
          var i :| 0 <= i < |segs| && segs[i].Hole? && segs[i].name !in vars;
          assert i > 0 && segs[1..][i - 1] == segs[i];
        }
        ProcessUnbound(segs[1..], vars);
      }
  }

  lemma Regroup(a: string, b: string, c: string, d: string, e: string)
    ensures a + (b + c + d + e) == a + b + c + d + e
  {
  }

  /** One placeholder between two pieces of literal text. */
  lemma OneHole(head: string, name: string, tail: string, vars: Fields)
    requires '{' !in head && '{' !in tail && name != "" && '{' !in name && '}' !in name
    requires name in vars
    ensures Process(head + "{" + name + "}" + tail, vars) == Ok(head + Render(vars[name]) + tail)
  {
    var hole := "{" + name + "}" + tail;
    var text := Render(vars[name]);
    ProcessHole(name, tail, vars);
    assert Process(hole, vars) == Ok(text + tail);
    ProcessLiteralPrefix(head, hole, vars);
    Regroup(head, "{", name, "}", tail);
    assert head + (text + tail) == head + text + tail;
  }

  /** Path of the catalog endpoint, as in the default configuration (config/default.js). */
  const CatalogHead := "/content-discovery/v2/organizations/"
  const CatalogTail := "/catalog-content"
  const CatalogTemplate := CatalogHead + "{orgId}" + CatalogTail

  /** The catalog path filled with an organisation id. */
  lemma CatalogPath(org: string)
    ensures Process(CatalogTemplate, map["orgId" := Str(org)]) == Ok(CatalogHead + org + CatalogTail)
  {
    assert CatalogHead + "{" + "orgId" + "}" + CatalogTail == CatalogTemplate;
    OneHole(CatalogHead, "orgId", CatalogTail, map["orgId" := Str(org)]);
  }
}
