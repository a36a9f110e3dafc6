/**
 * `render`, `render_build` and `render_deploy`: a template file's text with
 * `str.format(**args)` applied. The format language is the part this
 * model interprets: `{name}` keyword fields and the `{{`, `}}` escapes.
 */
module Templates {
  import opened Wrappers
  import opened FileTree

  /** The keyword arguments of `str.format(**args)`. */
  type Args = map<string, string>

  datatype RenderError =
    | TemplateNotFound(path: Path)          // render's own isfile check
    | MissingPlaceholderValue(name: string) // KeyError: a field names a key args lacks
    | MalformedTemplate                     // ValueError: a lone brace
    | UnsupportedField(field: string)       // a field outside {name}: positional, conversion, spec, attribute, index

  /** Prepends literal text to a rendering that succeeded; a failure passes through. */
  function Prefixed(prefix: string, rest: Result<string, RenderError>): (r: Result<string, RenderError>)
    ensures r.Success? <==> rest.Success?
    ensures r.Success? ==> r.value == prefix + rest.value
    ensures r.Failure? ==> r == rest
  {
    match rest
    case Success(s) => Success(prefix + s)
    case Failure(e) => Failure(e)
  }

  predicate NoBraces(s: string) {
    forall i :: 0 <= i < |s| ==> s[i] != '{' && s[i] != '}'
  }

  /** The position of the first `}` in `s`, if any. */
  function CloseBrace(s: string): (r: Option<nat>)
    ensures r.Some? ==> r.value < |s| && s[r.value] == '}' && forall i :: 0 <= i < r.value ==> s[i] != '}'
    ensures r.None? ==> forall i :: 0 <= i < |s| ==> s[i] != '}'
  {
    if s == [] then None
    else if s[0] == '}' then Some(0)
    else match CloseBrace(s[1..])
      case None => None
      case Some(k) => Some(k + 1)
  }

  predicate IsDigit(c: char) {
    '0' <= c <= '9'
  }

  /**
   * A field this model interprets: a keyword name. An empty or all-digit
   * name would be positional; `!`, `:`, `.` and `[` would start a conversion,
   * a format spec, an attribute or an index; `{` would nest a field.
   */
  predicate KeywordName(name: string) {
    && name != []
    && (forall i :: 0 <= i < |name| ==> name[i] !in "{}!:.[")
    && !(forall i :: 0 <= i < |name| ==> IsDigit(name[i]))
  }

  /** `t.format(**args)`, scanning left to right as Python does, so the first offending field decides the error. */
  function Format(t: string, args: Args): (r: Result<string, RenderError>)
    ensures r.Failure? ==> !r.error.TemplateNotFound?
    ensures r.Failure? && r.error.MissingPlaceholderValue? ==> r.error.name !in args
    ensures NoBraces(t) ==> r == Success(t)
    decreases |t|
  {
    if t == [] then Success([])
    else if t[0] == '{' then
      if |t| > 1 && t[1] == '{' then Prefixed("{", Format(t[2..], args))
      else match CloseBrace(t[1..])
        case None => Failure(MalformedTemplate)
        case Some(k) =>
          var name := t[1..k + 1];
          if !KeywordName(name) then Failure(UnsupportedField(name))
          else if name !in args then Failure(MissingPlaceholderValue(name))
          else Prefixed(args[name], Format(t[k + 2..], args))
    else if t[0] == '}' then
      if |t| > 1 && t[1] == '}' then Prefixed("}", Format(t[2..], args))
      else Failure(MalformedTemplate)
    else
      var r := Prefixed([t[0]], Format(t[1..], args));
      assert NoBraces(t) ==> r == Success(t) by {
        if NoBraces(t) {
          assert NoBraces(t[1..]);
          assert [t[0]] + t[1..] == t;
        }
      }
      r
  }

  /** A template seen as what it means: literal characters and keyword fields. */
  datatype Piece = Char(c: char) | Field(name: string)

  /** The template text that spells out `pieces`, escaping literal braces. */
  function Unparse(pieces: seq<Piece>): string {
    if pieces == [] then ""
    else
      var first := match pieces[0]
        case Char(c) => if c == '{' then "{{" else if c == '}' then "}}" else [c]
        case Field(name) => "{" + name + "}";
      first + Unparse(pieces[1..])
  }

  /** What rendering the pieces should produce: each field replaced by its value, the first unknown name an error. */
  function Substitute(pieces: seq<Piece>, args: Args): Result<string, RenderError> {
    if pieces == [] then Success("")
    else match pieces[0]
      case Char(c) => Prefixed([c], Substitute(pieces[1..], args))
      case Field(name) =>
        if name in args then Prefixed(args[name], Substitute(pieces[1..], args))
        else Failure(MissingPlaceholderValue(name))
  }

  ghost predicate KeywordFields(pieces: seq<Piece>) {
    forall i :: 0 <= i < |pieces| && pieces[i].Field? ==> KeywordName(pieces[i].name)
  }

  lemma {:induction false} CloseBraceAfter(name: string, rest: string)
    requires forall i :: 0 <= i < |name| ==> name[i] != '}'
    ensures CloseBrace(name + "}" + rest) == Some(|name|)
  {
    if name != [] {
      CloseBraceAfter(name[1..], rest);
      assert (name + "}" + rest)[1..] == name[1..] + "}" + rest;
    }
  }

  /** An escaped brace renders as one brace in front of the rest's result. */
  lemma FormatEscape(c: char, u: string, args: Args)
    requires c == '{' || c == '}'
    ensures Format([c, c] + u, args) == Prefixed([c], Format(u, args))
  {
    assert ([c, c] + u)[2..] == u;
  }

  /** A keyword field renders as its value in front of the rest's result, or reports itself missing. */
  lemma FormatField(name: string, u: string, args: Args)
    requires KeywordName(name)
    ensures Format("{" + name + "}" + u, args)
         == if name in args then Prefixed(args[name], Format(u, args)) else Failure(MissingPlaceholderValue(name))
  {
    var t := "{" + name + "}" + u;
    assert t[1..] == name + "}" + u;
    CloseBraceAfter(name, u);
    assert t[1..|name| + 1] == name;
    assert t[|name| + 2..] == u;
  }

  /** Rendering a template built from pieces performs exactly the substitution the pieces describe. */
  lemma {:induction false} FormatUnparse(pieces: seq<Piece>, args: Args)
    requires KeywordFields(pieces)
    ensures Format(Unparse(pieces), args) == Substitute(pieces, args)
  {
    if pieces != [] {
      var rest := pieces[1..];
      assert KeywordFields(rest) by {
        forall i | 0 <= i < |rest| && rest[i].Field? ensures KeywordName(rest[i].name) {
          assert rest[i] == pieces[i + 1];
        }
      }
      FormatUnparse(rest, args);
      var u := Unparse(rest);
      match pieces[0]
      case Char(c) =>
        if c == '{' || c == '}' {
          assert Unparse(pieces) == [c, c] + u;
          FormatEscape(c, u, args);
        } else {
          assert Unparse(pieces) == [c] + u;
          FormatChar(c, u, args);
        }
      case Field(name) =>
        assert KeywordName(pieces[0].name);
        assert Unparse(pieces) == "{" + name + "}" + u;
        FormatField(name, u, args);
    }
  }

  /** Keys the template does not mention change nothing: a rendering that succeeds is the same under any larger map. */
  lemma {:induction false} FormatIgnoresExtraKeys(t: string, args: Args, more: Args)
    requires forall k :: k in args ==> k in more && more[k] == args[k]
    requires Format(t, args).Success?
    ensures Format(t, more) == Format(t, args)
    decreases |t|
  {
    if t == [] {
    } else if t[0] == '{' {
      if |t| > 1 && t[1] == '{' {
        FormatIgnoresExtraKeys(t[2..], args, more);
      } else {
        var k := CloseBrace(t[1..]).value;
        FormatIgnoresExtraKeys(t[k + 2..], args, more);
      }
    } else if t[0] == '}' {
      FormatIgnoresExtraKeys(t[2..], args, more);
    } else {
      FormatIgnoresExtraKeys(t[1..], args, more);
    }
  }

  lemma FormatChar(c: char, t: string, args: Args)
    requires c != '{' && c != '}'
    ensures Format([c] + t, args) == Prefixed([c], Format(t, args))
  {
    assert ([c] + t)[1..] == t;
  }

  lemma PrefixedTwice(a: string, b: string, rest: Result<string, RenderError>)
    ensures Prefixed(a, Prefixed(b, rest)) == Prefixed(a + b, rest)
  {
    if rest.Success? {
      assert a + (b + rest.value) == (a + b) + rest.value;
    }
  }

  /** Literal text in front of a template is copied through unchanged. */
  lemma {:induction false} FormatLiteralPrefix(text: string, t: string, args: Args)
    requires NoBraces(text)
    ensures Format(text + t, args) == Prefixed(text, Format(t, args))
  {
    if text != [] {
      FormatLiteralPrefix(text[1..], t, args);
      assert text + t == [text[0]] + (text[1..] + t);
      FormatChar(text[0], text[1..] + t, args);
      PrefixedTwice([text[0]], text[1..], Format(t, args));
      assert [text[0]] + text[1..] == text;
    } else {
      assert text + t == t;
      if Format(t, args).Success? {
        assert text + Format(t, args).value == Format(t, args).value;
      }
    }
  }

  /** `render(template, args)`: a template that is not a file is an error; otherwise its text is formatted. */
  function Render(tree: Tree, template: Path, args: Args): (r: Result<string, RenderError>)
    ensures r == Failure(TemplateNotFound(template)) <==> !tree.IsFile(template)
    ensures tree.IsFile(template) ==> r == Format(tree.files[template], args)
  {
    if !tree.IsFile(template) then Failure(TemplateNotFound(template))
    else Format(tree.files[template], args)
  }

  /** Where the fixed templates live, beside the generator's own module. */
  function BuildTemplate(utilDir: Path): Path {
    utilDir + ["templates", "build.template"]
  }

  function DeployTemplate(utilDir: Path): Path {
    utilDir + ["templates", "deploy.template"]
  }

  /** `render_build(args)`: the build-script template rendered. */
  function RenderBuild(tree: Tree, utilDir: Path, args: Args): (r: Result<string, RenderError>)
    ensures r == Failure(TemplateNotFound(BuildTemplate(utilDir))) <==> !tree.IsFile(BuildTemplate(utilDir))
    ensures tree.IsFile(BuildTemplate(utilDir)) ==> r == Format(tree.files[BuildTemplate(utilDir)], args)
  {
    Render(tree, BuildTemplate(utilDir), args)
  }

  /** `render_deploy(args)`: the deploy-script template rendered. */
  function RenderDeploy(tree: Tree, utilDir: Path, args: Args): (r: Result<string, RenderError>)
    ensures r == Failure(TemplateNotFound(DeployTemplate(utilDir))) <==> !tree.IsFile(DeployTemplate(utilDir))
    ensures tree.IsFile(DeployTemplate(utilDir)) ==> r == Format(tree.files[DeployTemplate(utilDir)], args)
  {
    Render(tree, DeployTemplate(utilDir), args)
  }

  /** A template made of one keyword field renders to that key's value, or fails naming it. */
  lemma FormatSingleField(name: string, args: Args)
    requires KeywordName(name)
    ensures Format("{" + name + "}", args) == if name in args then Success(args[name]) else Failure(MissingPlaceholderValue(name))
  {
    var t := "{" + name + "}";
    assert t[1..] == name + "}" + "";
    CloseBraceAfter(name, "");
    assert t[1] == name[0];
    assert t[1..|name| + 1] == name;
    assert t[|name| + 2..] == "";
    if name in args {
      assert args[name] + "" == args[name];
    }
  }

  lemma GcloudText()
    ensures "FROM gcloud:{gcloud_version}" == "FROM gcloud:" + ("{" + "gcloud_version" + "}")
    ensures "FROM gcloud:" + "226.0.0-slim" == "FROM gcloud:226.0.0-slim"
  {
  }

  lemma GcloudNoBraces()
    ensures NoBraces("FROM gcloud:")
  {
  }

  lemma GcloudName()
    ensures KeywordName("gcloud_version")
  {
    assert !IsDigit("gcloud_version"[0]);
  }

  /** The documented case: a gcloud base image line, with and without its value. */
  lemma GcloudExample()
    ensures Format("FROM gcloud:{gcloud_version}", map["gcloud_version" := "226.0.0-slim"]) == Success("FROM gcloud:226.0.0-slim")
    ensures Format("FROM gcloud:{gcloud_version}", map[]) == Failure(MissingPlaceholderValue("gcloud_version"))
  {
    var text, name, value := "FROM gcloud:", "gcloud_version", "226.0.0-slim";
    GcloudText();
    GcloudNoBraces();
    GcloudName();
    FormatSingleField(name, map[name := value]);
    FormatSingleField(name, map[]);
    FormatLiteralPrefix(text, "{" + name + "}", map[name := value]);
    FormatLiteralPrefix(text, "{" + name + "}", map[]);
  }
}
